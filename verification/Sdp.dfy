/** The session descriptions a WHIP client and the SFU exchange: reading the media sections, and building the answer. */
module Sdp {
  import opened Options
  import opened RoomTypes
  import opened Text

  datatype Section = Section(kind: Kind, mid: string)

  // ---- lines ----------------------------------------------------------------------------------------

  /** `s.split(/\r?\n/)` */
  function SplitLines(s: string): (lines: seq<string>)
    ensures lines != []
  {
    if s == "" then [""]
    else if s[0] == '\n' then [""] + SplitLines(s[1..])
    else if |s| >= 2 && s[0] == '\r' && s[1] == '\n' then [""] + SplitLines(s[2..])
    else
      var rest := SplitLines(s[1..]);
      [[s[0]] + rest[0]] + rest[1..]
  }

  const CRLF := "\r\n"

  /** `lines.join('\r\n')` */
  function JoinLines(lines: seq<string>): string {
    if lines == [] then "" else if |lines| == 1 then lines[0] else lines[0] + CRLF + JoinLines(lines[1..])
  }

  ghost predicate OneLine(s: string) {
    '\n' !in s
  }

  lemma {:induction false} SplitFirstLine(line: string, rest: string)
    requires OneLine(line)
    ensures SplitLines(line + CRLF + rest) == [line] + SplitLines(rest)
  {
    var s := line + CRLF + rest;
    if line == "" {
      assert s[0] == '\r' && s[1] == '\n' && s[2..] == rest;
    } else {
      SplitFirstLine(line[1..], rest);
      assert s[1..] == line[1..] + CRLF + rest && s[0] == line[0];
      assert s[1] != '\n' by {
        assert s[1] == if |line| > 1 then line[1] else '\r';
      }
      assert [line[0]] + line[1..] == line;
    }
  }

  lemma {:induction false} SplitOneLine(line: string)
    requires OneLine(line)
    ensures SplitLines(line) == [line]
  {
    if line != "" {
      SplitOneLine(line[1..]);
      assert [line[0]] + line[1..] == line;
    }
  }

  lemma JoinHead(lines: seq<string>)
    requires lines != []
    ensures JoinLines(lines) == if |lines| == 1 then lines[0] else lines[0] + "\r\n" + JoinLines(lines[1..])
  {
  }

  /** Lines joined by CR LF are split where they were joined; a CR inside or at the end of a line does no harm. */
  lemma {:induction false} SplitJoinLines(lines: seq<string>)
    requires lines != [] && forall l | l in lines :: OneLine(l)
    ensures SplitLines(JoinLines(lines)) == lines
  {
    hide SplitLines, OneLine, JoinLines;
    JoinHead(lines);
    if |lines| == 1 {
      SplitOneLine(lines[0]);
    } else {
      SplitJoinLines(lines[1..]);
      SplitFirstLine(lines[0], JoinLines(lines[1..]));
    }
  }

  lemma {:induction false} JoinConcat(a: seq<string>, b: seq<string>)
    requires a != [] && b != []
    ensures JoinLines(a + b) == JoinLines(a) + CRLF + JoinLines(b)
  {
    if |a| == 1 {
      assert (a + b)[1..] == b;
    } else {
      JoinConcat(a[1..], b);
      assert (a + b)[1..] == a[1..] + b;
      assert JoinLines(a + b) == a[0] + CRLF + (JoinLines(a[1..]) + CRLF + JoinLines(b));
    }
  }

  // ---- reading ------------------------------------------------------------------------------------------

  predicate StartsWith(s: string, p: string) {
    |p| <= |s| && s[..|p|] == p
  }

  /** The white space and line terminators that `String.prototype.trim` removes. */
  predicate IsSpace(c: char) {
    c in "\t\n\U{B}\U{C}\r \U{A0}\U{1680}\U{2028}\U{2029}\U{202F}\U{205F}\U{3000}\U{FEFF}" ||
        '\U{2000}' <= c <= '\U{200A}'
  }

  /** Tab to carriage return, the space, and the space characters and separators of Unicode. */
  lemma SpaceIs(c: char)
    ensures IsSpace(c) <==>
              || 9 <= c as int <= 13 || c as int == 0x20 || c as int == 0xA0 || c as int == 0x1680
              || 0x2000 <= c as int <= 0x200A || c as int == 0x2028 || c as int == 0x2029 || c as int == 0x202F
              || c as int == 0x205F || c as int == 0x3000 || c as int == 0xFEFF
  {
  }

  function TrimStart(s: string): string {
    if s == "" || !IsSpace(s[0]) then s else TrimStart(s[1..])
  }

  function TrimEnd(s: string): string {
    if s == "" || !IsSpace(s[|s| - 1]) then s else TrimEnd(s[..|s| - 1])
  }

  function Trim(s: string): string {
    TrimEnd(TrimStart(s))
  }

  /** Trimming takes white space off both ends, all of it and nothing else. */
  lemma TrimIs(s: string) returns (before: string, after: string)
    ensures s == before + Trim(s) + after
    ensures (forall c | c in before :: IsSpace(c)) && (forall c | c in after :: IsSpace(c))
    ensures Trim(s) != "" ==> !IsSpace(Trim(s)[0]) && !IsSpace(Trim(s)[|Trim(s)| - 1])
  {
    before := TrimStartIs(s);
    after := TrimEndIs(TrimStart(s));
  }

  lemma {:induction false} TrimStartIs(s: string) returns (before: string)
    ensures s == before + TrimStart(s) && forall c | c in before :: IsSpace(c)
    ensures TrimStart(s) != "" ==> !IsSpace(TrimStart(s)[0])
  {
    before := "";
    if s != "" && IsSpace(s[0]) {
      before := TrimStartIs(s[1..]);
      before := [s[0]] + before;
    }
  }

  lemma {:induction false} TrimEndIs(s: string) returns (after: string)
    ensures s == TrimEnd(s) + after && forall c | c in after :: IsSpace(c)
    ensures TrimEnd(s) != "" ==> !IsSpace(TrimEnd(s)[|TrimEnd(s)| - 1]) && TrimEnd(s)[0] == s[0]
  {
    after := "";
    if s != "" && IsSpace(s[|s| - 1]) {
      after := TrimEndIs(s[..|s| - 1]);
      after := after + [s[|s| - 1]];
    }
  }

  const AUDIO := "m=audio"
  const VIDEO := "m=video"
  const MID := "a=mid:"

  /** What the parser remembers after some lines. */
  datatype Progress = Progress(current: Option<Kind>, sections: seq<Section>)

  function Read(p: Progress, line: string): Progress {
    if StartsWith(line, AUDIO) then p.(current := Some(Audio))
    else if StartsWith(line, VIDEO) then p.(current := Some(Video))
    else if StartsWith(line, MID) && p.current.Some? then
      Progress(None, p.sections + [Section(p.current.value, Trim(line[|MID|..]))])
    else p
  }

  function ReadAll(p: Progress, lines: seq<string>): Progress {
    if lines == [] then p else Read(ReadAll(p, lines[..|lines| - 1]), lines[|lines| - 1])
  }

  function Parse(sdp: string): seq<Section> {
    ReadAll(Progress(None, []), SplitLines(sdp)).sections
  }

  method ParseMediaSections(sdp: string) returns (sections: seq<Section>)
    ensures sections == Parse(sdp)
  {
    var lines := SplitLines(sdp);
    var current: Option<Kind> := None;
    sections := [];
    var i := 0;
    while i < |lines|
      invariant i <= |lines| && Progress(current, sections) == ReadAll(Progress(None, []), lines[..i])
    {
      assert lines[..i + 1][..i] == lines[..i];
      var line := lines[i];
      if StartsWith(line, AUDIO) {
        current := Some(Audio);
      } else if StartsWith(line, VIDEO) {
        current := Some(Video);
      } else if StartsWith(line, MID) && current.Some? {
        sections := sections + [Section(current.value, Trim(line[|MID|..]))];
        current := None;
      }
      i := i + 1;
    }
    assert lines[..i] == lines;
  }

  // ---- printed descriptions -----------------------------------------------------------------------------------

  /** A media section: its m-line, other lines, its mid, other lines. */
  datatype Block = Block(kind: Kind, rest: string, between: seq<string>, mid: string, after: seq<string>)

  function MediaLine(kind: Kind, rest: string): string {
    (if kind == Audio then AUDIO else VIDEO) + rest
  }

  function LinesOf(b: Block): seq<string> {
    [MediaLine(b.kind, b.rest)] + b.between + [MID + b.mid] + b.after
  }

  function AllLines(preamble: seq<string>, blocks: seq<Block>): seq<string> {
    if blocks == [] then preamble else AllLines(preamble, blocks[..|blocks| - 1]) + LinesOf(blocks[|blocks| - 1])
  }

  function SectionsOf(blocks: seq<Block>): (r: seq<Section>)
    ensures |r| == |blocks| && forall i :: 0 <= i < |r| ==> r[i] == Section(blocks[i].kind, Trim(blocks[i].mid))
  {
    seq(|blocks|, i requires 0 <= i < |blocks| => Section(blocks[i].kind, Trim(blocks[i].mid)))
  }

  /** A line that opens no section. */
  ghost predicate Other(line: string) {
    OneLine(line) && !StartsWith(line, AUDIO) && !StartsWith(line, VIDEO)
  }

  /**
   * Until its mid, a block has no other mid. After it, and before the first block, anything but an m-line of ours may
   * stand.
   */
  ghost predicate WellFormed(b: Block) {
    && OneLine(b.rest) && OneLine(b.mid)
    && (forall l | l in b.between :: Other(l) && !StartsWith(l, MID))
    && (forall l | l in b.after :: Other(l))
  }

  lemma {:induction false} ReadConcat(p: Progress, a: seq<string>, b: seq<string>)
    ensures ReadAll(p, a + b) == ReadAll(ReadAll(p, a), b)
  {
    if b == [] {
      assert a + b == a;
    } else {
      var n := |b| - 1;
      ReadConcat(p, a, b[..n]);
      assert (a + b)[..|a| + n] == a + b[..n];
    }
  }

  lemma ReadOne(p: Progress, line: string)
    ensures ReadAll(p, [line]) == Read(p, line)
  {
  }

  /** Lines without mid pass unnoticed; outside a section, so do lines with one. */
  lemma {:induction false} ReadOthers(p: Progress, lines: seq<string>)
    requires forall l | l in lines :: Other(l) && (p.current.None? || !StartsWith(l, MID))
    ensures ReadAll(p, lines) == p
  {
    if lines != [] {
      ReadOthers(p, lines[..|lines| - 1]);
      var last := lines[|lines| - 1];
      assert last in lines;
      assert Read(p, last) == p;
    }
  }

  lemma MediaLineOpens(p: Progress, kind: Kind, rest: string)
    ensures Read(p, MediaLine(kind, rest)) == p.(current := Some(kind))
  {
  }

  lemma MidLineCloses(p: Progress, mid: string)
    requires p.current.Some?
    ensures Read(p, MID + mid) == Progress(None, p.sections + [Section(p.current.value, Trim(mid))])
  {
    var line := MID + mid;
    assert line[..|MID|] == MID && line[|MID|..] == mid;
    assert line[0] == 'a' && AUDIO[0] == 'm' && VIDEO[0] == 'm';
  }

  lemma ReadBlock(p: Progress, b: Block)
    requires p.current.None? && WellFormed(b)
    ensures ReadAll(p, LinesOf(b)) == Progress(None, p.sections + [Section(b.kind, Trim(b.mid))])
  {
    hide Read, ReadAll, MediaLine;
    var head, mid := [MediaLine(b.kind, b.rest)], [MID + b.mid];
    var started := p.(current := Some(b.kind));
    var closed := Progress(None, p.sections + [Section(b.kind, Trim(b.mid))]);
    ReadOne(p, head[0]);
    MediaLineOpens(p, b.kind, b.rest);
    ReadConcat(p, head, b.between);
    ReadOthers(started, b.between);
    ReadConcat(p, head + b.between, mid);
    ReadOne(started, mid[0]);
    MidLineCloses(started, b.mid);
    ReadConcat(p, head + b.between + mid, b.after);
    ReadOthers(closed, b.after);
  }

  lemma {:induction false} ReadBlocks(preamble: seq<string>, blocks: seq<Block>)
    requires (forall l | l in preamble :: Other(l)) && (forall b | b in blocks :: WellFormed(b))
    ensures ReadAll(Progress(None, []), AllLines(preamble, blocks)) == Progress(None, SectionsOf(blocks))
  {
    hide ReadAll, LinesOf, Other, WellFormed, Trim;
    if blocks == [] {
      ReadOthers(Progress(None, []), preamble);
      assert SectionsOf(blocks) == [];
    } else {
      var n := |blocks| - 1;
      ReadBlocks(preamble, blocks[..n]);
      ReadBlock(Progress(None, SectionsOf(blocks[..n])), blocks[n]);
      ReadConcat(Progress(None, []), AllLines(preamble, blocks[..n]), LinesOf(blocks[n]));
      assert SectionsOf(blocks[..n]) + [Section(blocks[n].kind, Trim(blocks[n].mid))] == SectionsOf(blocks);
    }
  }

  lemma BlockLines(b: Block)
    requires WellFormed(b)
    ensures forall l | l in LinesOf(b) :: OneLine(l)
  {
  }

  lemma {:induction false} LinesAreLines(preamble: seq<string>, blocks: seq<Block>)
    requires (forall l | l in preamble :: Other(l)) && (forall b | b in blocks :: WellFormed(b))
    ensures forall l | l in AllLines(preamble, blocks) :: OneLine(l)
  {
    if blocks != [] {
      LinesAreLines(preamble, blocks[..|blocks| - 1]);
      BlockLines(blocks[|blocks| - 1]);
    }
  }

  /** Reading a printed description gives its audio and video sections, in order, whatever else stands between them. */
  lemma ParsePrinted(preamble: seq<string>, blocks: seq<Block>)
    requires (forall l | l in preamble :: Other(l)) && (forall b | b in blocks :: WellFormed(b))
    ensures Parse(JoinLines(AllLines(preamble, blocks))) == SectionsOf(blocks)
  {
    var lines := AllLines(preamble, blocks);
    if lines == [] {
      assert blocks == [];
      SplitOneLine("");
      ReadOthers(Progress(None, []), [""]);
    } else {
      LinesAreLines(preamble, blocks);
      SplitJoinLines(lines);
      ReadBlocks(preamble, blocks);
    }
  }

  // ---- the answer -----------------------------------------------------------------------------------------------

  datatype Candidate = Candidate(foundation: string, priority: nat, ip: string, protocol: string, port: nat,
                                 kind: string)
  datatype Fingerprint = Fingerprint(algorithm: string, value: string)
  datatype Session = Session(ufrag: string, password: string, candidates: seq<Candidate>,
                             fingerprints: seq<Fingerprint>, role: Option<string>)

  const DIGITS := "0123456789"

  function CandidateLine(c: Candidate): string {
    "a=candidate:" + c.foundation + " 1 " + c.protocol + " " + Numeral(c.priority, DIGITS)
    + " " + c.ip + " " + Numeral(c.port, DIGITS) + " typ " + c.kind
  }

  function CandidateLines(cs: seq<Candidate>): (r: seq<string>)
    ensures |r| == |cs| && forall i :: 0 <= i < |r| ==> r[i] == CandidateLine(cs[i])
  {
    seq(|cs|, i requires 0 <= i < |cs| => CandidateLine(cs[i]))
  }

  function SetupOf(role: Option<string>): string {
    if role == Some("server") then "passive" else if role == Some("client") then "active" else "actpass"
  }

  function Preamble(now: nat): seq<string> {
    ["v=0", "o=- " + Numeral(now, DIGITS) + " 1 IN IP4 0.0.0.0", "s=WHIP Answer", "t=0 0", "a=group:BUNDLE 0",
     "a=msid-semantic: WMS *"]
  }

  function Between(s: Session): seq<string>
    requires s.fingerprints != []
  {
    var f := s.fingerprints[|s.fingerprints| - 1];
    ["c=IN IP4 0.0.0.0", "a=rtcp:9 IN IP4 0.0.0.0", "a=ice-ufrag:" + s.ufrag, "a=ice-pwd:" + s.password,
     "a=fingerprint:" + f.algorithm + " " + f.value, "a=setup:" + SetupOf(s.role)]
  }

  const MEDIA_REST := " 9 UDP/TLS/RTP/SAVPF 96"
  const TRAILER := ["a=recvonly", "a=rtcp-mux", "a=rtpmap:96 VP8/90000"]

  /**
   * buildWhipSdpAnswer; without a fingerprint it throws. The candidate lines enter the list as one element, already
   * joined.
   */
  function Answer(s: Session, now: nat): Option<string> {
    if s.fingerprints == [] then None
    else Some(JoinLines(Preamble(now) + [VIDEO + MEDIA_REST] + Between(s) + [MID + "0"] + TRAILER
                        + [JoinLines(CandidateLines(s.candidates)), ""]))
  }

  ghost predicate FieldsOneLine(s: Session) {
    && OneLine(s.ufrag) && OneLine(s.password)
    && (forall f | f in s.fingerprints :: OneLine(f.algorithm) && OneLine(f.value))
    && (forall c | c in s.candidates ::
          OneLine(c.foundation) && OneLine(c.ip) && OneLine(c.protocol) && OneLine(c.kind))
  }

  /** The one block the answer consists of. */
  ghost function AnswerBlock(s: Session): Block
    requires s.fingerprints != []
  {
    Block(Video, MEDIA_REST, Between(s), "0",
          TRAILER + (if s.candidates == [] then [""] else CandidateLines(s.candidates)) + [""])
  }

  lemma NumeralOneLine(n: nat)
    ensures OneLine(Numeral(n, DIGITS))
  {
    if '\n' in Numeral(n, DIGITS) {
      NumeralDigits(n, DIGITS, '\n');
    }
  }

  lemma AttributeIsOther(line: string)
    requires OneLine(line) && (line == "" || line[0] != 'm')
    ensures Other(line)
  {
  }

  lemma CandidateIsOther(c: Candidate)
    requires OneLine(c.foundation) && OneLine(c.ip) && OneLine(c.protocol) && OneLine(c.kind)
    ensures Other(CandidateLine(c))
  {
    NumeralOneLine(c.priority);
    NumeralOneLine(c.port);
    assert CandidateLine(c)[0] == 'a';
    AttributeIsOther(CandidateLine(c));
  }

  lemma PreambleIsOther(now: nat)
    ensures forall l | l in Preamble(now) :: Other(l)
  {
    NumeralOneLine(now);
    hide Other;
    var lines := Preamble(now);
    forall i | 0 <= i < |lines|
      ensures Other(lines[i])
    {
      AttributeIsOther(lines[i]);
    }
  }

  lemma NotMid(line: string)
    requires |line| >= 3 && line[2] != 'm'
    ensures !StartsWith(line, MID)
  {
  }

  lemma BetweenIsOther(s: Session)
    requires s.fingerprints != [] && FieldsOneLine(s)
    ensures forall l | l in Between(s) :: Other(l) && !StartsWith(l, MID)
  {
    var b := Between(s);
    assert s.fingerprints[|s.fingerprints| - 1] in s.fingerprints;
    forall i | 0 <= i < |b|
      ensures Other(b[i]) && !StartsWith(b[i], MID)
    {
      assert OneLine(b[i]) && b[i][0] != 'm';
      AttributeIsOther(b[i]);
      NotMid(b[i]);
    }
  }

  lemma TrimZero()
    ensures Trim("0") == "0"
  {
  }

  lemma AfterIsOther(s: Session)
    requires s.fingerprints != [] && FieldsOneLine(s)
    ensures forall l | l in AnswerBlock(s).after :: Other(l)
  {
    forall l | l in AnswerBlock(s).after
      ensures Other(l)
    {
      if l in CandidateLines(s.candidates) {
        var i :| 0 <= i < |s.candidates| && CandidateLines(s.candidates)[i] == l;
        CandidateIsOther(s.candidates[i]);
      } else {
        AttributeIsOther(l);
      }
    }
  }

  lemma BlockWellFormed(s: Session)
    requires s.fingerprints != [] && FieldsOneLine(s)
    ensures WellFormed(AnswerBlock(s))
  {
    BetweenIsOther(s);
    AfterIsOther(s);
    TrimZero();
  }

  /** Joining a list of lines with an element that was joined before comes to joining all of them. */
  lemma JoinNested(head: seq<string>, inner: seq<string>)
    requires head != []
    ensures JoinLines(head + [JoinLines(inner), ""]) == JoinLines(head + (if inner == [] then [""] else inner) + [""])
  {
    var flat := if inner == [] then [""] else inner;
    JoinConcat(head, [JoinLines(inner), ""]);
    JoinConcat(head, flat + [""]);
    JoinConcat(flat, [""]);
    assert head + flat + [""] == head + (flat + [""]);
    assert JoinLines([JoinLines(inner), ""]) == JoinLines(inner) + CRLF + "";
  }

  lemma AnswerIsPrinted(s: Session, now: nat)
    requires s.fingerprints != []
    ensures Answer(s, now) == Some(JoinLines(AllLines(Preamble(now), [AnswerBlock(s)])))
  {
    hide Between, Preamble, JoinLines, CandidateLines;
    var block := AnswerBlock(s);
    var head := Preamble(now) + [VIDEO + MEDIA_REST] + Between(s) + [MID + "0"] + TRAILER;
    JoinNested(head, CandidateLines(s.candidates));
    assert [block][..0] == [];
    var flat := if s.candidates == [] then [""] else CandidateLines(s.candidates);
    assert AllLines(Preamble(now), [block]) == Preamble(now) + LinesOf(block);
    assert Preamble(now) + LinesOf(block) == head + flat + [""];
  }

  /** The SFU reads its own answer as exactly one video section with mid 0, whenever no field contains a line feed. */
  lemma ParseAnswer(s: Session, now: nat)
    requires s.fingerprints != [] && FieldsOneLine(s)
    ensures Answer(s, now).Some? && Parse(Answer(s, now).value) == [Section(Video, "0")]
  {
    PreambleIsOther(now);
    BlockWellFormed(s);
    AnswerIsPrinted(s, now);
    ParsePrinted(Preamble(now), [AnswerBlock(s)]);
  }

  // ---- what the answer says ---------------------------------------------------------------------------------------

  /** What stands behind the key in the lines that start with it. */
  function Stated(lines: seq<string>, key: string): seq<string> {
    if lines == [] then []
    else (if StartsWith(lines[0], key) then [lines[0][|key|..]] else []) + Stated(lines[1..], key)
  }

  lemma {:induction false} StatedConcat(a: seq<string>, b: seq<string>, key: string)
    ensures Stated(a + b, key) == Stated(a, key) + Stated(b, key)
  {
    hide StartsWith;
    if a == [] {
      assert a + b == b;
    } else {
      StatedConcat(a[1..], b, key);
      assert (a + b)[1..] == a[1..] + b;
    }
  }

  lemma {:induction false} NotStated(lines: seq<string>, key: string)
    requires forall l | l in lines :: !StartsWith(l, key)
    ensures Stated(lines, key) == []
  {
    if lines != [] {
      NotStated(lines[1..], key);
    }
  }

  lemma StatedOnce(front: seq<string>, text: string, back: seq<string>, key: string)
    requires (forall l | l in front :: !StartsWith(l, key)) && (forall l | l in back :: !StartsWith(l, key))
    ensures Stated(front + [key + text] + back, key) == [text]
  {
    StatedConcat(front + [key + text], back, key);
    StatedConcat(front, [key + text], key);
    NotStated(front, key);
    NotStated(back, key);
    assert (key + text)[|key|..] == text && (key + text)[..|key|] == key;
    assert [key + text][1..] == [];
    assert Stated([], key) == [];
  }

  const CANDIDATE := "a=candidate:"

  /** A candidate, behind the key of its line. */
  function CandidateText(c: Candidate): string {
    c.foundation + " 1 " + c.protocol + " " + Numeral(c.priority, "0123456789")
    + " " + c.ip + " " + Numeral(c.port, "0123456789") + " typ " + c.kind
  }

  lemma {:induction false} CandidatesStated(cs: seq<Candidate>)
    ensures |Stated(CandidateLines(cs), CANDIDATE)| == |cs|
    ensures forall i :: 0 <= i < |cs| ==> Stated(CandidateLines(cs), CANDIDATE)[i] == CandidateText(cs[i])
  {
    if cs != [] {
      CandidatesStated(cs[1..]);
      assert CandidateLines(cs)[1..] == CandidateLines(cs[1..]);
      CandidateSplit(cs[0]);
    }
  }

  lemma CandidateSplit(c: Candidate)
    ensures StartsWith(CandidateLine(c), CANDIDATE) && CandidateLine(c)[|CANDIDATE|..] == CandidateText(c)
  {
    assert CandidateLine(c) == CANDIDATE + CandidateText(c);
  }

  /** The line is no attribute, or one whose name does not begin with this letter. */
  predicate Apart(line: string, letter: char) {
    |line| < 3 || line[0] != 'a' || line[2] != letter
  }

  lemma ApartIsNotStated(lines: seq<string>, key: string, letter: char)
    requires |key| >= 3 && key[0] == 'a' && key[2] == letter && forall l | l in lines :: Apart(l, letter)
    ensures Stated(lines, key) == []
  {
    forall l | l in lines
      ensures !StartsWith(l, key)
    {
    }
    NotStated(lines, key);
  }

  /** Only the candidates and the lines of the session itself have names in `i`, `f`, `s` or `c`. */
  lemma FixedApart(now: nat, letter: char)
    requires letter in "ifsc"
    ensures forall l | l in Preamble(now) + [VIDEO + MEDIA_REST] :: Apart(l, letter)
    ensures forall l | l in [MID + "0"] + TRAILER :: Apart(l, letter)
  {
    var head := Preamble(now) + [VIDEO + MEDIA_REST];
    forall i | 0 <= i < |head|
      ensures Apart(head[i], letter)
    {
    }
    var tail := [MID + "0"] + TRAILER;
    forall i | 0 <= i < |tail|
      ensures Apart(tail[i], letter)
    {
    }
  }

  lemma CandidatesApart(cs: seq<Candidate>, letter: char)
    requires letter in "ifs"
    ensures forall l | l in CandidateLines(cs) :: Apart(l, letter)
  {
    forall i | 0 <= i < |cs|
      ensures Apart(CandidateLines(cs)[i], letter)
    {
      CandidateSplit(cs[i]);
      assert CandidateLine(cs[i])[..12] == CANDIDATE;
      assert CandidateLine(cs[i])[2] == CANDIDATE[2];
    }
  }

  lemma StatedAt(lines: seq<string>, k: nat, text: string, key: string)
    requires k < |lines| && lines[k] == key + text
    requires forall i :: 0 <= i < |lines| && i != k ==> !StartsWith(lines[i], key)
    ensures Stated(lines, key) == [text]
  {
    hide Stated, StartsWith;
    assert lines == lines[..k] + [key + text] + lines[k + 1..];
    StatedOnce(lines[..k], text, lines[k + 1..], key);
  }

  /** Where the names of the session's lines differ. */
  lemma BetweenNames(s: Session)
    requires s.fingerprints != []
    ensures var b := Between(s);
            && (forall i :: 0 <= i < 6 ==> |b[i]| >= 7)
            && b[0][0] == 'c' && b[1][2] == 'r' && b[2][2] == 'i' && b[2][6] == 'u' && b[3][2] == 'i' && b[3][6] == 'p'
            && b[4][2] == 'f' && b[5][2] == 's'
  {
  }

  lemma BetweenStates(s: Session)
    requires s.fingerprints != []
    ensures var f := s.fingerprints[|s.fingerprints| - 1];
            && Stated(Between(s), "a=ice-ufrag:") == [s.ufrag]
            && Stated(Between(s), "a=ice-pwd:") == [s.password]
            && Stated(Between(s), "a=fingerprint:") == [f.algorithm + " " + f.value]
            && Stated(Between(s), "a=setup:") == [SetupOf(s.role)]
            && Stated(Between(s), CANDIDATE) == []
  {
    hide Stated, SetupOf;
    var b, f := Between(s), s.fingerprints[|s.fingerprints| - 1];
    BetweenNames(s);
    StatedAt(b, 2, s.ufrag, "a=ice-ufrag:");
    StatedAt(b, 3, s.password, "a=ice-pwd:");
    assert b[4] == "a=fingerprint:" + (f.algorithm + " " + f.value);
    StatedAt(b, 4, f.algorithm + " " + f.value, "a=fingerprint:");
    StatedAt(b, 5, SetupOf(s.role), "a=setup:");
    ApartIsNotStated(b, CANDIDATE, 'c');
  }

  function AnswerLines(s: Session, now: nat): seq<string>
    requires s.fingerprints != []
  {
    Preamble(now) + [VIDEO + MEDIA_REST] + Between(s) + ([MID + "0"] + TRAILER)
    + LastLines(s) + [""]
  }

  lemma AnswerSplits(s: Session, now: nat)
    requires s.fingerprints != [] && FieldsOneLine(s)
    ensures Answer(s, now).Some? && SplitLines(Answer(s, now).value) == AnswerLines(s, now)
  {
    hide Answer, AnswerBlock, AllLines, AnswerLines, Preamble, SplitLines, JoinLines, Other, WellFormed, OneLine;
    AnswerIsPrinted(s, now);
    PreambleIsOther(now);
    BlockWellFormed(s);
    LinesAreLines(Preamble(now), [AnswerBlock(s)]);
    BlockIsAnswer(s, now);
    SplitJoinLines(AnswerLines(s, now));
  }

  lemma BlockIsAnswer(s: Session, now: nat)
    requires s.fingerprints != []
    ensures AllLines(Preamble(now), [AnswerBlock(s)]) == AnswerLines(s, now) && AnswerLines(s, now) != []
  {
    hide Preamble, Between, CandidateLines;
    OneBlock(Preamble(now), AnswerBlock(s));
    Regroup(Preamble(now), [VIDEO + MEDIA_REST], Between(s), [MID + "0"], TRAILER, LastLines(s), [""]);
  }

  lemma OneBlock(preamble: seq<string>, block: Block)
    ensures AllLines(preamble, [block]) == preamble + LinesOf(block)
  {
    hide LinesOf;
    assert [block][..0] == [];
    assert AllLines(preamble, []) == preamble;
  }

  lemma Regroup<T>(a: seq<T>, b: seq<T>, c: seq<T>, d: seq<T>, e: seq<T>, f: seq<T>, g: seq<T>)
    ensures a + (b + c + d + (e + f + g)) == a + b + c + (d + e) + f + g
  {
  }

  lemma StatedInside(a: seq<string>, b: seq<string>, c: seq<string>, d: seq<string>, e: seq<string>, key: string)
    requires Stated(a, key) == [] && Stated(c, key) == [] && Stated(e, key) == []
    ensures Stated(a + b + c + d + e, key) == Stated(b, key) + Stated(d, key)
  {
    hide Stated;
    StatedConcat(a + b + c + d, e, key);
    StatedConcat(a + b + c, d, key);
    StatedConcat(a + b, c, key);
    StatedConcat(a, b, key);
  }

  /** The candidate lines, or the one empty line that stands for none. */
  function LastLines(s: Session): seq<string> {
    if s.candidates == [] then [""] else CandidateLines(s.candidates)
  }

  lemma LastStates(s: Session, key: string, letter: char)
    requires |key| >= 3 && key[0] == 'a' && key[2] == letter && letter in "ifsc"
    ensures Stated(LastLines(s), key) == if letter == 'c' then Stated(CandidateLines(s.candidates), key) else []
  {
    hide CandidateLines, Stated, StartsWith;
    ApartIsNotStated([""], key, letter);
    if letter != 'c' {
      CandidatesApart(s.candidates, letter);
      ApartIsNotStated(LastLines(s), key, letter);
    } else {
      NoCandidates(key);
    }
  }

  lemma AnswerStates(s: Session, now: nat, key: string, letter: char)
    requires s.fingerprints != [] && |key| >= 3 && key[0] == 'a' && key[2] == letter && letter in "ifsc"
    ensures Stated(AnswerLines(s, now), key) ==
            Stated(Between(s), key) + if letter == 'c' then Stated(CandidateLines(s.candidates), key) else []
  {
    hide Preamble, Between, CandidateLines, Stated, StartsWith, LastLines, Apart;
    var head, tail := Preamble(now) + [VIDEO + MEDIA_REST], [MID + "0"] + TRAILER;
    FixedApart(now, letter);
    ApartIsNotStated(head, key, letter);
    ApartIsNotStated(tail, key, letter);
    NothingStated(key, letter);
    StatedInside(head, Between(s), tail, LastLines(s), [""], key);
    LastStates(s, key, letter);
  }

  lemma NothingStated(key: string, letter: char)
    requires |key| >= 3 && key[0] == 'a' && key[2] == letter
    ensures Stated([""], key) == []
  {
    ApartIsNotStated([""], key, letter);
  }

  lemma NoCandidates(key: string)
    ensures Stated(CandidateLines([]), key) == []
  {
  }

  /**
   * Taken apart again, the answer gives the session's own parameters, each exactly once: user fragment, password, last
   * fingerprint, the DTLS role opposite to its own, and the candidates in order.
   */
  lemma AnswerSays(s: Session, now: nat)
    requires s.fingerprints != [] && FieldsOneLine(s)
    ensures Answer(s, now).Some?
    ensures var lines, f := SplitLines(Answer(s, now).value), s.fingerprints[|s.fingerprints| - 1];
            && Stated(lines, "a=ice-ufrag:") == [s.ufrag] && Stated(lines, "a=ice-pwd:") == [s.password]
            && Stated(lines, "a=fingerprint:") == [f.algorithm + " " + f.value]
            && |Stated(lines, "a=setup:")| == 1
            && (Stated(lines, "a=setup:")[0] == "passive" <==> s.role == Some("server"))
            && (Stated(lines, "a=setup:")[0] == "active" <==> s.role == Some("client"))
            && |Stated(lines, "a=candidate:")| == |s.candidates|
            && forall i :: 0 <= i < |s.candidates| ==>
                 Stated(lines, "a=candidate:")[i] == CandidateText(s.candidates[i])
  {
    hide Stated, SplitLines, Answer, AnswerLines, CandidateLines, CandidateText, Between, FieldsOneLine;
    AnswerSplits(s, now);
    BetweenStates(s);
    AnswerStates(s, now, "a=ice-ufrag:", 'i');
    AnswerStates(s, now, "a=ice-pwd:", 'i');
    AnswerStates(s, now, "a=fingerprint:", 'f');
    AnswerStates(s, now, "a=setup:", 's');
    AnswerStates(s, now, "a=candidate:", 'c');
    CandidatesStated(s.candidates);
  }

  predicate NoMedia(l: string) {
    l == "" || l[0] != 'm'
  }

  lemma CandidateNoMedia(c: Candidate)
    ensures NoMedia(CandidateLine(c))
  {
    CandidateSplit(c);
    assert CandidateLine(c)[..12] == CANDIDATE;
    assert CandidateLine(c)[0] == CANDIDATE[0];
  }

  lemma LastNoMedia(s: Session)
    ensures forall l | l in LastLines(s) :: NoMedia(l)
  {
    hide CandidateLine, NoMedia;
    assert NoMedia("") by {
      EmptyNoMedia();
    }
    forall i | 0 <= i < |s.candidates|
      ensures NoMedia(CandidateLines(s.candidates)[i])
    {
      CandidateNoMedia(s.candidates[i]);
    }
  }

  lemma EmptyNoMedia()
    ensures NoMedia("") && NoMedia(MID + "0") && NoMedia(TRAILER[0]) && NoMedia(TRAILER[1]) && NoMedia(TRAILER[2])
  {
  }

  lemma OthersStateNoMedia(s: Session, now: nat)
    requires s.fingerprints != []
    ensures forall l | l in AnswerLines(s, now)[|Preamble(now)| + 1..] :: NoMedia(l)
  {
    hide Preamble, Between, LastLines, NoMedia;
    BetweenLetters(s);
    LastNoMedia(s);
    EmptyNoMedia();
    var rest := Between(s) + ([MID + "0"] + TRAILER) + LastLines(s) + [""];
    assert AnswerLines(s, now)[|Preamble(now)| + 1..] == rest;
  }

  lemma PreambleLetters(now: nat)
    ensures forall l | l in Preamble(now) :: NoMedia(l)
  {
    forall i | 0 <= i < |Preamble(now)|
      ensures NoMedia(Preamble(now)[i])
    {
    }
  }

  lemma BetweenLetters(s: Session)
    requires s.fingerprints != []
    ensures forall l | l in Between(s) :: NoMedia(l)
  {
    var b := Between(s);
    forall i | 0 <= i < |b|
      ensures NoMedia(b[i])
    {
    }
  }

  /**
   * The answer has one media line: video over secure RTP with feedback, in payload type 96, which its map line calls
   * VP8. It only receives, and multiplexes RTCP.
   */
  lemma AnswerMedia(s: Session, now: nat)
    requires s.fingerprints != [] && FieldsOneLine(s)
    ensures Answer(s, now).Some?
    ensures var lines := SplitLines(Answer(s, now).value);
            && Stated(lines, "m=") == ["video 9 UDP/TLS/RTP/SAVPF 96"]
            && "a=rtpmap:96 VP8/90000" in lines && "a=recvonly" in lines && "a=rtcp-mux" in lines
            && |lines| >= 2 && lines[0] == "v=0" && lines[|lines| - 1] == ""
  {
    hide Preamble, Between, LastLines, Stated;
    AnswerSplits(s, now);
    var lines := AnswerLines(s, now);
    MediaLineOnce(s, now);
    FirstLine(now);
    assert TRAILER[0] in lines && TRAILER[1] in lines && TRAILER[2] in lines;
    assert lines[0] == Preamble(now)[0];
  }

  lemma FirstLine(now: nat)
    ensures |Preamble(now)| > 0 && Preamble(now)[0] == "v=0"
  {
  }

  lemma NotMedia(lines: seq<string>)
    requires forall l | l in lines :: NoMedia(l)
    ensures forall l | l in lines :: !StartsWith(l, "m=")
  {
  }

  lemma MediaLineOnce(s: Session, now: nat)
    requires s.fingerprints != []
    ensures Stated(AnswerLines(s, now), "m=") == ["video 9 UDP/TLS/RTP/SAVPF 96"]
  {
    hide Preamble, Between, Stated, LastLines;
    PreambleLetters(now);
    OthersStateNoMedia(s, now);
    var front, back := Preamble(now), AnswerLines(s, now)[|Preamble(now)| + 1..];
    NotMedia(front);
    NotMedia(back);
    var line := "m=" + "video 9 UDP/TLS/RTP/SAVPF 96";
    assert VIDEO + MEDIA_REST == line;
    assert AnswerLines(s, now) == front + [line] + back;
    StatedOnce(front, "video 9 UDP/TLS/RTP/SAVPF 96", back, "m=");
  }
}
