/**
 * `parse_clinical_notes_file` on the text of a notes file: the patient name and the
 * generation stamp from the file's first lines, then one record per
 * `ENCOUNTER n: YYYY-MM-DD` block, up to the first block numbered above 5 and at most
 * five in all.
 */
module ClinicalNotes {
  import opened Wrappers
  import opened Text
  import opened LineBlocks
  import opened Seqs

  /** One returned encounter dict. */
  datatype NoteEncounter = NoteEncounter(
    patientName: string,
    encounterSequence: nat,
    encounterDate: string,
    generatedTimestamp: string,
    sourceFile: string,
    noteText: string)

  /** The two groups of a header match. */
  datatype EncounterHeader = EncounterHeader(sequence: nat, date: string)

  /** The position of the first element satisfying `p`. */
  function FirstWhere<T>(xs: seq<T>, p: T -> bool): (r: Option<nat>)
    ensures r.None? <==> forall i :: 0 <= i < |xs| ==> !p(xs[i])
    ensures r.Some? ==> r.value < |xs| && p(xs[r.value]) && forall i :: 0 <= i < r.value ==> !p(xs[i])
  {
    if xs == [] then None
    else if p(xs[0]) then Some(0)
    else match FirstWhere(xs[1..], p)
      case None => None
      case Some(i) => Some(i + 1)
  }

  /** The first position satisfying `p` is the one before which nothing does. */
  lemma FirstWhereIs<T>(xs: seq<T>, p: T -> bool, i: nat)
    requires i < |xs| && p(xs[i]) && forall k :: 0 <= k < i ==> !p(xs[k])
    ensures FirstWhere(xs, p) == Some(i)
  {
  }

  /** Python `xs[:n]`. */
  function Take<T>(xs: seq<T>, n: nat): seq<T> {
    if |xs| <= n then xs else xs[..n]
  }

  // The header pattern `ENCOUNTER\s+(\d+):\s*(\d{4}-\d{2}-\d{2})`, matched at the start
  // of a line.

  /** `\d{4}-\d{2}-\d{2}`. */
  predicate IsDate(d: string) {
    && |d| == 10
    && IsAsciiDigit(d[0]) && IsAsciiDigit(d[1]) && IsAsciiDigit(d[2]) && IsAsciiDigit(d[3]) && d[4] == '-'
    && IsAsciiDigit(d[5]) && IsAsciiDigit(d[6]) && d[7] == '-' && IsAsciiDigit(d[8]) && IsAsciiDigit(d[9])
  }

  /** A date at the start of `s`. */
  predicate DateAt(s: string) {
    |s| >= 10 && IsDate(s[..10])
  }

  predicate AllSpace(s: string) {
    forall i :: 0 <= i < |s| ==> IsSpace(s[i])
  }

  /** The length of the whitespace run `s` starts with. */
  function SpaceRun(s: string): (n: nat)
    ensures n <= |s| && AllSpace(s[..n]) && (n == |s| || !IsSpace(s[n]))
  {
    if s != [] && IsSpace(s[0]) then
      var n := SpaceRun(s[1..]);
      assert s[..n + 1] == [s[0]] + s[1..][..n];
      n + 1
    else 0
  }

  /** The length of the digit run `s` starts with. */
  function DigitRun(s: string): (n: nat)
    ensures n <= |s| && AllDigits(s[..n]) && (n == |s| || !IsAsciiDigit(s[n]))
  {
    if s != [] && IsAsciiDigit(s[0]) then
      var n := DigitRun(s[1..]);
      assert s[..n + 1] == [s[0]] + s[1..][..n];
      n + 1
    else 0
  }

  /** The match of the header pattern, read as its two groups; each `\s` and `\d` run
      is consumed whole, so the pattern matches in at most one way. */
  function MatchHeader(line: string): Option<EncounterHeader> {
    if StartsWith(line, "ENCOUNTER") then MatchAfterWord(line[9..]) else None
  }

  /** `\s+(\d+):\s*(\d{4}-\d{2}-\d{2})`. */
  function MatchAfterWord(s: string): Option<EncounterHeader> {
    var spaces := SpaceRun(s);
    if spaces == 0 then None else MatchNumber(s[spaces..])
  }

  /** `(\d+):\s*(\d{4}-\d{2}-\d{2})`. */
  function MatchNumber(s: string): Option<EncounterHeader> {
    var n := DigitRun(s);
    if n == 0 || n == |s| || s[n] != ':' then None else MatchDate(s[n + 1..], DigitsValue(s[..n]))
  }

  /** `\s*(\d{4}-\d{2}-\d{2})`, after the number `sequence`. */
  function MatchDate(s: string, sequence: nat): Option<EncounterHeader> {
    var atDate := s[SpaceRun(s)..];
    if DateAt(atDate) then Some(EncounterHeader(sequence, atDate[..10])) else None
  }

  /** `line` is `ENCOUNTER`, a non-empty whitespace run, a non-empty digit run, `:`, a
      whitespace run, a date and anything else. */
  predicate HeaderShape(line: string, space: string, digits: string, space2: string, date: string, rest: string) {
    && line == "ENCOUNTER" + space + digits + ":" + space2 + date + rest
    && space != [] && AllSpace(space) && digits != [] && AllDigits(digits) && AllSpace(space2)
    && IsDate(date)
  }

  lemma {:induction false} SpaceRunOf(x: string, y: string)
    requires AllSpace(x) && (y == [] || !IsSpace(y[0]))
    ensures SpaceRun(x + y) == |x|
  {
    if x != [] {
      assert (x + y)[1..] == x[1..] + y;
      SpaceRunOf(x[1..], y);
    }
  }

  lemma {:induction false} DigitRunOf(x: string, y: string)
    requires AllDigits(x) && (y == [] || !IsAsciiDigit(y[0]))
    ensures DigitRun(x + y) == |x|
  {
    if x != [] {
      assert (x + y)[1..] == x[1..] + y;
      DigitRunOf(x[1..], y);
    }
  }

  lemma MatchDateOf(space: string, date: string, rest: string, sequence: nat)
    requires AllSpace(space) && IsDate(date)
    ensures MatchDate(space + date + rest, sequence) == Some(EncounterHeader(sequence, date))
  {
    var s := space + (date + rest);
    assert space + date + rest == s;
    SpaceRunOf(space, date + rest);
    assert s[|space|..] == date + rest;
    assert (date + rest)[..10] == date;
    assert DateAt(date + rest);
  }

  lemma MatchNumberOf(digits: string, s: string)
    requires digits != [] && AllDigits(digits)
    ensures MatchNumber(digits + [':'] + s) == MatchDate(s, DigitsValue(digits))
  {
    var t := digits + [':'] + s;
    assert t == digits + ([':'] + s);
    DigitRunOf(digits, [':'] + s);
    assert t[..|digits|] == digits && t[|digits| + 1..] == s;
  }

  lemma MatchAfterWordOf(space: string, s: string)
    requires space != [] && AllSpace(space) && (s == [] || !IsSpace(s[0]))
    ensures MatchAfterWord(space + s) == MatchNumber(s)
  {
    SpaceRunOf(space, s);
    assert (space + s)[|space|..] == s;
  }

  /** A line of the pattern's shape matches, with the digit run and the date as its
      groups. */
  lemma HeaderShapeMatches(line: string, space: string, digits: string, space2: string, date: string, rest: string)
    requires HeaderShape(line, space, digits, space2, date, rest)
    ensures MatchHeader(line) == Some(EncounterHeader(DigitsValue(digits), date))
  {
    var afterColon := space2 + date + rest;
    var atDigits := digits + [':'] + afterColon;
    assert line == "ENCOUNTER" + (space + atDigits);
    assert line[..9] == "ENCOUNTER" && line[9..] == space + atDigits;
    MatchAfterWordOf(space, atDigits);
    MatchNumberOf(digits, afterColon);
    MatchDateOf(space2, date, rest, DigitsValue(digits));
  }

  lemma DateParts(s: string, sequence: nat) returns (space: string, date: string, rest: string)
    requires MatchDate(s, sequence).Some?
    ensures s == space + date + rest && AllSpace(space) && IsDate(date)
    ensures MatchDate(s, sequence) == Some(EncounterHeader(sequence, date))
  {
    var n := SpaceRun(s);
    space, date, rest := s[..n], s[n..][..10], s[n..][10..];
    assert s[n..] == date + rest;
    assert s == space + s[n..];
  }

  lemma NumberParts(s: string) returns (digits: string, rest: string)
    requires MatchNumber(s).Some?
    ensures s == digits + [':'] + rest && digits != [] && AllDigits(digits)
    ensures MatchNumber(s) == MatchDate(rest, DigitsValue(digits))
  {
    var n := DigitRun(s);
    digits, rest := s[..n], s[n + 1..];
    assert s == digits + [s[n]] + rest;
  }

  lemma AfterWordParts(s: string) returns (space: string, rest: string)
    requires MatchAfterWord(s).Some?
    ensures s == space + rest && space != [] && AllSpace(space)
    ensures MatchAfterWord(s) == MatchNumber(rest)
  {
    var n := SpaceRun(s);
    space, rest := s[..n], s[n..];
    assert s == space + rest;
  }

  /** The line put back together from its parts. */
  lemma Reassemble(line: string, space: string, digits: string, space2: string, date: string, rest: string)
    requires StartsWith(line, "ENCOUNTER") && line[9..] == space + (digits + [':'] + (space2 + date + rest))
    ensures line == "ENCOUNTER" + space + digits + ":" + space2 + date + rest
  {
    assert line == line[..9] + line[9..];
  }

  /** Only a line of that shape matches. */
  lemma MatchIsHeaderShape(line: string)
    requires MatchHeader(line).Some?
    ensures exists space, digits, space2, date, rest ::
              && HeaderShape(line, space, digits, space2, date, rest)
              && MatchHeader(line) == Some(EncounterHeader(DigitsValue(digits), date))
  {
    var space, atDigits := AfterWordParts(line[9..]);
    var digits, afterColon := NumberParts(atDigits);
    var space2, date, rest := DateParts(afterColon, DigitsValue(digits));
    Reassemble(line, space, digits, space2, date, rest);
    assert HeaderShape(line, space, digits, space2, date, rest);
  }

  // The file's first lines.

  predicate StartsWithTag(tag: string, line: string) {
    StartsWith(line, tag)
  }

  /** `line.replace(tag, '').strip()` for the first of the first `n` lines that starts
      with `tag`; empty when none does. */
  function TagValue(lines: seq<string>, n: nat, tag: string): string
    requires tag != []
  {
    var head := Take(lines, n);
    match FirstWhere(head, (l: string) => StartsWithTag(tag, l))
    case None => ""
    case Some(k) => Strip(RemoveAll(head[k], tag))
  }

  /** The scan of the first `n` lines for `tag`, stopping at the first hit. */
  method FindTagged(lines: seq<string>, n: nat, tag: string) returns (value: string)
    requires tag != []
    ensures value == TagValue(lines, n, tag)
  {
    var head := Take(lines, n);
    value := "";
    for i := 0 to |head|
      invariant forall k :: 0 <= k < i ==> !StartsWithTag(tag, head[k])
    {
      if StartsWithTag(tag, head[i]) {
        value := Strip(RemoveAll(head[i], tag));
        FirstWhereIs(head, (l: string) => StartsWithTag(tag, l), i);
        return;
      }
    }
  }

  // The encounter blocks.

  /** The lines an encounter's text leaves out, recognised by the unstripped line. */
  predicate Excluded(line: string) {
    StartsWith(line, "Patient:") || StartsWith(line, "Generated:") || StartsWith(line, "=")
  }

  /** A line that goes into an encounter's text: not excluded, and not blank. */
  predicate Keeps(line: string) {
    Strip(line) != "" && !Excluded(line)
  }

  /** The stripped, non-empty, not excluded lines, in order. */
  function Kept(lines: seq<string>): seq<string> {
    StripAll(Filter(lines, Keeps))
  }

  /** Every kept line is the stripped form of a line that goes into the text, and every
      such line is kept; none is blank. */
  lemma KeptLines(lines: seq<string>)
    ensures forall i :: 0 <= i < |Kept(lines)| ==> Kept(lines)[i] != ""
    ensures forall i :: 0 <= i < |Kept(lines)| ==>
              exists k :: 0 <= k < |lines| && Keeps(lines[k]) && Kept(lines)[i] == Strip(lines[k])
    ensures forall k :: 0 <= k < |lines| && Keeps(lines[k]) ==> Strip(lines[k]) in Kept(lines)
  {
    var f := Filter(lines, Keeps);
    forall i | 0 <= i < |Kept(lines)|
      ensures Kept(lines)[i] != ""
      ensures exists k :: 0 <= k < |lines| && Keeps(lines[k]) && Kept(lines)[i] == Strip(lines[k])
    {
      StripAllAt(f, i);
      assert f[i] in lines && Keeps(f[i]);
      var k :| 0 <= k < |lines| && lines[k] == f[i];
    }
    forall k | 0 <= k < |lines| && Keeps(lines[k]) ensures Strip(lines[k]) in Kept(lines) {
      assert lines[k] in f;
      var j :| 0 <= j < |f| && f[j] == lines[k];
      StripAllAt(f, j);
    }
  }

  /** An encounter's `note_text`. */
  function NoteText(body: seq<string>): string {
    Strip(Join(Kept(body), "\n"))
  }

  function Record(h: EncounterHeader, text: string, name: string, generated: string, sourceFile: string): NoteEncounter {
    NoteEncounter(name, h.sequence, h.date, generated, sourceFile, text)
  }

  /** One record per block. */
  function Records(bs: seq<Block<EncounterHeader>>, name: string, generated: string, sourceFile: string)
    : seq<NoteEncounter>
  {
    if bs == [] then []
    else
      var last := bs[|bs| - 1];
      Records(bs[..|bs| - 1], name, generated, sourceFile) + [Record(last.header, NoteText(last.body), name, generated, sourceFile)]
  }

  /** A header numbered above 5 ends the parse. */
  predicate Stops(h: Option<EncounterHeader>) {
    h.Some? && h.value.sequence > 5
  }

  /** Whether a line, read by `parse`, ends the parse. */
  function StopTest(parse: string -> Option<EncounterHeader>): string -> bool {
    (line: string) => Stops(parse(line))
  }

  /** The lines the encounter loop reads before it stops. */
  function StopAt(lines: seq<string>, parse: string -> Option<EncounterHeader>): (r: nat)
    ensures r <= |lines|
  {
    match FirstWhere(lines, StopTest(parse))
    case Some(k) => k
    case None => |lines|
  }

  /** The file's lines: `content.strip().split('\n')`. */
  function NoteLines(content: string): seq<string> {
    Split(Strip(content), '\n')
  }

  /** The encounters of `lines`: the first five blocks before the first header numbered
      above 5, each with the name, the stamp and the file name. */
  function Encounters(lines: seq<string>, parse: string -> Option<EncounterHeader>,
                      name: string, generated: string, sourceFile: string): seq<NoteEncounter>
  {
    Take(Records(Blocks(lines[..StopAt(lines, parse)], parse), name, generated, sourceFile), 5)
  }

  /** The parse of a notes file's text: nothing without a patient name; otherwise the
      encounters of its lines. */
  function ParsedNotes(content: string, sourceFile: string): seq<NoteEncounter> {
    var lines := NoteLines(content);
    var name := TagValue(lines, 5, "Patient:");
    if name == "" then []
    else Encounters(lines, MatchHeader, name, TagValue(lines, 10, "Generated:"), sourceFile)
  }

  /** What the encounter loop holds after reading the lines whose blocks are `bs`: the
      finished encounters of all but the last block, and the last block's header and
      kept lines. */
  ghost predicate Scanned(bs: seq<Block<EncounterHeader>>, current: Option<EncounterHeader>, text: seq<string>,
                          encounters: seq<NoteEncounter>, name: string, generated: string, sourceFile: string)
  {
    if bs == [] then current.None? && encounters == []
    else
      var last := bs[|bs| - 1];
      && current == Some(last.header) && text == Kept(last.body)
      && encounters == Records(bs[..|bs| - 1], name, generated, sourceFile)
  }

  /** One more line kept or dropped from an encounter's text. */
  lemma KeptSnoc(lines: seq<string>, line: string)
    ensures Kept(lines + [line]) == if Keeps(line) then Kept(lines) + [Strip(line)] else Kept(lines)
  {
    FilterSnoc(lines, line, Keeps);
    var f := Filter(lines, Keeps);
    assert (f + [line])[..|f|] == f;
  }

  /** The state of the encounter loop before line `i`: no header so far numbered above
      5, and the loop's variables as `Scanned` describes them. */
  ghost predicate ScanState(lines: seq<string>, i: nat, parse: string -> Option<EncounterHeader>,
                            current: Option<EncounterHeader>, text: seq<string>, encounters: seq<NoteEncounter>,
                            name: string, generated: string, sourceFile: string)
  {
    && i <= |lines|
    && (forall k :: 0 <= k < i ==> !Stops(parse(lines[k])))
    && !Stops(current)
    && Scanned(FoldBlocks(lines[..i], parse), current, text, encounters, name, generated, sourceFile)
  }

  /** The finished encounters once the open one, if any, is closed. */
  function Closed(current: Option<EncounterHeader>, text: seq<string>, encounters: seq<NoteEncounter>,
                  name: string, generated: string, sourceFile: string): seq<NoteEncounter>
  {
    if current.Some? then encounters + [Record(current.value, Strip(Join(text, "\n")), name, generated, sourceFile)]
    else encounters
  }

  lemma ScanStart(lines: seq<string>, parse: string -> Option<EncounterHeader>,
                  name: string, generated: string, sourceFile: string)
    ensures ScanState(lines, 0, parse, None, [], [], name, generated, sourceFile)
  {
    assert lines[..0] == [];
  }

  lemma TakeSnoc(lines: seq<string>, i: nat)
    requires i < |lines|
    ensures lines[..i + 1] == lines[..i] + [lines[i]]
  {
  }

  /** A header line closes the open encounter and opens its own; numbered above 5, it
      ends the parse with the encounters closed so far. */
  lemma ScanHeader(lines: seq<string>, i: nat, parse: string -> Option<EncounterHeader>,
                   current: Option<EncounterHeader>, text: seq<string>, encounters: seq<NoteEncounter>,
                   name: string, generated: string, sourceFile: string)
    requires i < |lines| && parse(lines[i]).Some?
    requires ScanState(lines, i, parse, current, text, encounters, name, generated, sourceFile)
    ensures var closed := Closed(current, text, encounters, name, generated, sourceFile);
            && (!Stops(parse(lines[i])) ==>
                  ScanState(lines, i + 1, parse, parse(lines[i]), [], closed, name, generated, sourceFile))
            && (Stops(parse(lines[i])) ==>
                  closed == Records(Blocks(lines[..StopAt(lines, parse)], parse), name, generated, sourceFile))
  {
    var line := lines[i];
    TakeSnoc(lines, i);
    FoldSnoc(lines[..i], line, parse);
    if Stops(parse(line)) {
      FirstWhereIs(lines, StopTest(parse), i);
      FoldIsBlocks(lines[..i], parse);
    }
  }

  /** A line that is no header joins the last block, and its text when it is kept. */
  lemma ScannedOther(bs: seq<Block<EncounterHeader>>, line: string, current: Option<EncounterHeader>,
                     text: seq<string>, encounters: seq<NoteEncounter>,
                     name: string, generated: string, sourceFile: string)
    requires bs != [] && Scanned(bs, current, text, encounters, name, generated, sourceFile)
    ensures var last := bs[|bs| - 1];
            var text' := if Keeps(line) then text + [Strip(line)] else text;
            Scanned(bs[..|bs| - 1] + [last.(body := last.body + [line])], current, text', encounters,
                    name, generated, sourceFile)
  {
    var last := bs[|bs| - 1];
    var bs' := bs[..|bs| - 1] + [last.(body := last.body + [line])];
    KeptSnoc(last.body, line);
    assert bs'[..|bs'| - 1] == bs[..|bs| - 1];
  }

  /** Any other line joins the open encounter's text when it is kept. */
  lemma ScanOther(lines: seq<string>, i: nat, parse: string -> Option<EncounterHeader>,
                  current: Option<EncounterHeader>, text: seq<string>, encounters: seq<NoteEncounter>,
                  name: string, generated: string, sourceFile: string)
    requires i < |lines| && parse(lines[i]).None?
    requires ScanState(lines, i, parse, current, text, encounters, name, generated, sourceFile)
    ensures var line := lines[i];
            var text' := if Keeps(line) then text + [Strip(line)] else text;
            ScanState(lines, i + 1, parse, current, text', encounters, name, generated, sourceFile)
  {
    var line := lines[i];
    var bs := FoldBlocks(lines[..i], parse);
    TakeSnoc(lines, i);
    FoldSnoc(lines[..i], line, parse);
    if bs != [] {
      ScannedOther(bs, line, current, text, encounters, name, generated, sourceFile);
    }
  }

  /** At the end of the lines, closing the open encounter gives all the blocks' records. */
  lemma ScanEnd(lines: seq<string>, parse: string -> Option<EncounterHeader>,
                current: Option<EncounterHeader>, text: seq<string>, encounters: seq<NoteEncounter>,
                name: string, generated: string, sourceFile: string)
    requires ScanState(lines, |lines|, parse, current, text, encounters, name, generated, sourceFile)
    ensures Closed(current, text, encounters, name, generated, sourceFile)
            == Records(Blocks(lines[..StopAt(lines, parse)], parse), name, generated, sourceFile)
  {
    assert lines[..|lines|] == lines;
    FoldIsBlocks(lines, parse);
  }

  /** `parse_clinical_notes_file` after the file read. */
  method ParseClinicalNotes(content: string, sourceFile: string) returns (encounters: seq<NoteEncounter>)
    ensures encounters == ParsedNotes(content, sourceFile)
  {
    var lines := NoteLines(content);
    var name := FindTagged(lines, 5, "Patient:");
    if name == "" {
      return [];
    }
    var generated := FindTagged(lines, 10, "Generated:");
    encounters := ScanEncounters(lines, MatchHeader, name, generated, sourceFile);
  }

  /** The encounter loop, with `parse` the header match. */
  method ScanEncounters(lines: seq<string>, parse: string -> Option<EncounterHeader>,
                        name: string, generated: string, sourceFile: string)
    returns (encounters: seq<NoteEncounter>)
    ensures encounters == Encounters(lines, parse, name, generated, sourceFile)
  {
    encounters := [];
    var current: Option<EncounterHeader> := None;
    var text: seq<string> := [];
    var i := 0;
    ScanStart(lines, parse, name, generated, sourceFile);
    while i < |lines|
      invariant ScanState(lines, i, parse, current, text, encounters, name, generated, sourceFile)
    {
      var line := lines[i];
      var header := parse(line);
      if header.Some? {
        ScanHeader(lines, i, parse, current, text, encounters, name, generated, sourceFile);
        if current.Some? {
          encounters := encounters + [Record(current.value, Strip(Join(text, "\n")), name, generated, sourceFile)];
        }
        current := header;
        text := [];
        if header.value.sequence > 5 {
          break;
        }
      } else {
        ScanOther(lines, i, parse, current, text, encounters, name, generated, sourceFile);
        if Keeps(line) {
          text := text + [Strip(line)];
        }
      }
      i := i + 1;
    }
    if current.Some? && current.value.sequence <= 5 {
      ScanEnd(lines, parse, current, text, encounters, name, generated, sourceFile);
      encounters := encounters + [Record(current.value, Strip(Join(text, "\n")), name, generated, sourceFile)];
    } else if i == |lines| {
      ScanEnd(lines, parse, current, text, encounters, name, generated, sourceFile);
    }
    encounters := Take(encounters, 5);
  }

  // What the parse promises.

  /** The tag's value is that of its first line among the first `n`, or empty when none
      of them carries the tag. */
  lemma TagValueFirst(lines: seq<string>, n: nat, tag: string)
    requires tag != []
    ensures (forall k :: 0 <= k < |lines| && k < n ==> !StartsWith(lines[k], tag)) ==> TagValue(lines, n, tag) == ""
    ensures (exists k :: 0 <= k < |lines| && k < n && StartsWith(lines[k], tag)) ==>
              exists k :: && 0 <= k < |lines| && k < n && StartsWith(lines[k], tag)
                          && (forall m :: 0 <= m < k ==> !StartsWith(lines[m], tag))
                          && TagValue(lines, n, tag) == Strip(RemoveAll(lines[k], tag))
  {
    var head := Take(lines, n);
    assert forall k :: 0 <= k < |head| ==> head[k] == lines[k];
    var test := (l: string) => StartsWithTag(tag, l);
    match FirstWhere(head, test)
    case None =>
      assert forall k :: 0 <= k < |head| ==> !test(head[k]);
    case Some(k) =>
      assert test(head[k]);
      assert forall m :: 0 <= m < k ==> !test(head[m]);
      assert && 0 <= k < |lines| && k < n && StartsWith(lines[k], tag)
             && (forall m :: 0 <= m < k ==> !StartsWith(lines[m], tag))
             && TagValue(lines, n, tag) == Strip(RemoveAll(lines[k], tag));
  }

  /** Without a `Patient:` line among the first five, there are no encounters. */
  lemma NoPatientNoNotes(content: string, sourceFile: string)
    requires var lines := NoteLines(content);
             forall k :: 0 <= k < |lines| && k < 5 ==> !StartsWith(lines[k], "Patient:")
    ensures ParsedNotes(content, sourceFile) == []
  {
    TagValueFirst(NoteLines(content), 5, "Patient:");
  }

  lemma {:induction false} RecordsLength(bs: seq<Block<EncounterHeader>>, name: string, generated: string, sourceFile: string)
    ensures |Records(bs, name, generated, sourceFile)| == |bs|
  {
    if bs != [] {
      RecordsLength(bs[..|bs| - 1], name, generated, sourceFile);
    }
  }

  /** The record of block `i` is the `i`th record. */
  lemma {:induction false} RecordAt(bs: seq<Block<EncounterHeader>>, i: nat, name: string, generated: string, sourceFile: string)
    requires i < |bs|
    ensures |Records(bs, name, generated, sourceFile)| == |bs|
    ensures Records(bs, name, generated, sourceFile)[i] == Record(bs[i].header, NoteText(bs[i].body), name, generated, sourceFile)
  {
    var init := bs[..|bs| - 1];
    RecordsLength(bs, name, generated, sourceFile);
    RecordsLength(init, name, generated, sourceFile);
    if i < |init| {
      RecordAt(init, i, name, generated, sourceFile);
      assert bs[i] == init[i];
    }
  }

  /** The records of the blocks, one per block and in order. */
  lemma RecordsAt(bs: seq<Block<EncounterHeader>>, name: string, generated: string, sourceFile: string)
    ensures |Records(bs, name, generated, sourceFile)| == |bs|
    ensures forall i :: 0 <= i < |bs| ==>
              Records(bs, name, generated, sourceFile)[i] == Record(bs[i].header, NoteText(bs[i].body), name, generated, sourceFile)
  {
    RecordsLength(bs, name, generated, sourceFile);
    forall i | 0 <= i < |bs|
      ensures Records(bs, name, generated, sourceFile)[i] == Record(bs[i].header, NoteText(bs[i].body), name, generated, sourceFile)
    {
      RecordAt(bs, i, name, generated, sourceFile);
    }
  }

  /** The blocks the encounters come from: those of the lines before the first header
      numbered above 5. */
  function NoteBlocks(content: string): seq<Block<EncounterHeader>> {
    var lines := NoteLines(content);
    Blocks(lines[..StopAt(lines, MatchHeader)], MatchHeader)
  }

  /** With a patient name, the encounters are the first five of those blocks, each with
      its header's number and date, its note text, the name, the first `Generated:`
      stamp among the first ten lines, and the file name. */
  lemma NotesAreBlocks(content: string, sourceFile: string)
    ensures var lines := NoteLines(content);
            var name := TagValue(lines, 5, "Patient:");
            var generated := TagValue(lines, 10, "Generated:");
            var notes := ParsedNotes(content, sourceFile);
            var bs := NoteBlocks(content);
            && (name == "" ==> notes == [])
            && (name != "" ==>
                  && |notes| == (if |bs| < 5 then |bs| else 5)
                  && forall i :: 0 <= i < |notes| ==>
                       && notes[i].patientName == name
                       && notes[i].encounterSequence == bs[i].header.sequence
                       && notes[i].encounterDate == bs[i].header.date
                       && notes[i].generatedTimestamp == generated
                       && notes[i].sourceFile == sourceFile
                       && notes[i].noteText == NoteText(bs[i].body))
  {
    var lines := NoteLines(content);
    var name := TagValue(lines, 5, "Patient:");
    var generated := TagValue(lines, 10, "Generated:");
    if name != "" {
      var bs := NoteBlocks(content);
      var rs := Records(bs, name, generated, sourceFile);
      var notes := ParsedNotes(content, sourceFile);
      assert notes == Take(rs, 5);
      RecordsAt(bs, name, generated, sourceFile);
      forall i | 0 <= i < |notes|
        ensures notes[i] == Record(bs[i].header, NoteText(bs[i].body), name, generated, sourceFile)
      {
        assert notes[i] == rs[i];
      }
    }
  }

  /** At most five encounters, each numbered at most 5 and dated by its header line. */
  lemma NotesBounded(content: string, sourceFile: string)
    ensures var notes := ParsedNotes(content, sourceFile);
            && |notes| <= 5
            && forall i :: 0 <= i < |notes| ==> notes[i].encounterSequence <= 5 && IsDate(notes[i].encounterDate)
  {
    var lines := NoteLines(content);
    var kept := lines[..StopAt(lines, MatchHeader)];
    var bs := NoteBlocks(content);
    NotesAreBlocks(content, sourceFile);
    BlocksAreHeaded(kept, MatchHeader);
    forall i | 0 <= i < |bs| ensures bs[i].header.sequence <= 5 && IsDate(bs[i].header.date) {
      var k := BlockLineIndex(kept, MatchHeader, i);
      assert !StopTest(MatchHeader)(lines[k]);
      MatchIsHeaderShape(bs[i].line);
    }
  }
}
