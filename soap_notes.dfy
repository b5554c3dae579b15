/**
 * `extract_soap_components`: a note cut into its `S:`, `O:`, `A:` and `P:` sections,
 * each the text after its header followed by the non-blank lines up to the next
 * header; a section that occurs twice keeps its last occurrence.
 */
module SoapNotes {
  import opened Wrappers
  import opened Text
  import opened LineBlocks
  import opened Seqs

  datatype Section = Subjective | Objective | Assessment | Plan

  /** The four components of the returned dict. */
  datatype Soap = Soap(subjective: string, objective: string, assessment: string, plan: string)

  /** A header line: its section and the rest of the line, stripped. */
  datatype Heading = Heading(section: Section, rest: string)

  /** The dict before any section is found. */
  function NoSoap(): Soap {
    Soap("", "", "", "")
  }

  function Component(c: Soap, s: Section): string {
    match s
    case Subjective => c.subjective
    case Objective => c.objective
    case Assessment => c.assessment
    case Plan => c.plan
  }

  /** `components[s] = text`. */
  function WithComponent(c: Soap, s: Section, text: string): (r: Soap)
    ensures Component(r, s) == text
    ensures forall t :: t != s ==> Component(r, t) == Component(c, t)
  {
    match s
    case Subjective => c.(subjective := text)
    case Objective => c.(objective := text)
    case Assessment => c.(assessment := text)
    case Plan => c.(plan := text)
  }

  /** The header test on a stripped line, in the order the code tries the prefixes. */
  function SoapHeader(line: string): Option<Heading> {
    if StartsWith(line, "S:") then Some(Heading(Subjective, Strip(line[2..])))
    else if StartsWith(line, "O:") then Some(Heading(Objective, Strip(line[2..])))
    else if StartsWith(line, "A:") then Some(Heading(Assessment, Strip(line[2..])))
    else if StartsWith(line, "P:") then Some(Heading(Plan, Strip(line[2..])))
    else None
  }

  /** The non-blank lines, in order. */
  function NonBlank(lines: seq<string>): seq<string> {
    Filter(lines, IsNonBlank)
  }

  predicate IsNonBlank(line: string) {
    line != ""
  }

  /** A section's text: the rest of its header line, then its non-blank lines, joined
      and stripped. */
  function SectionText(b: Block<Heading>): string {
    Strip(Join([b.header.rest] + NonBlank(b.body), "\n"))
  }

  /** The text of the last block of section `s`, or empty when there is none. */
  function SectionOf(bs: seq<Block<Heading>>, s: Section): string {
    if bs == [] then ""
    else if bs[|bs| - 1].header.section == s then SectionText(bs[|bs| - 1])
    else SectionOf(bs[..|bs| - 1], s)
  }

  /** The components of a run of blocks. */
  function Fill(bs: seq<Block<Heading>>): Soap {
    Soap(SectionOf(bs, Subjective), SectionOf(bs, Objective), SectionOf(bs, Assessment), SectionOf(bs, Plan))
  }

  function SoapOfLines(lines: seq<string>): Soap {
    Fill(Blocks(StripAll(lines), SoapHeader))
  }

  /** The components of a note: none for an empty note, otherwise those of its lines'
      blocks. */
  function SoapOf(note: string): Soap {
    if note == "" then NoSoap() else SoapOfLines(Split(note, '\n'))
  }

  // The loop.

  /** What the loop holds after the lines whose stripped blocks are `bs`: the sections
      before the last one saved, and the last one open. */
  ghost predicate Sections(bs: seq<Block<Heading>>, current: Option<Section>, content: seq<string>, components: Soap) {
    if bs == [] then current.None? && components == NoSoap()
    else
      var last := bs[|bs| - 1];
      && current == Some(last.header.section)
      && content == [last.header.rest] + NonBlank(last.body)
      && components == Fill(bs[..|bs| - 1])
  }

  ghost predicate SoapState(lines: seq<string>, i: nat, current: Option<Section>, content: seq<string>, components: Soap) {
    i <= |lines| && Sections(FoldBlocks(StripAll(lines[..i]), SoapHeader), current, content, components)
  }

  /** The components once the open section, if any, is saved. */
  function Saved(current: Option<Section>, content: seq<string>, components: Soap): Soap {
    if current.Some? then WithComponent(components, current.value, Strip(Join(content, "\n"))) else components
  }

  lemma StripAllSnoc(lines: seq<string>, i: nat)
    requires i < |lines|
    ensures StripAll(lines[..i + 1]) == StripAll(lines[..i]) + [Strip(lines[i])]
  {
    assert lines[..i + 1][..i] == lines[..i];
  }

  /** Saving the last block's section gives the components of all the blocks. */
  lemma FillSnoc(bs: seq<Block<Heading>>)
    requires bs != []
    ensures var last := bs[|bs| - 1];
            Fill(bs) == WithComponent(Fill(bs[..|bs| - 1]), last.header.section, SectionText(last))
  {
  }

  lemma SoapStart(lines: seq<string>)
    ensures SoapState(lines, 0, None, [], NoSoap())
  {
    assert lines[..0] == [];
  }

  /** A header saves the open section and opens its own, seeded with the rest of its
      line. */
  lemma SectionsHeader(bs: seq<Block<Heading>>, line: string, current: Option<Section>, content: seq<string>, components: Soap)
    requires SoapHeader(line).Some? && Sections(bs, current, content, components)
    ensures var h := SoapHeader(line).value;
            Sections(StepBlocks(bs, line, SoapHeader), Some(h.section), [h.rest], Saved(current, content, components))
  {
    if bs != [] {
      FillSnoc(bs);
    }
    var bs' := StepBlocks(bs, line, SoapHeader);
    assert bs'[..|bs'| - 1] == bs;
  }

  /** Any other line joins the open section when it is not blank. */
  lemma SectionsOther(bs: seq<Block<Heading>>, line: string, current: Option<Section>, content: seq<string>, components: Soap)
    requires SoapHeader(line).None? && Sections(bs, current, content, components)
    ensures Sections(StepBlocks(bs, line, SoapHeader), current,
                     if current.Some? && line != "" then content + [line] else content, components)
  {
    if bs != [] {
      var last := bs[|bs| - 1];
      var bs' := StepBlocks(bs, line, SoapHeader);
      assert bs'[..|bs'| - 1] == bs[..|bs| - 1];
      FilterSnoc(last.body, line, IsNonBlank);
    }
  }

  /** The scan state after one more line is that line's step. */
  lemma SoapStep(lines: seq<string>, i: nat)
    requires i < |lines|
    ensures FoldBlocks(StripAll(lines[..i + 1]), SoapHeader)
            == StepBlocks(FoldBlocks(StripAll(lines[..i]), SoapHeader), Strip(lines[i]), SoapHeader)
  {
    StripAllSnoc(lines, i);
    FoldSnoc(StripAll(lines[..i]), Strip(lines[i]), SoapHeader);
  }

  /** At the end, saving the open section gives the components of the note's blocks. */
  lemma SoapEnd(lines: seq<string>, current: Option<Section>, content: seq<string>, components: Soap)
    requires SoapState(lines, |lines|, current, content, components)
    ensures Saved(current, content, components) == SoapOfLines(lines)
  {
    assert lines[..|lines|] == lines;
    var bs := FoldBlocks(StripAll(lines), SoapHeader);
    FoldIsBlocks(StripAll(lines), SoapHeader);
    if bs != [] {
      FillSnoc(bs);
    }
  }

  /** `extract_soap_components`. */
  method ExtractSoapComponents(noteText: string) returns (components: Soap)
    ensures components == SoapOf(noteText)
  {
    components := NoSoap();
    if noteText == "" {
      return;
    }
    var lines := Split(noteText, '\n');
    var current: Option<Section> := None;
    var content: seq<string> := [];
    SoapStart(lines);
    for i := 0 to |lines|
      invariant SoapState(lines, i, current, content, components)
    {
      var line := Strip(lines[i]);
      var heading := SoapHeader(line);
      if heading.Some? {
        SoapStep(lines, i);
        SectionsHeader(FoldBlocks(StripAll(lines[..i]), SoapHeader), line, current, content, components);
        if current.Some? {
          components := WithComponent(components, current.value, Strip(Join(content, "\n")));
        }
        current := Some(heading.value.section);
        content := [heading.value.rest];
      } else {
        SoapStep(lines, i);
        SectionsOther(FoldBlocks(StripAll(lines[..i]), SoapHeader), line, current, content, components);
        if current.Some? && line != "" {
          content := content + [line];
        }
      }
    }
    SoapEnd(lines, current, content, components);
    if current.Some? {
      components := WithComponent(components, current.value, Strip(Join(content, "\n")));
    }
  }

  // What the components are.

  /** A stripped line is a header exactly when it starts with one of the four letters
      and a colon; the section is the letter's and the rest is what follows, stripped. */
  lemma SoapHeaderIs(line: string)
    ensures SoapHeader(line).Some? <==> |line| >= 2 && line[1] == ':' && line[0] in "SOAP"
    ensures SoapHeader(line).Some? ==> SoapHeader(line).value.rest == Strip(line[2..])
    ensures SoapHeader(line).Some? ==>
              SoapHeader(line).value.section
              == (if line[0] == 'S' then Subjective else if line[0] == 'O' then Objective
                  else if line[0] == 'A' then Assessment else Plan)
  {
    if |line| >= 2 {
      assert line[..2] == [line[0], line[1]];
    }
  }

  /** The non-blank lines are the lines that are not blank, in their order. */
  lemma {:induction false} NonBlankIs(lines: seq<string>)
    ensures forall j :: 0 <= j < |NonBlank(lines)| ==> NonBlank(lines)[j] != "" && NonBlank(lines)[j] in lines
    ensures forall k :: 0 <= k < |lines| && lines[k] != "" ==> lines[k] in NonBlank(lines)
    ensures (forall k :: 0 <= k < |lines| ==> lines[k] != "") ==> NonBlank(lines) == lines
  {
    if lines != [] && forall k :: 0 <= k < |lines| ==> lines[k] != "" {
      var init, last := lines[..|lines| - 1], lines[|lines| - 1];
      assert forall k :: 0 <= k < |init| ==> init[k] == lines[k];
      NonBlankIs(init);
      assert lines == init + [last];
      FilterSnoc(init, last, IsNonBlank);
    }
  }

  /** A section holds the text of the last block of its kind. */
  lemma {:induction false} SectionOfLast(bs: seq<Block<Heading>>, s: Section, i: nat)
    requires i < |bs| && bs[i].header.section == s
    requires forall k :: i < k < |bs| ==> bs[k].header.section != s
    ensures SectionOf(bs, s) == SectionText(bs[i])
  {
    if i < |bs| - 1 {
      var init := bs[..|bs| - 1];
      assert bs[|bs| - 1].header.section != s;
      assert init[i] == bs[i];
      forall k | i < k < |init| ensures init[k].header.section != s {
        assert init[k] == bs[k];
      }
      SectionOfLast(init, s, i);
    }
  }

  /** A section with no block of its kind is empty. */
  lemma {:induction false} SectionOfNone(bs: seq<Block<Heading>>, s: Section)
    requires forall i :: 0 <= i < |bs| ==> bs[i].header.section != s
    ensures SectionOf(bs, s) == ""
  {
    if bs != [] {
      var init := bs[..|bs| - 1];
      assert bs[|bs| - 1].header.section != s;
      forall i | 0 <= i < |init| ensures init[i].header.section != s {
        assert init[i] == bs[i];
      }
      SectionOfNone(init, s);
    }
  }

  lemma {:induction false} StripAllAppend(a: seq<string>, b: seq<string>)
    ensures StripAll(a + b) == StripAll(a) + StripAll(b)
    decreases |b|
  {
    if b == [] {
      assert a + b == a;
    } else {
      var init := b[..|b| - 1];
      StripAllAppend(a, init);
      assert a + b == (a + init) + [b[|b| - 1]];
    }
  }

  /** No line is a header once stripped. */
  predicate HeaderFree(lines: seq<string>) {
    forall k :: 0 <= k < |lines| ==> SoapHeader(Strip(lines[k])).None?
  }

  /** Lines before the first header change no component. */
  lemma LeadIgnored(lead: seq<string>, rest: seq<string>)
    requires HeaderFree(lead)
    ensures SoapOfLines(lead + rest) == SoapOfLines(rest)
  {
    StripAllAppend(lead, rest);
    forall k | 0 <= k < |StripAll(lead)| ensures SoapHeader(StripAll(lead)[k]).None? {
      StripAllAt(lead, k);
    }
    BlocksIgnoreLead(StripAll(lead), StripAll(rest), SoapHeader);
  }

  /** An empty note, or one without a header line, has every component empty. */
  lemma NoHeaderNoSoap(note: string)
    requires note == "" || HeaderFree(Split(note, '\n'))
    ensures SoapOf(note) == NoSoap()
  {
    if note != "" {
      var lines := Split(note, '\n');
      forall k | 0 <= k < |StripAll(lines)| ensures SoapHeader(StripAll(lines)[k]).None? {
        StripAllAt(lines, k);
      }
      assert Blocks(StripAll(lines), SoapHeader) == [];
    }
  }
}
