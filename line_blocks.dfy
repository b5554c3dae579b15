/**
 * Cutting a list of lines into header-led blocks, the shape both note parsers walk:
 * each header line opens a block that runs up to the next header or the end, and the
 * lines before the first header belong to no block.
 */
module LineBlocks {
  import opened Wrappers

  /** A header line, what the header parser read from it, and the lines that follow it
      up to the next header. */
  datatype Block<H> = Block(line: string, header: H, body: seq<string>)

  /** The position of the last header line, if any. */
  function LastHeader<H>(lines: seq<string>, parse: string -> Option<H>): (r: Option<nat>)
    ensures r.None? <==> forall k :: 0 <= k < |lines| ==> parse(lines[k]).None?
    ensures r.Some? ==> && r.value < |lines| && parse(lines[r.value]).Some?
                        && forall k :: r.value < k < |lines| ==> parse(lines[k]).None?
  {
    if lines == [] then None
    else if parse(lines[|lines| - 1]).Some? then Some(|lines| - 1)
    else LastHeader(lines[..|lines| - 1], parse)
  }

  /** The blocks of `lines`, in order. */
  function Blocks<H>(lines: seq<string>, parse: string -> Option<H>): seq<Block<H>>
    decreases |lines|
  {
    match LastHeader(lines, parse)
    case None => []
    case Some(j) => Blocks(lines[..j], parse) + [Block(lines[j], parse(lines[j]).value, lines[j + 1..])]
  }

  /** The lines of a run of blocks, headers included. */
  function Flat<H>(bs: seq<Block<H>>): seq<string> {
    if bs == [] then [] else Flat(bs[..|bs| - 1]) + ([bs[|bs| - 1].line] + bs[|bs| - 1].body)
  }

  /** Each block starts with a header line, read as its header, and its body holds
      no header line. */
  lemma {:induction false} BlocksAreHeaded<H>(lines: seq<string>, parse: string -> Option<H>)
    ensures forall i :: 0 <= i < |Blocks(lines, parse)| ==>
              var b := Blocks(lines, parse)[i];
              && parse(b.line) == Some(b.header)
              && forall k :: 0 <= k < |b.body| ==> parse(b.body[k]).None?
    decreases |lines|
  {
    match LastHeader(lines, parse)
    case None =>
    case Some(j) =>
      BlocksAreHeaded(lines[..j], parse);
      var bs := Blocks(lines, parse);
      assert bs[..|bs| - 1] == Blocks(lines[..j], parse);
      var body := lines[j + 1..];
      forall k | 0 <= k < |body| ensures parse(body[k]).None? {
        assert body[k] == lines[j + 1 + k];
      }
  }

  /** The lines before the first header. */
  function Lead<H>(lines: seq<string>, parse: string -> Option<H>): seq<string>
    decreases |lines|
  {
    match LastHeader(lines, parse)
    case None => lines
    case Some(j) => Lead(lines[..j], parse)
  }

  /** The lines are their lead followed by the lines of their blocks: the blocks cover
      every line from the first header on, in order. */
  lemma {:induction false} BlocksCover<H>(lines: seq<string>, parse: string -> Option<H>)
    ensures lines == Lead(lines, parse) + Flat(Blocks(lines, parse))
    decreases |lines|
  {
    match LastHeader(lines, parse)
    case None =>
    case Some(j) =>
      var init := lines[..j];
      BlocksCover(init, parse);
      var bs := Blocks(lines, parse);
      assert bs[..|bs| - 1] == Blocks(init, parse);
      SplitAround(lines, j);
      Regroup(init, Lead(init, parse), Flat(Blocks(init, parse)), [lines[j]] + lines[j + 1..]);
      assert Flat(bs) == Flat(Blocks(init, parse)) + ([lines[j]] + lines[j + 1..]);
      assert Lead(lines, parse) == Lead(init, parse);
  }

  lemma SplitAround<T>(xs: seq<T>, j: nat)
    requires j < |xs|
    ensures xs == xs[..j] + ([xs[j]] + xs[j + 1..])
  {
  }

  lemma Regroup<T>(xs: seq<T>, a: seq<T>, b: seq<T>, c: seq<T>)
    requires xs == a + b
    ensures xs + c == a + (b + c)
  {
  }

  /** The lead holds no header. */
  lemma {:induction false} LeadHeaderFree<H>(lines: seq<string>, parse: string -> Option<H>)
    ensures forall k :: 0 <= k < |Lead(lines, parse)| ==> parse(Lead(lines, parse)[k]).None?
    decreases |lines|
  {
    match LastHeader(lines, parse)
    case None =>
    case Some(j) =>
      LeadHeaderFree(lines[..j], parse);
  }

  /** What one more line does to the blocks: a header opens a new, empty block; any
      other line joins the last block, or no block when there is none yet. */
  lemma BlocksSnoc<H>(lines: seq<string>, line: string, parse: string -> Option<H>)
    ensures parse(line).Some? ==>
              Blocks(lines + [line], parse) == Blocks(lines, parse) + [Block(line, parse(line).value, [])]
    ensures parse(line).None? && Blocks(lines, parse) == [] ==> Blocks(lines + [line], parse) == []
    ensures parse(line).None? && Blocks(lines, parse) != [] ==>
              var bs := Blocks(lines, parse);
              var last := bs[|bs| - 1];
              Blocks(lines + [line], parse) == bs[..|bs| - 1] + [last.(body := last.body + [line])]
  {
    var all := lines + [line];
    assert all[..|lines|] == lines;
    if parse(line).None? {
      assert LastHeader(all, parse) == LastHeader(lines, parse);
      match LastHeader(lines, parse)
      case None =>
      case Some(j) =>
        assert all[..j] == lines[..j];
        assert all[j + 1..] == lines[j + 1..] + [line];
        assert Blocks(lines, parse)[..|Blocks(lines, parse)| - 1] == Blocks(lines[..j], parse);
    } else {
      assert all[|lines| + 1..] == [];
    }
  }

  /** Lines before the first header change nothing. */
  lemma {:induction false} BlocksIgnoreLead<H>(lead: seq<string>, rest: seq<string>, parse: string -> Option<H>)
    requires forall k :: 0 <= k < |lead| ==> parse(lead[k]).None?
    ensures Blocks(lead + rest, parse) == Blocks(rest, parse)
    decreases |rest|
  {
    if rest == [] {
      assert lead + rest == lead;
    } else {
      var init, line := rest[..|rest| - 1], rest[|rest| - 1];
      BlocksIgnoreLead(lead, init, parse);
      assert lead + rest == (lead + init) + [line];
      assert rest == init + [line];
      BlocksSnoc(lead + init, line, parse);
      BlocksSnoc(init, line, parse);
    }
  }

  /** Every block's header line is one of the lines: block `i` starts at line `k`. */
  lemma {:induction false} BlockLineIndex<H>(lines: seq<string>, parse: string -> Option<H>, i: nat) returns (k: nat)
    requires i < |Blocks(lines, parse)|
    ensures k < |lines| && lines[k] == Blocks(lines, parse)[i].line
    decreases |lines|
  {
    var j :| LastHeader(lines, parse) == Some(j);
    var init := lines[..j];
    var bs := Blocks(lines, parse);
    assert bs[..|bs| - 1] == Blocks(init, parse);
    if i < |bs| - 1 {
      k := BlockLineIndex(init, parse, i);
      assert bs[i] == Blocks(init, parse)[i];
    } else {
      k := j;
    }
  }

  /** What reading one more line does to the blocks read so far. */
  function StepBlocks<H>(bs: seq<Block<H>>, line: string, parse: string -> Option<H>): seq<Block<H>> {
    match parse(line)
    case Some(h) => bs + [Block(line, h, [])]
    case None =>
      if bs == [] then []
      else
        var last := bs[|bs| - 1];
        bs[..|bs| - 1] + [last.(body := last.body + [line])]
  }

  /** The blocks as a line-by-line scan builds them. */
  function FoldBlocks<H>(lines: seq<string>, parse: string -> Option<H>): seq<Block<H>> {
    if lines == [] then []
    else StepBlocks(FoldBlocks(lines[..|lines| - 1], parse), lines[|lines| - 1], parse)
  }

  /** The scan builds exactly the blocks. */
  lemma {:induction false} FoldIsBlocks<H>(lines: seq<string>, parse: string -> Option<H>)
    ensures FoldBlocks(lines, parse) == Blocks(lines, parse)
  {
    if lines != [] {
      var init := lines[..|lines| - 1];
      FoldIsBlocks(init, parse);
      assert lines == init + [lines[|lines| - 1]];
      BlocksSnoc(init, lines[|lines| - 1], parse);
    }
  }

  /** One more line is one more step of the scan. */
  lemma FoldSnoc<H>(lines: seq<string>, line: string, parse: string -> Option<H>)
    ensures FoldBlocks(lines + [line], parse) == StepBlocks(FoldBlocks(lines, parse), line, parse)
  {
    assert (lines + [line])[..|lines|] == lines;
  }
}
