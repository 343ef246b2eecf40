/**
 * The bookkeeping of the result view's `DisplayEngine` (src/ui/display.rs):
 * the list of blocks to show, the sections that group them, the page
 * breaks computed for printing, and the cut diagram a cut list turns into.
 *
 * Drawing is not modelled: the height a block takes on the page is the
 * parameter `height` of `Paginate`, and a block keeps only the data it
 * would draw.
 */
module Display {
  import opened Wrappers
  import opened Sizes
  import opened Modeling
  import opened NaiveSolver

  /** A supply piece and the parts cut from it, in cutting order. */
  datatype CutDiagram = CutDiagram(supply: Supply, parts: seq<Part>, maxLength: Option<real>)

  /** What the engine can show. */
  datatype Block =
    | Diagram(diagram: CutDiagram)
    | Header(level: nat, text: string)
    | Paragraph(text: string)
    | Table(rows: seq<seq<string>>)

  /** `DisplayEngine::MARGIN_VERTICAL`, above and below the blocks of a page. */
  const MarginVertical: real := 10.0

  // ----- cut diagrams -----

  /** The indices of a cut list resolve in the sub-solution it belongs to. */
  predicate Resolves(cutList: CutList, sub: SubSolution)
  {
    && cutList.supplyIndex < |sub.supplies|
    && forall k :: 0 <= k < |cutList.partIndices| ==> cutList.partIndices[k] < |sub.parts|
  }

  /** `CutDiagram::from`: the supply and parts the indices of the cut list name. */
  function CutDiagramFrom(cutList: CutList, sub: SubSolution, maxLength: Option<real>): (r: CutDiagram)
    requires Resolves(cutList, sub)
    ensures r.supply == sub.supplies[cutList.supplyIndex] && r.maxLength == maxLength
    ensures |r.parts| == |cutList.partIndices|
    ensures forall k :: 0 <= k < |r.parts| ==> r.parts[k] == sub.parts[cutList.partIndices[k]]
  {
    CutDiagram(sub.supplies[cutList.supplyIndex],
               seq(|cutList.partIndices|, k requires 0 <= k < |cutList.partIndices| => sub.parts[cutList.partIndices[k]]),
               maxLength)
  }

  /** The total length of a diagram's parts. */
  function DiagramLength(parts: seq<Part>): real
  {
    if parts == [] then 0.0 else DiagramLength(parts[..|parts| - 1]) + ToMeters(parts[|parts| - 1].length)
  }

  lemma {:induction false} DiagramLengthResolved(cutList: CutList, sub: SubSolution, maxLength: Option<real>)
    requires Resolves(cutList, sub)
    ensures DiagramLength(CutDiagramFrom(cutList, sub, maxLength).parts) == PartsLength(sub.parts, cutList.partIndices)
    decreases |cutList.partIndices|
  {
    var indices := cutList.partIndices;
    if indices != [] {
      var shorter := cutList.(partIndices := indices[..|indices| - 1]);
      DiagramLengthResolved(shorter, sub, maxLength);
      var parts := CutDiagramFrom(cutList, sub, maxLength).parts;
      assert parts[..|parts| - 1] == CutDiagramFrom(shorter, sub, maxLength).parts;
    }
  }

  /**
   * A diagram of a cut list of a planned solution resolves, and its parts
   * with a blade width between each two fit on the drawn supply piece.
   */
  lemma DiagramFits(sp: SubProblem, sol: SubSolution, j: nat, maxLength: Option<real>)
    requires Satisfies(sp, sol) && j < |sol.cutLists|
    ensures Resolves(sol.cutLists[j], sol)
    ensures var d := CutDiagramFrom(sol.cutLists[j], sol, maxLength);
            DiagramLength(d.parts) + (|d.parts| - 1) as real * ToMeters(sp.bladeWidth) <= ToMeters(d.supply.length)
  {
    assert WellFormedCutList(sp, sol.cutLists[j]);
    DiagramLengthResolved(sol.cutLists[j], sol, maxLength);
  }

  // ----- page breaks -----

  /** Block heights in block order. */
  function Heights(blocks: seq<Block>, height: Block -> real): (r: seq<real>)
    ensures |r| == |blocks| && forall k :: 0 <= k < |blocks| ==> r[k] == height(blocks[k])
  {
    seq(|blocks|, k requires 0 <= k < |blocks| => height(blocks[k]))
  }

  /** Does a block of height `b` overflow a page of height `h` already filled to `y`? */
  predicate Overflows(y: real, b: real, h: real)
  {
    y != 0.0 && y + b + 2.0 * MarginVertical > h
  }

  /**
   * The breaks `paginate` pushes from block `i` on, `y` being the height
   * already used on the current page, as written: after a break `y` is
   * reset to zero, so the height of the block that starts the new page is
   * never counted.
   */
  function BreaksAsWritten(heights: seq<real>, h: real, i: nat, y: real): (r: seq<nat>)
    requires i <= |heights|
    ensures forall k :: 0 <= k < |r| ==> i <= r[k] < |heights| && (y == 0.0 ==> i < r[k])
    ensures forall a, b :: 0 <= a < b < |r| ==> r[a] < r[b]
    ensures forall a :: 0 <= a < |r| - 1 ==> r[a] + 2 <= r[a + 1]
    decreases |heights| - i
  {
    if i == |heights| then []
    else if Overflows(y, heights[i], h) then [i] + BreaksAsWritten(heights, h, i + 1, 0.0)
    else BreaksAsWritten(heights, h, i + 1, y + heights[i])
  }

  /**
   * The same greedy rule with the evident intent: the block that starts a
   * new page is on it, so its height is the page's initial `y`.
   */
  function BreaksFrom(heights: seq<real>, h: real, i: nat, y: real): (r: seq<nat>)
    requires i <= |heights|
    ensures forall k :: 0 <= k < |r| ==> i <= r[k] < |heights| && (y == 0.0 ==> i < r[k])
    ensures forall a, b :: 0 <= a < b < |r| ==> r[a] < r[b]
    decreases |heights| - i
  {
    if i == |heights| then []
    else if Overflows(y, heights[i], h) then [i] + BreaksFrom(heights, h, i + 1, heights[i])
    else BreaksFrom(heights, h, i + 1, y + heights[i])
  }

  /** The page breaks the corrected rule gives for blocks of the given heights on pages of height `h`. */
  function CorrectedBreaks(heights: seq<real>, h: real): seq<nat>
  {
    BreaksFrom(heights, h, 0, 0.0)
  }

  /** Break indices in `[1, n)`, strictly increasing. */
  predicate ValidBreaks(breaks: seq<nat>, n: nat)
  {
    && (forall k :: 0 <= k < |breaks| ==> 1 <= breaks[k] < n)
    && (forall a, b :: 0 <= a < b < |breaks| ==> breaks[a] < breaks[b])
  }

  /** Page `p` starts at the previous break, the first page at block 0. */
  function PageStart(breaks: seq<nat>, p: nat): nat
    requires p <= |breaks|
  {
    if p == 0 then 0 else breaks[p - 1]
  }

  /** Page `p` ends before its break, the last page at the end of the blocks. */
  function PageEnd(breaks: seq<nat>, n: nat, p: nat): nat
    requires p <= |breaks|
  {
    if p < |breaks| then breaks[p] else n
  }

  /** Both rules only ever break before a block other than the first, in increasing order. */
  lemma PageBreaksValid(heights: seq<real>, h: real)
    ensures ValidBreaks(CorrectedBreaks(heights, h), |heights|)
    ensures ValidBreaks(BreaksAsWritten(heights, h, 0, 0.0), |heights|)
  {
  }

  /** The pages run from block 0 to the last block, each one where the previous one ends. */
  lemma PagesTile(breaks: seq<nat>, n: nat)
    requires ValidBreaks(breaks, n)
    ensures PageStart(breaks, 0) == 0 && PageEnd(breaks, n, |breaks|) == n
    ensures forall p :: 0 <= p < |breaks| ==> PageEnd(breaks, n, p) == PageStart(breaks, p + 1)
    ensures forall p :: 0 <= p <= |breaks| ==> PageStart(breaks, p) <= PageEnd(breaks, n, p) <= n
    ensures n > 0 ==> forall p :: 0 <= p <= |breaks| ==> PageStart(breaks, p) < PageEnd(breaks, n, p)
  {
    forall p | 0 <= p <= |breaks| ensures PageStart(breaks, p) <= PageEnd(breaks, n, p) <= n
      && (n > 0 ==> PageStart(breaks, p) < PageEnd(breaks, n, p))
    {
      if 0 < p < |breaks| {
        assert breaks[p - 1] < breaks[p];
      }
    }
  }

  /** An earlier page ends no later than a later page starts. */
  lemma PageOrder(breaks: seq<nat>, n: nat, p1: nat, p2: nat)
    requires ValidBreaks(breaks, n) && p1 < p2 <= |breaks|
    ensures PageEnd(breaks, n, p1) <= PageStart(breaks, p2)
  {
    if p1 < p2 - 1 {
      assert breaks[p1] < breaks[p2 - 1];
    }
  }

  /** Every block is on exactly one page. */
  lemma BlockOnOnePage(breaks: seq<nat>, n: nat, b: nat)
    requires ValidBreaks(breaks, n) && b < n
    ensures exists p :: 0 <= p <= |breaks| && PageStart(breaks, p) <= b < PageEnd(breaks, n, p)
    ensures forall p1, p2 :: && 0 <= p1 <= |breaks| && PageStart(breaks, p1) <= b < PageEnd(breaks, n, p1)
                             && 0 <= p2 <= |breaks| && PageStart(breaks, p2) <= b < PageEnd(breaks, n, p2)
                             ==> p1 == p2
  {
    var p := 0;
    while p < |breaks| && breaks[p] <= b
      invariant p <= |breaks|
      invariant p > 0 ==> breaks[p - 1] <= b
    {
      p := p + 1;
    }
    assert PageStart(breaks, p) <= b < PageEnd(breaks, n, p);
    forall p1, p2 | && 0 <= p1 <= |breaks| && PageStart(breaks, p1) <= b < PageEnd(breaks, n, p1)
                    && 0 <= p2 <= |breaks| && PageStart(breaks, p2) <= b < PageEnd(breaks, n, p2)
      ensures p1 == p2
    {
      if p1 < p2 {
        PageOrder(breaks, n, p1, p2);
      } else if p2 < p1 {
        PageOrder(breaks, n, p2, p1);
      }
    }
  }

  // ----- page fill -----

  /** The total height of blocks `s` up to but not including `e`. */
  function Sum(heights: seq<real>, s: nat, e: nat): real
    requires e <= |heights|
    decreases e
  {
    if e <= s then 0.0 else Sum(heights, s, e - 1) + heights[e - 1]
  }

  /**
   * Blocks `s` to `e` fit on a page of height `h` with its margins, unless
   * the page is one block, after nothing but blocks of no height, that is
   * too tall on its own.
   */
  predicate PageFits(heights: seq<real>, h: real, s: nat, e: nat)
    requires s < e <= |heights|
  {
    Sum(heights, s, e - 1) == 0.0 || Sum(heights, s, e) + 2.0 * MarginVertical <= h
  }

  /**
   * Scanning from block `i`, on a page begun at block `s` and filled so
   * far to `y` without overflowing, every page the corrected rule closes
   * fits.
   */
  lemma {:induction false} BreaksFromFit(heights: seq<real>, h: real, i: nat, y: real, s: nat)
    requires s <= i <= |heights| && y == Sum(heights, s, i)
    requires s < i ==> PageFits(heights, h, s, i)
    ensures var r := BreaksFrom(heights, h, i, y);
            && (r != [] && s < r[0] ==> PageFits(heights, h, s, r[0]))
            && (r == [] && s < |heights| ==> PageFits(heights, h, s, |heights|))
            && (forall p :: 0 <= p < |r| - 1 ==> PageFits(heights, h, r[p], r[p + 1]))
            && (r != [] ==> PageFits(heights, h, r[|r| - 1], |heights|))
    decreases |heights| - i, 1
  {
    if i < |heights| {
      if Overflows(y, heights[i], h) {
        BreakStepFit(heights, h, i, y, s);
      } else {
        FillStepFit(heights, h, i, y, s);
      }
    }
  }

  lemma {:induction false} BreakStepFit(heights: seq<real>, h: real, i: nat, y: real, s: nat)
    requires s <= i < |heights| && y == Sum(heights, s, i)
    requires s < i ==> PageFits(heights, h, s, i)
    requires Overflows(y, heights[i], h)
    ensures var r := BreaksFrom(heights, h, i, y);
            && (r != [] && s < r[0] ==> PageFits(heights, h, s, r[0]))
            && (forall p :: 0 <= p < |r| - 1 ==> PageFits(heights, h, r[p], r[p + 1]))
            && (r != [] ==> PageFits(heights, h, r[|r| - 1], |heights|))
    decreases |heights| - i, 0
  {
    assert Sum(heights, i, i + 1) == heights[i];
    BreaksFromFit(heights, h, i + 1, heights[i], i);
    BreakFits(heights, h, i, s, BreaksFrom(heights, h, i + 1, heights[i]));
  }

  lemma {:induction false} FillStepFit(heights: seq<real>, h: real, i: nat, y: real, s: nat)
    requires s <= i < |heights| && y == Sum(heights, s, i)
    requires s < i ==> PageFits(heights, h, s, i)
    requires !Overflows(y, heights[i], h)
    ensures var r := BreaksFrom(heights, h, i, y);
            && (r != [] && s < r[0] ==> PageFits(heights, h, s, r[0]))
            && (r == [] && s < |heights| ==> PageFits(heights, h, s, |heights|))
            && (forall p :: 0 <= p < |r| - 1 ==> PageFits(heights, h, r[p], r[p + 1]))
            && (r != [] ==> PageFits(heights, h, r[|r| - 1], |heights|))
    decreases |heights| - i, 0
  {
    assert Sum(heights, s, i + 1) == y + heights[i];
    BreaksFromFit(heights, h, i + 1, y + heights[i], s);
    assert BreaksFrom(heights, h, i, y) == BreaksFrom(heights, h, i + 1, y + heights[i]);
  }

  /** A break at `i` closes the page begun at `s` and starts the pages `rest` describes. */
  lemma BreakFits(heights: seq<real>, h: real, i: nat, s: nat, rest: seq<nat>)
    requires s <= i < |heights| && (s < i ==> PageFits(heights, h, s, i))
    requires forall k :: 0 <= k < |rest| ==> i < rest[k] < |heights|
    requires forall a, b :: 0 <= a < b < |rest| ==> rest[a] < rest[b]
    requires rest != [] ==> PageFits(heights, h, i, rest[0])
    requires rest == [] ==> PageFits(heights, h, i, |heights|)
    requires forall p :: 0 <= p < |rest| - 1 ==> PageFits(heights, h, rest[p], rest[p + 1])
    requires rest != [] ==> PageFits(heights, h, rest[|rest| - 1], |heights|)
    ensures var r := [i] + rest;
            && (s < r[0] ==> PageFits(heights, h, s, r[0]))
            && (forall p :: 0 <= p < |r| - 1 ==> PageFits(heights, h, r[p], r[p + 1]))
            && PageFits(heights, h, r[|r| - 1], |heights|)
  {
    var r := [i] + rest;
    forall p | 0 <= p < |r| - 1 ensures PageFits(heights, h, r[p], r[p + 1]) {
      if p > 0 {
        assert r[p] == rest[p - 1] && r[p + 1] == rest[p];
      }
    }
  }

  /** Every page of the corrected rule fits, save a lone block too tall on its own. */
  lemma PageBreaksFit(heights: seq<real>, h: real)
    ensures var r := CorrectedBreaks(heights, h);
            forall p :: 0 <= p <= |r| && PageStart(r, p) < PageEnd(r, |heights|, p)
                     ==> PageFits(heights, h, PageStart(r, p), PageEnd(r, |heights|, p))
  {
    var r := CorrectedBreaks(heights, h);
    BreaksFromFit(heights, h, 0, 0.0, 0);
    forall p | 0 <= p <= |r| && PageStart(r, p) < PageEnd(r, |heights|, p)
      ensures PageFits(heights, h, PageStart(r, p), PageEnd(r, |heights|, p))
    {
      if 0 < p < |r| {
        var q := p - 1;
        assert PageFits(heights, h, r[q], r[q + 1]);
        assert q + 1 == p;
      }
    }
  }

  /**
   * As written, the rule can put on one page more than fits: for blocks of
   * heights 10, 40 and 40 on pages of height 50 it breaks only before the
   * second block, and the second page holds 80 of height.
   */
  lemma AsWrittenOverfills()
    ensures var heights := [10.0, 40.0, 40.0];
            && BreaksAsWritten(heights, 50.0, 0, 0.0) == [1]
            && !PageFits(heights, 50.0, 1, 3)
            && CorrectedBreaks(heights, 50.0) == [1, 2]
  {
    var heights := [10.0, 40.0, 40.0];
    assert BreaksAsWritten(heights, 50.0, 3, 40.0) == [];
    assert BreaksAsWritten(heights, 50.0, 2, 0.0) == [];
    assert BreaksAsWritten(heights, 50.0, 1, 10.0) == [1];
    assert Sum(heights, 1, 2) == 40.0;
    assert Sum(heights, 1, 3) == 80.0;
    assert BreaksFrom(heights, 50.0, 3, 40.0) == [];
    assert BreaksFrom(heights, 50.0, 2, 40.0) == [2];
    assert BreaksFrom(heights, 50.0, 1, 10.0) == [1, 2];
  }

  /** Page `p` of `breaks` without the block that opened it; the first page has no such block. */
  function CountedStart(breaks: seq<nat>, p: nat): nat
    requires p <= |breaks|
  {
    if p == 0 then 0 else breaks[p - 1] + 1
  }

  /**
   * What the rule as written does keep: the page begun at `s` fits before
   * the first break, and every later page fits once the block that opened
   * it is left out.
   */
  predicate CountedPagesFit(heights: seq<real>, h: real, s: nat, r: seq<nat>)
    requires s <= |heights| && forall k :: 0 <= k < |r| ==> r[k] < |heights|
  {
    && (r != [] && s < r[0] ==> PageFits(heights, h, s, r[0]))
    && (r == [] && s < |heights| ==> PageFits(heights, h, s, |heights|))
    && (forall p :: 0 <= p < |r| - 1 && r[p] + 1 < r[p + 1] ==> PageFits(heights, h, r[p] + 1, r[p + 1]))
    && (r != [] && r[|r| - 1] + 1 < |heights| ==> PageFits(heights, h, r[|r| - 1] + 1, |heights|))
  }

  /**
   * Scanning from block `i` as written, on a page begun at block `s` and
   * filled so far to `y` without overflowing, the pages closed fit in the
   * sense of `CountedPagesFit`.
   */
  lemma {:induction false} AsWrittenFit(heights: seq<real>, h: real, i: nat, y: real, s: nat)
    requires s <= i <= |heights| && y == Sum(heights, s, i)
    requires s < i ==> PageFits(heights, h, s, i)
    ensures CountedPagesFit(heights, h, s, BreaksAsWritten(heights, h, i, y))
    decreases |heights| - i
  {
    if i < |heights| {
      if Overflows(y, heights[i], h) {
        AsWrittenFit(heights, h, i + 1, 0.0, i + 1);
        AsWrittenBreakFits(heights, h, i, s, BreaksAsWritten(heights, h, i + 1, 0.0));
      } else {
        assert Sum(heights, s, i + 1) == y + heights[i];
        AsWrittenFit(heights, h, i + 1, y + heights[i], s);
      }
    }
  }

  /** A break at `i` as written closes the page begun at `s`; the next page is counted from `i + 1`. */
  lemma AsWrittenBreakFits(heights: seq<real>, h: real, i: nat, s: nat, rest: seq<nat>)
    requires s < i < |heights| && PageFits(heights, h, s, i)
    requires forall k :: 0 <= k < |rest| ==> i + 1 < rest[k] < |heights|
    requires CountedPagesFit(heights, h, i + 1, rest)
    ensures CountedPagesFit(heights, h, s, [i] + rest)
  {
    var r := [i] + rest;
    forall p | 0 <= p < |r| - 1 && r[p] + 1 < r[p + 1] ensures PageFits(heights, h, r[p] + 1, r[p + 1]) {
      if p > 0 {
        assert r[p] == rest[p - 1] && r[p + 1] == rest[p];
      }
    }
  }

  /**
   * As written, the first page fits, and every later page fits once the
   * block that opened it is left out: the break decision never counts
   * that block.
   */
  lemma AsWrittenPagesFit(heights: seq<real>, h: real)
    ensures var r := BreaksAsWritten(heights, h, 0, 0.0);
            forall p :: 0 <= p <= |r| && CountedStart(r, p) < PageEnd(r, |heights|, p)
                     ==> PageFits(heights, h, CountedStart(r, p), PageEnd(r, |heights|, p))
  {
    var r := BreaksAsWritten(heights, h, 0, 0.0);
    AsWrittenFit(heights, h, 0, 0.0, 0);
    forall p | 0 <= p <= |r| && CountedStart(r, p) < PageEnd(r, |heights|, p)
      ensures PageFits(heights, h, CountedStart(r, p), PageEnd(r, |heights|, p))
    {
      if 0 < p < |r| {
        var q := p - 1;
        assert r[q] + 1 < r[q + 1];
        assert PageFits(heights, h, r[q] + 1, r[q + 1]);
        assert q + 1 == p;
      }
    }
  }

  // ----- the engine -----

  /** The blocks of a result view, its sections and, once computed, its page breaks. */
  class DisplayEngine {
    var blocks: seq<Block>
    /** The first block and the end of each closed section. */
    var sections: seq<(nat, nat)>
    var openSection: Option<nat>
    var pagination: Option<seq<nat>>

    /**
     * Sections lie within the blocks and close in order, an open section
     * starts at most at the end of the blocks, and page breaks are valid.
     */
    ghost predicate Valid()
      reads this
    {
      && (forall k :: 0 <= k < |sections| ==> sections[k].0 <= sections[k].1 <= |blocks|)
      && (forall a, b :: 0 <= a < b < |sections| ==> sections[a].1 <= sections[b].1)
      && (openSection.Some? ==> openSection.value <= |blocks|)
      && (pagination.Some? ==> ValidBreaks(pagination.value, |blocks|))
    }

    /** `DisplayEngine::default()`. */
    constructor()
      ensures Valid()
      ensures blocks == [] && sections == [] && openSection == None && pagination == None
    {
      blocks := [];
      sections := [];
      openSection := None;
      pagination := None;
    }

    method AppendBlock(block: Block)
      requires Valid()
      modifies this
      ensures Valid()
      ensures blocks == old(blocks) + [block]
      ensures sections == old(sections) && openSection == old(openSection) && pagination == old(pagination)
    {
      blocks := blocks + [block];
    }

    /** `append_cut_diagram`: the diagram of one cut list. */
    method AppendCutDiagram(cutList: CutList, sub: SubSolution, maxLength: Option<real>)
      requires Valid() && Resolves(cutList, sub)
      modifies this
      ensures Valid()
      ensures blocks == old(blocks) + [Diagram(CutDiagramFrom(cutList, sub, maxLength))]
      ensures sections == old(sections) && openSection == old(openSection) && pagination == old(pagination)
    {
      AppendBlock(Diagram(CutDiagramFrom(cutList, sub, maxLength)));
    }

    method Clear()
      modifies this
      ensures Valid()
      ensures blocks == [] && sections == [] && openSection == None && pagination == None
    {
      blocks := [];
      sections := [];
      openSection := None;
      pagination := None;
    }

    /** The next block appended is the first of the section. */
    method StartSection()
      requires Valid()
      modifies this
      ensures Valid()
      ensures openSection == Some(|blocks|)
      ensures blocks == old(blocks) && sections == old(sections) && pagination == old(pagination)
    {
      openSection := Some(|blocks|);
    }

    /** Closes the open section at the end of the blocks; the source panics if none is open. */
    method EndSection()
      requires Valid() && openSection.Some?
      modifies this
      ensures Valid()
      ensures sections == old(sections) + [(old(openSection).value, |blocks|)]
      ensures openSection == None
      ensures blocks == old(blocks) && pagination == old(pagination)
    {
      sections := sections + [(openSection.value, |blocks|)];
      openSection := None;
    }

    /**
     * `paginate`: one pass over the blocks, breaking before a block that
     * would overflow a page already holding something. As in the source,
     * the height used on the new page restarts at zero, so the block that
     * caused the break is not counted on it (`BreaksAsWritten`).
     */
    method Paginate(height: Block -> real, h: real)
      requires Valid()
      modifies this
      ensures Valid()
      ensures pagination == Some(BreaksAsWritten(Heights(blocks, height), h, 0, 0.0))
      ensures blocks == old(blocks) && sections == old(sections) && openSection == old(openSection)
    {
      var all := blocks;
      ghost var heights := Heights(all, height);
      var breaks: seq<nat> := [];
      var y := 0.0;
      for i := 0 to |all|
        invariant unchanged(this)
        invariant breaks + BreaksAsWritten(heights, h, i, y) == BreaksAsWritten(heights, h, 0, 0.0)
      {
        var b := height(all[i]);
        assert b == heights[i];
        if y != 0.0 && y + b + 2.0 * MarginVertical > h {
          assert BreaksAsWritten(heights, h, i, y) == [i] + BreaksAsWritten(heights, h, i + 1, 0.0);
          assert breaks + [i] + BreaksAsWritten(heights, h, i + 1, 0.0)
              == breaks + ([i] + BreaksAsWritten(heights, h, i + 1, 0.0));
          breaks := breaks + [i];
          y := 0.0;
        } else {
          y := y + b;
        }
      }
      assert breaks == BreaksAsWritten(heights, h, 0, 0.0) by {
        assert breaks + [] == breaks;
      }
      PageBreaksValid(heights, h);
      pagination := Some(breaks);
    }

    /** `n_pages`: one page more than there are breaks; the source panics before `paginate`. */
    function NPages(): (n: nat)
      reads this
      requires pagination.Some?
      ensures n >= 1
    {
      |pagination.value| + 1
    }

    /** The blocks `draw_page` draws for page `i`. */
    method PageBlocks(i: nat) returns (page: seq<Block>)
      requires Valid() && pagination.Some? && i < NPages()
      ensures page == blocks[PageStart(pagination.value, i)..PageEnd(pagination.value, |blocks|, i)]
    {
      PagesTile(pagination.value, |blocks|);
      var j := if i != 0 then pagination.value[i - 1] else 0;
      var k := if i < NPages() - 1 then pagination.value[i] else |blocks|;
      page := blocks[j..k];
    }
  }
}
