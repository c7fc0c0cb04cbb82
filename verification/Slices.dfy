// Cutting page blocks into bounded parts while avoiding atomic elements (server/render/layout.go).
module Slices {

  const MIN_PART_HEIGHT: int := 320
  const DEFAULT_SLICE_HEIGHT: int := 960

  datatype Block = Block(id: string, kind: string, y: int, w: int, h: int)

  datatype Atomic = Atomic(y: int, h: int)

  datatype Cut = Cut(start: int, end: int)

  datatype Slice = Slice(blockId: string, kind: string, part: string, y: int, height: int)

  predicate Crosses(e: Atomic, cut: int) {
    e.y < cut < e.y + e.h
  }

  predicate CrossesAny(atomic: seq<Atomic>, cut: int) {
    exists i :: 0 <= i < |atomic| && Crosses(atomic[i], cut)
  }

  // ----- where a part ends -----

  datatype Boundary = NoBoundary | BoundaryAt(y: int)

  /** The earliest start of the first n elements that cross the cut. */
  function BoundaryOf(atomic: seq<Atomic>, n: nat, cut: int): Boundary
    requires n <= |atomic|
    decreases |atomic|, n
  {
    if n == 0 then NoBoundary
    else
      var before := BoundaryOf(atomic, n - 1, cut);
      var e := atomic[n - 1];
      if Crosses(e, cut) && (before.NoBoundary? || e.y < before.y) then BoundaryAt(e.y) else before
  }

  lemma {:induction false} BoundaryIsEarliest(atomic: seq<Atomic>, n: nat, cut: int)
    requires n <= |atomic|
    ensures var b := BoundaryOf(atomic, n, cut);
            && (b.NoBoundary? <==> forall i :: 0 <= i < n ==> !Crosses(atomic[i], cut))
            && (b.BoundaryAt? ==> exists i :: 0 <= i < n && Crosses(atomic[i], cut) && atomic[i].y == b.y)
            && (b.BoundaryAt? ==> forall i :: 0 <= i < n && Crosses(atomic[i], cut) ==> b.y <= atomic[i].y)
  {
    if n > 0 {
      BoundaryIsEarliest(atomic, n - 1, cut);
    }
  }

  method AtomicBoundary(atomic: seq<Atomic>, cut: int) returns (best: int, found: bool)
    ensures BoundaryOf(atomic, |atomic|, cut) == if found then BoundaryAt(best) else NoBoundary
  {
    best, found := 0, false;
    for n := 0 to |atomic|
      invariant BoundaryOf(atomic, n, cut) == if found then BoundaryAt(best) else NoBoundary
    {
      var element := atomic[n];
      if element.y < cut && element.y + element.h > cut {
        if !found || element.y < best {
          best, found := element.y, true;
        }
      }
    }
  }

  /** Where the part that starts at the cursor is cut: at most max below, or 2 px above an element in the way. */
  function CutAfter(atomic: seq<Atomic>, cursor: int, max: int): (r: int)
    requires max > 0
    ensures cursor < r <= cursor + max
    ensures r == cursor + max || r > cursor + MIN_PART_HEIGHT
  {
    var b := BoundaryOf(atomic, |atomic|, cursor + max);
    BoundaryIsEarliest(atomic, |atomic|, cursor + max);
    if b.BoundaryAt? && b.y - 2 - cursor > MIN_PART_HEIGHT then b.y - 2 else cursor + max
  }

  function CutsFrom(atomic: seq<Atomic>, cursor: int, end: int, max: int): seq<Cut>
    requires max > 0
    decreases end - cursor
  {
    if end - cursor > max then
      var next := CutAfter(atomic, cursor, max);
      [Cut(cursor, next)] + CutsFrom(atomic, next, end, max)
    else if end > cursor then [Cut(cursor, end)]
    else []
  }

  function Cuts(b: Block, atomic: seq<Atomic>, max: int): seq<Cut>
    requires max > 0
  {
    CutsFrom(atomic, b.y, b.y + b.h, max)
  }

  lemma NextCut(cuts: seq<Cut>, atomic: seq<Atomic>, cursor: int, end: int, max: int)
    requires max > 0 && end - cursor > max
    ensures var next := CutAfter(atomic, cursor, max);
            cuts + [Cut(cursor, next)] + CutsFrom(atomic, next, end, max) == cuts + CutsFrom(atomic, cursor, end, max)
  {
  }

  method PlanBlockCuts(b: Block, atomic: seq<Atomic>, max: int) returns (cuts: seq<Cut>)
    requires max > 0
    ensures cuts == Cuts(b, atomic, max)
  {
    var cursor, end := b.y, b.y + b.h;
    cuts := [];
    while end - cursor > max
      invariant cuts + CutsFrom(atomic, cursor, end, max) == Cuts(b, atomic, max)
      decreases end - cursor
    {
      var candidate := cursor + max;
      var boundary, ok := AtomicBoundary(atomic, candidate);
      if ok {
        var safe := boundary - 2 - cursor;
        if safe > MIN_PART_HEIGHT {
          candidate := cursor + safe;
        }
      }
      if candidate <= cursor {
        candidate := cursor + max;
      }
      NextCut(cuts, atomic, cursor, end, max);
      cuts := cuts + [Cut(cursor, candidate)];
      cursor := candidate;
    }
    if end > cursor {
      cuts := cuts + [Cut(cursor, end)];
    }
  }

  // ----- the cuts tile the block -----

  predicate Tiles(cuts: seq<Cut>, start: int, end: int, max: int) {
    && (cuts == [] <==> start >= end)
    && (cuts != [] ==> cuts[0].start == start && cuts[|cuts| - 1].end == end)
    && (forall i :: 0 <= i < |cuts| ==> cuts[i].start < cuts[i].end <= cuts[i].start + max)
    && (forall i, j :: 0 <= i && j == i + 1 < |cuts| ==> cuts[i].end == cuts[j].start)
    && (forall i :: 0 <= i < |cuts| - 1 ==> cuts[i].end - cuts[i].start == max || cuts[i].end - cuts[i].start > MIN_PART_HEIGHT)
  }

  lemma {:induction false} CutsTileFrom(atomic: seq<Atomic>, cursor: int, end: int, max: int)
    requires max > 0
    ensures Tiles(CutsFrom(atomic, cursor, end, max), cursor, end, max)
    decreases end - cursor
  {
    if end - cursor > max {
      var next := CutAfter(atomic, cursor, max);
      CutsTileFrom(atomic, next, end, max);
      var rest := CutsFrom(atomic, next, end, max);
      var cuts := CutsFrom(atomic, cursor, end, max);
      assert forall i :: 1 <= i < |cuts| ==> cuts[i] == rest[i - 1];
    }
  }

  /**
   * For every block and every positive maximum height, the parts cover the block from top to bottom
   * without gap or overlap; none is empty or too high, and none but the last is a sliver.
   */
  lemma CutsTile(b: Block, atomic: seq<Atomic>, max: int)
    requires max > 0
    ensures Tiles(Cuts(b, atomic, max), b.y, b.y + b.h, max)
  {
    CutsTileFrom(atomic, b.y, b.y + b.h, max);
  }

  /** So every row of the block is in exactly one part. */
  lemma EachRowInOnePart(cuts: seq<Cut>, start: int, end: int, max: int, row: int) returns (k: nat)
    requires Tiles(cuts, start, end, max) && start <= row < end
    ensures k < |cuts| && cuts[k].start <= row < cuts[k].end
    ensures forall i :: 0 <= i < |cuts| && cuts[i].start <= row < cuts[i].end ==> i == k
  {
    k := 0;
    while row >= cuts[k].end
      invariant k < |cuts| && cuts[k].start <= row
      decreases |cuts| - k
    {
      k := k + 1;
    }
    forall i | 0 <= i < |cuts| && cuts[i].start <= row < cuts[i].end ensures i == k {
      if i < k { Ordered(cuts, start, end, max, i, k); }
      if k < i { Ordered(cuts, start, end, max, k, i); }
    }
  }

  lemma {:induction false} Ordered(cuts: seq<Cut>, start: int, end: int, max: int, i: nat, k: nat)
    requires Tiles(cuts, start, end, max) && i < k < |cuts|
    ensures cuts[i].end <= cuts[k].start
    decreases k - i
  {
    assert cuts[i].end == cuts[i + 1].start;
    if i + 1 < k {
      Ordered(cuts, start, end, max, i + 1, k);
    }
  }

  // ----- cuts and atomic elements -----

  /** Two elements are nested, or at least 2 px apart. */
  predicate Separate(a: Atomic, b: Atomic) {
    || (a.y <= b.y && b.y + b.h <= a.y + a.h)
    || (b.y <= a.y && a.y + a.h <= b.y + b.h)
    || a.y + a.h + 2 <= b.y
    || b.y + b.h + 2 <= a.y
  }

  predicate WellPlaced(atomic: seq<Atomic>) {
    forall i, j :: 0 <= i < |atomic| && 0 <= j < |atomic| ==> Separate(atomic[i], atomic[j])
  }

  /** An element crosses the hard cut and starts so near the part's top that cutting above it would leave a sliver. */
  predicate Forced(atomic: seq<Atomic>, cursor: int, max: int) {
    exists i :: 0 <= i < |atomic| && Crosses(atomic[i], cursor + max) && atomic[i].y <= cursor + 322
  }

  /** On well placed elements, a cut crosses one exactly when it is a forced hard cut. */
  lemma CutCrossesOnlyForced(atomic: seq<Atomic>, cursor: int, max: int)
    requires max > 0 && WellPlaced(atomic)
    ensures CrossesAny(atomic, CutAfter(atomic, cursor, max)) <==> Forced(atomic, cursor, max)
    ensures Forced(atomic, cursor, max) ==> CutAfter(atomic, cursor, max) == cursor + max
  {
    var b := BoundaryOf(atomic, |atomic|, cursor + max);
    var cut := CutAfter(atomic, cursor, max);
    BoundaryIsEarliest(atomic, |atomic|, cursor + max);
    if b.BoundaryAt? && b.y - 2 - cursor > MIN_PART_HEIGHT {
      var k :| 0 <= k < |atomic| && Crosses(atomic[k], cursor + max) && atomic[k].y == b.y;
      forall i | 0 <= i < |atomic| ensures !Crosses(atomic[i], cut) {
        assert Separate(atomic[i], atomic[k]);
      }
    }
  }

  /** The earliest start of the elements that cross the cut. */
  predicate EarliestCrossing(atomic: seq<Atomic>, cut: int, y: int) {
    && (exists i :: 0 <= i < |atomic| && Crosses(atomic[i], cut) && atomic[i].y == y)
    && (forall i :: 0 <= i < |atomic| && Crosses(atomic[i], cut) ==> y <= atomic[i].y)
  }

  /**
   * A part is as high as it may be, unless elements cross that cut: then it ends 2 px above the one that
   * starts first, if that leaves more than the least height.
   */
  lemma CutIsExactly(atomic: seq<Atomic>, cursor: int, max: int, y: int)
    requires max > 0
    ensures !CrossesAny(atomic, cursor + max) ==> CutAfter(atomic, cursor, max) == cursor + max
    ensures EarliestCrossing(atomic, cursor + max, y) ==>
              CutAfter(atomic, cursor, max) == if y - 2 - cursor > MIN_PART_HEIGHT then y - 2 else cursor + max
  {
    BoundaryIsEarliest(atomic, |atomic|, cursor + max);
  }

  /** Each part but the last is cut so; the last one takes what is left, and that is no more than the maximum. */
  lemma {:induction false} EachCutIsExact(atomic: seq<Atomic>, cursor: int, end: int, max: int, k: nat)
    requires max > 0 && k < |CutsFrom(atomic, cursor, end, max)|
    ensures var cuts := CutsFrom(atomic, cursor, end, max); var c := cuts[k];
            if k < |cuts| - 1 then end - c.start > max && c.end == CutAfter(atomic, c.start, max)
            else end - c.start <= max && c.end == end
    decreases k
  {
    if k > 0 {
      var next := CutAfter(atomic, cursor, max);
      EachCutIsExact(atomic, next, end, max, k - 1);
      assert CutsFrom(atomic, cursor, end, max)[1..] == CutsFrom(atomic, next, end, max);
    } else if end - cursor > max {
      CutsTileFrom(atomic, CutAfter(atomic, cursor, max), end, max);
    }
  }

  /** Every inner cut of a block crosses no atomic element, but for forced hard cuts. */
  lemma {:induction false} InnerCutsAvoid(atomic: seq<Atomic>, cursor: int, end: int, max: int, k: nat)
    requires max > 0 && WellPlaced(atomic)
    requires k < |CutsFrom(atomic, cursor, end, max)| - 1
    ensures var c := CutsFrom(atomic, cursor, end, max)[k];
            && (CrossesAny(atomic, c.end) <==> Forced(atomic, c.start, max))
            && (CrossesAny(atomic, c.end) ==> c.end == c.start + max)
    decreases k
  {
    var next := CutAfter(atomic, cursor, max);
    if k == 0 {
      CutCrossesOnlyForced(atomic, cursor, max);
    } else {
      InnerCutsAvoid(atomic, next, end, max, k - 1);
    }
  }

  /** With elements only 1 px apart, a cut placed 2 px above one of them can cross the other, though nothing forces it. */
  lemma CloseElementsAreCrossed()
    ensures var atomic := [Atomic(500, 600), Atomic(400, 99)];
            && CutAfter(atomic, 0, 1000) == 498 && CrossesAny(atomic, 498) && !Forced(atomic, 0, 1000)
  {
    var atomic := [Atomic(500, 600), Atomic(400, 99)];
    assert BoundaryOf(atomic, 0, 1000) == NoBoundary;
    assert BoundaryOf(atomic, 1, 1000) == BoundaryAt(500);
    assert BoundaryOf(atomic, 2, 1000) == BoundaryAt(500);
    assert Crosses(atomic[1], 498);
  }

  // ----- the part labels -----

  function Digit(d: nat): char
    requires d < 10
  {
    '0' + d as char
  }

  function Decimal(n: nat): (r: string)
    ensures r != ""
  {
    if n < 10 then [Digit(n)] else Decimal(n / 10) + [Digit(n % 10)]
  }

  /** The number a string of digits stands for. */
  function Value(s: string): int {
    if s == "" then 0 else 10 * Value(s[..|s| - 1]) + (s[|s| - 1] as int - '0' as int)
  }

  lemma {:induction false} DecimalReads(n: nat)
    ensures Value(Decimal(n)) == n
  {
    var s := Decimal(n);
    if n < 10 {
      assert s[..0] == "";
    } else {
      DecimalReads(n / 10);
      assert s[..|s| - 1] == Decimal(n / 10);
    }
  }

  /** Digits alone, and no zero in front but for zero itself. */
  predicate Numeral(s: string) {
    && s != "" && (forall i :: 0 <= i < |s| ==> '0' <= s[i] <= '9')
    && (|s| > 1 ==> s[0] != '0')
  }

  lemma {:induction false} DecimalIsNumeral(n: nat)
    ensures Numeral(Decimal(n)) && (n > 0 ==> Decimal(n)[0] != '0')
  {
    if n >= 10 {
      DecimalIsNumeral(n / 10);
    }
  }

  lemma DecimalInjective(m: nat, n: nat)
    requires Decimal(m) == Decimal(n)
    ensures m == n
  {
    DecimalReads(m);
    DecimalReads(n);
  }

  function Reversed(s: seq<char>): (r: seq<char>)
    ensures |r| == |s|
  {
    if s == [] then [] else Reversed(s[1..]) + [s[0]]
  }

  lemma {:induction false} ReversedAt(s: seq<char>, k: nat)
    requires k < |s|
    ensures Reversed(s)[k] == s[|s| - 1 - k]
  {
    if k < |s| - 1 {
      ReversedAt(s[1..], k);
    }
  }

  lemma ReversedIs(s: seq<char>, r: seq<char>)
    requires |r| == |s| && forall k :: 0 <= k < |s| ==> r[k] == s[|s| - 1 - k]
    ensures r == Reversed(s)
  {
    forall k | 0 <= k < |s| ensures r[k] == Reversed(s)[k] {
      ReversedAt(s, k);
    }
  }

  lemma {:induction false} ReversedSnoc(s: seq<char>, c: char)
    ensures Reversed(s + [c]) == [c] + Reversed(s)
  {
    if s != [] {
      assert (s + [c])[1..] == s[1..] + [c];
      ReversedSnoc(s[1..], c);
    }
  }

  lemma NextDigit(v: nat, digits: seq<char>)
    requires v > 0
    ensures var more := Reversed(digits + [Digit(v % 10)]);
            && (v / 10 > 0 ==> Decimal(v / 10) + more == Decimal(v) + Reversed(digits))
            && (v / 10 == 0 ==> more == Decimal(v) + Reversed(digits))
  {
    ReversedSnoc(digits, Digit(v % 10));
  }

  /** Writes the digits from the last to the first, then reverses the buffer in place. */
  method Itoa(value: int) returns (r: string)
    ensures value >= 0 ==> r == Decimal(value)
    ensures value < 0 ==> r == ""
  {
    if value == 0 {
      return "0";
    }
    var digits: seq<char>, v := [], value;
    while v > 0
      invariant value < 0 ==> v == value && digits == []
      invariant value > 0 ==> v >= 0 && (v == 0 ==> Reversed(digits) == Decimal(value))
      invariant value > 0 && v > 0 ==> Decimal(v) + Reversed(digits) == Decimal(value)
    {
      NextDigit(v, digits);
      digits := digits + [Digit(v % 10)];
      v := v / 10;
    }
    var n := |digits|;
    var buffer := new char[n](i requires 0 <= i < n => digits[i]);
    var left, right := 0, n - 1;
    while left < right
      invariant 0 <= left && right == n - 1 - left && left <= right + 2
      invariant forall k :: 0 <= k < n && (k < left || k > right) ==> buffer[k] == digits[n - 1 - k]
      invariant forall k :: left <= k <= right ==> buffer[k] == digits[k]
    {
      buffer[left], buffer[right] := buffer[right], buffer[left];
      left, right := left + 1, right - 1;
    }
    ReversedIs(digits, buffer[..]);
    return buffer[..];
  }

  function PartLabel(index: nat, total: nat): string {
    Decimal(index + 1) + "/" + Decimal(total)
  }

  /** A label tells which part it is, counted from one, and of how many. */
  lemma LabelTells(index: nat, total: nat) returns (part: string, parts: string)
    ensures PartLabel(index, total) == part + "/" + parts
    ensures Numeral(part) && Value(part) == index + 1 && Numeral(parts) && Value(parts) == total
  {
    part, parts := Decimal(index + 1), Decimal(total);
    DecimalIsNumeral(index + 1);
    DecimalIsNumeral(total);
    DecimalReads(index + 1);
    DecimalReads(total);
  }

  /** The parts of one block carry distinct labels. */
  lemma LabelsDistinct(i: nat, j: nat, total: nat)
    requires i != j
    ensures PartLabel(i, total) != PartLabel(j, total)
  {
    var a, b, tail := Decimal(i + 1), Decimal(j + 1), "/" + Decimal(total);
    if PartLabel(i, total) == PartLabel(j, total) {
      assert a + tail == PartLabel(i, total) && b + tail == PartLabel(j, total);
      assert |a| == |b|;
      assert a == (a + tail)[..|a|] && b == (b + tail)[..|b|];
      DecimalInjective(i + 1, j + 1);
    }
  }

  // ----- the plan of a page -----

  predicate Visible(b: Block) {
    b.h > 0 && b.w > 0
  }

  function SliceOf(b: Block, cuts: seq<Cut>, i: nat): Slice
    requires i < |cuts|
  {
    Slice(b.id, b.kind, PartLabel(i, |cuts|), cuts[i].start, cuts[i].end - cuts[i].start)
  }

  function SlicesOf(b: Block, cuts: seq<Cut>, n: nat): seq<Slice>
    requires n <= |cuts|
    decreases |cuts|, n
  {
    if n == 0 then [] else SlicesOf(b, cuts, n - 1) + [SliceOf(b, cuts, n - 1)]
  }

  function HeightLimit(maxHeight: int): (r: int)
    ensures r > 0
  {
    if maxHeight <= 0 then DEFAULT_SLICE_HEIGHT else maxHeight
  }

  function Plan(blocks: seq<Block>, atomic: seq<Atomic>, max: int, n: nat): seq<Slice>
    requires n <= |blocks| && max > 0
    decreases |blocks|, n
  {
    if n == 0 then []
    else
      var b := blocks[n - 1];
      var cuts := Cuts(b, atomic, max);
      Plan(blocks, atomic, max, n - 1) + if Visible(b) then SlicesOf(b, cuts, |cuts|) else []
  }

  method PlanSlices(blocks: seq<Block>, atomic: seq<Atomic>, maxHeight: int) returns (slices: seq<Slice>)
    ensures slices == Plan(blocks, atomic, if maxHeight <= 0 then DEFAULT_SLICE_HEIGHT else maxHeight, |blocks|)
  {
    var max := HeightLimit(maxHeight);
    slices := [];
    for n := 0 to |blocks|
      invariant slices == Plan(blocks, atomic, max, n)
    {
      var b := blocks[n];
      if b.h <= 0 || b.w <= 0 {
        continue;
      }
      var cuts := PlanBlockCuts(b, atomic, max);
      ghost var before := slices;
      for i := 0 to |cuts|
        invariant slices == before + SlicesOf(b, cuts, i)
      {
        var index := Itoa(i + 1);
        var total := Itoa(|cuts|);
        var part := index + "/" + total;
        slices := slices + [Slice(b.id, b.kind, part, cuts[i].start, cuts[i].end - cuts[i].start)];
        assert SlicesOf(b, cuts, i + 1) == SlicesOf(b, cuts, i) + [SliceOf(b, cuts, i)];
      }
    }
  }

  function Height(slices: seq<Slice>): int {
    if slices == [] then 0 else Height(slices[..|slices| - 1]) + slices[|slices| - 1].height
  }

  function TotalHeight(blocks: seq<Block>, n: nat): int
    requires n <= |blocks|
    decreases |blocks|, n
  {
    if n == 0 then 0 else TotalHeight(blocks, n - 1) + if Visible(blocks[n - 1]) then blocks[n - 1].h else 0
  }

  lemma {:induction false} HeightConcat(a: seq<Slice>, b: seq<Slice>)
    ensures Height(a + b) == Height(a) + Height(b)
  {
    if b == [] {
      assert a + b == a;
    } else {
      assert (a + b)[..|a + b| - 1] == a + b[..|b| - 1];
      HeightConcat(a, b[..|b| - 1]);
    }
  }

  lemma {:induction false} HeightOfBlock(b: Block, cuts: seq<Cut>, n: nat, max: int)
    requires n <= |cuts| && Tiles(cuts, b.y, b.y + b.h, max)
    ensures Height(SlicesOf(b, cuts, n)) == if n == 0 then 0 else cuts[n - 1].end - b.y
  {
    if n > 0 {
      HeightOfBlock(b, cuts, n - 1, max);
      HeightConcat(SlicesOf(b, cuts, n - 1), [SliceOf(b, cuts, n - 1)]);
      assert [SliceOf(b, cuts, n - 1)][..0] == [];
      assert n >= 2 ==> cuts[n - 2].end == cuts[n - 1].start;
    }
  }

  /** These are the parts of the block: each labelled, under its block, and right below the one before. */
  predicate PartsOf(b: Block, slices: seq<Slice>, max: int) {
    && slices != []
    && slices[0].y == b.y && slices[|slices| - 1].y + slices[|slices| - 1].height == b.y + b.h
    && (forall i :: 0 <= i < |slices| ==>
          && slices[i].blockId == b.id && slices[i].kind == b.kind && slices[i].part == PartLabel(i, |slices|)
          && 0 < slices[i].height <= max && b.y <= slices[i].y && slices[i].y + slices[i].height <= b.y + b.h)
    && (forall i, j :: 0 <= i && j == i + 1 < |slices| ==> slices[j].y == slices[i].y + slices[i].height)
  }

  lemma {:induction false} SlicesAt(b: Block, cuts: seq<Cut>, n: nat)
    requires n <= |cuts|
    ensures |SlicesOf(b, cuts, n)| == n && forall i :: 0 <= i < n ==> SlicesOf(b, cuts, n)[i] == SliceOf(b, cuts, i)
  {
    if n > 0 {
      SlicesAt(b, cuts, n - 1);
    }
  }

  lemma BlockParts(b: Block, atomic: seq<Atomic>, max: int)
    requires max > 0 && Visible(b)
    ensures var cuts := Cuts(b, atomic, max); PartsOf(b, SlicesOf(b, cuts, |cuts|), max)
  {
    var cuts := Cuts(b, atomic, max);
    CutsTile(b, atomic, max);
    SlicesAt(b, cuts, |cuts|);
    forall i | 0 <= i < |cuts| ensures b.y <= cuts[i].start && cuts[i].end <= b.y + b.h {
      if i > 0 { Ordered(cuts, b.y, b.y + b.h, max, 0, i); }
      if i < |cuts| - 1 { Ordered(cuts, b.y, b.y + b.h, max, i, |cuts| - 1); }
    }
  }

  /**
   * The plan goes through the blocks in order: behind the slices of the earlier blocks stand the parts of
   * the next one, at their rows in the page, if it is visible, and nothing if it is not.
   */
  lemma PlanByBlock(blocks: seq<Block>, atomic: seq<Atomic>, max: int, k: nat)
    requires k < |blocks| && max > 0
    ensures var before, upTo := Plan(blocks, atomic, max, k), Plan(blocks, atomic, max, k + 1);
            && before <= upTo
            && (blocks[k].h > 0 && blocks[k].w > 0 ==> PartsOf(blocks[k], upTo[|before|..], max))
            && (blocks[k].h <= 0 || blocks[k].w <= 0 ==> upTo == before)
    ensures Plan(blocks, atomic, max, 0) == []
  {
    var before := Plan(blocks, atomic, max, k);
    if Visible(blocks[k]) {
      var cuts := Cuts(blocks[k], atomic, max);
      BlockParts(blocks[k], atomic, max);
      assert (before + SlicesOf(blocks[k], cuts, |cuts|))[|before|..] == SlicesOf(blocks[k], cuts, |cuts|);
    } else {
      assert before + [] == before;
    }
  }

  /** A page plan captures exactly the height of its visible blocks. */
  lemma {:induction false} PlanConservesHeight(blocks: seq<Block>, atomic: seq<Atomic>, max: int, n: nat)
    requires n <= |blocks| && max > 0
    ensures Height(Plan(blocks, atomic, max, n)) == TotalHeight(blocks, n)
  {
    if n > 0 {
      PlanConservesHeight(blocks, atomic, max, n - 1);
      var b := blocks[n - 1];
      var cuts := Cuts(b, atomic, max);
      if Visible(b) {
        CutsTile(b, atomic, max);
        HeightOfBlock(b, cuts, |cuts|, max);
        HeightConcat(Plan(blocks, atomic, max, n - 1), SlicesOf(b, cuts, |cuts|));
      } else {
        assert Plan(blocks, atomic, max, n - 1) + [] == Plan(blocks, atomic, max, n - 1);
      }
    }
  }
}
