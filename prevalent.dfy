/**
  * `getPrevalentColors` (image.go): a count per colour kept in a map, and a
  * three-slot array of the colours seen most often, maintained one pixel at a
  * time in column-major order.
  */
module Prevalent {
  import opened Colors

  /**
    * A decoded image after conversion to NRGBA: its bounds, its pixel bytes
    * (R, G, B, A per pixel) and the distance in bytes between two rows.
    */
  datatype Image = Image(minX: int, minY: int, maxX: int, maxY: int, pix: seq<Byte>, stride: int)
  {
    function Width(): int { maxX - minX }
    function Height(): int { maxY - minY }

    /** The layout `image.NewNRGBA` gives its result: 4 bytes per pixel, rows one stride apart. */
    predicate WellFormed() {
      minX <= maxX && minY <= maxY && stride == 4 * Width() && |pix| == stride * Height()
    }

    predicate InBounds(x: int, y: int) {
      minX <= x < maxX && minY <= y < maxY
    }
  }

  /** Offset of the first byte of pixel (x, y) in `pix`. */
  function PixelIndex(img: Image, x: int, y: int): int {
    (y - img.minY) * img.stride + (x - img.minX) * 4
  }

  lemma MulMonotone(a: int, b: int, k: int)
    requires 0 <= a <= b && 0 <= k
    ensures a * k <= b * k
  {
    assert b * k - a * k == (b - a) * k;
  }

  /** The three colour bytes of every in-bounds pixel lie inside `pix`. */
  lemma PixelIndexInBounds(img: Image, x: int, y: int)
    requires img.WellFormed() && img.InBounds(x, y)
    ensures 0 <= PixelIndex(img, x, y)
    ensures PixelIndex(img, x, y) + 2 < |img.pix|
  {
    var w, h := img.Width(), img.Height();
    var dx, dy := x - img.minX, y - img.minY;
    MulMonotone(dy, h - 1, 4 * w);
    assert (h - 1) * (4 * w) == h * (4 * w) - 4 * w;
    assert |img.pix| == h * (4 * w);
    assert 0 <= dy * (4 * w);
  }

  /** The colour of pixel (x, y), read as the loop body reads it: alpha forced to 255. */
  function ColorAt(img: Image, x: int, y: int): (c: NRGBA)
    requires img.WellFormed() && img.InBounds(x, y)
    ensures c.a == 255
  {
    PixelIndexInBounds(img, x, y);
    var i := PixelIndex(img, x, y);
    NRGBA(img.pix[i], img.pix[i + 1], img.pix[i + 2], 255)
  }

  /** The pixels of column x, top to bottom. */
  function Column(img: Image, x: int): (col: seq<NRGBA>)
    requires img.WellFormed() && img.minX <= x < img.maxX
    ensures |col| == img.Height()
  {
    seq(img.Height(), k requires 0 <= k < img.Height() => ColorAt(img, x, img.minY + k))
  }

  /** The pixels of the columns left of x, in the order the nested loops visit them. */
  function ColumnsBefore(img: Image, x: int): seq<NRGBA>
    requires img.WellFormed() && img.minX <= x <= img.maxX
    decreases x - img.minX
  {
    if x == img.minX then [] else ColumnsBefore(img, x - 1) + Column(img, x - 1)
  }

  /** All pixels of the image in column-major order. */
  function Pixels(img: Image): seq<NRGBA>
    requires img.WellFormed()
  {
    ColumnsBefore(img, img.maxX)
  }

  /** Every colour in the sequence is fully opaque. */
  ghost predicate Opaque(ps: seq<NRGBA>) {
    forall i :: 0 <= i < |ps| ==> ps[i].a == 255
  }

  lemma {:induction false} ColumnsBeforeOpaque(img: Image, x: int)
    requires img.WellFormed() && img.minX <= x <= img.maxX
    ensures Opaque(ColumnsBefore(img, x))
    decreases x - img.minX
  {
    if x > img.minX {
      ColumnsBeforeOpaque(img, x - 1);
      var left: seq<NRGBA>, col: seq<NRGBA> := ColumnsBefore(img, x - 1), Column(img, x - 1);
      forall i | 0 <= i < |left + col|
        ensures (left + col)[i].a == 255
      {
        if i < |left| {
          assert (left + col)[i] == left[i];
        } else {
          assert (left + col)[i] == col[i - |left|];
          assert col[i - |left|] == ColorAt(img, x - 1, img.minY + (i - |left|));
        }
      }
    }
  }

  // ---------------------------------------------------------------------
  // The tracker, one pixel at a time
  // ---------------------------------------------------------------------

  /** The loop's state: the count map and the three slots. */
  datatype Tally = Tally(counts: map<NRGBA, nat>, most: seq<NRGBA>)

  /** A Go map lookup: an absent key reads as zero. */
  function Count(counts: map<NRGBA, nat>, c: NRGBA): nat {
    if c in counts then counts[c] else 0
  }

  /** The state before the first pixel: the placeholder counted as 0, three placeholder slots. */
  const START: Tally := Tally(map[PLACEHOLDER := 0], [PLACEHOLDER, PLACEHOLDER, PLACEHOLDER])

  function Swap(s: seq<NRGBA>, i: nat, j: nat): (r: seq<NRGBA>)
    requires i < |s| && j < |s|
    ensures |r| == |s|
  {
    s[i := s[j]][j := s[i]]
  }

  /** Case 1: a colour already in a slot moves up one slot if it now outnumbers its neighbour. */
  function Promote(most: seq<NRGBA>, counts: map<NRGBA, nat>, c: NRGBA): (r: seq<NRGBA>)
    requires |most| == 3
    ensures |r| == 3
  {
    if c == most[1] && Count(counts, c) > Count(counts, most[0]) then Swap(most, 0, 1)
    else if c == most[2] && Count(counts, c) > Count(counts, most[1]) then Swap(most, 1, 2)
    else most
  }

  /** Case 2: a new colour goes to the first empty slot, or over slot 2 when none is empty. */
  function Insert(most: seq<NRGBA>, c: NRGBA): (r: seq<NRGBA>)
    requires |most| == 3
    ensures |r| == 3 && (r[0] == c || r[1] == c || r[2] == c)
  {
    if most[0] == PLACEHOLDER then most[0 := c]
    else if most[1] == PLACEHOLDER then most[1 := c]
    else most[2 := c]
  }

  /** The slot update for colour c, given the counts after c was counted. */
  function StepMost(most: seq<NRGBA>, counts: map<NRGBA, nat>, c: NRGBA): (r: seq<NRGBA>)
    requires |most| == 3
    ensures |r| == 3
  {
    if c == most[0] || c == most[1] || c == most[2] then Promote(most, counts, c)
    else if Count(counts, c) > Count(counts, most[2]) then Insert(most, c)
    else most
  }

  /** One pixel: count it, then update the slots. */
  function Step(t: Tally, c: NRGBA): (r: Tally)
    requires |t.most| == 3
    ensures |r.most| == 3 && Count(r.counts, c) == Count(t.counts, c) + 1
  {
    var counts := t.counts[c := Count(t.counts, c) + 1];
    Tally(counts, StepMost(t.most, counts, c))
  }

  /** The state after the given pixels, in order. */
  function Run(ps: seq<NRGBA>): (t: Tally)
    ensures |t.most| == 3
  {
    if ps == [] then START else Step(Run(ps[..|ps| - 1]), ps[|ps| - 1])
  }

  /** The three colours `getPrevalentColors` returns for an image. */
  function Summary(img: Image): (most: seq<NRGBA>)
    requires img.WellFormed()
    ensures |most| == 3
  {
    Run(Pixels(img)).most
  }

  lemma RunSnoc(ps: seq<NRGBA>, c: NRGBA)
    ensures Run(ps + [c]) == Step(Run(ps), c)
  {
    assert (ps + [c])[..|ps|] == ps;
  }

  // ---------------------------------------------------------------------
  // Properties of the tracker
  // ---------------------------------------------------------------------

  /** How often c occurs in ps. */
  function Occurrences(ps: seq<NRGBA>, c: NRGBA): nat {
    if ps == [] then 0
    else Occurrences(ps[..|ps| - 1], c) + (if ps[|ps| - 1] == c then 1 else 0)
  }

  /** After each pixel the map holds, for every colour, how often it has occurred so far. */
  lemma {:induction false} RunCounts(ps: seq<NRGBA>, c: NRGBA)
    ensures Count(Run(ps).counts, c) == Occurrences(ps, c)
  {
    if ps != [] {
      RunCounts(ps[..|ps| - 1], c);
    }
  }

  /** Pixels are opaque, so the placeholder's count stays 0. */
  lemma {:induction false} PlaceholderNeverCounted(ps: seq<NRGBA>)
    requires Opaque(ps)
    ensures Count(Run(ps).counts, PLACEHOLDER) == 0
  {
    RunCounts(ps, PLACEHOLDER);
    OpaqueOccurrences(ps);
  }

  lemma {:induction false} OpaqueOccurrences(ps: seq<NRGBA>)
    requires Opaque(ps)
    ensures Occurrences(ps, PLACEHOLDER) == 0
  {
    if ps != [] {
      OpaqueOccurrences(ps[..|ps| - 1]);
    }
  }

  /** The set of colours occurring in ps. */
  function Colours(ps: seq<NRGBA>): set<NRGBA> {
    set c | c in ps
  }

  /** Number of slots that hold a colour rather than the placeholder. */
  function Filled(most: seq<NRGBA>): nat
    requires |most| == 3
  {
    (if most[0] != PLACEHOLDER then 1 else 0)
    + (if most[1] != PLACEHOLDER then 1 else 0)
    + (if most[2] != PLACEHOLDER then 1 else 0)
  }

  function Min(a: int, b: int): int { if a <= b then a else b }

  /** Placeholders occupy a suffix of the slots. */
  predicate PlaceholdersLast(most: seq<NRGBA>)
    requires |most| == 3
  {
    (most[0] == PLACEHOLDER ==> most[1] == PLACEHOLDER) && (most[1] == PLACEHOLDER ==> most[2] == PLACEHOLDER)
  }

  /** The colours in the slots are pairwise distinct. */
  predicate DistinctColours(most: seq<NRGBA>)
    requires |most| == 3
  {
    && (most[0] != PLACEHOLDER ==> most[0] != most[1] && most[0] != most[2])
    && (most[1] != PLACEHOLDER ==> most[1] != most[2])
  }

  /** Every colour in a slot occurs among the pixels. */
  ghost predicate FromPixels(most: seq<NRGBA>, ps: seq<NRGBA>)
    requires |most| == 3
  {
    && (most[0] != PLACEHOLDER ==> most[0] in ps)
    && (most[1] != PLACEHOLDER ==> most[1] in ps)
    && (most[2] != PLACEHOLDER ==> most[2] in ps)
  }

  /** Colour x is in one of the three slots. */
  predicate InSlots(x: NRGBA, most: seq<NRGBA>)
    requires |most| == 3
  {
    x == most[0] || x == most[1] || x == most[2]
  }

  /**
    * What the slots always satisfy after the pixels ps: placeholders last,
    * colours distinct and taken from ps, as many colours as ps has distinct
    * colours up to three, and while a slot is free every colour seen is kept.
    */
  ghost predicate Tracked(t: Tally, ps: seq<NRGBA>)
    requires |t.most| == 3
  {
    && PlaceholdersLast(t.most)
    && DistinctColours(t.most)
    && FromPixels(t.most, ps)
    && Filled(t.most) == Min(3, |Colours(ps)|)
    && (Filled(t.most) < 3 ==> forall x :: x in ps ==> InSlots(x, t.most))
    && Count(t.counts, PLACEHOLDER) == 0
  }

  lemma ColoursSnoc(ps: seq<NRGBA>, c: NRGBA)
    ensures Colours(ps + [c]) == Colours(ps) + {c}
    ensures c in ps ==> |Colours(ps + [c])| == |Colours(ps)|
    ensures c !in ps ==> |Colours(ps + [c])| == |Colours(ps)| + 1
  {
    assert Colours(ps + [c]) == Colours(ps) + {c};
    if c in ps {
      assert Colours(ps) + {c} == Colours(ps);
    }
  }

  lemma FromPixelsGrow(most: seq<NRGBA>, ps: seq<NRGBA>, c: NRGBA)
    requires |most| == 3 && FromPixels(most, ps)
    ensures FromPixels(most, ps + [c])
  {
    assert forall x :: x in ps ==> x in ps + [c];
  }

  /** Case 1 keeps the slots tracked: a swap moves no colour in or out. */
  lemma PromoteTracked(t: Tally, ps: seq<NRGBA>, c: NRGBA)
    requires |t.most| == 3 && Tracked(t, ps) && c.a == 255 && c in t.most
    ensures Tracked(Step(t, c), ps + [c])
  {
    ColoursSnoc(ps, c);
    FromPixelsGrow(t.most, ps, c);
    var t' := Step(t, c);
    assert c in ps;
    assert forall x :: InSlots(x, t.most) ==> InSlots(x, t'.most);
  }

  /** Case 2 with a free slot: the colour is new and lands in the first free slot. */
  lemma InsertFreeTracked(t: Tally, ps: seq<NRGBA>, c: NRGBA)
    requires |t.most| == 3 && Tracked(t, ps) && c.a == 255 && c !in t.most
    requires Filled(t.most) < 3
    ensures Tracked(Step(t, c), ps + [c])
  {
    ColoursSnoc(ps, c);
    FromPixelsGrow(t.most, ps, c);
    assert c !in Colours(ps);
    var t' := Step(t, c);
    assert t.most[2] == PLACEHOLDER;
    assert t'.most == Insert(t.most, c);
    assert InSlots(c, t'.most);
    assert forall x :: x != PLACEHOLDER && InSlots(x, t.most) ==> InSlots(x, t'.most);
  }

  /** Case 2 with all slots taken: slot 2 may be overwritten, and three colours remain. */
  lemma InsertFullTracked(t: Tally, ps: seq<NRGBA>, c: NRGBA)
    requires |t.most| == 3 && Tracked(t, ps) && c.a == 255 && c !in t.most
    requires Filled(t.most) == 3
    ensures Tracked(Step(t, c), ps + [c])
  {
    ColoursSnoc(ps, c);
    FromPixelsGrow(t.most, ps, c);
    var t' := Step(t, c);
    assert t'.most == t.most || t'.most == t.most[2 := c];
  }

  /** One opaque pixel keeps the slots tracked. */
  lemma StepTracked(t: Tally, ps: seq<NRGBA>, c: NRGBA)
    requires |t.most| == 3 && Tracked(t, ps) && c.a == 255
    ensures Tracked(Step(t, c), ps + [c])
  {
    if c in t.most {
      PromoteTracked(t, ps, c);
    } else if Filled(t.most) < 3 {
      InsertFreeTracked(t, ps, c);
    } else {
      InsertFullTracked(t, ps, c);
    }
  }

  /** The slot invariant holds after every prefix of opaque pixels. */
  lemma {:induction false} RunTracked(ps: seq<NRGBA>)
    requires Opaque(ps)
    ensures Tracked(Run(ps), ps)
  {
    if ps == [] {
      assert Colours(ps) == {};
    } else {
      var front := ps[..|ps| - 1];
      RunTracked(front);
      StepTracked(Run(front), front, ps[|ps| - 1]);
      assert front + [ps[|ps| - 1]] == ps;
    }
  }

  /** A non-empty pixel sequence of one opaque colour puts that colour in slot 0 and placeholders in slots 1 and 2. */
  lemma SingleColour(c: NRGBA, ps: seq<NRGBA>)
    requires c.a == 255 && |ps| >= 1 && forall i :: 0 <= i < |ps| ==> ps[i] == c
    ensures Run(ps).most == [c, PLACEHOLDER, PLACEHOLDER]
  {
    var t := Run(ps);
    RunTracked(ps);
    UniformColours(c, ps);
    OneColourSlots(c, t, ps);
  }

  lemma UniformColours(c: NRGBA, ps: seq<NRGBA>)
    requires |ps| >= 1 && forall i :: 0 <= i < |ps| ==> ps[i] == c
    ensures Colours(ps) == {c} && c in ps
  {
    assert ps[0] in Colours(ps);
  }

  /** The slot invariant over pixels of one opaque colour pins the slots down. */
  lemma OneColourSlots(c: NRGBA, t: Tally, ps: seq<NRGBA>)
    requires c.a == 255 && |t.most| == 3 && Tracked(t, ps)
    requires Colours(ps) == {c} && c in ps
    ensures t.most == [c, PLACEHOLDER, PLACEHOLDER]
  {
    assert Filled(t.most) == 1;
    assert InSlots(c, t.most);
  }

  /** Every pixel left of column x has colour c when every pixel of the image has. */
  lemma {:induction false} ColumnsBeforeUniform(img: Image, x: int, c: NRGBA)
    requires img.WellFormed() && img.minX <= x <= img.maxX
    requires forall x', y' :: img.InBounds(x', y') ==> ColorAt(img, x', y') == c
    ensures forall i :: 0 <= i < |ColumnsBefore(img, x)| ==> ColumnsBefore(img, x)[i] == c
    decreases x - img.minX
  {
    if x > img.minX {
      ColumnsBeforeUniform(img, x - 1, c);
      var left: seq<NRGBA>, col: seq<NRGBA> := ColumnsBefore(img, x - 1), Column(img, x - 1);
      forall i | 0 <= i < |left + col|
        ensures (left + col)[i] == c
      {
        if i < |left| {
          assert (left + col)[i] == left[i];
        } else {
          assert (left + col)[i] == col[i - |left|];
          assert col[i - |left|] == ColorAt(img, x - 1, img.minY + (i - |left|));
        }
      }
    }
  }

  /** A non-empty image whose every pixel is c summarises to [c, placeholder, placeholder]. */
  lemma SingleColourImage(img: Image, c: NRGBA)
    requires img.WellFormed() && img.Width() >= 1 && img.Height() >= 1
    requires forall x, y :: img.InBounds(x, y) ==> ColorAt(img, x, y) == c
    ensures Summary(img) == [c, PLACEHOLDER, PLACEHOLDER]
  {
    ColumnsBeforeUniform(img, img.maxX, c);
    assert |Column(img, img.maxX - 1)| >= 1;
    assert |Pixels(img)| >= 1;
    assert c == ColorAt(img, img.minX, img.minY);
    SingleColour(c, Pixels(img));
  }

  // ---------------------------------------------------------------------
  // Order of the slots
  // ---------------------------------------------------------------------

  /** n pixels of colour c. */
  function Repeat(c: NRGBA, n: nat): (r: seq<NRGBA>)
    ensures |r| == n
  {
    if n == 0 then [] else Repeat(c, n - 1) + [c]
  }

  /** Pixels made of runs of one colour each: rs[i] is a colour and the length of its run. */
  function Runs(rs: seq<(NRGBA, nat)>): seq<NRGBA> {
    if rs == [] then [] else Runs(rs[..|rs| - 1]) + Repeat(rs[|rs| - 1].0, rs[|rs| - 1].1)
  }

  /** Opaque, distinct colours in non-empty runs of non-increasing length. */
  ghost predicate RunShaped(rs: seq<(NRGBA, nat)>)
    decreases |rs|
  {
    rs == [] || (RunShaped(rs[..|rs| - 1]) && Follows(rs[..|rs| - 1], rs[|rs| - 1]))
  }

  /** Run r may come after the runs in front: opaque, non-empty, of a new colour, no longer than any before it. */
  ghost predicate Follows(front: seq<(NRGBA, nat)>, r: (NRGBA, nat)) {
    && r.0.a == 255 && r.1 >= 1
    && forall i :: 0 <= i < |front| ==> front[i].0 != r.0 && front[i].1 >= r.1
  }

  /** Run-shaped, pair by pair. */
  lemma {:induction false} RunShapedPairs(rs: seq<(NRGBA, nat)>)
    requires RunShaped(rs)
    ensures forall i :: 0 <= i < |rs| ==> rs[i].0.a == 255 && rs[i].1 >= 1
    ensures forall i, j :: 0 <= i < j < |rs| ==> rs[i].0 != rs[j].0 && rs[i].1 >= rs[j].1
    decreases |rs|
  {
    if rs != [] {
      var front := rs[..|rs| - 1];
      RunShapedPairs(front);
      assert forall i :: 0 <= i < |front| ==> front[i] == rs[i];
    }
  }

  /** The first three run colours, padded with placeholders. */
  function Leaders(rs: seq<(NRGBA, nat)>): (r: seq<NRGBA>)
    ensures |r| == 3
  {
    [Leader(rs, 0), Leader(rs, 1), Leader(rs, 2)]
  }

  /** The i-th run's colour, or the placeholder when there are fewer runs. */
  function Leader(rs: seq<(NRGBA, nat)>, i: nat): NRGBA {
    if i < |rs| then rs[i].0 else PLACEHOLDER
  }

  /** Length of the run of colour x, or 0 when x has no run. */
  function RunLength(rs: seq<(NRGBA, nat)>, x: NRGBA): nat {
    if rs == [] then 0
    else RunLength(rs[..|rs| - 1], x) + (if rs[|rs| - 1].0 == x then rs[|rs| - 1].1 else 0)
  }

  lemma {:induction false} OccurrencesAppend(a: seq<NRGBA>, b: seq<NRGBA>, x: NRGBA)
    ensures Occurrences(a + b, x) == Occurrences(a, x) + Occurrences(b, x)
    decreases |b|
  {
    if b != [] {
      var b' := b[..|b| - 1];
      assert (a + b)[..|a + b| - 1] == a + b';
      OccurrencesAppend(a, b', x);
    } else {
      assert a + b == a;
    }
  }

  lemma {:induction false} OccurrencesRepeat(c: NRGBA, n: nat, x: NRGBA)
    ensures Occurrences(Repeat(c, n), x) == if x == c then n else 0
  {
    if n > 0 {
      assert Repeat(c, n)[..n - 1] == Repeat(c, n - 1);
      OccurrencesRepeat(c, n - 1, x);
    }
  }

  lemma {:induction false} OccurrencesRuns(rs: seq<(NRGBA, nat)>, x: NRGBA)
    ensures Occurrences(Runs(rs), x) == RunLength(rs, x)
  {
    if rs != [] {
      var last := rs[|rs| - 1];
      OccurrencesRuns(rs[..|rs| - 1], x);
      OccurrencesAppend(Runs(rs[..|rs| - 1]), Repeat(last.0, last.1), x);
      OccurrencesRepeat(last.0, last.1, x);
    }
  }

  lemma {:induction false} RunLengthOfDistinct(rs: seq<(NRGBA, nat)>, j: nat)
    requires j < |rs|
    requires forall i, k :: 0 <= i < k < |rs| ==> rs[i].0 != rs[k].0
    ensures RunLength(rs, rs[j].0) == rs[j].1
  {
    var front := rs[..|rs| - 1];
    if j < |rs| - 1 {
      RunLengthOfDistinct(front, j);
    } else {
      RunLengthAbsent(front, rs[j].0);
    }
  }

  lemma {:induction false} RunLengthAbsent(rs: seq<(NRGBA, nat)>, x: NRGBA)
    requires forall i :: 0 <= i < |rs| ==> rs[i].0 != x
    ensures RunLength(rs, x) == 0
  {
    if rs != [] {
      RunLengthAbsent(rs[..|rs| - 1], x);
    }
  }

  /** The count of every colour part-way through the run of c, the (|front|+1)-th run. */
  lemma RunCountsMidway(front: seq<(NRGBA, nat)>, c: NRGBA, n: nat, m: nat, x: NRGBA)
    requires Follows(front, (c, n))
    ensures Count(Run(Runs(front) + Repeat(c, m)).counts, x)
            == (if x == c then m else RunLength(front, x))
  {
    RunCounts(Runs(front) + Repeat(c, m), x);
    OccurrencesAppend(Runs(front), Repeat(c, m), x);
    OccurrencesRuns(front, x);
    OccurrencesRepeat(c, m, x);
    if x == c {
      RunLengthAbsent(front, c);
    }
  }

  /** What the counts hold after the first `front` runs and some pixels of the next run, of colour c. */
  ghost predicate CountsAfterRuns(t: Tally, front: seq<(NRGBA, nat)>, c: NRGBA, m: nat) {
    && Count(t.counts, c) == m
    && Count(t.counts, PLACEHOLDER) == 0
    && forall j :: 0 <= j < |front| && j < 3 ==> Count(t.counts, front[j].0) == front[j].1
  }

  /** The first pixel of a run: its colour is new, and it fills a free slot if there is one. */
  lemma FirstPixelOfRun(front: seq<(NRGBA, nat)>, c: NRGBA, n: nat, t: Tally)
    requires Follows(front, (c, n))
    requires t.most == Leaders(front) && CountsAfterRuns(t, front, c, 0)
    ensures Step(t, c).most == Leaders(front + [(c, n)])
  {
    var k := |front|;
    var t' := Step(t, c);
    assert Count(t'.counts, c) == 1;
    if k < 3 {
      assert t'.most == Insert(t.most, c);
    } else {
      assert Count(t'.counts, t.most[2]) == front[2].1;
    }
  }

  /** A later pixel of a run never outnumbers an earlier, at least as long run: nothing moves. */
  lemma LaterPixelOfRun(front: seq<(NRGBA, nat)>, c: NRGBA, n: nat, m: nat, t: Tally)
    requires Follows(front, (c, n)) && 1 <= m < n
    requires t.most == Leaders(front + [(c, n)]) && CountsAfterRuns(t, front, c, m)
    ensures Step(t, c).most == t.most
  {
    var k := |front|;
    var t' := Step(t, c);
    if k >= 3 {
      assert Count(t'.counts, t.most[2]) == front[2].1;
    } else if k == 1 {
      assert Count(t'.counts, t.most[0]) == front[0].1;
    } else if k == 2 {
      assert Count(t'.counts, t.most[1]) == front[1].1;
    }
  }

  /** The counts part-way through the run of c, in the form the two lemmas above take. */
  lemma CountsMidway(front: seq<(NRGBA, nat)>, c: NRGBA, n: nat, m: nat)
    requires RunShaped(front) && Follows(front, (c, n))
    ensures CountsAfterRuns(Run(Runs(front) + Repeat(c, m)), front, c, m)
  {
    RunShapedPairs(front);
    RunCountsMidway(front, c, n, m, c);
    RunCountsMidway(front, c, n, m, PLACEHOLDER);
    assert forall i :: 0 <= i < |front| ==> front[i].0 != PLACEHOLDER;
    RunLengthAbsent(front, PLACEHOLDER);
    forall j | 0 <= j < |front| && j < 3
      ensures Count(Run(Runs(front) + Repeat(c, m)).counts, front[j].0) == front[j].1
    {
      RunCountsMidway(front, c, n, m, front[j].0);
      RunLengthOfDistinct(front, j);
    }
  }

  /** The tally after m more pixels of colour c. */
  function StepN(t: Tally, c: NRGBA, m: nat): (r: Tally)
    requires |t.most| == 3
    ensures |r.most| == 3
  {
    if m == 0 then t else Step(StepN(t, c, m - 1), c)
  }

  lemma {:induction false} RunRepeat(ps: seq<NRGBA>, c: NRGBA, m: nat)
    ensures Run(ps + Repeat(c, m)) == StepN(Run(ps), c, m)
  {
    if m == 0 {
      assert ps + Repeat(c, 0) == ps;
    } else {
      var q := ps + Repeat(c, m - 1);
      RunRepeat(ps, c, m - 1);
      AppendRepeat(ps, c, m);
      RunSnoc(q, c);
    }
  }

  lemma AppendRepeat(ps: seq<NRGBA>, c: NRGBA, m: nat)
    requires m > 0
    ensures ps + Repeat(c, m) == (ps + Repeat(c, m - 1)) + [c]
  {
    assert Repeat(c, m) == Repeat(c, m - 1) + [c];
  }

  /** The counts part-way through the run of c, on the tally of the runs before it. */
  lemma CountsAfterStepN(front: seq<(NRGBA, nat)>, c: NRGBA, n: nat, m: nat)
    requires RunShaped(front) && Follows(front, (c, n))
    ensures CountsAfterRuns(StepN(Run(Runs(front)), c, m), front, c, m)
  {
    RunRepeat(Runs(front), c, m);
    CountsMidway(front, c, n, m);
  }

  /** The slots part-way through the run of c: c takes its slot on its first pixel and keeps it. */
  lemma {:induction false} RunTail(front: seq<(NRGBA, nat)>, c: NRGBA, n: nat, m: nat)
    requires RunShaped(front) && Follows(front, (c, n)) && m <= n
    requires Run(Runs(front)).most == Leaders(front)
    ensures StepN(Run(Runs(front)), c, m).most == if m == 0 then Leaders(front) else Leaders(front + [(c, n)])
  {
    if m > 0 {
      RunTail(front, c, n, m - 1);
      CountsAfterStepN(front, c, n, m - 1);
      if m == 1 {
        FirstPixelOfRun(front, c, n, StepN(Run(Runs(front)), c, m - 1));
      } else {
        LaterPixelOfRun(front, c, n, m - 1, StepN(Run(Runs(front)), c, m - 1));
      }
    }
  }

  /**
    * The documented "sorted order of prevalence" holds for images made of
    * single-colour runs of non-increasing length, as the tests build them:
    * slot i holds the i-th run's colour, and the remaining slots are empty.
    */
  lemma {:induction false} RunShapedSorted(rs: seq<(NRGBA, nat)>)
    requires RunShaped(rs)
    ensures Run(Runs(rs)).most == Leaders(rs)
  {
    if rs == [] {
      assert Leaders(rs) == START.most;
    } else {
      var front := rs[..|rs| - 1];
      var last := rs[|rs| - 1];
      assert front + [last] == rs;
      RunShapedSorted(front);
      RunTail(front, last.0, last.1, last.1);
      RunRepeat(Runs(front), last.0, last.1);
    }
  }

  const RED: NRGBA := NRGBA(255, 0, 0, 255)
  const GREEN: NRGBA := NRGBA(0, 255, 0, 255)
  const BLUE: NRGBA := NRGBA(0, 0, 255, 255)

  lemma SlotsForRedGreenBlueBlue()
    ensures Run([RED, GREEN, BLUE, BLUE]).most == [RED, BLUE, GREEN]
  {
    var a, b, c := RED, GREEN, BLUE;
    RunSnoc([], a);
    RunSnoc([a], b);
    RunSnoc([a, b], c);
    RunSnoc([a, b, c], c);
    var t1 := Run([a]);
    assert t1.most == [a, PLACEHOLDER, PLACEHOLDER] && Count(t1.counts, PLACEHOLDER) == 0;
    var t2 := Run([a, b]);
    assert t2.most == [a, b, PLACEHOLDER] && Count(t2.counts, PLACEHOLDER) == 0;
    assert Count(t2.counts, b) == 1 && Count(t2.counts, c) == 0;
    var t3 := Run([a, b, c]);
    assert [a, b] + [c] == [a, b, c];
    assert Count(t2.counts[c := 1], PLACEHOLDER) == 0;
    assert StepMost(t2.most, t2.counts[c := 1], c) == [a, b, c];
    assert t3.most == [a, b, c];
    assert Count(t3.counts, b) == 1 && Count(t3.counts, c) == 1;
    assert [a, b, c] + [c] == [a, b, c, c];
    var counts4 := t3.counts[c := 2];
    assert Count(counts4, c) == 2 && Count(counts4, b) == 1;
    assert Promote(t3.most, counts4, c) == [a, c, b];
  }

  lemma OccurrencesRedGreenBlueBlue()
    ensures Occurrences([RED, GREEN, BLUE, BLUE], BLUE) == 2
    ensures Occurrences([RED, GREEN, BLUE, BLUE], RED) == 1
  {
    var p1, p2, p3, p4 := [RED], [RED, GREEN], [RED, GREEN, BLUE], [RED, GREEN, BLUE, BLUE];
    assert p1[..0] == [] && p2[..1] == p1 && p3[..2] == p2 && p4[..3] == p3;
    assert Occurrences(p1, BLUE) == 0 && Occurrences(p1, RED) == 1;
    assert Occurrences(p2, BLUE) == 0 && Occurrences(p2, RED) == 1;
    assert Occurrences(p3, BLUE) == 1 && Occurrences(p3, RED) == 1;
  }

  /**
    * In general the order is not by prevalence: a colour moves up at most
    * one slot per pixel, so for the pixels A, B, C, C the most frequent
    * colour C ends up in slot 1, below A, which occurs once.
    */
  lemma NotSortedByPrevalence()
    ensures Run([RED, GREEN, BLUE, BLUE]).most == [RED, BLUE, GREEN]
    ensures Occurrences([RED, GREEN, BLUE, BLUE], BLUE) > Occurrences([RED, GREEN, BLUE, BLUE], RED)
  {
    SlotsForRedGreenBlueBlue();
    OccurrencesRedGreenBlueBlue();
  }

  // ---------------------------------------------------------------------
  // The loops
  // ---------------------------------------------------------------------

  /** Visiting pixel (x, y) extends the visited prefix by that pixel's colour. */
  lemma NextPixel(img: Image, x: int, y: int, before: seq<NRGBA>)
    requires img.WellFormed() && img.InBounds(x, y)
    ensures before + Column(img, x)[..y + 1 - img.minY]
         == before + Column(img, x)[..y - img.minY] + [ColorAt(img, x, y)]
  {
    var col := Column(img, x);
    assert col[..y + 1 - img.minY] == col[..y - img.minY] + [col[y - img.minY]];
  }

  /**
    * The loop body's read of pixel (x, y): three colour bytes, alpha forced to
    * 255. A method of its own so that the scan loop's proof does not carry the
    * index arithmetic.
    */
  method ReadPixel(img: Image, x: int, y: int) returns (c: NRGBA)
    requires img.WellFormed() && img.InBounds(x, y)
    ensures c == ColorAt(img, x, y)
  {
    PixelIndexInBounds(img, x, y);
    var pixel := (y - img.minY) * img.stride + (x - img.minX) * 4;
    c := NRGBA(img.pix[pixel], img.pix[pixel + 1], img.pix[pixel + 2], 255);
  }

  /** The slot invariant for a whole image. */
  lemma SummaryTracked(img: Image)
    requires img.WellFormed()
    ensures var most := Summary(img);
            && PlaceholdersLast(most) && DistinctColours(most)
            && FromPixels(most, Pixels(img))
            && Filled(most) == Min(3, |Colours(Pixels(img))|)
  {
    ColumnsBeforeOpaque(img, img.maxX);
    RunTracked(Pixels(img));
  }

  /** The slot update of the loop body, in place: a swap with the slot above, or an insertion. */
  method UpdateMostColors(mostColors: array<NRGBA>, counts: map<NRGBA, nat>, c: NRGBA)
    requires mostColors.Length == 3
    modifies mostColors
    ensures mostColors[..] == StepMost(old(mostColors[..]), counts, c)
  {
    if c == mostColors[0] || c == mostColors[1] || c == mostColors[2] {
      // case 1: already one of the most frequent; move it up past a less frequent neighbour
      for j := 1 to 3
        invariant mostColors[..] == old(mostColors[..])
        invariant forall k :: 1 <= k < j ==>
          !(c == mostColors[k] && Count(counts, c) > Count(counts, mostColors[k - 1]))
      {
        if c == mostColors[j] && Count(counts, c) > Count(counts, mostColors[j - 1]) {
          mostColors[j - 1], mostColors[j] := mostColors[j], mostColors[j - 1];
          break;
        }
      }
    } else if Count(counts, c) > Count(counts, mostColors[2]) {
      // case 2: insert at the first empty slot, or over the last one
      for i := 0 to 3
        invariant forall k :: 0 <= k < i ==> old(mostColors[k]) != PLACEHOLDER
        invariant mostColors[..] == if i == 3 then old(mostColors[..])[2 := c] else old(mostColors[..])
      {
        if mostColors[i] == PLACEHOLDER {
          mostColors[i] := c;
          break;
        } else if i == 2 {
          mostColors[2] := c;
        }
      }
    }
  }

  /** The loop body after the read: count c, then update the slots in place; one `Step`. */
  method CountPixel(counts0: map<NRGBA, nat>, mostColors: array<NRGBA>, c: NRGBA)
    returns (counts: map<NRGBA, nat>)
    requires mostColors.Length == 3
    modifies mostColors
    ensures Tally(counts, mostColors[..]) == Step(Tally(counts0, old(mostColors[..])), c)
  {
    counts := counts0[c := Count(counts0, c) + 1];
    UpdateMostColors(mostColors, counts, c);
  }

  /**
    * The inner loop of `getPrevalentColors`: counts the pixels of column x,
    * top to bottom, and updates the slots after each one.
    */
  method ScanColumn(img: Image, x: int, ghost before: seq<NRGBA>, counts0: map<NRGBA, nat>, mostColors: array<NRGBA>)
    returns (counts: map<NRGBA, nat>)
    requires img.WellFormed() && img.minX <= x < img.maxX && mostColors.Length == 3
    requires Tally(counts0, mostColors[..]) == Run(before)
    modifies mostColors
    ensures Tally(counts, mostColors[..]) == Run(before + Column(img, x))
  {
    counts := counts0;
    var y := img.minY;
    ghost var done := before;
    assert before + Column(img, x)[..0] == before;
    while y < img.maxY
      invariant img.minY <= y <= img.maxY
      invariant done == before + Column(img, x)[..y - img.minY]
      invariant Tally(counts, mostColors[..]) == Run(done)
    {
      var c := ReadPixel(img, x, y);
      counts := CountPixel(counts, mostColors, c);
      RunSnoc(done, c);
      NextPixel(img, x, y, before);
      done := done + [c];
      y := y + 1;
    }
    assert Column(img, x)[..img.maxY - img.minY] == Column(img, x);
  }

  /**
    * `getPrevalentColors`: visits the pixels column by column, counts each
    * colour, and keeps the slots; the result is the tracker's final slots,
    * which hold min(3, number of distinct colours) distinct colours of the
    * image followed by placeholders.
    */
  method GetPrevalentColors(img: Image) returns (most: seq<NRGBA>)
    requires img.WellFormed()
    ensures most == Summary(img)
    ensures |most| == 3 && PlaceholdersLast(most) && DistinctColours(most)
    ensures FromPixels(most, Pixels(img))
    ensures Filled(most) == Min(3, |Colours(Pixels(img))|)
  {
    var counts: map<NRGBA, nat> := map[PLACEHOLDER := 0];
    var mostColors := new NRGBA[3](_ => PLACEHOLDER);
    assert mostColors[..] == START.most;
    var x := img.minX;
    ghost var done: seq<NRGBA> := [];
    while x < img.maxX
      invariant img.minX <= x <= img.maxX
      invariant done == ColumnsBefore(img, x)
      invariant Tally(counts, mostColors[..]) == Run(done)
    {
      counts := ScanColumn(img, x, done, counts, mostColors);
      done := done + Column(img, x);
      x := x + 1;
    }
    most := mostColors[..];
    SummaryTracked(img);
  }
}
