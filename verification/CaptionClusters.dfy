/**
 * The day strip's caption guard: bands whose captions would overprint are
 * chained left to right and share one caption, at their mean position, that
 * carries the classes of all of them. Positions are exact reals.
 */
module CaptionClusters {

  datatype Class = Blocked | Purged | Deleted

  datatype Band = Band(x: real, cls: Class)

  datatype Caption = Caption(x: real, classes: set<Class>)

  function Xs(bands: seq<Band>): (r: seq<real>)
    ensures |r| == |bands| && forall k | 0 <= k < |r| :: r[k] == bands[k].x
  {
    seq(|bands|, k requires 0 <= k < |bands| => bands[k].x)
  }

  function Classes(bands: seq<Band>): (r: set<Class>)
    ensures forall c :: c in r <==> exists b | b in bands :: b.cls == c
  {
    set b | b in bands :: b.cls
  }

  predicate Ascending(xs: seq<real>) {
    forall j, k | 0 <= j < k < |xs| :: xs[j] <= xs[k]
  }

  // ---- the loop and what it computes ----------------------------------------------

  /** How many leading positions hang together: each within `threshold` of the one before. */
  function ChainLength(xs: seq<real>, threshold: real): (n: nat)
    ensures n <= |xs| && (xs != [] ==> n > 0)
  {
    if |xs| <= 1 then |xs|
    else if xs[1] - xs[0] <= threshold then 1 + ChainLength(xs[1..], threshold)
    else 1
  }

  function Sum(xs: seq<real>): real {
    if xs == [] then 0.0 else Sum(xs[..|xs| - 1]) + xs[|xs| - 1]
  }

  function Mean(xs: seq<real>): real
    requires xs != []
  {
    Sum(xs) / |xs| as real
  }

  /** One caption for each maximal chain of the sorted bands. */
  function Chained(sorted: seq<Band>, threshold: real): seq<Caption>
    decreases |sorted|
  {
    if sorted == [] then []
    else
      var n := ChainLength(Xs(sorted), threshold);
      [Caption(Mean(Xs(sorted)[..n]), Classes(sorted[..n]))] + Chained(sorted[n..], threshold)
  }

  function Singles(bands: seq<Band>): (r: seq<Caption>)
    ensures |r| == |bands| && forall k | 0 <= k < |r| :: r[k] == Caption(bands[k].x, {bands[k].cls})
  {
    seq(|bands|, k requires 0 <= k < |bands| => Caption(bands[k].x, {bands[k].cls}))
  }

  function Captions(sorted: seq<Band>, threshold: real): seq<Caption> {
    if threshold > 0.0 then Chained(sorted, threshold) else Singles(sorted)
  }

  predicate Hangs(xs: seq<real>, threshold: real) {
    forall k | 0 < k < |xs| :: xs[k] - xs[k - 1] <= threshold
  }

  lemma XsOfConcat(a: seq<Band>, b: seq<Band>)
    ensures Xs(a + b) == Xs(a) + Xs(b)
  {
  }

  lemma ClassesOfConcat(a: seq<Band>, b: seq<Band>)
    ensures Classes(a + b) == Classes(a) + Classes(b)
  {
    forall c ensures c in Classes(a + b) <==> c in Classes(a) || c in Classes(b) {
      assert forall band :: band in a + b <==> band in a || band in b;
    }
  }

  lemma {:induction false} ChainLengthIs(xs: seq<real>, n: nat, threshold: real)
    requires 0 < n <= |xs| && Hangs(xs[..n], threshold) && (n < |xs| ==> xs[n] - xs[n - 1] > threshold)
    ensures ChainLength(xs, threshold) == n
  {
    if n > 1 {
      assert xs[..n][1] - xs[..n][0] <= threshold;
      assert xs[1..][..n - 1] == xs[..n][1..];
      ChainLengthIs(xs[1..], n - 1, threshold);
    }
  }

  /** The bucket holds the chain `sorted[from..i]`. */
  ghost predicate Bucket(sorted: seq<Band>, from: nat, i: nat, xs: seq<real>, classes: set<Class>, threshold: real) {
    && from < i <= |sorted|
    && xs == Xs(sorted[from..i]) && classes == Classes(sorted[from..i])
    && Hangs(xs, threshold)
  }

  /** The captions are those of the bands before `from`. */
  ghost predicate Flushed(sorted: seq<Band>, from: nat, captions: seq<Caption>, threshold: real) {
    from <= |sorted| && captions + Chained(sorted[from..], threshold) == Chained(sorted, threshold)
  }

  lemma NewBucket(sorted: seq<Band>, i: nat, threshold: real)
    requires i < |sorted|
    ensures Bucket(sorted, i, i + 1, [sorted[i].x], {sorted[i].cls}, threshold)
  {
    assert sorted[i..i + 1] == [sorted[i]];
  }

  lemma NothingFlushed(sorted: seq<Band>, threshold: real)
    ensures Flushed(sorted, 0, [], threshold)
  {
    assert sorted[0..] == sorted;
  }

  lemma XsOfOne(band: Band)
    ensures Xs([band]) == [band.x] && Classes([band]) == {band.cls}
  {
  }

  lemma HangsOneMore(xs: seq<real>, x: real, threshold: real)
    requires xs != [] && Hangs(xs, threshold) && x - xs[|xs| - 1] <= threshold
    ensures Hangs(xs + [x], threshold)
  {
  }

  lemma OneMore(sorted: seq<Band>, from: nat, i: nat, xs: seq<real>, classes: set<Class>, threshold: real)
    requires Bucket(sorted, from, i, xs, classes, threshold)
    requires i < |sorted| && sorted[i].x - xs[|xs| - 1] <= threshold
    ensures Bucket(sorted, from, i + 1, xs + [sorted[i].x], classes + {sorted[i].cls}, threshold)
  {
    var band := sorted[i];
    assert sorted[from..i + 1] == sorted[from..i] + [band];
    XsOfConcat(sorted[from..i], [band]);
    ClassesOfConcat(sorted[from..i], [band]);
    XsOfOne(band);
    HangsOneMore(xs, band.x, threshold);
  }

  /** A chain that ends at `i` is the next caption. */
  lemma ChainEnds(sorted: seq<Band>, from: nat, i: nat, threshold: real)
    requires from < i <= |sorted| && Hangs(Xs(sorted[from..i]), threshold)
    requires i < |sorted| ==> sorted[i].x - sorted[i - 1].x > threshold
    ensures Chained(sorted[from..], threshold)
         == [Caption(Mean(Xs(sorted[from..i])), Classes(sorted[from..i]))] + Chained(sorted[i..], threshold)
  {
    var rest, n := sorted[from..], i - from;
    assert Xs(rest)[..n] == Xs(sorted[from..i]);
    ChainLengthIs(Xs(rest), n, threshold);
    assert rest[..n] == sorted[from..i] && rest[n..] == sorted[i..];
  }

  lemma Flush(
    sorted: seq<Band>, from: nat, i: nat, xs: seq<real>, classes: set<Class>, captions: seq<Caption>, threshold: real)
    requires Bucket(sorted, from, i, xs, classes, threshold) && Flushed(sorted, from, captions, threshold)
    requires i < |sorted| ==> sorted[i].x - xs[|xs| - 1] > threshold
    ensures Flushed(sorted, i, captions + [Caption(Mean(xs), classes)], threshold)
  {
    ChainEnds(sorted, from, i, threshold);
    Regroup(captions, [Caption(Mean(xs), classes)], Chained(sorted[i..], threshold));
  }

  lemma AllFlushed(sorted: seq<Band>, captions: seq<Caption>, threshold: real)
    requires Flushed(sorted, |sorted|, captions, threshold)
    ensures captions == Chained(sorted, threshold)
  {
    assert sorted[|sorted|..] == [];
  }

  lemma Regroup<T>(a: seq<T>, b: seq<T>, c: seq<T>)
    ensures a + b + c == a + (b + c)
  {
  }

  /** `captionClusters`, after the sort: the bucket loop. */
  method Cluster(sorted: seq<Band>, threshold: real) returns (captions: seq<Caption>)
    ensures captions == Captions(sorted, threshold)
  {
    if sorted == [] {
      return [];
    }
    if threshold <= 0.0 {
      return Singles(sorted);
    }
    captions := [];
    var bucketXs, bucketClasses := [sorted[0].x], {sorted[0].cls};
    ghost var from := 0;
    NewBucket(sorted, 0, threshold);
    NothingFlushed(sorted, threshold);
    var i := 1;
    while i < |sorted|
      invariant 0 <= from && 0 < i <= |sorted|
      invariant Bucket(sorted, from, i, bucketXs, bucketClasses, threshold)
      invariant Flushed(sorted, from, captions, threshold)
    {
      var band := sorted[i];
      if band.x - bucketXs[|bucketXs| - 1] <= threshold {
        OneMore(sorted, from, i, bucketXs, bucketClasses, threshold);
        bucketXs := bucketXs + [band.x];
        bucketClasses := bucketClasses + {band.cls};
      } else {
        Flush(sorted, from, i, bucketXs, bucketClasses, captions, threshold);
        captions := captions + [Caption(Mean(bucketXs), bucketClasses)];
        bucketXs := [band.x];
        bucketClasses := {band.cls};
        from := i;
        NewBucket(sorted, i, threshold);
      }
      i := i + 1;
    }
    Flush(sorted, from, i, bucketXs, bucketClasses, captions, threshold);
    captions := captions + [Caption(Mean(bucketXs), bucketClasses)];
    AllFlushed(sorted, captions, threshold);
  }

  lemma {:induction false} ChainHangs(xs: seq<real>, threshold: real)
    ensures var n := ChainLength(xs, threshold);
            Hangs(xs[..n], threshold) && (0 < n < |xs| ==> xs[n] - xs[n - 1] > threshold)
  {
    if |xs| > 1 && xs[1] - xs[0] <= threshold {
      ChainHangs(xs[1..], threshold);
      var n := ChainLength(xs[1..], threshold);
      forall k | 0 < k < n + 1 ensures xs[k] - xs[k - 1] <= threshold {
        if k > 1 {
          assert xs[1..][..n][k - 1] - xs[1..][..n][k - 2] <= threshold;
        }
      }
    }
  }

  // ---- means ----------------------------------------------------------------------------

  lemma {:induction false} SumBetween(xs: seq<real>, lo: real, hi: real)
    requires forall k | 0 <= k < |xs| :: lo <= xs[k] <= hi
    ensures |xs| as real * lo <= Sum(xs) <= |xs| as real * hi
  {
    if xs != [] {
      SumBetween(xs[..|xs| - 1], lo, hi);
      assert |xs| as real == |xs[..|xs| - 1]| as real + 1.0;
    }
  }

  lemma QuotientBetween(sum: real, n: real, lo: real, hi: real)
    requires n > 0.0 && n * lo <= sum <= n * hi
    ensures lo <= sum / n <= hi
  {
    var m := sum / n;
    assert n * m == sum;
    Cancels(n, lo, m);
    Cancels(n, m, hi);
  }

  lemma Cancels(n: real, a: real, b: real)
    requires n > 0.0 && n * a <= n * b
    ensures a <= b
  {
    assert n * (b - a) >= 0.0;
  }

  lemma MeanBetween(xs: seq<real>)
    requires xs != [] && Ascending(xs)
    ensures xs[0] <= Mean(xs) <= xs[|xs| - 1]
  {
    SumBetween(xs, xs[0], xs[|xs| - 1]);
    QuotientBetween(Sum(xs), |xs| as real, xs[0], xs[|xs| - 1]);
  }

  lemma {:induction false} SumOfConcat(a: seq<real>, b: seq<real>)
    ensures Sum(a + b) == Sum(a) + Sum(b)
  {
    if b == [] {
      assert a + b == a;
    } else {
      assert (a + b)[..|a + b| - 1] == a + b[..|b| - 1];
      SumOfConcat(a, b[..|b| - 1]);
    }
  }

  lemma MeanTimesCount(xs: seq<real>)
    requires xs != []
    ensures Mean(xs) * |xs| as real == Sum(xs)
  {
  }

  /** One position is its own mean, and every position weighs the same in the mean of more: so the mean is this one. */
  lemma MeansCombine(x: real, a: seq<real>, b: seq<real>)
    ensures Mean([x]) == x
    ensures a != [] && b != [] ==>
              Mean(a + b) * |a + b| as real == Mean(a) * |a| as real + Mean(b) * |b| as real
  {
    assert Sum([x]) == Sum([x][..0]) + x;
    if a != [] && b != [] {
      SumOfConcat(a, b);
      MeanTimesCount(a + b);
      MeanTimesCount(a);
      MeanTimesCount(b);
    }
  }

  // ---- captions do not overlap -----------------------------------------------------------

  predicate Spaced(captions: seq<Caption>, threshold: real) {
    forall j, k | 0 <= j < k < |captions| :: captions[k].x - captions[j].x > threshold
  }

  /** Any two captions, of whatever classes, are more than the threshold apart. */
  lemma {:induction false} CaptionsNeverOverlap(sorted: seq<Band>, threshold: real)
    requires threshold > 0.0 && Ascending(Xs(sorted))
    ensures Spaced(Chained(sorted, threshold), threshold)
    ensures forall k | 0 <= k < |Chained(sorted, threshold)| ::
              sorted != [] && Chained(sorted, threshold)[k].x >= sorted[0].x
    decreases |sorted|
  {
    if sorted != [] {
      var xs, n := Xs(sorted), ChainLength(Xs(sorted), threshold);
      ChainHangs(xs, threshold);
      MeanBetween(xs[..n]);
      assert Xs(sorted[n..]) == xs[n..];
      CaptionsNeverOverlap(sorted[n..], threshold);
    }
  }

  ghost predicate Carried(captions: seq<Caption>, c: Class) {
    exists k | 0 <= k < |captions| :: c in captions[k].classes
  }

  lemma CarriedByFirst(first: Caption, rest: seq<Caption>, c: Class)
    ensures Carried([first] + rest, c) <==> c in first.classes || Carried(rest, c)
  {
    if c in first.classes {
      assert c in ([first] + rest)[0].classes;
    }
    if Carried(rest, c) {
      var k :| 0 <= k < |rest| && c in rest[k].classes;
      assert c in ([first] + rest)[k + 1].classes;
    }
  }

  /** No caption class is lost, and none is invented. */
  lemma {:induction false} ClassesAreKept(sorted: seq<Band>, threshold: real, c: Class)
    ensures c in Classes(sorted) <==> Carried(Chained(sorted, threshold), c)
    decreases |sorted|
  {
    if sorted != [] {
      var n := ChainLength(Xs(sorted), threshold);
      assert sorted == sorted[..n] + sorted[n..];
      ClassesOfConcat(sorted[..n], sorted[n..]);
      ClassesAreKept(sorted[n..], threshold, c);
      CarriedByFirst(Caption(Mean(Xs(sorted)[..n]), Classes(sorted[..n])), Chained(sorted[n..], threshold), c);
    }
  }

  // ---- a caption per single-linkage cluster ----------------------------------------------------

  /** Nothing separates the two: between them no step from one position to the next is too wide. */
  ghost predicate Linked(xs: seq<real>, a: real, b: real, threshold: real) {
    forall k | 0 < k < |xs| && a <= xs[k - 1] && xs[k] <= b :: xs[k] - xs[k - 1] <= threshold
  }

  /** Which caption the `i`-th sorted band shares. */
  function CaptionOf(xs: seq<real>, i: nat, threshold: real): nat
    requires i < |xs|
    decreases |xs|
  {
    var n := ChainLength(xs, threshold);
    if i < n then 0 else 1 + CaptionOf(xs[n..], i - n, threshold)
  }

  /** No step from the `i`-th to the `j`-th position is too wide. */
  ghost predicate Unbroken(xs: seq<real>, i: int, j: int, threshold: real) {
    forall k | i < k <= j && 0 < k < |xs| :: xs[k] - xs[k - 1] <= threshold
  }

  /** Equal positions make no step, so it does not matter that `Linked` speaks of positions and not of places. */
  lemma LinkedIsUnbroken(xs: seq<real>, i: nat, j: nat, threshold: real)
    requires threshold > 0.0 && Ascending(xs) && i <= j < |xs|
    ensures Linked(xs, xs[i], xs[j], threshold) <==> Unbroken(xs, i, j, threshold)
  {
    var a, b := xs[i], xs[j];
    if Unbroken(xs, i, j, threshold) {
      forall k | 0 < k < |xs| && a <= xs[k - 1] && xs[k] <= b ensures xs[k] - xs[k - 1] <= threshold {
        assert k <= i ==> xs[k] <= a;
        assert j < k ==> b <= xs[k - 1];
      }
    }
    if Linked(xs, a, b, threshold) {
      forall k | i < k <= j && 0 < k < |xs| ensures xs[k] - xs[k - 1] <= threshold {
        assert a <= xs[k - 1] && xs[k] <= b;
      }
    }
  }

  lemma CaptionOfStep(xs: seq<real>, i: nat, threshold: real)
    requires i < |xs|
    ensures var n := ChainLength(xs, threshold);
            if i < n then CaptionOf(xs, i, threshold) == 0
            else CaptionOf(xs, i, threshold) == 1 + CaptionOf(xs[n..], i - n, threshold)
  {
  }

  lemma UnbrokenInChain(xs: seq<real>, i: nat, j: nat, n: nat, threshold: real)
    requires i <= j < n <= |xs| && Hangs(xs[..n], threshold)
    ensures Unbroken(xs, i, j, threshold)
  {
    forall k | i < k <= j && 0 < k < |xs| ensures xs[k] - xs[k - 1] <= threshold {
      assert xs[..n][k] - xs[..n][k - 1] <= threshold;
    }
  }

  lemma UnbrokenBeyond(xs: seq<real>, n: nat, i: nat, j: nat, threshold: real)
    requires n <= i <= j < |xs|
    ensures Unbroken(xs, i, j, threshold) <==> Unbroken(xs[n..], i - n, j - n, threshold)
  {
    var rest := xs[n..];
    if Unbroken(rest, i - n, j - n, threshold) {
      forall k | i < k <= j && 0 < k < |xs| ensures xs[k] - xs[k - 1] <= threshold {
        assert rest[k - n] - rest[k - n - 1] <= threshold;
      }
    }
    if Unbroken(xs, i, j, threshold) {
      forall k | i - n < k <= j - n && 0 < k < |rest| ensures rest[k] - rest[k - 1] <= threshold {
        assert xs[n + k] - xs[n + k - 1] <= threshold;
      }
    }
  }

  lemma {:induction false} SharedExactlyWhenUnbroken(xs: seq<real>, i: nat, j: nat, threshold: real)
    requires i <= j < |xs|
    ensures CaptionOf(xs, i, threshold) == CaptionOf(xs, j, threshold) <==> Unbroken(xs, i, j, threshold)
    decreases |xs|
  {
    var n := ChainLength(xs, threshold);
    ChainHangs(xs, threshold);
    CaptionOfStep(xs, i, threshold);
    CaptionOfStep(xs, j, threshold);
    if j < n {
      UnbrokenInChain(xs, i, j, n, threshold);
    } else if i < n {
      assert xs[n] - xs[n - 1] > threshold;
    } else {
      SharedExactlyWhenUnbroken(xs[n..], i - n, j - n, threshold);
      UnbrokenBeyond(xs, n, i, j, threshold);
    }
  }

  /**
   * Two bands share a caption exactly when they are linked: the partition is that of
   * single-linkage clustering, neither finer nor coarser.
   */
  lemma SharedExactlyWhenLinked(xs: seq<real>, i: nat, j: nat, threshold: real)
    requires threshold > 0.0 && Ascending(xs) && i <= j < |xs|
    ensures CaptionOf(xs, i, threshold) == CaptionOf(xs, j, threshold) <==> Linked(xs, xs[i], xs[j], threshold)
  {
    SharedExactlyWhenUnbroken(xs, i, j, threshold);
    LinkedIsUnbroken(xs, i, j, threshold);
  }

  /** The positions `lo..hi`, and no others, share the `k`-th caption. */
  ghost predicate SharedBy(xs: seq<real>, threshold: real, k: int, lo: int, hi: int) {
    forall i | 0 <= i < |xs| :: CaptionOf(xs, i, threshold) == k <==> lo <= i < hi
  }

  function CaptionFor(bands: seq<Band>): Caption
    requires bands != []
  {
    Caption(Mean(Xs(bands)), Classes(bands))
  }

  /** The `k`-th caption is theirs: it stands at their mean with their classes. */
  ghost predicate CaptionOfRange(captions: seq<Caption>, sorted: seq<Band>, k: nat, lo: nat, hi: nat) {
    lo < hi <= |sorted| && k < |captions| && captions[k] == CaptionFor(sorted[lo..hi])
  }

  lemma {:induction false} EveryBandHasACaption(sorted: seq<Band>, i: nat, threshold: real)
    requires i < |sorted|
    ensures CaptionOf(Xs(sorted), i, threshold) < |Chained(sorted, threshold)|
    decreases |sorted|
  {
    var n := ChainLength(Xs(sorted), threshold);
    if i >= n {
      EveryBandHasACaption(sorted[n..], i - n, threshold);
      assert Xs(sorted[n..]) == Xs(sorted)[n..];
    }
  }

  lemma SharedByShifts(xs: seq<real>, threshold: real, k: nat, lo: nat, hi: nat)
    requires xs != [] && k > 0
    requires var n := ChainLength(xs, threshold);
             n <= lo <= hi && SharedBy(xs[n..], threshold, k - 1, lo - n, hi - n)
    ensures SharedBy(xs, threshold, k, lo, hi)
  {
    forall i | 0 <= i < |xs| ensures CaptionOf(xs, i, threshold) == k <==> lo <= i < hi {
      CaptionOfStep(xs, i, threshold);
    }
  }

  lemma FirstCaption(sorted: seq<Band>, threshold: real)
    requires sorted != []
    ensures SharedBy(Xs(sorted), threshold, 0, 0, ChainLength(Xs(sorted), threshold))
    ensures CaptionOfRange(Chained(sorted, threshold), sorted, 0, 0, ChainLength(Xs(sorted), threshold))
  {
    var n := ChainLength(Xs(sorted), threshold);
    assert Xs(sorted[..n]) == Xs(sorted)[..n] && sorted[0..n] == sorted[..n];
  }

  lemma RestOfXs(sorted: seq<Band>, n: nat)
    requires n <= |sorted|
    ensures Xs(sorted[n..]) == Xs(sorted)[n..]
  {
  }

  lemma CaptionShifts(first: Caption, rest: seq<Caption>, sorted: seq<Band>, n: nat, k: nat, lo: nat, hi: nat)
    requires k > 0 && n <= lo <= hi && n <= |sorted|
    requires CaptionOfRange(rest, sorted[n..], k - 1, lo - n, hi - n)
    ensures CaptionOfRange([first] + rest, sorted, k, lo, hi)
  {
    assert sorted[n..][lo - n..hi - n] == sorted[lo..hi];
  }

  /**
   * So the captions that are output are exactly those clusters: every band has one, and each
   * caption stands at the mean, and carries the classes, of just the bands that share it.
   */
  lemma {:induction false} CaptionsAreTheClusters(sorted: seq<Band>, k: nat, threshold: real)
    returns (lo: nat, hi: nat)
    requires k < |Chained(sorted, threshold)|
    ensures SharedBy(Xs(sorted), threshold, k, lo, hi)
    ensures CaptionOfRange(Chained(sorted, threshold), sorted, k, lo, hi)
    decreases |sorted|
  {
    var n := ChainLength(Xs(sorted), threshold);
    if k == 0 {
      FirstCaption(sorted, threshold);
      lo, hi := 0, n;
    } else {
      lo, hi := CaptionsAreTheClusters(sorted[n..], k - 1, threshold);
      lo, hi := n + lo, n + hi;
      RestOfXs(sorted, n);
      SharedByShifts(Xs(sorted), threshold, k, lo, hi);
      CaptionShifts(Chained(sorted, threshold)[0], Chained(sorted[n..], threshold), sorted, n, k, lo, hi);
    }
  }

  // ---- clustering is idempotent ---------------------------------------------------------------

  function Points(xs: seq<real>): (r: seq<Band>)
    ensures |r| == |xs| && forall k | 0 <= k < |r| :: r[k] == Band(xs[k], Blocked)
  {
    seq(|xs|, k requires 0 <= k < |xs| => Band(xs[k], Blocked))
  }

  /** Where captions stand, as bands, so that they can be clustered again. */
  function Marks(captions: seq<Caption>): (r: seq<Band>)
    ensures |r| == |captions| && forall k | 0 <= k < |r| :: r[k] == Band(captions[k].x, Blocked)
  {
    seq(|captions|, k requires 0 <= k < |captions| => Band(captions[k].x, Blocked))
  }

  function Positions(captions: seq<Caption>): seq<real> {
    Xs(Marks(captions))
  }

  lemma MeanOfOne(x: real)
    ensures Mean([x]) == x
  {
    assert [x][..0] == [];
    assert Sum([x]) == Sum([]) + x;
  }

  /** A point with no other within reach is a caption by itself. */
  lemma LonePoint(xs: seq<real>, threshold: real)
    requires xs != [] && (|xs| > 1 ==> xs[1] - xs[0] > threshold)
    ensures Chained(Points(xs), threshold) != [] && Chained(Points(xs), threshold)[0].x == xs[0]
    ensures Chained(Points(xs), threshold)[1..] == Chained(Points(xs[1..]), threshold)
  {
    var bands := Points(xs);
    assert Xs(bands) == xs && ChainLength(xs, threshold) == 1;
    assert bands[1..] == Points(xs[1..]) && xs[..1] == [xs[0]];
    MeanOfOne(xs[0]);
  }

  lemma PositionsByFirst(captions: seq<Caption>, xs: seq<real>)
    requires captions != [] && xs != [] && captions[0].x == xs[0] && Positions(captions[1..]) == xs[1..]
    ensures Positions(captions) == xs
  {
    assert Positions(captions) == [captions[0].x] + Positions(captions[1..]);
  }

  lemma {:induction false} SpacedStays(xs: seq<real>, threshold: real)
    requires forall k | 0 < k < |xs| :: xs[k] - xs[k - 1] > threshold
    ensures Positions(Chained(Points(xs), threshold)) == xs
  {
    if xs != [] {
      LonePoint(xs, threshold);
      SpacedStays(xs[1..], threshold);
      PositionsByFirst(Chained(Points(xs), threshold), xs);
    }
  }

  /** `clusterXs`, after the sort. */
  function ClusterXs(sorted: seq<real>, threshold: real): seq<real> {
    Positions(Captions(Points(sorted), threshold))
  }

  lemma ClusteringAgainChangesNothing(sorted: seq<real>, threshold: real)
    requires Ascending(sorted)
    ensures Ascending(ClusterXs(sorted, threshold))
    ensures ClusterXs(ClusterXs(sorted, threshold), threshold) == ClusterXs(sorted, threshold)
  {
    assert Xs(Points(sorted)) == sorted;
    if threshold > 0.0 {
      CaptionsNeverOverlap(Points(sorted), threshold);
      SpacedStays(ClusterXs(sorted, threshold), threshold);
    } else {
      assert ClusterXs(sorted, threshold) == sorted;
    }
  }

  // ---- the order of the input does not matter ------------------------------------------------------

  function Times<T(==)>(a: seq<T>, x: T): nat {
    if a == [] then 0 else (if a[0] == x then 1 else 0) + Times(a[1..], x)
  }

  /** The same elements, each as often. */
  ghost predicate Permuted<T(!new)>(a: seq<T>, b: seq<T>) {
    |a| == |b| && forall x: T {:trigger Times(a, x)} {:trigger Times(b, x)} :: Times(a, x) == Times(b, x)
  }

  /** What `sorted` may return: ties come out in any order. */
  ghost predicate IsSortOf(sorted: seq<Band>, bands: seq<Band>) {
    Ascending(Xs(sorted)) && Permuted(sorted, bands)
  }

  /** The same positions and the same bands, whatever the order among equals. */
  ghost predicate Alike(a: seq<Band>, b: seq<Band>) {
    Xs(a) == Xs(b) && forall band :: band in a <==> band in b
  }

  /** `a` without the element at `k`. */
  function Without<T>(a: seq<T>, k: nat): (r: seq<T>)
    requires k < |a|
    ensures |r| == |a| - 1
  {
    a[..k] + a[k + 1..]
  }

  lemma {:induction false} TimesWithout<T>(a: seq<T>, k: nat, x: T)
    requires k < |a|
    ensures Times(a, x) == Times(Without(a, k), x) + if a[k] == x then 1 else 0
  {
    if k == 0 {
      assert Without(a, 0) == a[1..];
    } else {
      TimesWithout(a[1..], k - 1, x);
      assert Without(a, k)[0] == a[0] && Without(a, k)[1..] == Without(a[1..], k - 1);
    }
  }

  lemma {:induction false} Somewhere<T>(a: seq<T>, x: T) returns (k: nat)
    requires Times(a, x) > 0
    ensures k < |a| && a[k] == x
  {
    if a[0] == x {
      k := 0;
    } else {
      var j := Somewhere(a[1..], x);
      k := j + 1;
    }
  }

  lemma {:induction false} Counted<T>(a: seq<T>, k: nat)
    requires k < |a|
    ensures Times(a, a[k]) > 0
  {
    if k > 0 {
      Counted(a[1..], k - 1);
    }
  }

  /** Take the same element out of both, wherever it is. */
  lemma StillPermuted<T(!new)>(a: seq<T>, b: seq<T>, j: nat, k: nat)
    requires Permuted(a, b) && j < |a| && k < |b| && a[j] == b[k]
    ensures Permuted(Without(a, j), Without(b, k))
  {
    var a', b' := Without(a, j), Without(b, k);
    forall x: T ensures Times(a', x) == Times(b', x) {
      TimesWithout(a, j, x);
      TimesWithout(b, k, x);
    }
  }

  lemma SameFirst(a: seq<real>, b: seq<real>)
    requires Ascending(a) && Ascending(b) && Permuted(a, b) && a != []
    ensures a[0] == b[0]
  {
    Counted(a, 0);
    Counted(b, 0);
    var j := Somewhere(b, a[0]);
    var k := Somewhere(a, b[0]);
  }

  lemma DropFirst<T>(a: seq<T>)
    requires a != []
    ensures Without(a, 0) == a[1..]
  {
  }

  lemma {:induction false} SortedIsUnique(a: seq<real>, b: seq<real>)
    requires Ascending(a) && Ascending(b) && Permuted(a, b)
    ensures a == b
  {
    if a != [] {
      SameFirst(a, b);
      StillPermuted(a, b, 0, 0);
      DropFirst(a);
      DropFirst(b);
      SuffixIsAscending(a, 1);
      SuffixIsAscending(b, 1);
      SortedIsUnique(a[1..], b[1..]);
      FirstAndRest(a, b);
    }
  }

  lemma SuffixIsAscending(xs: seq<real>, n: nat)
    requires Ascending(xs) && n <= |xs|
    ensures Ascending(xs[n..])
  {
  }

  lemma FirstAndRest<T>(a: seq<T>, b: seq<T>)
    requires a != [] && b != [] && a[0] == b[0] && a[1..] == b[1..]
    ensures a == b
  {
    assert a == [a[0]] + a[1..] && b == [b[0]] + b[1..];
  }

  /** Reading off the positions is compatible with taking one band out. */
  lemma XsWithout(a: seq<Band>, k: nat, x: real)
    requires k < |a|
    ensures Times(Xs(a), x) == Times(Xs(Without(a, k)), x) + if a[k].x == x then 1 else 0
  {
    assert Xs(Without(a, k)) == Without(Xs(a), k);
    TimesWithout(Xs(a), k, x);
  }

  lemma {:induction false} SameXs(a: seq<Band>, b: seq<Band>, x: real)
    requires Permuted(a, b)
    ensures Times(Xs(a), x) == Times(Xs(b), x)
    decreases |a|
  {
    if a == [] {
      assert Xs(a) == Xs(b);
    } else {
      Counted(a, 0);
      var k := Somewhere(b, a[0]);
      StillPermuted(a, b, 0, k);
      SameXs(Without(a, 0), Without(b, k), x);
      XsWithout(a, 0, x);
      XsWithout(b, k, x);
    }
  }

  lemma SortsAreAlike(a: seq<Band>, b: seq<Band>)
    requires Ascending(Xs(a)) && Ascending(Xs(b)) && Permuted(a, b)
    ensures Alike(a, b)
  {
    forall x: real ensures Times(Xs(a), x) == Times(Xs(b), x) {
      SameXs(a, b, x);
    }
    assert Permuted(Xs(a), Xs(b));
    SortedIsUnique(Xs(a), Xs(b));
    forall band ensures band in a <==> band in b {
      SameMember(a, b, band);
      SameMember(b, a, band);
    }
  }

  lemma SameMember(a: seq<Band>, b: seq<Band>, band: Band)
    requires Permuted(a, b)
    ensures band in a ==> band in b
  {
    if band in a {
      var j :| 0 <= j < |a| && a[j] == band;
      Counted(a, j);
      var k := Somewhere(b, band);
    }
  }

  lemma PrefixMembers(a: seq<Band>, n: nat, band: Band)
    requires Ascending(Xs(a)) && 0 < n <= |a| && (n < |a| ==> a[n - 1].x < a[n].x)
    ensures band in a[..n] <==> band in a && band.x <= a[n - 1].x
    ensures band in a[n..] <==> band in a && band.x > a[n - 1].x
  {
    assert a == a[..n] + a[n..];
    forall k | 0 <= k < |a| ensures k < n <==> a[k].x <= a[n - 1].x {
      assert Xs(a)[k] == a[k].x && Xs(a)[n - 1] == a[n - 1].x;
      assert n < |a| ==> Xs(a)[n] == a[n].x;
    }
  }

  lemma {:induction false} AlikeCluster(a: seq<Band>, b: seq<Band>, threshold: real)
    requires threshold > 0.0 && Ascending(Xs(a)) && Alike(a, b)
    ensures Chained(a, threshold) == Chained(b, threshold)
    decreases |a|
  {
    assert |Xs(a)| == |Xs(b)|;
    if a != [] {
      var n := ChainLength(Xs(a), threshold);
      ChainHangs(Xs(a), threshold);
      assert Xs(a)[n - 1] == Xs(b)[n - 1];
      assert n < |a| ==> Xs(a)[n] == Xs(b)[n];
      forall band ensures band in a[..n] <==> band in b[..n] {
        PrefixMembers(a, n, band);
        PrefixMembers(b, n, band);
      }
      forall band ensures band in a[n..] <==> band in b[n..] {
        PrefixMembers(a, n, band);
        PrefixMembers(b, n, band);
      }
      assert Classes(a[..n]) == Classes(b[..n]);
      assert Xs(a[n..]) == Xs(a)[n..] && Xs(b[n..]) == Xs(b)[n..];
      AlikeCluster(a[n..], b[n..], threshold);
    }
  }

  lemma SortsOfOneList(bands: seq<Band>, bands': seq<Band>, a: seq<Band>, b: seq<Band>)
    requires Permuted(bands, bands') && IsSortOf(a, bands) && IsSortOf(b, bands')
    ensures Permuted(a, b)
  {
    forall x: Band ensures Times(a, x) == Times(b, x) {
      assert Times(bands, x) == Times(bands', x);
    }
  }

  /**
   * However the bands are listed, and however the sort leaves equal positions, the captions
   * are the same.
   */
  lemma CaptionsIgnoreOrder(bands: seq<Band>, bands': seq<Band>, a: seq<Band>, b: seq<Band>, threshold: real)
    requires threshold > 0.0 && Permuted(bands, bands')
    requires IsSortOf(a, bands) && IsSortOf(b, bands')
    ensures Captions(a, threshold) == Captions(b, threshold)
  {
    SortsOfOneList(bands, bands', a, b);
    SortsAreAlike(a, b);
    AlikeCluster(a, b, threshold);
  }

  /** With clustering switched off only the positions are independent of the order, not the classes. */
  lemma SinglesKeepTieOrder(bands: seq<Band>, a: seq<Band>, b: seq<Band>, threshold: real)
    requires threshold <= 0.0 && IsSortOf(a, bands) && IsSortOf(b, bands)
    ensures Positions(Captions(a, threshold)) == Positions(Captions(b, threshold))
    ensures Captions(a, threshold) == Captions(b, threshold) <==> a == b
  {
    SortsOfOneList(bands, bands, a, b);
    SortsAreAlike(a, b);
    assert Positions(Singles(a)) == Xs(a) && Positions(Singles(b)) == Xs(b);
    if Captions(a, threshold) == Captions(b, threshold) {
      forall k | 0 <= k < |a| ensures a[k] == b[k] {
        assert Singles(a)[k] == Singles(b)[k];
        assert a[k].cls in Singles(b)[k].classes;
      }
    }
  }
}
