/** `shapeOfMaxVol`: the piece of largest volume of a compound, with an
    absolute tie tolerance. The scan over the children is a left fold,
    `Scan`, whose state holds the three variables of the Python loop of
    `shapeOfMaxVol`. */
module MaxVolume {
  import opened Outcomes
  import opened Geometry

  /** The absolute tolerance `1e-8`. */
  const Tol: real := 0.00000001

  function Abs(x: real): real {
    if x < 0.0 then -x else x
  }

  /** `abs(v - m) <= 1e-8`: `v` ties with `m`. Not transitive. */
  predicate Near(v: real, m: real) {
    Abs(v - m) <= Tol
  }

  /** The loop variables `maxVol`, `shMax` and `cntEq`. */
  datatype ScanState<S> = ScanState(maxVol: real, best: Option<S>, ties: int)

  /** Their values before the first child. */
  function Start<S>(): ScanState<S> {
    ScanState(0.0, None, 0)
  }

  /** One iteration of the loop over the children. */
  function Step<S>(vol: S -> real, st: ScanState<S>, sh: S): (r: ScanState<S>)
    // the maximum never decreases, and grows only by more than the tolerance
    ensures r.maxVol == st.maxVol || r.maxVol > st.maxVol + Tol
    // a child more than the tolerance above the maximum becomes the new maximum
    ensures vol(sh) > st.maxVol + Tol ==> r == ScanState(vol(sh), Some(sh), 1)
    // a child replaces the best one exactly when it sets a new maximum
    ensures r.maxVol != st.maxVol ==> r.best == Some(sh) && r.maxVol == vol(sh) && r.ties == 1
    ensures r.maxVol == st.maxVol ==> r.best == st.best
    // a child within tolerance of the maximum only adds a tie
    ensures vol(sh) <= st.maxVol + Tol && Near(vol(sh), st.maxVol) ==> r.ties == st.ties + 1
    ensures vol(sh) <= st.maxVol + Tol && !Near(vol(sh), st.maxVol) ==> r == st
  {
    var v := vol(sh);
    if v > st.maxVol + Tol then ScanState(v, Some(sh), 1)
    else if Near(v, st.maxVol) then st.(ties := st.ties + 1)
    else st
  }

  /** The loop state after the children `cs`, in order. */
  function Scan<S>(vol: S -> real, cs: seq<S>): ScanState<S>
    decreases |cs|
  {
    if |cs| == 0 then Start() else Step(vol, Scan(vol, cs[..|cs| - 1]), cs[|cs| - 1])
  }

  /** How many of `cs` have a volume within tolerance of `m`. */
  function CountNear<S>(vol: S -> real, cs: seq<S>, m: real): nat
    decreases |cs|
  {
    if |cs| == 0 then 0
    else CountNear(vol, cs[..|cs| - 1], m) + (if Near(vol(cs[|cs| - 1]), m) then 1 else 0)
  }

  /** `shapeOfMaxVol(s)`: a non-compound passes through; a compound yields
      the child that set the final maximum (or `None`), unless the tie count
      ended above one. */
  function ShapeOfMaxVol<S>(k: Kernel<S>, s: S): (r: Result<Option<S>>)
    ensures !k.isCompound(s) ==> r == Ok(Some(s))
    ensures k.isCompound(s) && |k.childShapes(s)| == 0 ==> r == Ok(None)
    ensures k.isCompound(s) && r.Ok? && r.value.Some? ==>
              r.value.value in k.childShapes(s) && k.volume(r.value.value) > Tol
  {
    if !k.isCompound(s) then Ok(Some(s))
    else
      var st := Scan(k.volume, k.childShapes(s));
      BestIsChild(k.volume, k.childShapes(s));
      if st.ties > 1 then Err(EqualVolumes) else Ok(st.best)
  }

  /** The Python loop of `shapeOfMaxVol`, statement by statement. */
  method ShapeOfMaxVolLoop<S>(k: Kernel<S>, s: S) returns (r: Result<Option<S>>)
    ensures r == ShapeOfMaxVol(k, s)
  {
    if !k.isCompound(s) {
      return Ok(Some(s));
    }
    var children := k.childShapes(s);
    var maxVol := 0.0;
    var cntEq := 0;
    var shMax: Option<S> := None;
    var i := 0;
    while i < |children|
      invariant 0 <= i <= |children|
      invariant Scan(k.volume, children[..i]) == ScanState(maxVol, shMax, cntEq)
    {
      var v := k.volume(children[i]);
      if v > maxVol + Tol {
        maxVol := v;
        shMax := Some(children[i]);
        cntEq := 1;
      } else if Abs(v - maxVol) <= Tol {
        cntEq := cntEq + 1;
      }
      assert children[..i + 1][..i] == children[..i];
      i := i + 1;
    }
    assert children[..|children|] == children;
    if cntEq > 1 {
      return Err(EqualVolumes);
    }
    return Ok(shMax);
  }

  /** No child set a maximum: every volume is at most the tolerance, and
      each child within tolerance of 0 counted as a tie. */
  ghost predicate NoRecord<S>(vol: S -> real, cs: seq<S>, st: ScanState<S>) {
    && st.maxVol == 0.0
    && st.best == None
    && (forall i :: 0 <= i < |cs| ==> vol(cs[i]) <= Tol)
    && st.ties == CountNear(vol, cs, 0.0)
  }

  /** Child `j` set the final maximum: it exceeded the maximum of the
      children before it by more than the tolerance, every earlier child is
      strictly smaller, every later one at most the tolerance above it, and
      the ties are `j` itself plus the later children within tolerance of it. */
  ghost predicate RecordAt<S>(vol: S -> real, cs: seq<S>, st: ScanState<S>, j: int) {
    && 0 <= j < |cs|
    && vol(cs[j]) > Scan(vol, cs[..j]).maxVol + Tol
    && st.best == Some(cs[j])
    && st.maxVol == vol(cs[j])
    && st.maxVol > Tol
    && (forall i :: 0 <= i < j ==> vol(cs[i]) < st.maxVol)
    && (forall i :: j < i < |cs| ==> vol(cs[i]) <= st.maxVol + Tol)
    && st.ties == 1 + CountNear(vol, cs[j + 1..], st.maxVol)
  }

  /** Scanning one more child is one more step. */
  lemma ScanSnoc<S>(vol: S -> real, cs: seq<S>, x: S)
    ensures Scan(vol, cs + [x]) == Step(vol, Scan(vol, cs), x)
  {
    assert (cs + [x])[..|cs|] == cs;
  }

  /** Counting one more child adds one exactly when it is near. */
  lemma CountNearSnoc<S>(vol: S -> real, cs: seq<S>, x: S, m: real)
    ensures CountNear(vol, cs + [x], m) == CountNear(vol, cs, m) + (if Near(vol(x), m) then 1 else 0)
  {
    assert (cs + [x])[..|cs|] == cs;
  }

  /** What the scan computes, stated without the fold: either no child set a
      maximum (`j == -1`) or child `j` set the final one. */
  lemma {:induction false} ScanCharacterized<S>(vol: S -> real, cs: seq<S>) returns (j: int)
    ensures j == -1 ==> NoRecord(vol, cs, Scan(vol, cs))
    ensures j != -1 ==> RecordAt(vol, cs, Scan(vol, cs), j)
    decreases |cs|
  {
    if |cs| == 0 {
      return -1;
    }
    var n := |cs| - 1;
    var p := cs[..n];
    var j' := ScanCharacterized(vol, p);
    assert cs == p + [cs[n]];
    j := ExtendCharacterization(vol, p, cs[n], j');
  }

  /** The characterisation survives scanning one more child `x`. */
  lemma ExtendCharacterization<S>(vol: S -> real, p: seq<S>, x: S, j': int) returns (j: int)
    requires j' == -1 ==> NoRecord(vol, p, Scan(vol, p))
    requires j' != -1 ==> RecordAt(vol, p, Scan(vol, p), j')
    ensures j == -1 ==> NoRecord(vol, p + [x], Scan(vol, p + [x]))
    ensures j != -1 ==> RecordAt(vol, p + [x], Scan(vol, p + [x]), j)
  {
    ScanSnoc(vol, p, x);
    if vol(x) > Scan(vol, p).maxVol + Tol {
      NewRecord(vol, p, x, j');
      return |p|;
    } else if j' == -1 {
      CountNearSnoc(vol, p, x, 0.0);
      return -1;
    } else {
      KeepRecord(vol, p, x, j');
      return j';
    }
  }

  /** A child more than the tolerance above the maximum sets a new record. */
  lemma NewRecord<S>(vol: S -> real, p: seq<S>, x: S, j': int)
    requires j' == -1 ==> NoRecord(vol, p, Scan(vol, p))
    requires j' != -1 ==> RecordAt(vol, p, Scan(vol, p), j')
    requires vol(x) > Scan(vol, p).maxVol + Tol
    ensures RecordAt(vol, p + [x], Step(vol, Scan(vol, p), x), |p|)
  {
    var st, cs := Scan(vol, p), p + [x];
    assert cs[..|p|] == p;
    // every child scanned so far is at most the tolerance above the maximum
    assert forall i :: 0 <= i < |p| ==> vol(p[i]) <= st.maxVol + Tol;
    assert forall i :: 0 <= i < |p| ==> cs[i] == p[i];
    assert cs[|p| + 1..] == [];
  }

  /** Any other child leaves the record where it was. */
  lemma KeepRecord<S>(vol: S -> real, p: seq<S>, x: S, j': int)
    requires 0 <= j' && RecordAt(vol, p, Scan(vol, p), j')
    requires vol(x) <= Scan(vol, p).maxVol + Tol
    ensures RecordAt(vol, p + [x], Step(vol, Scan(vol, p), x), j')
  {
    var st, cs := Scan(vol, p), p + [x];
    var st' := Step(vol, st, x);
    assert st'.maxVol == st.maxVol && st'.best == st.best;
    forall i | 0 <= i < |cs| && i != j'
      ensures i < j' ==> vol(cs[i]) < st.maxVol
      ensures j' < i ==> vol(cs[i]) <= st.maxVol + Tol
    {
      if i < |p| {
        assert cs[i] == p[i];
      }
    }
    assert cs[j'] == p[j'];
    assert cs[..j'] == p[..j'];
    KeepRecordTies(vol, p, x, j', st);
  }

  /** The ties after a kept record grow by one exactly when `x` is near it. */
  lemma KeepRecordTies<S>(vol: S -> real, p: seq<S>, x: S, j': int, st: ScanState<S>)
    requires 0 <= j' < |p|
    requires st.ties == 1 + CountNear(vol, p[j' + 1..], st.maxVol)
    requires vol(x) <= st.maxVol + Tol
    ensures Step(vol, st, x).ties == 1 + CountNear(vol, (p + [x])[j' + 1..], st.maxVol)
  {
    assert (p + [x])[j' + 1..] == p[j' + 1..] + [x];
    CountNearSnoc(vol, p[j' + 1..], x, st.maxVol);
  }

  /** A best child is one of the children and exceeds the tolerance. */
  lemma BestIsChild<S>(vol: S -> real, cs: seq<S>)
    ensures Scan(vol, cs).best.Some? ==>
              Scan(vol, cs).best.value in cs && vol(Scan(vol, cs).best.value) > Tol
  {
    var j := ScanCharacterized(vol, cs);
  }

  lemma {:induction false} CountNearZero<S>(vol: S -> real, cs: seq<S>, m: real)
    ensures CountNear(vol, cs, m) == 0 <==> forall i :: 0 <= i < |cs| ==> !Near(vol(cs[i]), m)
    decreases |cs|
  {
    if |cs| > 0 {
      var p := cs[..|cs| - 1];
      CountNearZero(vol, p, m);
      assert forall i :: 0 <= i < |p| ==> cs[i] == p[i];
    }
  }

  lemma {:induction false} CountNearSplit<S>(vol: S -> real, cs: seq<S>, a: nat, m: real)
    requires a <= |cs|
    ensures CountNear(vol, cs, m) == CountNear(vol, cs[..a], m) + CountNear(vol, cs[a..], m)
    decreases |cs|
  {
    if a < |cs| {
      var n := |cs| - 1;
      CountNearSplit(vol, cs[..n], a, m);
      assert cs[..n][..a] == cs[..a];
      assert cs[a..][..|cs[a..]| - 1] == cs[..n][a..];
    } else {
      assert cs[..a] == cs;
      assert cs[a..] == [];
    }
  }

  /** The children after `j` contribute no tie with `m`. */
  lemma LaterNotNear<S>(vol: S -> real, cs: seq<S>, j: int, m: real)
    requires 0 <= j < |cs|
    requires forall i :: j < i < |cs| ==> !Near(vol(cs[i]), m)
    ensures CountNear(vol, cs[j + 1..], m) == 0
  {
    var rest := cs[j + 1..];
    assert forall i :: 0 <= i < |rest| ==> rest[i] == cs[j + 1 + i];
    CountNearZero(vol, rest, m);
  }

  /** Two children within tolerance of `m` make at least two ties. */
  lemma CountNearTwo<S>(vol: S -> real, cs: seq<S>, i: int, j: int, m: real)
    requires 0 <= i < j < |cs|
    requires Near(vol(cs[i]), m) && Near(vol(cs[j]), m)
    ensures CountNear(vol, cs, m) >= 2
  {
    CountNearSplit(vol, cs, j, m);
    CountNearZero(vol, cs[..j], m);
    assert cs[..j][i] == cs[i];
    CountNearZero(vol, cs[j..], m);
    assert cs[j..][0] == cs[j];
    CountNearSplit(vol, cs[j..], 1, m);
    assert cs[j..][..1] == [cs[j]];
  }

  /** A returned child is the unique largest: it is one of the children,
      above the tolerance, every other child is strictly smaller, and every
      child after it is more than the tolerance smaller. */
  lemma ChosenChildIsStrictMaximum<S>(k: Kernel<S>, s: S, c: S) returns (j: int)
    requires k.isCompound(s) && ShapeOfMaxVol(k, s) == Ok(Some(c))
    ensures 0 <= j < |k.childShapes(s)| && k.childShapes(s)[j] == c
    ensures k.volume(c) > Tol
    ensures forall i :: 0 <= i < |k.childShapes(s)| && i != j ==>
              k.volume(k.childShapes(s)[i]) < k.volume(c)
    ensures forall i :: j < i < |k.childShapes(s)| ==>
              k.volume(k.childShapes(s)[i]) < k.volume(c) - Tol
  {
    var cs, vol := k.childShapes(s), k.volume;
    j := ScanCharacterized(vol, cs);
    var m := Scan(vol, cs).maxVol;
    CountNearZero(vol, cs[j + 1..], m);
    forall i | j < i < |cs|
      ensures vol(cs[i]) < m - Tol
    {
      assert cs[j + 1..][i - j - 1] == cs[i];
    }
  }

  /** On a compound that does not raise, no child exceeds the scan's maximum
      by more than the tolerance, and a returned child has that maximum. */
  lemma MaximumBoundsEveryChild<S>(k: Kernel<S>, s: S)
    requires k.isCompound(s) && ShapeOfMaxVol(k, s).Ok?
    ensures forall i :: 0 <= i < |k.childShapes(s)| ==>
              k.volume(k.childShapes(s)[i]) <= Scan(k.volume, k.childShapes(s)).maxVol + Tol
    ensures ShapeOfMaxVol(k, s).value.Some? ==>
              k.volume(ShapeOfMaxVol(k, s).value.value) == Scan(k.volume, k.childShapes(s)).maxVol
  {
    var cs, vol := k.childShapes(s), k.volume;
    var st := Scan(vol, cs);
    var j := ScanCharacterized(vol, cs);
    if j != -1 {
      forall i | 0 <= i < |cs|
        ensures vol(cs[i]) <= st.maxVol + Tol
      {
        if i < j {
          assert vol(cs[i]) < st.maxVol;
        }
      }
      assert ShapeOfMaxVol(k, s).value == st.best;
    }
  }

  /** A compound yields `None` exactly when no child exceeds the tolerance
      and at most one child is within tolerance of 0: two tiny children
      already raise. */
  lemma NoneIffNothingLarge<S>(k: Kernel<S>, s: S)
    requires k.isCompound(s)
    ensures ShapeOfMaxVol(k, s) == Ok(None) <==>
              (forall i :: 0 <= i < |k.childShapes(s)| ==> k.volume(k.childShapes(s)[i]) <= Tol)
              && CountNear(k.volume, k.childShapes(s), 0.0) <= 1
  {
    var j := ScanCharacterized(k.volume, k.childShapes(s));
    if j != -1 {
      RecordIsNotNone(k, s, j);
    }
  }

  /** A child that set a record is above the tolerance and makes the result
      something other than `None`. */
  lemma RecordIsNotNone<S>(k: Kernel<S>, s: S, j: int)
    requires k.isCompound(s) && RecordAt(k.volume, k.childShapes(s), Scan(k.volume, k.childShapes(s)), j)
    ensures ShapeOfMaxVol(k, s) != Ok(None)
    ensures k.volume(k.childShapes(s)[j]) > Tol
  {
  }

  /** Completeness: a child above the tolerance that beats every other child
      by more than the tolerance is returned, wherever it stands. */
  lemma SeparatedMaximumIsChosen<S>(k: Kernel<S>, s: S, j: int)
    requires k.isCompound(s) && 0 <= j < |k.childShapes(s)|
    requires k.volume(k.childShapes(s)[j]) > Tol
    requires forall i :: 0 <= i < |k.childShapes(s)| && i != j ==>
               k.volume(k.childShapes(s)[i]) + Tol < k.volume(k.childShapes(s)[j])
    ensures ShapeOfMaxVol(k, s) == Ok(Some(k.childShapes(s)[j]))
  {
    var cs, vol := k.childShapes(s), k.volume;
    var r := ScanCharacterized(vol, cs);
    var st := Scan(vol, cs);
    var vj := vol(cs[j]);
    var vr := if 0 <= r < |cs| then vol(cs[r]) else 0.0;
    // the record can be neither missing, nor before `j`, nor after it
    assert r == -1 ==> vj <= Tol;
    assert r != -1 && r < j ==> vj <= vr + Tol;
    assert r != -1 && j < r ==> vj < vr;
    assert r == j;
    LaterNotNear(vol, cs, j, st.maxVol);
    assert ShapeOfMaxVol(k, s) == if st.ties > 1 then Err(EqualVolumes) else Ok(st.best);
  }

  /** An exact tie for the largest volume always raises, in any order,
      unless that volume is below minus the tolerance. */
  lemma ExactTopTieRaises<S>(k: Kernel<S>, s: S, a: int, b: int)
    requires k.isCompound(s) && 0 <= a < b < |k.childShapes(s)|
    requires k.volume(k.childShapes(s)[a]) == k.volume(k.childShapes(s)[b]) >= -Tol
    requires forall i :: 0 <= i < |k.childShapes(s)| ==>
               k.volume(k.childShapes(s)[i]) <= k.volume(k.childShapes(s)[a])
    ensures ShapeOfMaxVol(k, s) == Err(EqualVolumes)
  {
    var cs, vol := k.childShapes(s), k.volume;
    var j := ScanCharacterized(vol, cs);
    if j == -1 {
      CountNearTwo(vol, cs, a, b, 0.0);
    } else {
      var m := Scan(vol, cs).maxVol;
      assert cs[j + 1..][b - j - 1] == cs[b];
      CountNearZero(vol, cs[j + 1..], m);
    }
  }

  /** The running maximum never decreases along the children. */
  lemma {:induction false} MaximumMonotone<S>(vol: S -> real, cs: seq<S>, a: nat, b: nat)
    requires a <= b <= |cs|
    ensures Scan(vol, cs[..a]).maxVol <= Scan(vol, cs[..b]).maxVol
    decreases b - a
  {
    if a < b {
      MaximumMonotone(vol, cs, a, b - 1);
      assert cs[..b][..b - 1] == cs[..b - 1];
    }
  }
}
