/**
 * The letter burst of `ExplosionSystem`: a fixed array of fragments that is
 * thrown out from a point, falls under gravity, and later flies back to the
 * point while shrinking. A fragment's membership of the scene (its `parent`
 * in three.js) is the `inScene` flag; the letter's `visible` flag is a field
 * of the system.
 */
module Explosion {
  import opened Vectors

  const DefaultFragmentCount: nat := 30
  /** Speed of every fragment right after `explode`. */
  const BurstSpeed: real := 0.2
  /** Subtracted from `velocity.y` on every burst-phase update. */
  const Gravity: real := 0.01
  /** Fragments whose `y` falls below this leave the scene. */
  const FloorY: real := -10.0
  /** `lerp` factor towards the reform target per update. */
  const ReformRate: real := 0.1
  /** Scale factor per reform-phase update. */
  const ShrinkFactor: real := 0.95
  /** A fragment within this distance of its target has reformed. */
  const ReformTolerance: real := 0.01

  /**
   * One fragment mesh. `scale` stands for the uniform `scale` vector,
   * `target` for `userData.originalPosition`.
   */
  datatype Fragment = Fragment(position: Vec3, velocity: Vec3, scale: real, target: Vec3, inScene: bool)

  /** A fragment as the constructor makes it: at the origin and not in the scene. */
  const Unlaunched: Fragment := Fragment(Zero, Zero, 1.0, Zero, false)

  /** The vector `(2r - 1)` per component, before normalisation. */
  function RawDirection(d: Vec3): (v: Vec3)
    requires IsDrawVec(d)
    ensures -1.0 <= v.x < 1.0 && -1.0 <= v.y < 1.0 && -1.0 <= v.z < 1.0
  {
    Vec3(d.x * 2.0 - 1.0, d.y * 2.0 - 1.0, d.z * 2.0 - 1.0)
  }

  /** `v.normalize()` where `len` is `v.length()`: a zero length divides by 1 instead. */
  function Normalize(v: Vec3, len: real): Vec3 {
    Scale(v, 1.0 / (if len == 0.0 then 1.0 else len))
  }

  function LaunchVelocity(d: Vec3, len: real): Vec3
    requires IsDrawVec(d)
  {
    Scale(Normalize(RawDirection(d), len), BurstSpeed)
  }

  /** Per fragment: three random draws and the host's length of the raw direction they give. */
  predicate ValidLaunch(draws: seq<Vec3>, lengths: seq<real>) {
    |draws| == |lengths| &&
    forall i :: 0 <= i < |draws| ==> IsDrawVec(draws[i]) && IsLengthOf(lengths[i], RawDirection(draws[i]))
  }

  /** The fragment `explode(origin)` produces from one draw. */
  function Launched(origin: Vec3, d: Vec3, len: real): Fragment
    requires IsDrawVec(d)
  {
    Fragment(origin, LaunchVelocity(d, len), 1.0, origin, true)
  }

  function LaunchAll(origin: Vec3, draws: seq<Vec3>, lengths: seq<real>): (s: seq<Fragment>)
    requires ValidLaunch(draws, lengths)
    ensures |s| == |draws|
  {
    seq(|draws|, i requires 0 <= i < |draws| => Launched(origin, draws[i], lengths[i]))
  }

  /** One burst-phase update of one fragment. */
  function BurstStep(f: Fragment): Fragment {
    if !f.inScene then f
    else
      var p := Add(f.position, f.velocity);
      f.(position := p, velocity := f.velocity.(y := f.velocity.y - Gravity), inScene := !(p.y < FloorY))
  }

  function BurstAll(s: seq<Fragment>): (t: seq<Fragment>)
    ensures |t| == |s|
  {
    seq(|s|, i requires 0 <= i < |s| => BurstStep(s[i]))
  }

  /** `distanceTo(target) > 0.01`, compared squared. */
  predicate FarFromTarget(f: Fragment) {
    DistanceSq(f.position, f.target) > ReformTolerance * ReformTolerance
  }

  /** A fragment that the next reform-phase update moves rather than removes. */
  predicate StillReforming(f: Fragment) {
    f.inScene && FarFromTarget(f)
  }

  /** One reform-phase update of one fragment. */
  function ReformStep(f: Fragment): Fragment {
    if !f.inScene then f
    else if FarFromTarget(f) then
      f.(position := Lerp(f.position, f.target, ReformRate), scale := f.scale * ShrinkFactor)
    else
      f.(inScene := false)
  }

  function ReformAll(s: seq<Fragment>): (t: seq<Fragment>)
    ensures |t| == |s|
  {
    seq(|s|, i requires 0 <= i < |s| => ReformStep(s[i]))
  }

  /** Number of fragments in the scene. */
  function InSceneCount(s: seq<Fragment>): nat {
    if s == [] then 0
    else InSceneCount(s[..|s| - 1]) + (if s[|s| - 1].inScene then 1 else 0)
  }

  // ---------------------------------------------------------------------------
  // Properties of the fragment rules
  // ---------------------------------------------------------------------------

  /**
   * `explode` gives a fragment a velocity of length 0.2 (squared: 0.04), unless
   * the random direction is the zero vector, which `normalize` leaves at zero.
   */
  lemma LaunchSpeed(d: Vec3, len: real)
    requires IsDrawVec(d) && IsLengthOf(len, RawDirection(d))
    ensures RawDirection(d) != Zero ==> LengthSq(LaunchVelocity(d, len)) == BurstSpeed * BurstSpeed
    ensures RawDirection(d) == Zero ==> LaunchVelocity(d, len) == Zero
  {
    var raw := RawDirection(d);
    if raw != Zero {
      NormalizeLength(raw, len, BurstSpeed);
    } else {
      var k := 1.0 / (if len == 0.0 then 1.0 else len);
      ScaleZero(k);
      ScaleZero(BurstSpeed);
    }
  }

  lemma NormalizeLength(v: Vec3, len: real, c: real)
    requires IsLengthOf(len, v) && v != Zero
    ensures LengthSq(Scale(Normalize(v, len), c)) == c * c
  {
    LengthSqPositive(v);
    NonZeroRoot(len, LengthSq(v));
    NormalizedScaledLength(v, len, c);
  }

  /** Dividing by the length and multiplying by `c` gives squared length `c * c`. */
  lemma NormalizedScaledLength(v: Vec3, len: real, c: real)
    requires len != 0.0 && len * len == LengthSq(v)
    ensures LengthSq(Scale(Scale(v, 1.0 / len), c)) == c * c
  {
    var k := 1.0 / len;
    calc {
      LengthSq(Scale(Scale(v, k), c));
    == { ScaleLengthSq(Scale(v, k), c); }
      c * c * LengthSq(Scale(v, k));
    == { ScaleLengthSq(v, k); }
      c * c * (k * k * LengthSq(v));
    == { InverseSquare(len, LengthSq(v)); TimesOne(c * c, k * k * LengthSq(v)); }
      c * c;
    }
  }

  lemma TimesOne(a: real, b: real)
    requires b == 1.0
    ensures a * b == a
  {
  }

  lemma NonZeroRoot(len: real, sq: real)
    requires len * len == sq && sq > 0.0
    ensures len != 0.0
  {
  }

  lemma InverseSquare(len: real, sq: real)
    requires len != 0.0 && len * len == sq
    ensures (1.0 / len) * (1.0 / len) * sq == 1.0
  {
    assert (1.0 / len) * len == 1.0;
  }

  /** A burst-phase update removes a fragment exactly when its new `y` is below the floor, and never adds one. */
  lemma BurstStepMembership(f: Fragment)
    ensures BurstStep(f).inScene <==> f.inScene && f.position.y + f.velocity.y >= FloorY
    ensures !f.inScene ==> BurstStep(f) == f
    ensures BurstStep(f).target == f.target && BurstStep(f).scale == f.scale
  {
  }

  /**
   * A reform-phase update of a fragment that is still far from its target
   * keeps it in the scene, multiplies its squared distance by 0.81 (the
   * distance by 0.9) and its scale by 0.95; one that is close is removed.
   */
  lemma ReformStepProgress(f: Fragment)
    ensures StillReforming(f) ==>
      var g := ReformStep(f);
      g.inScene && g.target == f.target &&
      DistanceSq(g.position, g.target) == (1.0 - ReformRate) * (1.0 - ReformRate) * DistanceSq(f.position, f.target) &&
      g.scale == f.scale * ShrinkFactor
    ensures f.inScene && !FarFromTarget(f) ==> !ReformStep(f).inScene
    ensures !f.inScene ==> ReformStep(f) == f
  {
    LerpDistanceSq(f.position, f.target, ReformRate);
  }

  /** A fragment after `k` reform-phase updates. */
  function Reformed(f: Fragment, k: nat): Fragment {
    if k == 0 then f else ReformStep(Reformed(f, k - 1))
  }

  function Power(r: real, k: nat): real {
    if k == 0 then 1.0 else r * Power(r, k - 1)
  }

  /**
   * While a fragment keeps reforming, after `k` updates it is still in the
   * scene, still bound for the same target, and its scale is `0.95^k` of the
   * start.
   */
  lemma {:induction false} ReformedScale(f: Fragment, k: nat)
    requires forall j :: 0 <= j < k ==> StillReforming(Reformed(f, j))
    ensures (k > 0 ==> Reformed(f, k).inScene) && Reformed(f, k).target == f.target
    ensures Reformed(f, k).scale == Power(ShrinkFactor, k) * f.scale
  {
    if k > 0 {
      ReformedScale(f, k - 1);
      var g := Reformed(f, k - 1);
      assert StillReforming(g);
      GeometricStep(Reformed(f, k).scale, g.scale, f.scale, ShrinkFactor, Power(ShrinkFactor, k - 1), Power(ShrinkFactor, k));
    }
  }

  /** While a fragment keeps reforming, after `k` updates its squared distance to the target is `0.81^k` of the start. */
  lemma {:induction false} ReformedDistance(f: Fragment, k: nat)
    requires forall j :: 0 <= j < k ==> StillReforming(Reformed(f, j))
    ensures DistanceSq(Reformed(f, k).position, f.target) ==
      Power((1.0 - ReformRate) * (1.0 - ReformRate), k) * DistanceSq(f.position, f.target)
  {
    if k > 0 {
      ReformedDistance(f, k - 1);
      ReformedScale(f, k - 1);
      var q := (1.0 - ReformRate) * (1.0 - ReformRate);
      DistanceStep(Reformed(f, k - 1), f.target, DistanceSq(f.position, f.target), Power(q, k - 1), Power(q, k));
    }
  }

  /** One reform update of a fragment whose squared distance is `p` times some start leaves `0.81 * p` times it. */
  lemma DistanceStep(g: Fragment, target: Vec3, start: real, p: real, pq: real)
    requires StillReforming(g) && g.target == target
    requires DistanceSq(g.position, target) == p * start
    requires pq == (1.0 - ReformRate) * (1.0 - ReformRate) * p
    ensures DistanceSq(ReformStep(g).position, target) == pq * start
  {
    ReformStepProgress(g);
    GeometricStep(DistanceSq(ReformStep(g).position, target), DistanceSq(g.position, target), start, (1.0 - ReformRate) * (1.0 - ReformRate), p, pq);
  }

  /** One more factor `q` on a quantity that is `p` times its start makes it `pq == q * p` times the start. */
  lemma GeometricStep(now: real, before: real, start: real, q: real, p: real, pq: real)
    requires now == q * before || now == before * q
    requires before == p * start && pq == q * p
    ensures now == pq * start
  {
    assert q * before == before * q;
  }

  /**
   * The reform phase ends for every fragment: some number of reform-phase
   * updates takes it out of the scene. While it keeps moving its squared
   * distance shrinks by 0.81 per update, so after `N` updates (`N` chosen from
   * the starting distance) it is within 0.01 and the next update removes it.
   */
  lemma ReformEnds(f: Fragment)
    ensures exists k :: !Reformed(f, k).inScene
  {
    var d0 := DistanceSq(f.position, f.target);
    LengthSqPositive(Sub(f.position, f.target));
    var n: nat := (d0 * 60000.0).Floor + 1;
    ReformEndsBy(f, n);
  }

  /** With `n > 60000 d0` for the starting squared distance `d0`, the fragment is out of the scene after `n + 1` updates. */
  lemma ReformEndsBy(f: Fragment, n: nat)
    requires n as real > DistanceSq(f.position, f.target) * 60000.0
    ensures !Reformed(f, n + 1).inScene
  {
    if forall j :: 0 <= j < n ==> StillReforming(Reformed(f, j)) {
      KeptMovingEnds(f, n);
    } else {
      var j :| 0 <= j < n && !StillReforming(Reformed(f, j));
      StoppedEnds(f, j, n + 1);
    }
  }

  /** A fragment that moved on each of its first `n > 60000 d0` updates is removed by update `n + 1`. */
  lemma KeptMovingEnds(f: Fragment, n: nat)
    requires n as real > DistanceSq(f.position, f.target) * 60000.0
    requires forall j :: 0 <= j < n ==> StillReforming(Reformed(f, j))
    ensures !Reformed(f, n + 1).inScene
  {
    LengthSqPositive(Sub(f.position, f.target));
    ReformedDistance(f, n);
    ReformedScale(f, n);
    ReformBound(DistanceSq(f.position, f.target), n);
    ReformStepProgress(Reformed(f, n));
  }

  /** A fragment that did not move on update `j + 1` is out of the scene from update `j + 1` on. */
  lemma StoppedEnds(f: Fragment, j: nat, m: nat)
    requires j < m && !StillReforming(Reformed(f, j))
    ensures !Reformed(f, m).inScene
  {
    ReformStepProgress(Reformed(f, j));
    assert !Reformed(f, j + 1).inScene;
    ReformStaysOut(f, j + 1, m);
  }

  /** After `n > 60000 d0` updates the factor `0.81^n` has brought a squared distance `d0` within 0.01 squared. */
  lemma ReformBound(d0: real, n: nat)
    requires d0 >= 0.0 && n as real > d0 * 60000.0
    ensures Power((1.0 - ReformRate) * (1.0 - ReformRate), n) * d0 <= ReformTolerance * ReformTolerance
  {
    var p := Power((1.0 - ReformRate) * (1.0 - ReformRate), n);
    DecayBound(n);
    PowerNonNegative((1.0 - ReformRate) * (1.0 - ReformRate), n);
    SmallProduct(p, d0, n as real);
  }

  lemma SmallProduct(p: real, d0: real, n: real)
    requires p >= 0.0 && d0 >= 0.0 && n > d0 * 60000.0
    requires p * (1.0 + 0.19 * n) <= 1.0
    ensures p * d0 <= 0.0001
  {
    assert 1.0 + 0.19 * n >= 11400.0 * d0;
    MulMonotone(p, 11400.0 * d0, 1.0 + 0.19 * n);
    assert p * (11400.0 * d0) == 11400.0 * (p * d0);
  }

  lemma MulMonotone(p: real, x: real, y: real)
    requires p >= 0.0 && x <= y
    ensures p * x <= p * y
  {
    assert p * y - p * x == p * (y - x);
  }

  lemma {:induction false} PowerNonNegative(r: real, k: nat)
    requires r >= 0.0
    ensures Power(r, k) >= 0.0
  {
    if k > 0 {
      PowerNonNegative(r, k - 1);
      MulMonotone(r, 0.0, Power(r, k - 1));
    }
  }

  /** A Bernoulli-style bound: `0.81^k * (1 + 0.19 k) <= 1`. */
  lemma {:induction false} DecayBound(k: nat)
    ensures Power((1.0 - ReformRate) * (1.0 - ReformRate), k) * (1.0 + 0.19 * k as real) <= 1.0
  {
    if k > 0 {
      DecayBound(k - 1);
      PowerNonNegative((1.0 - ReformRate) * (1.0 - ReformRate), k - 1);
      DecayStep(Power((1.0 - ReformRate) * (1.0 - ReformRate), k - 1), 1.0 + 0.19 * (k - 1) as real,
        Power((1.0 - ReformRate) * (1.0 - ReformRate), k));
    }
  }

  lemma DecayStep(p: real, a: real, next: real)
    requires p >= 0.0 && a >= 1.0 && p * a <= 1.0
    requires next == (1.0 - ReformRate) * (1.0 - ReformRate) * p
    ensures next * (a + 0.19) <= 1.0
  {
    assert next * (a + 0.19) == 0.81 * (p * a) + 0.1539 * p;
    MulMonotone(p, 0.81, a);
    assert 0.1539 * p <= 0.19 * (p * a);
  }

  /** Once a fragment has left the scene, further reform updates leave it out. */
  lemma {:induction false} ReformStaysOut(f: Fragment, k: nat, m: nat)
    requires k <= m && !Reformed(f, k).inScene
    ensures !Reformed(f, m).inScene
    decreases m - k
  {
    if k < m {
      ReformStaysOut(f, k + 1, m);
    }
  }

  /** No fragment of `s` is in the scene after `k` reform-phase updates. */
  predicate AllOut(s: seq<Fragment>, k: nat) {
    forall i :: 0 <= i < |s| ==> !Reformed(s[i], k).inScene
  }

  /**
   * Every fragment sequence reaches a number of reform updates after which
   * no fragment is in the scene; the reform-phase `update` then returns false
   * and shows the letter.
   */
  lemma {:induction false} ReformPhaseEnds(s: seq<Fragment>)
    ensures exists k :: AllOut(s, k)
  {
    if s == [] {
      assert AllOut(s, 0);
    } else {
      var n := |s| - 1;
      ReformPhaseEnds(s[..n]);
      var k1 :| AllOut(s[..n], k1);
      ReformEnds(s[n]);
      var k2 :| !Reformed(s[n], k2).inScene;
      var k := if k1 < k2 then k2 else k1;
      forall i | 0 <= i < |s|
        ensures !Reformed(s[i], k).inScene
      {
        if i < n {
          assert s[i] == s[..n][i];
          ReformStaysOut(s[i], k1, k);
        } else {
          ReformStaysOut(s[i], k2, k);
        }
      }
      assert AllOut(s, k);
    }
  }

  /** The fragments after `k` reform-phase updates of the whole array. */
  function ReformedAll(s: seq<Fragment>, k: nat): (t: seq<Fragment>)
    ensures |t| == |s|
  {
    seq(|s|, i requires 0 <= i < |s| => Reformed(s[i], k))
  }

  /**
   * One more reform-phase update of the array (what `Update` applies in the
   * reform phase) advances every fragment by one update; with
   * `ReformPhaseEnds` this gives a `k` after which `Update` finds nothing
   * still moving, returns false and shows the letter.
   */
  lemma ReformAllStep(s: seq<Fragment>, k: nat)
    ensures ReformAll(ReformedAll(s, k)) == ReformedAll(s, k + 1)
    ensures ReformedAll(s, 0) == s
    ensures AllOut(s, k) <==> forall i :: 0 <= i < |s| ==> !ReformedAll(s, k)[i].inScene
  {
    forall i | 0 <= i < |s|
      ensures ReformedAll(s, k)[i] == Reformed(s[i], k)
    {
    }
  }

  /** Removing fragments from the scene, and adding none, cannot raise the count. */
  lemma {:induction false} InSceneCountMonotone(s: seq<Fragment>, t: seq<Fragment>)
    requires |s| == |t|
    requires forall i :: 0 <= i < |t| ==> t[i].inScene ==> s[i].inScene
    ensures InSceneCount(t) <= InSceneCount(s)
  {
    if s != [] {
      var n := |s| - 1;
      InSceneCountMonotone(s[..n], t[..n]);
    }
  }

  /** The count is zero exactly when no fragment is in the scene. */
  lemma {:induction false} InSceneCountZero(s: seq<Fragment>)
    ensures InSceneCount(s) == 0 <==> forall i :: 0 <= i < |s| ==> !s[i].inScene
  {
    if s != [] {
      var n := |s| - 1;
      InSceneCountZero(s[..n]);
      assert forall i :: 0 <= i < n ==> s[..n][i] == s[i];
    }
  }

  lemma BurstNeverAdds(s: seq<Fragment>)
    ensures InSceneCount(BurstAll(s)) <= InSceneCount(s)
  {
    InSceneCountMonotone(s, BurstAll(s));
  }

  lemma ReformNeverAdds(s: seq<Fragment>)
    ensures InSceneCount(ReformAll(s)) <= InSceneCount(s)
  {
    InSceneCountMonotone(s, ReformAll(s));
  }

  /** Once no fragment is still far from its target, one reform-phase update empties the scene. */
  lemma ReformedMeansEmpty(s: seq<Fragment>)
    requires forall i :: 0 <= i < |s| ==> !StillReforming(s[i])
    ensures InSceneCount(ReformAll(s)) == 0
  {
    InSceneCountZero(ReformAll(s));
  }

  // ---------------------------------------------------------------------------
  // The system
  // ---------------------------------------------------------------------------

  class ExplosionSystem {
    /** The fragments; the array itself is never replaced, so their number never changes. */
    const fragments: array<Fragment>
    /** The letter's position when the system was built (`originalPosition`). */
    const letterPosition: Vec3
    var isReforming: bool
    /** The `visible` flag of the letter mesh. */
    var letterVisible: bool
    /** Whether the shared fragment geometry and material have been disposed. */
    var released: bool

    constructor (letter: Vec3, fragmentCount: nat)
      ensures fresh(fragments) && fragments.Length == fragmentCount
      ensures forall i :: 0 <= i < fragmentCount ==> fragments[i] == Unlaunched
      ensures letterPosition == letter && !isReforming && letterVisible && !released
    {
      var a := new Fragment[fragmentCount];
      for i := 0 to fragmentCount
        invariant forall k :: 0 <= k < i ==> a[k] == Unlaunched
      {
        a[i] := Unlaunched;
      }
      fragments := a;
      letterPosition := letter;
      isReforming := false;
      // A newly built letter mesh is visible.
      letterVisible := true;
      released := false;
    }

    /** `explode(position)`: hide the letter, leave the reform phase, and launch every fragment. */
    method Explode(position: Vec3, draws: seq<Vec3>, lengths: seq<real>)
      requires ValidLaunch(draws, lengths) && |draws| == fragments.Length
      modifies this, fragments
      ensures fragments[..] == LaunchAll(position, draws, lengths)
      ensures !letterVisible && !isReforming && released == old(released)
    {
      letterVisible := false;
      isReforming := false;
      for i := 0 to fragments.Length
        modifies fragments
        invariant forall k :: 0 <= k < i ==> fragments[k] == Launched(position, draws[k], lengths[k])
      {
        var raw := Vec3(draws[i].x * 2.0 - 1.0, draws[i].y * 2.0 - 1.0, draws[i].z * 2.0 - 1.0);
        var velocity := Scale(Normalize(raw, lengths[i]), BurstSpeed);
        fragments[i] := Fragment(position, velocity, 1.0, position, true);
      }
    }

    /** The body of the 2000 ms timer that `explode` starts. */
    method StartReform()
      modifies this
      ensures isReforming && letterVisible == old(letterVisible) && released == old(released)
    {
      isReforming := true;
    }

    /**
     * `update(delta)`; `delta` is unused. In the reform phase
     * the result says whether some fragment was still moving back; in the burst
     * phase whether some fragment is still in the scene.
     */
    method Update(delta: real) returns (active: bool)
      modifies this, fragments
      ensures old(isReforming) ==>
        fragments[..] == ReformAll(old(fragments[..])) &&
        (active <==> exists i :: 0 <= i < fragments.Length && StillReforming(old(fragments[i]))) &&
        isReforming == active &&
        letterVisible == (old(letterVisible) || !active)
      ensures !old(isReforming) ==>
        fragments[..] == BurstAll(old(fragments[..])) &&
        (active <==> exists i :: 0 <= i < fragments.Length && fragments[i].inScene) &&
        !isReforming && letterVisible == old(letterVisible)
      ensures !active ==> forall i :: 0 <= i < fragments.Length ==> !fragments[i].inScene
      ensures released == old(released)
    {
      if isReforming {
        var allReformed := true;
        for i := 0 to fragments.Length
          modifies fragments
          invariant forall k :: 0 <= k < i ==> fragments[k] == ReformStep(old(fragments[k]))
          invariant forall k :: i <= k < fragments.Length ==> fragments[k] == old(fragments[k])
          invariant allReformed <==> forall k :: 0 <= k < i ==> !StillReforming(old(fragments[k]))
        {
          var f := fragments[i];
          if !f.inScene {
            continue;
          }
          if DistanceSq(f.position, f.target) > ReformTolerance * ReformTolerance {
            fragments[i] := f.(position := Lerp(f.position, f.target, ReformRate), scale := f.scale * ShrinkFactor);
            allReformed := false;
          } else {
            fragments[i] := f.(inScene := false);
          }
        }
        if allReformed {
          letterVisible := true;
          isReforming := false;
        }
        return !allReformed;
      }

      active := false;
      for i := 0 to fragments.Length
        modifies fragments
        invariant forall k :: 0 <= k < i ==> fragments[k] == BurstStep(old(fragments[k]))
        invariant forall k :: i <= k < fragments.Length ==> fragments[k] == old(fragments[k])
        invariant active <==> exists k :: 0 <= k < i && fragments[k].inScene
      {
        var f := fragments[i];
        if !f.inScene {
          continue;
        }
        var p := Add(f.position, f.velocity);
        f := f.(position := p, velocity := f.velocity.(y := f.velocity.y - Gravity));
        if p.y < FloorY {
          fragments[i] := f.(inScene := false);
        } else {
          fragments[i] := f;
          active := true;
        }
      }
    }

    /** `dispose()`: every fragment leaves the scene and the geometry and material are released. */
    method Dispose()
      modifies this, fragments
      ensures forall i :: 0 <= i < fragments.Length ==> fragments[i] == old(fragments[i]).(inScene := false)
      ensures released && isReforming == old(isReforming) && letterVisible == old(letterVisible)
    {
      for i := 0 to fragments.Length
        modifies fragments
        invariant forall k :: 0 <= k < i ==> fragments[k] == old(fragments[k]).(inScene := false)
        invariant forall k :: i <= k < fragments.Length ==> fragments[k] == old(fragments[k])
      {
        if fragments[i].inScene {
          fragments[i] := fragments[i].(inScene := false);
        }
      }
      released := true;
    }
  }
}
