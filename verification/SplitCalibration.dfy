/** Fitting a calibrator on one part of a run's observations and evaluating it on the other. */
module SplitCalibration {
  import opened Common
  import opened Sorting
  import opened Sums
  import opened Isotonic
  import opened Calibrator
  import opened Split

  datatype Refusal = TooFew | SingleOutcome | NothingToSplit

  function HitCount(pairs: seq<Pair>): nat {
    if pairs == [] then 0 else HitCount(pairs[..|pairs| - 1]) + if pairs[|pairs| - 1].correct then 1 else 0
  }

  lemma {:induction false} HitCountIs(pairs: seq<Pair>)
    ensures HitCount(pairs) <= |pairs|
    ensures HitCount(pairs) == 0 <==> forall i :: 0 <= i < |pairs| ==> !pairs[i].correct
    ensures HitCount(pairs) == |pairs| <==> forall i :: 0 <= i < |pairs| ==> pairs[i].correct
  {
    if pairs != [] {
      var init := pairs[..|pairs| - 1];
      HitCountIs(init);
      assert forall i :: 0 <= i < |init| ==> init[i] == pairs[i];
    }
  }

  /** Enough observations, among them a correct and an incorrect prediction. */
  ghost predicate Identifiable(pairs: seq<Pair>, minSamples: nat) {
    && |pairs| >= minSamples
    && (exists i :: 0 <= i < |pairs| && pairs[i].correct) && (exists i :: 0 <= i < |pairs| && !pairs[i].correct)
  }

  method FitCalibrator(pairs: seq<Pair>, minSamples: nat) returns (r: Result<Fit, Refusal>)
    ensures r.Ok? <==> Identifiable(pairs, minSamples)
    ensures r.Ok? ==> IsFit(pairs, r.value) && Usable(r.value)
    ensures r == Err(TooFew) <==> |pairs| < minSamples
    ensures r != Err(NothingToSplit)
  {
    HitCountIs(pairs);
    var hits := HitCount(pairs);
    if |pairs| < minSamples {
      return Err(TooFew);
    }
    if hits == 0 || hits == |pairs| {
      return Err(SingleOutcome);
    }
    var fit := FitIsotonic(pairs);
    r := Ok(fit);
  }

  /** `ids`: the usable sample ids. Returns the fit, the ids evaluated and their calibrated confidences. */
  method SplitBlock(obs: map<int, Pair>, ids: seq<int>, fraction: real, digest: int -> int, minSamples: nat)
    returns (r: Result<Fit, Refusal>, evaluation: seq<int>, calibrated: seq<real>)
    requires AllDifferent(ids) && forall k :: 0 <= k < |ids| ==> ids[k] in obs
    ensures |ids| < 2 <==> r == Err(NothingToSplit)
    ensures |ids| >= 2 ==>
              var (cal, ev) := SplitIds(ids, fraction, digest);
              && evaluation == ev && (forall k :: 0 <= k < |cal| ==> cal[k] in obs)
              && (r.Ok? <==> Identifiable(Select(obs, cal), minSamples))
              && (r.Ok? ==> IsFit(Select(obs, cal), r.value) && Usable(r.value))
              && (r == Err(TooFew) <==> |cal| < minSamples)
    ensures |ids| < 2 ==> evaluation == []
    ensures if r.Ok? then Calibrated(obs, r.value, evaluation, calibrated) else calibrated == []
  {
    evaluation, calibrated := [], [];
    if |ids| < 2 {
      return Err(NothingToSplit), [], [];
    }
    var (cal, ev) := SplitIds(ids, fraction, digest);
    PartsAreUsable(obs, ids, fraction, digest);
    evaluation := ev;
    SelectedSize(obs, cal);
    r := FitCalibrator(Select(obs, cal), minSamples);
    if r.Ok? {
      calibrated := CalibrateAll(obs, r.value, ev);
    }
  }

  lemma {:induction false} SelectedSize(obs: map<int, Pair>, ids: seq<int>)
    requires forall k :: 0 <= k < |ids| ==> ids[k] in obs
    ensures |Select(obs, ids)| == |ids|
  {
    if ids != [] { SelectedAt(obs, ids, 0); }
  }

  method CalibrateAll(obs: map<int, Pair>, fit: Fit, ids: seq<int>) returns (values: seq<real>)
    requires Usable(fit) && forall k :: 0 <= k < |ids| ==> ids[k] in obs
    ensures Calibrated(obs, fit, ids, values)
  {
    values := [];
    for n := 0 to |ids|
      invariant |values| == n
      invariant forall k :: 0 <= k < n ==> values[k] == Apply(fit, obs[ids[k]].conf)
    {
      values := values + [Apply(fit, obs[ids[n]].conf)];
    }
  }

  ghost predicate Calibrated(obs: map<int, Pair>, fit: Fit, ids: seq<int>, values: seq<real>) {
    && Usable(fit) && |values| == |ids|
    && forall k :: 0 <= k < |ids| ==> ids[k] in obs && values[k] == Apply(fit, obs[ids[k]].conf)
  }

  lemma {:induction false} PartsAreUsable(obs: map<int, Pair>, ids: seq<int>, fraction: real, digest: int -> int)
    requires |ids| >= 2 && AllDifferent(ids) && forall k :: 0 <= k < |ids| ==> ids[k] in obs
    ensures var (cal, ev) := SplitIds(ids, fraction, digest);
            && (forall k :: 0 <= k < |cal| ==> cal[k] in obs) && (forall k :: 0 <= k < |ev| ==> ev[k] in obs)
  {
    SplitIsPartition(ids, fraction, digest);
    var (cal, ev) := SplitIds(ids, fraction, digest);
    PartIsWithin(cal, ev, ids);
    assert multiset(ev) + multiset(cal) == multiset(ids);
    PartIsWithin(ev, cal, ids);
    WithinKeys(obs, ids, cal);
    WithinKeys(obs, ids, ev);
  }

  lemma {:induction false} WithinKeys(obs: map<int, Pair>, ids: seq<int>, part: seq<int>)
    requires (forall k :: 0 <= k < |ids| ==> ids[k] in obs) && forall k :: 0 <= k < |part| ==> part[k] in ids
    ensures forall k :: 0 <= k < |part| ==> part[k] in obs
  {
    forall k | 0 <= k < |part| ensures part[k] in obs {
      assert part[k] in ids;
      var j :| 0 <= j < |ids| && ids[j] == part[k];
    }
  }

  /** Changing evaluation samples, however, cannot change the calibrator they are evaluated with. */
  lemma {:induction false} EvaluationCannotInfluence(obs: map<int, Pair>, obs': map<int, Pair>, ids: seq<int>,
                                                     fraction: real, digest: int -> int, fit: Fit, fit': Fit)
    requires |ids| >= 2 && AllDifferent(ids) && forall i :: i in ids ==> i in obs && i in obs'
    requires forall i :: i in ids && i !in SplitIds(ids, fraction, digest).1 ==> obs[i] == obs'[i]
    requires forall k :: 0 <= k < |SplitIds(ids, fraction, digest).0| ==>
               SplitIds(ids, fraction, digest).0[k] in obs && SplitIds(ids, fraction, digest).0[k] in obs'
    requires IsFit(Select(obs, SplitIds(ids, fraction, digest).0), fit)
    requires IsFit(Select(obs', SplitIds(ids, fraction, digest).0), fit')
    ensures fit == fit'
  {
    EvaluationDoesNotLeak(obs, obs', ids, fraction, digest);
    FitIsDetermined(Select(obs, SplitIds(ids, fraction, digest).0), fit, fit');
  }

  /** Calibrated confidences are probabilities and keep the order of the raw ones. */
  lemma {:induction false} CalibrationKeepsOrder(obs: map<int, Pair>, fit: Fit, ids: seq<int>, values: seq<real>, i: nat, j: nat)
    requires Calibrated(obs, fit, ids, values) && i < |ids| && j < |ids| && obs[ids[i]].conf <= obs[ids[j]].conf
    ensures 0.0 <= values[i] <= values[j] <= 1.0
  {
    ApplyIsMonotone(fit, obs[ids[i]].conf, obs[ids[j]].conf);
  }
}
