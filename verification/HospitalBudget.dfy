/** The time budget of a hospital mission: the controller's check of a reported status against the timeouts of its stages. */
module HospitalBudget {
  import opened SafetyTypes

  /** A reported value: a finite number, or anything else. */
  datatype Reported = Number(value: real) | NotANumber

  datatype BudgetError = UnsafeState | Timeout

  /** A status past the starting and idle states. A result that is not a mapping is `None`, and so are results that are
      not a list and a task that is not there. */
  datatype Status = Status(task: Option<seq<real>>, elapsed: Reported, results: Option<seq<Option<Reported>>>)

  function Sum(xs: seq<real>): real
    decreases |xs|
  {
    if xs == [] then 0.0 else Sum(xs[..|xs| - 1]) + xs[|xs| - 1]
  }

  predicate HasTimes(s: Status) {
    && s.task.Some? && s.elapsed.Number? && s.elapsed.value >= 0.0
    && s.results.Some? && |s.results.value| <= |s.task.value|
  }

  predicate IsNumber(s: Status, k: nat)
    requires HasTimes(s) && k < |s.results.value|
  {
    s.results.value[k].Some? && s.results.value[k].value.Number?
  }

  /** When stage `k - 1` was completed; zero before the first. */
  function Completed(s: Status, k: nat): real
    requires HasTimes(s) && k <= |s.results.value| && (k > 0 ==> IsNumber(s, k - 1))
  {
    if k == 0 then 0.0 else s.results.value[k - 1].value.value
  }

  predicate NumbersUpTo(s: Status, n: nat)
    requires HasTimes(s) && n <= |s.results.value|
  {
    forall k :: 0 <= k < n ==> IsNumber(s, k)
  }

  /** Completion `k` comes after the one before and not after now. */
  predicate InOrder(s: Status, k: nat)
    requires HasTimes(s) && k < |s.results.value| && NumbersUpTo(s, k)
  {
    IsNumber(s, k) && Completed(s, k) < Completed(s, k + 1) <= s.elapsed.value
  }

  predicate InTime(s: Status, k: nat)
    requires HasTimes(s) && k < |s.results.value| && NumbersUpTo(s, k + 1)
  {
    Completed(s, k + 1) - Completed(s, k) <= s.task.value[k]
  }

  /** The first `n` completions are all as they should be. */
  predicate GoodUpTo(s: Status, n: nat)
    requires HasTimes(s) && n <= |s.results.value|
  {
    NumbersUpTo(s, n) && forall k :: 0 <= k < n ==> InOrder(s, k) && InTime(s, k)
  }

  /** The stage under way, if any, is within its own timeout. */
  predicate CurrentInTime(s: Status)
    requires HasTimes(s) && NumbersUpTo(s, |s.results.value|)
  {
    var n := |s.results.value|;
    n < |s.task.value| ==> s.elapsed.value - Completed(s, n) <= s.task.value[n]
  }

  predicate WithinBudget(s: Status) {
    && HasTimes(s)
    && GoodUpTo(s, |s.results.value|)
    && s.elapsed.value <= Sum(s.task.value)
    && CurrentInTime(s)
  }

  /** The check accepts exactly the statuses within budget; it calls a status unsafe exactly when it has no usable times
      or its first bad completion is out of order rather than late; everything else it refuses is a timeout. */
  method Check(early: bool, s: Status) returns (r: Option<BudgetError>)
    ensures early ==> r == None
    ensures !early ==> (r == None <==> WithinBudget(s))
    ensures !early ==> (r == Some(UnsafeState) <==>
      !HasTimes(s) || exists k :: 0 <= k < |s.results.value| && GoodUpTo(s, k) && !InOrder(s, k))
  {
    if early { return None; }
    if s.task.None? { return Some(UnsafeState); }
    var timeouts := s.task.value;
    if !s.elapsed.Number? || s.elapsed.value < 0.0 || s.results.None? || |s.results.value| > |timeouts| {
      return Some(UnsafeState);
    }
    var elapsed, results := s.elapsed.value, s.results.value;
    var previous := 0.0;
    for k := 0 to |results|
      invariant GoodUpTo(s, k) && previous == Completed(s, k)
    {
      if results[k].None? || results[k].value.NotANumber? || results[k].value.value <= previous || results[k].value.value > elapsed {
        assert !InOrder(s, k);
        return Some(UnsafeState);
      }
      var completedAt := results[k].value.value;
      if completedAt - previous > timeouts[k] {
        assert !InTime(s, k);
        OneFirstFault(s, k);
        return Some(Timeout);
      }
      previous := completedAt;
    }
    OneFirstFault(s, |results|);
    var total := Total(timeouts);
    if elapsed > total { return Some(Timeout); }
    if |results| < |timeouts| && elapsed - previous > timeouts[|results|] { return Some(Timeout); }
    return None;
  }

  method Total(xs: seq<real>) returns (r: real)
    ensures r == Sum(xs)
  {
    r := 0.0;
    for k := 0 to |xs|
      invariant r == Sum(xs[..k])
    {
      assert xs[..k + 1][..k] == xs[..k];
      r := r + xs[k];
    }
    assert xs[..|xs|] == xs;
  }

  /** If the first `n` completions are good and the next, if there is one, is in order but late, then the first bad
      completion is not out of order. */
  lemma OneFirstFault(s: Status, n: nat)
    requires HasTimes(s) && n <= |s.results.value| && GoodUpTo(s, n)
    requires n < |s.results.value| ==> InOrder(s, n) && !InTime(s, n)
    ensures !exists k :: 0 <= k < |s.results.value| && GoodUpTo(s, k) && !InOrder(s, k)
  {
    assert n < |s.results.value| ==> !InTime(s, n);
    assert forall k :: n < k <= |s.results.value| ==> !GoodUpTo(s, k);
  }

  lemma {:induction false} SumOfPrefix(xs: seq<real>, n: nat)
    requires n <= |xs| && forall x :: x in xs ==> 0.0 <= x
    ensures Sum(xs[..n]) <= Sum(xs)
    decreases |xs|
  {
    if n < |xs| {
      var init := xs[..|xs| - 1];
      assert forall x :: x in init ==> x in xs;
      SumOfPrefix(init, n);
      assert init[..n] == xs[..n] && xs[|xs| - 1] in xs;
    } else {
      assert xs[..n] == xs;
    }
  }

  lemma {:induction false} CompletedWithinSum(s: Status, n: nat)
    requires HasTimes(s) && n <= |s.results.value| && GoodUpTo(s, n)
    ensures Completed(s, n) <= Sum(s.task.value[..n])
  {
    if n == 0 {
    } else {
      CompletedWithinSum(s, n - 1);
      assert s.task.value[..n][..n - 1] == s.task.value[..n - 1];
      assert InTime(s, n - 1);
    }
  }

  /** The test against the total is implied by the others as long as a stage is unfinished; it can only bite once every
      stage is done, and then it does so on some status that passes all the other tests. */
  lemma TotalMattersOnlyWhenDone(s: Status)
    requires HasTimes(s) && GoodUpTo(s, |s.results.value|) && CurrentInTime(s)
    requires forall x :: x in s.task.value ==> 0.0 <= x
    ensures |s.results.value| < |s.task.value| ==> WithinBudget(s)
    ensures var done := Status(Some([1.0]), Number(3.0), Some([Some(Number(1.0))]));
      HasTimes(done) && GoodUpTo(done, 1) && CurrentInTime(done) && !WithinBudget(done)
  {
    var n, timeouts := |s.results.value|, s.task.value;
    CompletedWithinSum(s, n);
    if n < |timeouts| {
      SumOfPrefix(timeouts, n + 1);
      assert timeouts[..n + 1][..n] == timeouts[..n];
    }
    assert [1.0][..0] == [] && Sum([1.0]) == Sum([]) + 1.0;
  }
}
