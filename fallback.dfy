/** The per-provider retry state machine of `_execute_with_fallback` and the
    model rotation of `rotate_model`, as pure specifications, with the
    properties the manager relies on. */
module Fallback {
  import opened Wrappers
  import opened Text
  import opened Catalog

  /** What one backend call yields: a payload, or the text of the exception it raised. */
  datatype Outcome = Success(value: string) | Failure(message: string)

  /** A backend call with the model to use and the attempt number (0-based) within
      one provider's retry loop. */
  type Backend = (Provider, string, nat) -> Outcome

  /** The keywords that mark a quota error and a model error. */
  const QuotaKeywords: seq<string> := ["429", "quota", "rate limit", "resource exhausted"]
  const ModelKeywords: seq<string> := ["404", "not found", "invalid model", "model not found"]

  /** `any(keyword in l for keyword in keywords)`. */
  predicate Mentions(l: string, keywords: seq<string>) {
    exists i :: 0 <= i < |keywords| && Contains(l, keywords[i])
  }

  predicate IsQuotaError(message: string) {
    Mentions(Lower(message), QuotaKeywords)
  }

  predicate IsModelError(message: string) {
    Mentions(Lower(message), ModelKeywords)
  }

  /** Failures that make the loop rotate to another model instead of giving up. */
  predicate IsRetryable(message: string) {
    IsQuotaError(message) || IsModelError(message)
  }

  /** Every retryable failure mentions one of seven keywords; "model not found"
      adds nothing to "not found". */
  lemma RetryableKeywords(message: string)
    ensures var l := Lower(message);
            IsRetryable(message) <==>
              (Contains(l, "429") || Contains(l, "quota") || Contains(l, "rate limit")
               || Contains(l, "resource exhausted") || Contains(l, "404")
               || Contains(l, "not found") || Contains(l, "invalid model"))
  {
    var l := Lower(message);
    if IsRetryable(message) {
      RetryableMentionsKeyword(message);
    }
    if Contains(l, "429") || Contains(l, "quota") || Contains(l, "rate limit")
       || Contains(l, "resource exhausted") || Contains(l, "404")
       || Contains(l, "not found") || Contains(l, "invalid model") {
      KeywordMakesRetryable(message);
    }
  }

  lemma RetryableMentionsKeyword(message: string)
    requires IsRetryable(message)
    ensures var l := Lower(message);
            Contains(l, "429") || Contains(l, "quota") || Contains(l, "rate limit")
            || Contains(l, "resource exhausted") || Contains(l, "404")
            || Contains(l, "not found") || Contains(l, "invalid model")
  {
    var l := Lower(message);
    if IsQuotaError(message) {
      var i :| 0 <= i < |QuotaKeywords| && Contains(l, QuotaKeywords[i]);
    } else {
      var i :| 0 <= i < |ModelKeywords| && Contains(l, ModelKeywords[i]);
      if i == 3 {
        ContainsInner(l, "model not found", "not found", 6);
      }
    }
  }

  lemma KeywordMakesRetryable(message: string)
    requires var l := Lower(message);
             Contains(l, "429") || Contains(l, "quota") || Contains(l, "rate limit")
             || Contains(l, "resource exhausted") || Contains(l, "404")
             || Contains(l, "not found") || Contains(l, "invalid model")
    ensures IsRetryable(message)
  {
    var l := Lower(message);
    if Contains(l, "429") { assert Contains(l, QuotaKeywords[0]); }
    else if Contains(l, "quota") { assert Contains(l, QuotaKeywords[1]); }
    else if Contains(l, "rate limit") { assert Contains(l, QuotaKeywords[2]); }
    else if Contains(l, "resource exhausted") { assert Contains(l, QuotaKeywords[3]); }
    else if Contains(l, "404") { assert Contains(l, ModelKeywords[0]); }
    else if Contains(l, "not found") { assert Contains(l, ModelKeywords[1]); }
    else { assert Contains(l, ModelKeywords[2]); }
  }

  // ------------------------------------------------------------- rotation

  predicate Distinct(names: seq<string>) {
    forall i, j :: 0 <= i < j < |names| ==> names[i] != names[j]
  }

  /** The position of the first occurrence of `x`. */
  function IndexOf(names: seq<string>, x: string): (i: nat)
    requires x in names
    ensures i < |names| && names[i] == x
    ensures forall j :: 0 <= j < i ==> names[j] != x
  {
    if names[0] == x then 0 else 1 + IndexOf(names[1..], x)
  }

  /** The model `rotate_model` picks: the head for an empty or unknown current
      model or after the last entry, otherwise the entry after the current one. */
  function NextModel(names: seq<string>, current: string): (r: Option<string>)
    ensures r.None? <==> names == []
    ensures r.Some? ==> r.value in names
    ensures names != [] && (current == "" || current !in names) ==> r == Some(names[0])
  {
    if names == [] then None
    else if current == "" || current !in names then Some(names[0])
    else
      var i := IndexOf(names, current);
      if i >= |names| - 1 then Some(names[0]) else Some(names[i + 1])
  }

  /** The index after `j` in a cyclic list of length `n`. */
  function Succ(j: nat, n: nat): nat {
    if j + 1 < n then j + 1 else 0
  }

  /** On a list of distinct, non-empty names rotation steps cyclically. */
  lemma RotationStep(names: seq<string>, j: nat)
    requires Distinct(names) && j < |names| && names[j] != ""
    ensures NextModel(names, names[j]) == Some(names[Succ(j, |names|)])
  {
    assert IndexOf(names, names[j]) == j;
  }

  /** One rotation step; a list with no models leaves the model as it is. */
  function Step(names: seq<string>, current: string): string {
    match NextModel(names, current)
    case None => current
    case Some(m) => m
  }

  /** The model reached from `current` after `k` rotations. */
  function Rotated(names: seq<string>, current: string, k: nat): string
    decreases k
  {
    if k == 0 then current else Rotated(names, Step(names, current), k - 1)
  }

  lemma {:induction false} RotatedAt(names: seq<string>, j: nat, k: nat)
    requires Distinct(names) && j < |names| && k < |names|
    requires forall i :: 0 <= i < |names| ==> names[i] != ""
    ensures Rotated(names, names[j], k) == names[if j + k < |names| then j + k else j + k - |names|]
    decreases k
  {
    if k > 0 {
      RotationStep(names, j);
      RotatedAt(names, Succ(j, |names|), k - 1);
    }
  }

  /** Repeated rotation does not come back to a model before it has gone
      through the whole list. */
  lemma RotationNoRepeat(names: seq<string>, j: nat, k1: nat, k2: nat)
    requires Distinct(names) && j < |names| && k1 < k2 < |names|
    requires forall i :: 0 <= i < |names| ==> names[i] != ""
    ensures Rotated(names, names[j], k1) != Rotated(names, names[j], k2)
  {
    RotatedAt(names, j, k1);
    RotatedAt(names, j, k2);
    var n := |names|;
    var i1 := if j + k1 < n then j + k1 else j + k1 - n;
    var i2 := if j + k2 < n then j + k2 else j + k2 - n;
    if i1 < i2 { assert names[i1] != names[i2]; } else { assert names[i2] != names[i1]; }
  }

  /** Every model of the list is reached within `|names|` rotations. */
  lemma RotationReachesAll(names: seq<string>, j: nat, i: nat)
    requires Distinct(names) && j < |names| && i < |names|
    requires forall i :: 0 <= i < |names| ==> names[i] != ""
    ensures exists k :: 0 <= k < |names| && Rotated(names, names[j], k) == names[i]
  {
    var k: nat := if i >= j then i - j else i + |names| - j;
    RotatedAt(names, j, k);
    assert (if j + k < |names| then j + k else j + k - |names|) == i;
    assert Rotated(names, names[j], k) == names[i];
  }

  // ------------------------------------------------------------ retry loop

  /** One provider's retry run: the models tried in order, the first payload if
      a call succeeded, and the model the loop ended on (the active model it
      leaves behind). */
  datatype Run = Run(tried: seq<string>, value: Option<string>, last: string)

  /** `_execute_with_fallback` from attempt `k` with model `current`: call the
      backend; on success stop; on a failure that is not retryable stop; on a
      retryable failure rotate, and go on only if rotation yields another model;
      stop when the budget is spent. */
  function Retry(names: seq<string>, current: string, call: Backend, p: Provider, k: nat, budget: nat): (r: Run)
    decreases budget - k
  {
    if k >= budget then Run([], None, current)
    else
      match call(p, current, k)
      case Success(v) => Run([current], Some(v), current)
      case Failure(m) =>
        if !IsRetryable(m) then Run([current], None, current)
        else
          match NextModel(names, current)
          case Some(next) =>
            if next != "" && next != current then
              var rest := Retry(names, next, call, p, k + 1, budget);
              Run([current] + rest.tried, rest.value, rest.last)
            else Run([current], None, next)
          case None => Run([current], None, current)
  }

  /** One retryable failure that rotates to another model: the run is that
      call followed by the run from the next model. */
  lemma RetryStep(names: seq<string>, current: string, call: Backend, p: Provider, k: nat, budget: nat)
    requires k < budget && call(p, current, k).Failure? && IsRetryable(call(p, current, k).message)
    requires NextModel(names, current).Some?
    requires NextModel(names, current).value != "" && NextModel(names, current).value != current
    ensures var rest := Retry(names, NextModel(names, current).value, call, p, k + 1, budget);
            Retry(names, current, call, p, k, budget) == Run([current] + rest.tried, rest.value, rest.last)
  {
  }

  /** At most `budget - k` calls are made, and a loop with budget left makes at
      least one, with the model it starts from. */
  lemma {:induction false} RetryWithinBudget(names: seq<string>, current: string, call: Backend, p: Provider, k: nat, budget: nat)
    requires k <= budget
    ensures var r := Retry(names, current, call, p, k, budget);
            && |r.tried| <= budget - k
            && (k < budget ==> |r.tried| >= 1 && r.tried[0] == current)
    decreases budget - k
  {
    if k < budget && call(p, current, k).Failure? && IsRetryable(call(p, current, k).message) {
      var next := NextModel(names, current);
      if next.Some? && next.value != "" && next.value != current {
        RetryWithinBudget(names, next.value, call, p, k + 1, budget);
      }
    }
  }

  /** A run with a payload ends on the model whose call produced it. */
  lemma {:induction false} RetryPayload(names: seq<string>, current: string, call: Backend, p: Provider, k: nat, budget: nat)
    requires Retry(names, current, call, p, k, budget).value.Some?
    ensures var r := Retry(names, current, call, p, k, budget);
            && |r.tried| >= 1 && r.last == r.tried[|r.tried| - 1]
            && call(p, r.last, k + |r.tried| - 1) == Success(r.value.value)
    decreases budget - k
  {
    if call(p, current, k).Failure? {
      var next := NextModel(names, current).value;
      RetryStep(names, current, call, p, k, budget);
      RetryPayload(names, next, call, p, k + 1, budget);
    }
  }

  /** A successful run from the first attempt ends with the call that succeeded. */
  lemma FirstRunPayload(names: seq<string>, first: string, call: Backend, p: Provider, budget: nat)
    requires Retry(names, first, call, p, 0, budget).value.Some?
    ensures var r := Retry(names, first, call, p, 0, budget);
            r.tried != [] && call(p, r.tried[|r.tried| - 1], |r.tried| - 1) == Success(r.value.value)
  {
    RetryPayload(names, first, call, p, 0, budget);
  }

  /** Every model tried, and the model the loop ends on, is the starting model
      or a member of the ranked list. */
  lemma {:induction false} RetryStaysInList(names: seq<string>, current: string, call: Backend, p: Provider, k: nat, budget: nat)
    ensures var r := Retry(names, current, call, p, k, budget);
            && (forall i :: 0 <= i < |r.tried| ==> r.tried[i] == current || r.tried[i] in names)
            && (r.last == current || r.last in names)
    decreases budget - k
  {
    if k < budget && call(p, current, k).Failure? && IsRetryable(call(p, current, k).message) {
      var next := NextModel(names, current);
      if next.Some? && next.value != "" && next.value != current {
        RetryStaysInList(names, next.value, call, p, k + 1, budget);
      }
    }
  }

  /** Every call of `tried`, from attempt `k` on, but the last failed with a
      retryable error, and each model after the first is the rotation of the
      one before it. */
  predicate ChainedFailures(names: seq<string>, tried: seq<string>, call: Backend, p: Provider, k: nat) {
    forall i :: 0 <= i < |tried| - 1 ==>
      && call(p, tried[i], k + i).Failure?
      && IsRetryable(call(p, tried[i], k + i).message)
      && NextModel(names, tried[i]) == Some(tried[i + 1])
      && tried[i + 1] != tried[i]
  }

  /** A retryable failure followed by a rotation extends a chain. */
  lemma ChainedFailuresCons(names: seq<string>, current: string, rest: seq<string>, call: Backend, p: Provider, k: nat)
    requires ChainedFailures(names, rest, call, p, k + 1)
    requires rest != [] ==>
               && call(p, current, k).Failure? && IsRetryable(call(p, current, k).message)
               && NextModel(names, current) == Some(rest[0]) && rest[0] != current
    ensures ChainedFailures(names, [current] + rest, call, p, k)
  {
    var t := [current] + rest;
    forall i | 1 <= i < |t| - 1
      ensures && call(p, t[i], k + i).Failure?
              && IsRetryable(call(p, t[i], k + i).message)
              && NextModel(names, t[i]) == Some(t[i + 1])
              && t[i + 1] != t[i]
    {
      assert t[i] == rest[i - 1] && t[i + 1] == rest[i];
      assert k + i == (k + 1) + (i - 1);
    }
  }

  /** Every call before the last one failed with a retryable error, and each
      model tried after the first is the rotation of the one before it. */
  lemma {:induction false} RetryFailuresBeforeLast(names: seq<string>, current: string, call: Backend, p: Provider, k: nat, budget: nat)
    requires k <= budget
    ensures ChainedFailures(names, Retry(names, current, call, p, k, budget).tried, call, p, k)
    decreases budget - k
  {
    if k < budget && call(p, current, k).Failure? && IsRetryable(call(p, current, k).message) {
      var next := NextModel(names, current);
      if next.Some? && next.value != "" && next.value != current {
        var rest := Retry(names, next.value, call, p, k + 1, budget);
        RetryFailuresBeforeLast(names, next.value, call, p, k + 1, budget);
        RetryWithinBudget(names, next.value, call, p, k + 1, budget);
        ChainedFailuresCons(names, current, rest.tried, call, p, k);
      }
    }
  }

  /** A failure that is neither a quota nor a model error ends the loop after
      that one attempt. */
  lemma FatalFailureStops(names: seq<string>, current: string, call: Backend, p: Provider, k: nat, budget: nat)
    requires k < budget
    requires call(p, current, k).Failure? && !IsRetryable(call(p, current, k).message)
    ensures Retry(names, current, call, p, k, budget) == Run([current], None, current)
  {
  }

  /** With a one-model list the loop stops after one failed attempt: rotation
      returns the same model, so the rest of the budget is not spent. */
  lemma OneModelStopsAfterOneAttempt(m: string, call: Backend, p: Provider, budget: nat)
    requires m != "" && budget > 0
    requires call(p, m, 0).Failure?
    ensures Retry([m], m, call, p, 0, budget) == Run([m], None, m)
  {
    assert NextModel([m], m) == Some(m) by { assert IndexOf([m], m) == 0; }
  }

  /** A provider whose every call fails with a quota or model error, and which
      has at least two distinct models, is abandoned after exactly its budget,
      having tried its models in rotation order. */
  lemma {:induction false} RetryExhaustsBudget(names: seq<string>, j: nat, call: Backend, p: Provider, k: nat, budget: nat)
    requires Distinct(names) && |names| >= 2 && j < |names| && k <= budget
    requires forall i :: 0 <= i < |names| ==> names[i] != ""
    requires forall m, a :: call(p, m, a).Failure? && IsRetryable(call(p, m, a).message)
    ensures var r := Retry(names, names[j], call, p, k, budget);
            && r.value == None
            && |r.tried| == budget - k
            && forall i :: 0 <= i < |r.tried| ==> r.tried[i] == Rotated(names, names[j], i)
    decreases budget - k
  {
    if k < budget {
      var j' := Succ(j, |names|);
      RotationStep(names, j);
      assert names[j'] != names[j];
      RetryStep(names, names[j], call, p, k, budget);
      RetryExhaustsBudget(names, j', call, p, k + 1, budget);
      var r := Retry(names, names[j], call, p, k, budget);
      var rest := Retry(names, names[j'], call, p, k + 1, budget);
      forall i | 1 <= i < |r.tried| ensures r.tried[i] == Rotated(names, names[j], i) {
        assert r.tried[i] == rest.tried[i - 1];
      }
    }
  }
}
