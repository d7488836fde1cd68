/** The request flows: one provider's fallback run on its registry record, the
    cascade over the available providers, and a whole chat, image or video
    request from validation to the reply. */
module Dispatch {
  import opened Wrappers
  import opened Text
  import opened Catalog
  import opened Registry
  import opened Fallback
  import opened Quota

  /** The model list of a service, empty when the service was never discovered. */
  function ModelsOf(c: Config, s: ServiceType): seq<ModelInfo> {
    if s in c.discovered then c.discovered[s] else []
  }

  /** `get_active_model`. */
  function ActiveModel(c: Config, s: ServiceType): (r: Option<string>)
    ensures r.Some? <==> c.enabled && s in c.active
    ensures r.Some? ==> r.value == c.active[s]
  {
    if c.enabled && s in c.active then Some(c.active[s]) else None
  }

  /** `rotate_model` on one record: no model when the service has none;
      otherwise the next model in the ranked list, which becomes active. */
  function RotateIn(c: Config, s: ServiceType, current: string): (r: (Config, Option<string>))
    ensures r.1.None? <==> ModelsOf(c, s) == []
    ensures r.1.None? ==> r.0 == c
    ensures r.1.Some? ==> r.1.value in Names(ModelsOf(c, s)) && r.0 == c.(active := c.active[s := r.1.value])
  {
    match NextModel(Names(ModelsOf(c, s)), current)
    case None => (c, None)
    case Some(m) => (c.(active := c.active[s := m]), Some(m))
  }

  /** Rotation keeps a record well formed: the model it activates is one of
      the service's ranked models. */
  lemma RotateKeepsWellFormed(c: Config, s: ServiceType, current: string)
    requires ModelsWellFormed(c)
    ensures ModelsWellFormed(RotateIn(c, s, current).0)
    ensures RotateIn(c, s, current).0.name == c.name
  {
    var (d, next) := RotateIn(c, s, current);
    if next.Some? {
      ActivateKeepsWellFormed(c, s, next.value);
    }
  }

  /** Making one of the service's ranked models active keeps a record well formed. */
  lemma ActivateKeepsWellFormed(c: Config, s: ServiceType, m: string)
    requires ModelsWellFormed(c) && m in Names(ModelsOf(c, s))
    ensures ModelsWellFormed(c.(active := c.active[s := m]))
  {
    assert s in c.discovered;
  }

  function DisabledMessage(p: Provider): string {
    "provider " + p.Value() + " is not enabled"
  }

  function ExhaustedMessage(p: Provider, budget: nat): string {
    "all attempts of " + p.Value() + " failed (" + NatToString(budget) + " attempts)"
  }

  /** One provider's run: the record afterwards, the result, and the models called. */
  datatype Attempt = Attempt(config: Config, outcome: Outcome, tried: seq<string>)

  /** `_execute_with_fallback`: a disabled provider fails at once. Otherwise the
      loop starts from the active model, or from the head of the list when there
      is none; a provider with no active model and no list fails without a
      call, because that error is not retryable. Every failure ends in the
      "all attempts failed" error, whatever the backend said. */
  function Execute(c: Config, p: Provider, s: ServiceType, call: Backend, budget: nat): Attempt {
    if !c.enabled then Attempt(c, Failure(DisabledMessage(p)), [])
    else
      var names := Names(ModelsOf(c, s));
      var start := if s in c.active then c.active[s] else "";
      if budget == 0 || (start == "" && names == []) then Attempt(c, Failure(ExhaustedMessage(p, budget)), [])
      else
        var first := if start == "" then names[0] else start;
        var run := Retry(names, first, call, p, 0, budget);
        Attempt(c.(active := c.active[s := run.last]),
                match run.value case Some(v) => Success(v) case None => Failure(ExhaustedMessage(p, budget)),
                run.tried)
  }

  /** A run calls the backend at most `budget` times. */
  lemma ExecuteBounded(c: Config, p: Provider, s: ServiceType, call: Backend, budget: nat)
    ensures |Execute(c, p, s, call, budget).tried| <= budget
  {
    if c.enabled {
      var names := Names(ModelsOf(c, s));
      var start := if s in c.active then c.active[s] else "";
      if budget > 0 && !(start == "" && names == []) {
        RetryWithinBudget(names, if start == "" then names[0] else start, call, p, 0, budget);
      }
    }
  }

  /** A successful run returns the payload of its last call, made with the
      last model tried at that attempt; a failed run reports only that the
      provider is disabled or that all its attempts failed. */
  lemma ExecuteResult(c: Config, p: Provider, s: ServiceType, call: Backend, budget: nat)
    ensures var a := Execute(c, p, s, call, budget);
            && (a.outcome.Success? ==>
                  a.tried != [] && call(p, a.tried[|a.tried| - 1], |a.tried| - 1) == a.outcome)
            && (a.outcome.Failure? ==>
                  a.outcome.message == if c.enabled then ExhaustedMessage(p, budget) else DisabledMessage(p))
  {
    if Execute(c, p, s, call, budget).outcome.Success? {
      ExecuteSuccess(c, p, s, call, budget);
    }
  }

  lemma ExecuteSuccess(c: Config, p: Provider, s: ServiceType, call: Backend, budget: nat)
    requires Execute(c, p, s, call, budget).outcome.Success?
    ensures var a := Execute(c, p, s, call, budget);
            a.tried != [] && call(p, a.tried[|a.tried| - 1], |a.tried| - 1) == a.outcome
  {
    var names := Names(ModelsOf(c, s));
    var start := if s in c.active then c.active[s] else "";
    FirstRunPayload(names, if start == "" then names[0] else start, call, p, budget);
  }

  /** A run changes nothing in the record but the service's active model. */
  lemma ExecuteFrame(c: Config, p: Provider, s: ServiceType, call: Backend, budget: nat)
    ensures var a := Execute(c, p, s, call, budget);
            && a.config == c.(active := a.config.active)
            && (forall t :: t in a.config.active && t != s ==> t in c.active && a.config.active[t] == c.active[t])
            && (s in c.active ==> s in a.config.active)
  {
  }

  /** Every model called, and the active model left behind, is a model of the
      service's ranked list. */
  lemma ExecuteStaysInList(c: Config, p: Provider, s: ServiceType, call: Backend, budget: nat)
    requires ModelsWellFormed(c)
    ensures var a := Execute(c, p, s, call, budget);
            && (s in a.config.active ==> a.config.active[s] in Names(ModelsOf(c, s)))
            && (forall i :: 0 <= i < |a.tried| ==> a.tried[i] in Names(ModelsOf(c, s)))
  {
    if c.enabled {
      var names := Names(ModelsOf(c, s));
      var start := if s in c.active then c.active[s] else "";
      if budget > 0 && !(start == "" && names == []) {
        var first := if start == "" then names[0] else start;
        assert first in names;
        RetryStaysInList(names, first, call, p, 0, budget);
      }
    }
  }

  /** A record that differs from a well-formed one only in the active model
      of one service, now one of that service's models, is well formed. */
  lemma ReactivateKeepsWellFormed(c: Config, d: Config, s: ServiceType)
    requires ModelsWellFormed(c)
    requires d == c.(active := d.active)
    requires forall t :: t in d.active && t != s ==> t in c.active && d.active[t] == c.active[t]
    requires s in d.active ==> d.active[s] in Names(ModelsOf(c, s))
    ensures ModelsWellFormed(d)
  {
    forall t | t in d.active
      ensures t in d.discovered && d.active[t] in Names(d.discovered[t])
    {
      if t == s {
        assert ModelsOf(c, s) != [];
      }
    }
  }

  /** A run leaves the record well formed. */
  lemma ExecuteKeepsWellFormed(c: Config, p: Provider, s: ServiceType, call: Backend, budget: nat)
    requires ModelsWellFormed(c)
    ensures ModelsWellFormed(Execute(c, p, s, call, budget).config)
    ensures Execute(c, p, s, call, budget).config.name == c.name
  {
    ExecuteStaysInList(c, p, s, call, budget);
    ExecuteFrame(c, p, s, call, budget);
    ReactivateKeepsWellFormed(c, Execute(c, p, s, call, budget).config, s);
  }

  /** An enabled provider with no active model and no models for the service
      fails without calling its backend: this is why Stability, Luma and Kling,
      which discovery never gives models, never answer. */
  lemma NoModelsNoCall(c: Config, p: Provider, s: ServiceType, call: Backend, budget: nat)
    requires s !in c.active && ModelsOf(c, s) == []
    ensures Execute(c, p, s, call, budget).tried == []
    ensures Execute(c, p, s, call, budget).outcome.Failure?
    ensures Execute(c, p, s, call, budget).config == c
  {
  }

  /** A provider whose list holds one model makes a single call when it fails,
      whatever the budget. */
  lemma OneModelOneCall(c: Config, p: Provider, s: ServiceType, call: Backend, budget: nat)
    requires c.enabled && budget > 0 && |ModelsOf(c, s)| == 1
    requires s in c.active ==> c.active[s] == ModelsOf(c, s)[0].name
    requires ModelsOf(c, s)[0].name != ""
    requires call(p, ModelsOf(c, s)[0].name, 0).Failure?
    ensures Execute(c, p, s, call, budget).tried == [ModelsOf(c, s)[0].name]
  {
    var m := ModelsOf(c, s)[0].name;
    assert Names(ModelsOf(c, s)) == [m];
    OneModelStopsAfterOneAttempt(m, call, p, budget);
  }

  // ----------------------------------------------------------- the cascade

  datatype Contact = Contact(provider: Provider, tried: seq<string>)

  datatype Win = Win(provider: Provider, payload: string)

  /** A provider that failed, with its error. */
  datatype Failed = Failed(provider: Provider, message: string)

  /** The providers' records afterwards, the failures collected, the
      provider that answered if any, and each provider contacted, in order. */
  datatype Tally = Tally(providers: map<Provider, Config>, failures: seq<Failed>, winner: Option<Win>, contacts: seq<Contact>)

  /** One error line: the provider's name and the first 100 characters of its error. */
  function ErrorLine(p: Provider, message: string): string {
    p.Value() + ": " + Take(message, 100)
  }

  /** One provider's run inside a request, given its record. */
  type Visit = (Provider, Config) -> Attempt

  /** The run `_execute_with_fallback` makes for a request of service `s`. */
  function Visitor(s: ServiceType, call: Backend, budget: nat): Visit {
    (p: Provider, c: Config) => Execute(c, p, s, call, budget)
  }

  /** The provider loop of a request: the first non-empty payload wins and
      counts as a use of that provider; a failure is counted against the
      provider and remembered; an empty payload is skipped silently. */
  function Cascade(order: seq<Provider>, m: map<Provider, Config>, visit: Visit): Tally
    requires forall p :: p in order ==> p in m
    decreases |order|
  {
    if order == [] then Tally(m, [], None, [])
    else
      var p := order[0];
      var a := visit(p, m[p]);
      var here := Contact(p, a.tried);
      match a.outcome
      case Success(v) =>
        if v != "" then
          Tally(m[p := a.config.(usageToday := a.config.usageToday + 1)], [], Some(Win(p, v)), [here])
        else
          var rest := Cascade(order[1..], m[p := a.config], visit);
          rest.(contacts := [here] + rest.contacts)
      case Failure(msg) =>
        var rest := Cascade(order[1..], m[p := Charge(a.config, msg)], visit);
        rest.(failures := [Failed(p, msg)] + rest.failures, contacts := [here] + rest.contacts)
  }

  /** The record a provider is left with after its run in a request: one
      more use when it answered, one more error when it failed. */
  function Settle(c: Config, outcome: Outcome): Config {
    match outcome
    case Success(v) => if v != "" then c.(usageToday := c.usageToday + 1) else c
    case Failure(msg) => Charge(c, msg)
  }

  /** A failed provider: one more error today, and the error remembered. */
  function Charge(c: Config, msg: string): Config {
    c.(errorsToday := c.errorsToday + 1, lastError := Some(msg))
  }

  /** The record left for the next provider after `order[0]` was contacted
      without winning. */
  function AfterVisit(order: seq<Provider>, m: map<Provider, Config>, visit: Visit): map<Provider, Config>
    requires order != [] && order[0] in m
  {
    var a := visit(order[0], m[order[0]]);
    match a.outcome
    case Success(_) => m[order[0] := a.config]
    case Failure(msg) => m[order[0] := Charge(a.config, msg)]
  }

  /** A cascade `full` seen from position `i` of the order, with record `m`:
      the failures and contacts so far come first, then those of the rest. */
  predicate Ledger(full: Tally, order: seq<Provider>, i: nat, m: map<Provider, Config>, visit: Visit,
                   failures: seq<Failed>, contacts: seq<Contact>)
  {
    && i <= |order| && (forall p :: p in order ==> p in m)
    && var t := Cascade(order[i..], m, visit);
       full == Tally(t.providers, failures + t.failures, t.winner, contacts + t.contacts)
  }

  lemma LedgerStart(order: seq<Provider>, m: map<Provider, Config>, visit: Visit)
    requires forall p :: p in order ==> p in m
    ensures Ledger(Cascade(order, m, visit), order, 0, m, visit, [], [])
  {
    var t := Cascade(order, m, visit);
    assert order[0..] == order;
    assert [] + t.failures == t.failures && [] + t.contacts == t.contacts;
  }

  /** The provider at position `i` is contacted and either answers, which
      ends the cascade, or hands it on to position `i + 1`. */
  lemma LedgerStep(full: Tally, order: seq<Provider>, i: nat, m: map<Provider, Config>, visit: Visit,
                   failures: seq<Failed>, contacts: seq<Contact>)
    requires Ledger(full, order, i, m, visit, failures, contacts) && i < |order|
    ensures var p := order[i];
            var a := visit(p, m[p]);
            var here := Contact(p, a.tried);
            var next := m[p := Settle(a.config, a.outcome)];
            && (a.outcome.Success? && a.outcome.value != "" ==>
                  full == Tally(next, failures, Some(Win(p, a.outcome.value)), contacts + [here]))
            && (a.outcome.Success? && a.outcome.value == "" ==>
                  Ledger(full, order, i + 1, next, visit, failures, contacts + [here]))
            && (a.outcome.Failure? ==>
                  Ledger(full, order, i + 1, next, visit, failures + [Failed(p, a.outcome.message)], contacts + [here]))
  {
    var p := order[i];
    var a := visit(p, m[p]);
    var here := Contact(p, a.tried);
    assert order[i..][0] == p;
    assert order[i..][1..] == order[i + 1..];
    match a.outcome
    case Success(v) =>
      if v != "" {
        assert failures + [] == failures;
      } else {
        var rest := Cascade(order[i + 1..], m[p := a.config], visit);
        assert contacts + ([here] + rest.contacts) == (contacts + [here]) + rest.contacts;
      }
    case Failure(msg) =>
      var rest := Cascade(order[i + 1..], m[p := Charge(a.config, msg)], visit);
      assert contacts + ([here] + rest.contacts) == (contacts + [here]) + rest.contacts;
      assert failures + ([Failed(p, msg)] + rest.failures) == (failures + [Failed(p, msg)]) + rest.failures;
  }

  /** Past the last provider nobody answered. */
  lemma LedgerEnd(full: Tally, order: seq<Provider>, m: map<Provider, Config>, visit: Visit,
                  failures: seq<Failed>, contacts: seq<Contact>)
    requires Ledger(full, order, |order|, m, visit, failures, contacts)
    ensures full == Tally(m, failures, None, contacts)
  {
    assert order[|order|..] == [];
    assert failures + [] == failures && contacts + [] == contacts;
  }

  /** The providers are contacted in order and the loop stops at the first
      that answers: the contacts are a prefix of the order, the winner is the
      last of them with a non-empty payload, and without a winner every
      provider was contacted. There is at most one error line per contact. */
  lemma {:induction false} CascadeShape(order: seq<Provider>, m: map<Provider, Config>, visit: Visit)
    requires forall p :: p in order ==> p in m
    ensures var t := Cascade(order, m, visit);
            && |t.contacts| <= |order|
            && (forall i :: 0 <= i < |t.contacts| ==> t.contacts[i].provider == order[i])
            && |t.failures| <= |t.contacts|
            && (t.winner.Some? ==> t.contacts != [] && t.winner.value.provider == order[|t.contacts| - 1]
                                   && t.winner.value.payload != "")
            && (t.winner.None? ==> |t.contacts| == |order|)
    decreases |order|
  {
    if order != [] {
      var a := visit(order[0], m[order[0]]);
      if !(a.outcome.Success? && a.outcome.value != "") {
        var rest := Cascade(order[1..], AfterVisit(order, m, visit), visit);
        CascadeShape(order[1..], AfterVisit(order, m, visit), visit);
        CascadeMiss(order, m, visit);
        var t := Cascade(order, m, visit);
        assert forall i :: 1 <= i < |t.contacts| ==> t.contacts[i] == rest.contacts[i - 1];
      }
    }
  }

  /** A provider without an answer adds its contact, at most one failure, and
      leaves the rest to the providers after it. */
  lemma CascadeMiss(order: seq<Provider>, m: map<Provider, Config>, visit: Visit)
    requires forall p :: p in order ==> p in m
    requires order != [] && !(visit(order[0], m[order[0]]).outcome.Success? && visit(order[0], m[order[0]]).outcome.value != "")
    ensures var t := Cascade(order, m, visit);
            var rest := Cascade(order[1..], AfterVisit(order, m, visit), visit);
            && t.contacts == [Contact(order[0], visit(order[0], m[order[0]]).tried)] + rest.contacts
            && t.winner == rest.winner
            && |t.failures| <= |rest.failures| + 1
  {
  }

  /** Every failure belongs to a provider of the order. */
  lemma {:induction false} CascadeFailures(order: seq<Provider>, m: map<Provider, Config>, visit: Visit)
    requires forall p :: p in order ==> p in m
    ensures forall f :: f in Cascade(order, m, visit).failures ==> f.provider in order
    decreases |order|
  {
    if order != [] {
      var a := visit(order[0], m[order[0]]);
      var next := AfterVisit(order, m, visit);
      CascadeFailures(order[1..], next, visit);
      var rest := Cascade(order[1..], next, visit);
      var t := Cascade(order, m, visit);
      forall f | f in rest.failures ensures f.provider in order {
        var j :| 0 <= j < |order[1..]| && order[1..][j] == f.provider;
        assert order[j + 1] == f.provider;
      }
      match a.outcome
      case Success(v) =>
        if v == "" {
          assert t.failures == rest.failures;
        }
      case Failure(msg) =>
        assert t.failures == [Failed(order[0], msg)] + rest.failures;
    }
  }

  /** When every provider returns an empty payload nobody answers and no
      error is recorded. */
  lemma {:induction false} EmptyPayloadsLeaveNoTrace(order: seq<Provider>, m: map<Provider, Config>, visit: Visit)
    requires forall p :: p in order ==> p in m
    requires forall p, c :: visit(p, c).outcome == Success("")
    ensures Cascade(order, m, visit).winner == None
    ensures Cascade(order, m, visit).failures == []
    decreases |order|
  {
    if order != [] {
      EmptyPayloadsLeaveNoTrace(order[1..], AfterVisit(order, m, visit), visit);
    }
  }

  /** A backend that always returns an empty payload makes every enabled
      provider with an active model return an empty payload. */
  lemma EmptyBackendEmptyRun(c: Config, p: Provider, s: ServiceType, call: Backend, budget: nat)
    requires forall q, model, k :: call(q, model, k) == Success("")
    requires c.enabled && budget > 0 && s in c.active && c.active[s] != ""
    ensures Execute(c, p, s, call, budget).outcome == Success("")
  {
    assert Retry(Names(ModelsOf(c, s)), c.active[s], call, p, 0, budget).value == Some("");
  }

  /** What one provider's turn in a request does to its counters: an answer
      adds one use, a failure adds one error and keeps its message, an empty
      payload changes nothing; the key, limit and model lists stay as they were. */
  lemma SettleCounters(c: Config, p: Provider, s: ServiceType, call: Backend, budget: nat)
    ensures var a := Execute(c, p, s, call, budget);
            var d := Settle(a.config, a.outcome);
            var wins := a.outcome.Success? && a.outcome.value != "";
            && d.usageToday == c.usageToday + (if wins then 1 else 0)
            && d.errorsToday == c.errorsToday + (if a.outcome.Failure? then 1 else 0)
            && d.lastError == (if a.outcome.Failure? then Some(a.outcome.message) else c.lastError)
            && d.name == c.name && d.apiKey == c.apiKey && d.enabled == c.enabled
            && d.dailyLimit == c.dailyLimit && d.discovered == c.discovered
  {
    ExecuteFrame(c, p, s, call, budget);
  }

  // ------------------------------------------------------- a whole request

  /** Shortest accepted text after stripping: 1, 3 and 5 characters. */
  function MinStripped(s: ServiceType): nat {
    match s case Chat => 1 case Image => 3 case Video => 5
  }

  /** Longest text passed on: 4000, 2000 and 1000 characters. */
  function MaxText(s: ServiceType): nat {
    match s case Chat => 4000 case Image => 2000 case Video => 1000
  }

  /** Attempts allowed per provider: 16, 6 and 6. */
  function Budget(s: ServiceType): nat {
    match s case Chat => 16 case Image => 6 case Video => 6
  }

  function QuotaName(s: ServiceType): (r: string)
    ensures r in {ChatService, ImageService, VideoService}
  {
    match s case Chat => ChatService case Image => ImageService case Video => VideoService
  }

  /** The text passed on: a long chat message is cut to 4000 characters and
      marked with "...", a long image or video prompt is cut without a mark. */
  function Truncate(s: ServiceType, text: string): (r: string)
    ensures |r| <= MaxText(s) + 3
    ensures |text| <= MaxText(s) ==> r == text
    ensures |text| > MaxText(s) ==> |r| >= MaxText(s) && r[..MaxText(s)] == text[..MaxText(s)]
    ensures |text| > MaxText(s) ==> r == text[..MaxText(s)] + (if s == Chat then "..." else "")
  {
    if |text| <= MaxText(s) then text
    else if s == Chat then text[..MaxText(s)] + "..."
    else text[..MaxText(s)]
  }

  datatype Reply =
    | Answer(provider: Provider, payload: string)
    | InvalidUser
    | TooShort
    | LimitReached(remaining: int)
    | NoProviders
    | AllFailed(errors: seq<string>)
    | Unexpected

  /** The reply, the registry and the quota cache afterwards, the text passed
      on, and the providers contacted. */
  datatype Served = Served(reply: Reply, providers: map<Provider, Config>, quota: seq<Slot>, text: string, contacts: seq<Contact>)

  /** `chat_with_ai`, `generate_image` and `generate_video` after discovery:
      validate, truncate, check the quota, pick the available providers, run
      the cascade, and record the use on success. `stored` is the count the
      database holds for the user today. */
  function Serve(s: ServiceType, user: int, text: string, today: string, stored: int, limits: UserLimits,
                 m: map<Provider, Config>, quota: seq<Slot>, call: Backend): Served
  {
    if user <= 0 then Served(InvalidUser, m, quota, text, [])
    else if |Strip(text)| < MinStripped(s) then Served(TooShort, m, quota, text, [])
    else Admit(s, CacheKey(user, today, QuotaName(s)), Truncate(s, text), stored, limits, m, quota, call)
  }

  /** A valid request: the quota check, then the providers. */
  function Admit(s: ServiceType, key: string, prompt: string, stored: int, limits: UserLimits,
                 m: map<Provider, Config>, quota: seq<Slot>, call: Backend): (r: Served)
    ensures r.reply.LimitReached? || r.reply == NoProviders || r.reply.Answer? || r.reply.AllFailed? || r.reply == Unexpected
    ensures r.reply.LimitReached? <==> Usage(quota, key, stored) >= LimitFor(limits, QuotaName(s))
    ensures r.reply.LimitReached? ==> r.reply.remaining == 0 && r.providers == m && r.contacts == []
  {
    var q := CheckCache(quota, key, stored);
    var verdict := Decide(Usage(quota, key, stored), LimitFor(limits, QuotaName(s)));
    if !verdict.allowed then Served(LimitReached(verdict.remaining), m, q, prompt, [])
    else Deliver(s, key, prompt, m, q, call)
  }

  /** An admitted request: refused when no provider is available, otherwise
      the reply to the cascade over the available ones. */
  function Deliver(s: ServiceType, key: string, prompt: string, m: map<Provider, Config>, q: seq<Slot>,
                   call: Backend): (r: Served)
    ensures r.reply == NoProviders || r.reply.Answer? || r.reply.AllFailed? || r.reply == Unexpected
  {
    var order := AvailableOrder(m, s);
    if order == [] then Served(NoProviders, m, q, prompt, [])
    else
      AvailableMembers(m, s);
      Conclude(Cascade(order, m, Visitor(s, call, Budget(s))), q, key, prompt)
  }

  /** The reply to a cascade: the winner's payload, with the use recorded in
      the cache; otherwise the first three error lines; otherwise, when every
      payload was empty, the unexpected-error reply. */
  function Conclude(t: Tally, q: seq<Slot>, key: string, prompt: string): (r: Served)
    ensures r.reply.Answer? || r.reply.AllFailed? || r.reply == Unexpected
    ensures r.contacts == t.contacts && r.providers == t.providers
  {
    match t.winner
    case Some(w) => Served(Answer(w.provider, w.payload), t.providers, Bump(q, key), prompt, t.contacts)
    case None => Served(Summary(ErrorLines(t.failures)), t.providers, q, prompt, t.contacts)
  }

  /** The reply when nobody answered: the first three error lines, or the
      unexpected-error reply when there are none. */
  function Summary(errors: seq<string>): (r: Reply)
    ensures errors != [] ==> r == AllFailed(errors[..if |errors| < 3 then |errors| else 3])
    ensures errors == [] ==> r == Unexpected
  {
    if errors == [] then Unexpected else AllFailed(errors[..if |errors| < 3 then |errors| else 3])
  }

  /** The error lines of a failure summary, one per failure. */
  function ErrorLines(failures: seq<Failed>): (r: seq<string>)
    ensures |r| == |failures|
    ensures forall i :: 0 <= i < |r| ==> r[i] == ErrorLine(failures[i].provider, failures[i].message)
  {
    if failures == [] then [] else [ErrorLine(failures[0].provider, failures[0].message)] + ErrorLines(failures[1..])
  }

  lemma ErrorLinesAppend(failures: seq<Failed>, f: Failed)
    ensures ErrorLines(failures + [f]) == ErrorLines(failures) + [ErrorLine(f.provider, f.message)]
  {
  }

  /** Validation comes first: a non-positive user id, then a text that is too
      short once stripped, are refused without touching any state. */
  lemma ServeValidation(s: ServiceType, user: int, text: string, today: string, stored: int, limits: UserLimits,
                        m: map<Provider, Config>, quota: seq<Slot>, call: Backend)
    ensures var r := Serve(s, user, text, today, stored, limits, m, quota, call);
            && (r.reply == InvalidUser <==> user <= 0)
            && (r.reply == TooShort <==> user > 0 && |Strip(text)| < MinStripped(s))
            && (r.reply == InvalidUser || r.reply == TooShort ==> r.providers == m && r.quota == quota && r.contacts == [])
  {
    if user > 0 && |Strip(text)| >= MinStripped(s) {
      var a := Admit(s, CacheKey(user, today, QuotaName(s)), Truncate(s, text), stored, limits, m, quota, call);
      assert Serve(s, user, text, today, stored, limits, m, quota, call) == a;
      assert a.reply != InvalidUser && a.reply != TooShort;
    }
  }

  /** A valid request: refused when the day's usage has reached the limit,
      refused when no provider is available, and otherwise the reply to the
      cascade over the available providers, with the quota cache the check
      left. */
  lemma ServeCascade(s: ServiceType, user: int, text: string, today: string, stored: int, limits: UserLimits,
                     m: map<Provider, Config>, quota: seq<Slot>, call: Backend)
    requires user > 0 && |Strip(text)| >= MinStripped(s)
    ensures var key := CacheKey(user, today, QuotaName(s));
            var q := CheckCache(quota, key, stored);
            var r := Serve(s, user, text, today, stored, limits, m, quota, call);
            var order := AvailableOrder(m, s);
            && (Usage(quota, key, stored) >= LimitFor(limits, QuotaName(s)) ==>
                  r == Served(LimitReached(0), m, q, Truncate(s, text), []))
            && (Usage(quota, key, stored) < LimitFor(limits, QuotaName(s)) && order == [] ==>
                  r == Served(NoProviders, m, q, Truncate(s, text), []))
            && (forall p :: p in order ==> p in m)
            && (Usage(quota, key, stored) < LimitFor(limits, QuotaName(s)) && order != [] ==>
                  r == Conclude(Cascade(order, m, Visitor(s, call, Budget(s))), q, key, Truncate(s, text)))
  {
    AvailableMembers(m, s);
  }

  /** A whitespace-only text is too short for every kind of request. */
  lemma BlankIsTooShort(s: ServiceType, user: int, text: string, today: string, stored: int, limits: UserLimits,
                        m: map<Provider, Config>, quota: seq<Slot>, call: Backend)
    requires user > 0
    requires forall i :: 0 <= i < |text| ==> IsSpace(text[i])
    ensures Serve(s, user, text, today, stored, limits, m, quota, call).reply == TooShort
  {
    StripSpec(text);
  }

  /** A request is refused for quota exactly when the day's usage has reached
      the user's limit; the refusal reports nothing left and contacts nobody. */
  lemma ServeQuotaGate(s: ServiceType, user: int, text: string, today: string, stored: int, limits: UserLimits,
                       m: map<Provider, Config>, quota: seq<Slot>, call: Backend)
    requires user > 0 && |Strip(text)| >= MinStripped(s)
    ensures var key := CacheKey(user, today, QuotaName(s));
            var r := Serve(s, user, text, today, stored, limits, m, quota, call);
            && (r.reply.LimitReached? <==> Usage(quota, key, stored) >= LimitFor(limits, QuotaName(s)))
            && (r.reply.LimitReached? ==> r.reply.remaining == 0 && r.contacts == [] && r.providers == m)
  {
  }

  /** How a cascade is turned into a reply: an answer is the winner's payload
      and records one use; a summary lists the first three failures and is
      given only when nobody answered. */
  lemma ConcludeSpec(t: Tally, q: seq<Slot>, key: string, prompt: string)
    ensures var r := Conclude(t, q, key, prompt);
            && (r.reply.Answer? <==> t.winner.Some?)
            && (r.reply.Answer? ==> Win(r.reply.provider, r.reply.payload) == t.winner.value && r.quota == Bump(q, key))
            && (r.reply.AllFailed? ==> 1 <= |r.reply.errors| <= 3 && |r.reply.errors| <= |t.failures|
                                       && r.reply.errors == ErrorLines(t.failures[..|r.reply.errors|]))
            && (r.reply == Unexpected <==> t.winner.None? && t.failures == [])
            && (!r.reply.Answer? ==> r.quota == q)
  {
    var n := if |t.failures| < 3 then |t.failures| else 3;
    assert ErrorLines(t.failures)[..n] == ErrorLines(t.failures[..n]);
  }

  /** A delivered answer comes from an available provider, carries a payload
      and records one more use of the key. */
  lemma DeliverAnswer(s: ServiceType, key: string, prompt: string, m: map<Provider, Config>, q: seq<Slot>,
                      call: Backend)
    ensures var r := Deliver(s, key, prompt, m, q, call);
            r.reply.Answer? ==>
              && r.reply.payload != ""
              && r.reply.provider in AvailableOrder(m, s)
              && r.reply.provider in m && Eligible(r.reply.provider, m[r.reply.provider], s)
              && r.quota == Bump(q, key)
  {
    var order := AvailableOrder(m, s);
    if order != [] {
      AvailableMembers(m, s);
      var visit := Visitor(s, call, Budget(s));
      CascadeShape(order, m, visit);
      var t := Cascade(order, m, visit);
      ConcludeSpec(t, q, key, prompt);
    }
  }

  lemma AdmitAnswer(s: ServiceType, key: string, prompt: string, stored: int, limits: UserLimits,
                    m: map<Provider, Config>, quota: seq<Slot>, call: Backend)
    requires Keyed(quota)
    ensures var r := Admit(s, key, prompt, stored, limits, m, quota, call);
            r.reply.Answer? ==>
              && r.reply.payload != ""
              && r.reply.provider in AvailableOrder(m, s)
              && r.reply.provider in m && Eligible(r.reply.provider, m[r.reply.provider], s)
              && Usage(quota, key, stored) < LimitFor(limits, QuotaName(s))
              && Count(r.quota, key) == Usage(quota, key, stored) + 1
  {
    var q := CheckCache(quota, key, stored);
    DeliverAnswer(s, key, prompt, m, q, call);
    CheckCacheKeepsKey(quota, key, stored);
    BumpCount(q, key);
  }

  lemma AdmitFailure(s: ServiceType, key: string, prompt: string, stored: int, limits: UserLimits,
                     m: map<Provider, Config>, quota: seq<Slot>, call: Backend)
    ensures var r := Admit(s, key, prompt, stored, limits, m, quota, call);
            r.reply.AllFailed? ==> 1 <= |r.reply.errors| <= 3 && |r.contacts| == |AvailableOrder(m, s)|
  {
    var r := Admit(s, key, prompt, stored, limits, m, quota, call);
    var order := AvailableOrder(m, s);
    if r.reply.AllFailed? {
      AvailableMembers(m, s);
      var visit := Visitor(s, call, Budget(s));
      CascadeShape(order, m, visit);
      var t := Cascade(order, m, visit);
      var q := CheckCache(quota, key, stored);
      assert r == Conclude(t, q, key, prompt);
      ConcludeSpec(t, q, key, prompt);
    }
  }

  /** An answer is a non-empty payload from an available provider, given only
      while under the limit, and it adds exactly one to the user's count for
      the day. */
  lemma ServeAnswer(s: ServiceType, user: int, text: string, today: string, stored: int, limits: UserLimits,
                    m: map<Provider, Config>, quota: seq<Slot>, call: Backend)
    requires Keyed(quota)
    ensures var key := CacheKey(user, today, QuotaName(s));
            var r := Serve(s, user, text, today, stored, limits, m, quota, call);
            r.reply.Answer? ==>
              && r.reply.payload != ""
              && r.reply.provider in m && Eligible(r.reply.provider, m[r.reply.provider], s)
              && Usage(quota, key, stored) < LimitFor(limits, QuotaName(s))
              && Count(r.quota, key) == Usage(quota, key, stored) + 1
  {
    var key := CacheKey(user, today, QuotaName(s));
    var r := Serve(s, user, text, today, stored, limits, m, quota, call);
    if user > 0 && |Strip(text)| >= MinStripped(s) {
      var prompt := Truncate(s, text);
      assert r == Admit(s, key, prompt, stored, limits, m, quota, call);
      AdmitAnswer(s, key, prompt, stored, limits, m, quota, call);
    }
  }

  /** A failure summary holds between one and three error lines and is given
      only after every available provider was contacted. */
  lemma ServeFailureSummary(s: ServiceType, user: int, text: string, today: string, stored: int, limits: UserLimits,
                            m: map<Provider, Config>, quota: seq<Slot>, call: Backend)
    ensures var r := Serve(s, user, text, today, stored, limits, m, quota, call);
            r.reply.AllFailed? ==> 1 <= |r.reply.errors| <= 3 && |r.contacts| == |AvailableOrder(m, s)|
  {
    if user > 0 && |Strip(text)| >= MinStripped(s) {
      AdmitFailure(s, CacheKey(user, today, QuotaName(s)), Truncate(s, text), stored, limits, m, quota, call);
    }
  }
}
