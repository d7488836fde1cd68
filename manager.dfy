/** `SmartAIManager`: the object that owns the provider registry, the users'
    quota cache, the Gemini chat sessions and the cache of generated files,
    and updates them in place as requests come in. The clock ("now", in
    microseconds, and "today", as `%Y-%m-%d`), the environment, the database
    and the backends are parameters of its methods. */
module Manager {
  import opened Wrappers
  import opened Text
  import opened Sorting
  import opened Catalog
  import opened Registry
  import opened Fallback
  import opened Quota
  import opened Sessions
  import opened Dispatch

  /** An entry of `generated_files_cache`: the file's URL, the prompt, the
      provider that made it and when. */
  datatype Asset = Asset(url: string, prompt: string, provider: Provider, timestamp: int)

  /** The daily limit of a provider: the environment's value, or the default. */
  function LimitOf(p: Provider, limitEnv: Provider -> Option<int>): int {
    match limitEnv(p) case Some(n) => n case None => DefaultDailyLimit(p)
  }

  /** The registry `_init_providers` returns. */
  function InitialRegistry(keyEnv: Provider -> Option<string>, limitEnv: Provider -> Option<int>): map<Provider, Config> {
    map p: Provider | p in AllProviders :: InitConfig(p, keyEnv(p), LimitOf(p, limitEnv))
  }

  /** The registry a request works on: the one `ensure_discovery` leaves. */
  function AfterDiscovery(completed: bool, m: map<Provider, Config>, env: DiscoveryEnv): map<Provider, Config> {
    if completed then m else Discovered(m, env)
  }

  /** The dictionary `get_available_services` returns, keyed "chat",
      "image_generation" and "video_generation". */
  datatype Services = Services(chat: bool, imageGeneration: bool, videoGeneration: bool)

  /** `reset_daily_counts` on one record. */
  function Zeroed(c: Config): Config {
    c.(usageToday := 0, errorsToday := 0, lastError := None)
  }

  /** The key of a generated file: its kind, the user, and the first 12
      characters of the prompt's digest. */
  function AssetKey(s: ServiceType, user: int, digest: string): string {
    (if s == Video then "video" else "image") + "_" + IntToString(user) + "_" + Take(digest, 12)
  }

  /** Whether a request called Gemini chat at least once: only those calls
      sweep and touch the chat sessions. */
  predicate ChatCalledGoogle(s: ServiceType, contacts: seq<Contact>) {
    s == Chat && exists i :: 0 <= i < |contacts| && contacts[i].provider == Google && contacts[i].tried != []
  }

  /** The sessions after the contacts so far: one round of housekeeping if
      Gemini chat was called, none otherwise. */
  function SessionsAfter(s: ServiceType, contacts: seq<Contact>, sessions: map<int, Session>, next: nat,
                         user: int, now: int): (map<int, Session>, nat)
  {
    if ChatCalledGoogle(s, contacts) then Housekeep(sessions, next, user, now) else (sessions, next)
  }

  /** One more contact: a Gemini chat call housekeeps once more, which at the
      same instant changes nothing after the first round. */
  lemma SessionsAfterStep(s: ServiceType, contacts: seq<Contact>, here: Contact, sessions: map<int, Session>, next: nat,
                          user: int, now: int)
    ensures var (cur, n) := SessionsAfter(s, contacts, sessions, next, user, now);
            SessionsAfter(s, contacts + [here], sessions, next, user, now)
              == if s == Chat && here.provider == Google && here.tried != [] then Housekeep(cur, n, user, now) else (cur, n)
  {
    var all := contacts + [here];
    assert forall i :: 0 <= i < |contacts| ==> all[i] == contacts[i];
    if s == Chat && here.provider == Google && here.tried != [] {
      assert all[|contacts|] == here;
      HousekeepIdempotent(sessions, next, user, now);
    } else if ChatCalledGoogle(s, all) {
      var i :| 0 <= i < |all| && all[i].provider == Google && all[i].tried != [];
      assert i < |contacts|;
    }
  }

  /** `_select_best_models` for one record: for every service with models,
      the model of least priority becomes active. */
  method ChooseBest(c: Config) returns (d: Config)
    ensures d == SelectBest(c)
  {
    if !c.enabled {
      return c;
    }
    var active := c.active;
    for i := 0 to |AllServices|
      invariant active == PickedUpTo(c, i)
    {
      var s := AllServices[i];
      if s in c.discovered && c.discovered[s] != [] {
        active := active[s := BestModel(c.discovered[s]).name];
      }
    }
    PickedAll(c);
    d := c.(active := active);
  }

  /** The active models after `_select_best_models` has visited the first `i`
      services. */
  function PickedUpTo(c: Config, i: nat): map<ServiceType, string>
    requires i <= |AllServices|
  {
    if i == 0 then c.active
    else
      var s := AllServices[i - 1];
      var before := PickedUpTo(c, i - 1);
      if HasModels(c, s) then before[s := BestModel(c.discovered[s]).name] else before
  }

  /** Once every service has been visited, the active models are those
      `SelectBest` specifies. */
  lemma PickedAll(c: Config)
    requires c.enabled
    ensures PickedUpTo(c, |AllServices|) == SelectBest(c).active
  {
    assert PickedUpTo(c, 0) == c.active;
    assert AllServices[0] == Chat && AllServices[1] == Image && AllServices[2] == Video;
    var p1 := PickedUpTo(c, 1);
    var p2 := PickedUpTo(c, 2);
    var picked := PickedUpTo(c, 3);
    var want := SelectBest(c).active;
    assert p1 == if HasModels(c, Chat) then c.active[Chat := BestModel(c.discovered[Chat]).name] else c.active;
    assert p2 == if HasModels(c, Image) then p1[Image := BestModel(c.discovered[Image]).name] else p1;
    assert picked == if HasModels(c, Video) then p2[Video := BestModel(c.discovered[Video]).name] else p2;
    forall s | true
      ensures s in picked <==> s in want
      ensures s in picked ==> picked[s] == want[s]
    {
      match s
      case Chat =>
      case Image =>
      case Video =>
    }
  }

  /** `_setup_and_discover_google` on Google's record: nothing without a key;
      disabled when the client cannot be configured; otherwise the listed
      names, or the built-in list when listing fails, are ranked. */
  method StepGoogle(c: Config, env: DiscoveryEnv) returns (d: Config)
    ensures d == GoogleStep(c, env)
  {
    if !KeySet(c.apiKey) {
      return c;
    }
    if !env.googleSetupOk {
      return c.(enabled := false);
    }
    var names := if env.googleListing.Some? then env.googleListing.value else GoogleFallbackModels;
    d := RankGoogle(c, names);
  }

  /** `_setup_and_discover_openai` on OpenAI's record: nothing without a key;
      disabled when the client cannot be built; otherwise the known models
      are ranked. */
  method StepOpenAI(c: Config, env: DiscoveryEnv) returns (d: Config)
    ensures d == OpenAIStep(c, env)
  {
    if !KeySet(c.apiKey) {
      return c;
    }
    if !env.openaiSetupOk {
      return c.(enabled := false);
    }
    d := RankOpenAI(c, OpenAIKnownChat, OpenAIKnownImage);
  }

  /** Google's part of discovery once the client is set up: enabled, the
      names classified per service and sorted by priority, and the top chat
      model made active. */
  method RankGoogle(c: Config, names: seq<string>) returns (d: Config)
    ensures d == GoogleDiscover(c, names)
  {
    d := c.(enabled := true);
    var buckets := Classify(names, AnalyzeGoogle, NoBuckets());
    assert buckets[Chat] == Classified(names, Chat, AnalyzeGoogle);
    assert buckets[Image] == Classified(names, Image, AnalyzeGoogle);
    assert buckets[Video] == Classified(names, Video, AnalyzeGoogle);
    var ranked := RankAll(buckets);
    assert ranked == GoogleDiscover(c, names).discovered;
    d := d.(discovered := ranked);
    if ranked[Chat] != [] {
      d := d.(active := d.active[Chat := ranked[Chat][0].name]);
    }
  }

  /** OpenAI's part of discovery once the client is built: enabled, with the
      known chat and image models classified and sorted by priority. */
  method RankOpenAI(c: Config, chat: seq<string>, image: seq<string>) returns (d: Config)
    ensures d == OpenAIDiscover(c, chat, image)
  {
    d := c.(enabled := true);
    var buckets := Classify(chat, AnalyzeOpenAIChat, NoBuckets());
    buckets := Classify(image, AnalyzeOpenAIImage, buckets);
    ClassifiedNone(chat, Image, AnalyzeOpenAIChat);
    ClassifiedNone(chat, Video, AnalyzeOpenAIChat);
    ClassifiedNone(image, Chat, AnalyzeOpenAIImage);
    ClassifiedNone(image, Video, AnalyzeOpenAIImage);
    assert buckets[Chat] == Classified(chat, Chat, AnalyzeOpenAIChat);
    assert buckets[Image] == Classified(image, Image, AnalyzeOpenAIImage);
    assert buckets[Video] == [];
    var ranked := RankAll(buckets);
    assert ranked == OpenAIDiscover(c, chat, image).discovered;
    d := d.(discovered := ranked);
  }

  /** The per-service lists of one discovery pass: `buckets` sorted by priority. */
  function RankAll(buckets: map<ServiceType, seq<ModelInfo>>): map<ServiceType, seq<ModelInfo>>
    requires forall s :: s in buckets
  {
    map[Chat := SortByPriority(buckets[Chat]), Image := SortByPriority(buckets[Image]), Video := SortByPriority(buckets[Video])]
  }

  /** Every provider has its record, under its own name, with ranked model
      lists and active models taken from them. */
  predicate WellFormedRegistry(m: map<Provider, Config>) {
    forall p: Provider :: p in m && m[p].name == p && ModelsWellFormed(m[p])
  }

  /** The registry after the four discovery steps, one after the other. */
  function Pipeline(m: map<Provider, Config>, env: DiscoveryEnv): map<Provider, Config>
    requires Google in m && OpenAI in m
  {
    var g := m[Google := GoogleStep(m[Google], env)];
    var o := g[OpenAI := OpenAIStep(g[OpenAI], env)];
    var x := map p | p in o :: if p in {Stability, Luma, Kling} then OtherStep(o[p]) else o[p];
    map p | p in x :: SelectBest(x[p])
  }

  /** The steps make up one discovery of every record. */
  lemma PipelineDiscovers(m: map<Provider, Config>, env: DiscoveryEnv)
    requires forall p: Provider :: p in m && m[p].name == p
    ensures Pipeline(m, env) == Discovered(m, env)
  {
    forall p: Provider ensures Pipeline(m, env)[p] == DiscoverOne(m[p], env) {
      PipelineAt(m, env, p);
    }
  }

  lemma PipelineAt(m: map<Provider, Config>, env: DiscoveryEnv, p: Provider)
    requires Google in m && OpenAI in m && p in m && m[p].name == p
    ensures p in Pipeline(m, env) && Pipeline(m, env)[p] == DiscoverOne(m[p], env)
  {
    var g := m[Google := GoogleStep(m[Google], env)];
    var o := g[OpenAI := OpenAIStep(g[OpenAI], env)];
    match p
    case Google =>
      assert o[p] == GoogleStep(m[p], env);
    case OpenAI =>
      assert o[p] == OpenAIStep(m[p], env);
    case _ =>
      assert o[p] == m[p];
  }

  /** A registry with nothing discovered yet comes out of discovery well
      formed. */
  lemma DiscoveredWellFormed(m: map<Provider, Config>, env: DiscoveryEnv)
    requires WellFormedRegistry(m)
    requires forall p :: p in m ==> m[p].discovered == map[] && m[p].active == map[]
    ensures WellFormedRegistry(Discovered(m, env))
  {
    var d := Discovered(m, env);
    forall p: Provider ensures p in d && d[p].name == p && ModelsWellFormed(d[p]) {
      DiscoveryRanks(m[p], env);
    }
  }

  lemma WellFormedUpdate(m: map<Provider, Config>, p: Provider, c: Config)
    requires WellFormedRegistry(m) && c.name == p && ModelsWellFormed(c)
    ensures WellFormedRegistry(m[p := c])
  {
  }

  /** `rotate_model` on one record: no model when the service has none;
      otherwise the head for an empty or unknown model, or after the last one,
      and the next model otherwise, which becomes the active model. */
  method RotateConfig(c: Config, s: ServiceType, current: string) returns (d: Config, r: Option<string>)
    ensures (d, r) == RotateIn(c, s, current)
  {
    if s !in c.discovered {
      return c, None;
    }
    var names := Names(c.discovered[s]);
    if names == [] {
      return c, None;
    }
    var next: string;
    if current == "" || current !in names {
      next := names[0];
    } else {
      var index := IndexIn(names, current);
      if index.None? || index.value >= |names| - 1 {
        next := names[0];
      } else {
        next := names[index.value + 1];
      }
    }
    d, r := c.(active := c.active[s := next]), Some(next);
  }

  /** The rotation inside the retry loop, on the record whose active model is
      `current`: the next model of the ranked names, made active. */
  method RotateWithin(c: Config, s: ServiceType, names: seq<string>, current: string)
    returns (config: Config, next: Option<string>)
    requires names == Names(ModelsOf(c, s))
    ensures next == NextModel(names, current)
    ensures config == c.(active := c.active[s := if next.Some? then next.value else current])
  {
    var before := c.(active := c.active[s := current]);
    config, next := RotateConfig(before, s, current);
    assert ModelsOf(before, s) == ModelsOf(c, s);
    if next.Some? {
      assert c.active[s := current][s := next.value] == c.active[s := next.value];
    }
  }

  /** `_execute_with_fallback` on one record: a disabled provider fails at
      once; otherwise the loop starts from the active model, or activates the
      head of the list when there is none, and a provider with neither fails
      without a call. */
  method ExecuteOn(c: Config, p: Provider, s: ServiceType, call: Backend, budget: nat) returns (a: Attempt)
    ensures a == Execute(c, p, s, call, budget)
  {
    if !c.enabled {
      return Attempt(c, Failure(DisabledMessage(p)), []);
    }
    var current := if s in c.active then c.active[s] else "";
    if budget == 0 {
      return Attempt(c, Failure(ExhaustedMessage(p, budget)), []);
    }
    var names := Names(ModelsOf(c, s));
    if current == "" {
      if names == [] {
        return Attempt(c, Failure(ExhaustedMessage(p, budget)), []);
      }
      current := names[0];
    }
    var config, run := RetryLoop(c, s, names, current, call, p, budget);
    match run.value {
      case Some(v) => a := Attempt(config, Success(v), run.tried);
      case None => a := Attempt(config, Failure(ExhaustedMessage(p, budget)), run.tried);
    }
  }

  /** What one pass of the retry loop decides: stop with a result, or go on
      with the next model. */
  datatype Turn = Stop(value: Option<string>, last: string) | Go(next: string)

  /** One pass of the retry loop of `_execute_with_fallback`: call the backend
      with the current model; a payload or an error that is not retryable
      stops the loop; a quota or model error rotates, and the loop goes on only
      when rotation yields another model. */
  method TakeTurn(c: Config, s: ServiceType, names: seq<string>, current: string, call: Backend, p: Provider,
                  attempt: nat, budget: nat)
    returns (config: Config, turn: Turn)
    requires names == Names(ModelsOf(c, s)) && attempt < budget
    ensures turn.Stop? ==> Retry(names, current, call, p, attempt, budget) == Run([current], turn.value, turn.last)
    ensures turn.Stop? ==> config == c.(active := c.active[s := turn.last])
    ensures turn.Go? ==> turn.next != current
    ensures turn.Go? ==> config == c.(active := c.active[s := turn.next])
    ensures turn.Go? ==>
              var rest := Retry(names, turn.next, call, p, attempt + 1, budget);
              Retry(names, current, call, p, attempt, budget) == Run([current] + rest.tried, rest.value, rest.last)
  {
    config := c.(active := c.active[s := current]);
    var o := call(p, current, attempt);
    if o.Success? {
      return config, Stop(Some(o.value), current);
    }
    if !IsRetryable(o.message) {
      return config, Stop(None, current);
    }
    var next;
    config, next := RotateWithin(c, s, names, current);
    if next.None? {
      return config, Stop(None, current);
    }
    if next.value == "" || next.value == current {
      return config, Stop(None, next.value);
    }
    RetryStep(names, current, call, p, attempt, budget);
    turn := Go(next.value);
  }

  /** What a request changes: the registry, the quota cache, the Gemini chat
      sessions with the next chat handle, and the cache of generated files. */
  datatype Books = Books(providers: map<Provider, Config>, quota: seq<Slot>, sessions: map<int, Session>,
                         nextHandle: nat, assets: map<string, Asset>)

  /** The invariant the manager keeps over what a request changes. */
  predicate Sound(b: Books) {
    WellFormedRegistry(b.providers) && Keyed(b.quota) && HandlesBelow(b.sessions, b.nextHandle)
  }

  /** `_execute_with_fallback` on the provider's record, with the session
      bookkeeping of the Gemini chat backend: the sweep and the open or touch
      happen on every call, and at one instant repeating them changes nothing,
      so one round stands for all of them. */
  method FallbackOn(b: Books, p: Provider, s: ServiceType, call: Backend, budget: nat, user: int, now: int)
    returns (d: Books, outcome: Outcome, tried: seq<string>)
    requires Sound(b)
    ensures Sound(d)
    ensures var a := Execute(b.providers[p], p, s, call, budget);
            outcome == a.outcome && tried == a.tried && d.providers == b.providers[p := a.config]
    ensures (d.sessions, d.nextHandle) == if p == Google && s == Chat && tried != []
                                         then Housekeep(b.sessions, b.nextHandle, user, now)
                                         else (b.sessions, b.nextHandle)
    ensures d.quota == b.quota && d.assets == b.assets
  {
    var c := b.providers[p];
    var a := ExecuteOn(c, p, s, call, budget);
    ExecuteKeepsWellFormed(c, p, s, call, budget);
    WellFormedUpdate(b.providers, p, a.config);
    d := b.(providers := b.providers[p := a.config]);
    if p == Google && s == Chat && a.tried != [] {
      HousekeepSpec(b.sessions, b.nextHandle, user, now);
      var (sessions, next) := Housekeep(b.sessions, b.nextHandle, user, now);
      d := d.(sessions := sessions, nextHandle := next);
    }
    return d, a.outcome, a.tried;
  }

  /** One provider of a request's loop: `_execute_with_fallback`, then the
      outcome recorded. */
  method TryOn(b: Books, p: Provider, s: ServiceType, user: int, key: string, prompt: string,
               call: Backend, now: int, digest: string -> string)
    returns (d: Books, outcome: Outcome, tried: seq<string>)
    requires Sound(b)
    ensures Sound(d)
    ensures var a := Execute(b.providers[p], p, s, call, Budget(s));
            && outcome == a.outcome && tried == a.tried
            && d.providers == b.providers[p := Settle(a.config, a.outcome)]
    ensures var wins := outcome.Success? && outcome.value != "";
            && d.quota == (if wins then Bump(b.quota, key) else b.quota)
            && d.assets == (if wins && s != Chat
                            then b.assets[AssetKey(s, user, digest(prompt)) := Asset(outcome.value, prompt, p, now)]
                            else b.assets)
    ensures (d.sessions, d.nextHandle) == if p == Google && s == Chat && tried != []
                                         then Housekeep(b.sessions, b.nextHandle, user, now)
                                         else (b.sessions, b.nextHandle)
  {
    ghost var a := Execute(b.providers[p], p, s, call, Budget(s));
    d, outcome, tried := FallbackOn(b, p, s, call, Budget(s), user, now);
    d := Record(d, p, s, outcome, user, key, prompt, now, digest);
    UpdateTwice(b.providers, p, a.config, Settle(a.config, a.outcome));
  }

  lemma UpdateTwice(m: map<Provider, Config>, p: Provider, x: Config, y: Config)
    ensures m[p := x][p := y] == m[p := y]
  {
  }

  /** What a request records after one provider's run: on a non-empty
      payload, `update_user_usage`, one more use of the provider and, for an
      image or a video, the file cached under its kind, the user and the digest
      of the prompt; on a failure, one more error of the provider and its error
      remembered; on an empty payload, nothing. */
  method Record(b: Books, p: Provider, s: ServiceType, outcome: Outcome, user: int, key: string, prompt: string,
                now: int, digest: string -> string)
    returns (d: Books)
    requires Sound(b)
    ensures Sound(d)
    ensures d.providers == b.providers[p := Settle(b.providers[p], outcome)]
    ensures var wins := outcome.Success? && outcome.value != "";
            && d.quota == (if wins then Bump(b.quota, key) else b.quota)
            && d.assets == (if wins && s != Chat
                            then b.assets[AssetKey(s, user, digest(prompt)) := Asset(outcome.value, prompt, p, now)]
                            else b.assets)
    ensures d.sessions == b.sessions && d.nextHandle == b.nextHandle
  {
    d := b;
    match outcome {
      case Success(v) =>
        if v != "" {
          BumpKeyed(b.quota, key);
          var quota := Bump(b.quota, key);
          var c := b.providers[p].(usageToday := b.providers[p].usageToday + 1);
          WellFormedUpdate(b.providers, p, c);
          d := d.(quota := quota, providers := b.providers[p := c]);
          if s != Chat {
            d := d.(assets := b.assets[AssetKey(s, user, digest(prompt)) := Asset(v, prompt, p, now)]);
          }
        } else {
          assert b.providers[p := b.providers[p]] == b.providers;
        }
      case Failure(msg) =>
        var c := Charge(b.providers[p], msg);
        WellFormedUpdate(b.providers, p, c);
        d := d.(providers := b.providers[p := c]);
    }
  }

  /** `check_user_limit` on the cache: the cached usage of the key, or the
      count `stored` in the database on a miss; the key becomes the most
      recent entry and the oldest is evicted past capacity. The request is
      allowed while the usage is under the limit. */
  method CheckIn(cache: seq<Slot>, key: string, stored: int, limit: int)
    returns (checked: seq<Slot>, allowed: bool, remaining: int)
    requires Keyed(cache)
    ensures Keyed(checked)
    ensures checked == CheckCache(cache, key, stored)
    ensures Verdict(allowed, remaining) == Decide(Usage(cache, key, stored), limit)
  {
    CheckCacheKeyed(cache, key, stored);
    var current: int;
    match Lookup(cache, key) {
      case Some(c) =>
        current := c;
        checked := Without(cache, key) + [Slot(key, c)];
      case None =>
        current := stored;
        checked := cache + [Slot(key, current)];
    }
    if |checked| > MaxCacheSize {
      checked := checked[1..];
    }
    if current >= limit {
      return checked, false, 0;
    }
    return checked, true, limit - current;
  }

  /** `get_available_providers` on the registry: the enabled providers under
      their daily limit that serve the service, in registry order, then stably
      sorted by `(errors_today, usage_today)`. */
  method AvailableIn(m: map<Provider, Config>, s: ServiceType) returns (order: seq<Provider>)
    requires forall p: Provider :: p in m
    ensures order == AvailableOrder(m, s)
  {
    var available: seq<Provider> := [];
    for i := 0 to |AllProviders|
      invariant available == Candidates(AllProviders[..i], m, s)
    {
      var p := AllProviders[i];
      CandidatesStep(AllProviders, i, m, s);
      var c := m[p];
      if !c.enabled || c.usageToday >= c.dailyLimit {
        continue;
      }
      if Serves(p, s) {
        available := available + [p];
      }
    }
    assert AllProviders[..|AllProviders|] == AllProviders;
    order := SortStable(available, LoadKey(m));
  }

  /** `chat_with_ai`, `generate_image` and `generate_video` once discovery is
      done: validate, truncate, check the quota, pick the available providers
      and run the provider loop. */
  method ServeOn(b: Books, s: ServiceType, user: int, text: string, today: string, stored: int, limits: UserLimits,
                 call: Backend, now: int, digest: string -> string)
    returns (d: Books, reply: Reply)
    requires Sound(b)
    ensures Sound(d)
    ensures var r := Serve(s, user, text, today, stored, limits, b.providers, b.quota, call);
            reply == r.reply && d == Settled(b, r, s, user, now, digest)
  {
    if user <= 0 {
      return b, InvalidUser;
    }
    if |Strip(text)| < MinStripped(s) {
      return b, TooShort;
    }
    d, reply := AdmitOn(b, s, user, CacheKey(user, today, QuotaName(s)), Truncate(s, text), stored, limits,
                        call, now, digest);
  }

  /** The quota check of a valid request, then the providers. */
  method AdmitOn(b: Books, s: ServiceType, user: int, key: string, prompt: string, stored: int, limits: UserLimits,
                 call: Backend, now: int, digest: string -> string)
    returns (d: Books, reply: Reply)
    requires Sound(b)
    ensures Sound(d)
    ensures var r := Admit(s, key, prompt, stored, limits, b.providers, b.quota, call);
            reply == r.reply && d == Settled(b, r, s, user, now, digest)
  {
    var checked, allowed, remaining := CheckIn(b.quota, key, stored, LimitFor(limits, QuotaName(s)));
    d := b.(quota := checked);
    if !allowed {
      return d, LimitReached(remaining);
    }
    d, reply := DeliverOn(d, s, user, key, prompt, call, now, digest);
  }

  /** The available providers of an admitted request, then the cascade over them. */
  method DeliverOn(b: Books, s: ServiceType, user: int, key: string, prompt: string,
                   call: Backend, now: int, digest: string -> string)
    returns (d: Books, reply: Reply)
    requires Sound(b)
    ensures Sound(d)
    ensures var r := Deliver(s, key, prompt, b.providers, b.quota, call);
            reply == r.reply && d == Settled(b, r, s, user, now, digest)
  {
    var order := AvailableIn(b.providers, s);
    if order == [] {
      return b, NoProviders;
    }
    AvailableMembers(b.providers, s);
    AfterCascadeSettled(b, Cascade(order, b.providers, Visitor(s, call, Budget(s))), s, user, key, prompt, now, digest);
    d, reply := CanvassOn(b, s, order, user, key, prompt, call, now, digest);
  }

  /** One pass of the provider loop, seen against the cascade `full` it
      carries out: the provider at position `i` either answers, which
      completes the cascade, or the cascade goes on from position `i + 1`. */
  method StepOn(b: Books, ghost full: Tally, order: seq<Provider>, i: nat, ghost failures: seq<Failed>,
                ghost contacts: seq<Contact>, d: Books, s: ServiceType, user: int, key: string, prompt: string,
                call: Backend, now: int, digest: string -> string)
    returns (e: Books, outcome: Outcome, tried: seq<string>)
    requires Sound(d) && i < |order|
    requires Ledger(full, order, i, d.providers, Visitor(s, call, Budget(s)), failures, contacts)
    requires d == AfterCascade(b, Tally(d.providers, failures, None, contacts), s, user, key, prompt, now, digest)
    ensures Sound(e)
    ensures var here := Contact(order[i], tried);
            && (outcome.Success? && outcome.value != "" ==>
                  full == Tally(e.providers, failures, Some(Win(order[i], outcome.value)), contacts + [here])
                  && e == AfterCascade(b, full, s, user, key, prompt, now, digest))
            && (outcome.Success? && outcome.value == "" ==>
                  Ledger(full, order, i + 1, e.providers, Visitor(s, call, Budget(s)), failures, contacts + [here])
                  && e == AfterCascade(b, Tally(e.providers, failures, None, contacts + [here]), s, user, key, prompt, now, digest))
            && (outcome.Failure? ==>
                  var lost := failures + [Failed(order[i], outcome.message)];
                  Ledger(full, order, i + 1, e.providers, Visitor(s, call, Budget(s)), lost, contacts + [here])
                  && e == AfterCascade(b, Tally(e.providers, lost, None, contacts + [here]), s, user, key, prompt, now, digest))
  {
    var p := order[i];
    ghost var visit := Visitor(s, call, Budget(s));
    assert visit(p, d.providers[p]) == Execute(d.providers[p], p, s, call, Budget(s));
    LedgerStep(full, order, i, d.providers, visit, failures, contacts);
    SessionsAfterStep(s, contacts, Contact(p, visit(p, d.providers[p]).tried), b.sessions, b.nextHandle, user, now);
    e, outcome, tried := TryOn(d, p, s, user, key, prompt, call, now, digest);
  }

  /** What a request leaves behind after its provider loop `t`: the records
      the loop left, one more use of the user's quota and, for an image or a
      video, the file cached when a provider answered, and the session
      bookkeeping of the Gemini chat calls made. */
  function AfterCascade(b: Books, t: Tally, s: ServiceType, user: int, key: string, prompt: string,
                        now: int, digest: string -> string): Books
  {
    var (sessions, next) := SessionsAfter(s, t.contacts, b.sessions, b.nextHandle, user, now);
    Books(t.providers,
          if t.winner.Some? then Bump(b.quota, key) else b.quota,
          sessions, next,
          if t.winner.Some? && s != Chat
          then b.assets[AssetKey(s, user, digest(prompt)) := Asset(t.winner.value.payload, prompt, t.winner.value.provider, now)]
          else b.assets)
  }

  /** What a request leaves behind, given how it was served: the registry and
      quota cache of the reply, the session bookkeeping of the Gemini chat
      calls made, and, for an image or a video that was made, the file cached
      under its kind, the user and the digest of the prompt. */
  function Settled(b: Books, r: Served, s: ServiceType, user: int, now: int, digest: string -> string): Books {
    var (sessions, next) := SessionsAfter(s, r.contacts, b.sessions, b.nextHandle, user, now);
    Books(r.providers, r.quota, sessions, next,
          if r.reply.Answer? && s != Chat
          then b.assets[AssetKey(s, user, digest(r.text)) := Asset(r.reply.payload, r.text, r.reply.provider, now)]
          else b.assets)
  }

  lemma AfterCascadeSettled(b: Books, t: Tally, s: ServiceType, user: int, key: string, prompt: string,
                            now: int, digest: string -> string)
    ensures AfterCascade(b, t, s, user, key, prompt, now, digest)
              == Settled(b, Conclude(t, b.quota, key, prompt), s, user, now, digest)
  {
  }

  /** The provider loop of `chat_with_ai`, `generate_image` and
      `generate_video`, over the available providers in order: the first
      non-empty payload is the answer; a failure is counted against its
      provider and its error line kept; an empty payload is passed over.
      Without an answer the reply lists the first three error lines, or is
      the unexpected-error reply when there were none. */
  method CanvassOn(b: Books, s: ServiceType, order: seq<Provider>, user: int, key: string, prompt: string,
                   call: Backend, now: int, digest: string -> string)
    returns (d: Books, reply: Reply)
    requires Sound(b)
    ensures Sound(d)
    ensures var t := Cascade(order, b.providers, Visitor(s, call, Budget(s)));
            reply == Conclude(t, b.quota, key, prompt).reply && d == AfterCascade(b, t, s, user, key, prompt, now, digest)
  {
    ghost var visit := Visitor(s, call, Budget(s));
    ghost var full := Cascade(order, b.providers, visit);
    LedgerStart(order, b.providers, visit);
    d := b;
    var errors: seq<string> := [];
    ghost var failures: seq<Failed> := [];
    ghost var contacts: seq<Contact> := [];
    for i := 0 to |order|
      invariant Sound(d)
      invariant Ledger(full, order, i, d.providers, visit, failures, contacts)
      invariant errors == ErrorLines(failures)
      invariant d == AfterCascade(b, Tally(d.providers, failures, None, contacts), s, user, key, prompt, now, digest)
    {
      var p := order[i];
      var outcome, tried;
      d, outcome, tried := StepOn(b, full, order, i, failures, contacts, d, s, user, key, prompt, call, now, digest);
      contacts := contacts + [Contact(p, tried)];
      match outcome {
        case Success(v) =>
          if v != "" {
            return d, Answer(p, v);
          }
        case Failure(msg) =>
          ErrorLinesAppend(failures, Failed(p, msg));
          errors := errors + [ErrorLine(p, msg)];
          failures := failures + [Failed(p, msg)];
      }
    }
    LedgerEnd(full, order, d.providers, visit, failures, contacts);
    return d, Summary(errors);
  }

  lemma AppendAssoc<T>(a: seq<T>, b: seq<T>, c: seq<T>)
    ensures (a + b) + c == a + (b + c)
  {
  }

  /** The retry loop of `_execute_with_fallback`, from `first` with `budget`
      attempts. The record ends with the last model made active. */
  method RetryLoop(c: Config, s: ServiceType, names: seq<string>, first: string, call: Backend,
                   p: Provider, budget: nat)
    returns (config: Config, run: Run)
    requires names == Names(ModelsOf(c, s))
    ensures run == Retry(names, first, call, p, 0, budget)
    ensures config == c.(active := c.active[s := run.last])
  {
    config := c.(active := c.active[s := first]);
    var current := first;
    var tried := [];
    ghost var full := Retry(names, first, call, p, 0, budget);
    var attempt := 0;
    while attempt < budget
      invariant 0 <= attempt <= budget
      invariant config == c.(active := c.active[s := current])
      invariant var r := Retry(names, current, call, p, attempt, budget);
                full == Run(tried + r.tried, r.value, r.last)
    {
      var turn;
      config, turn := TakeTurn(c, s, names, current, call, p, attempt, budget);
      if turn.Stop? {
        return config, Run(tried + [current], turn.value, turn.last);
      }
      AppendAssoc(tried, [current], Retry(names, turn.next, call, p, attempt + 1, budget).tried);
      tried := tried + [current];
      current := turn.next;
      attempt := attempt + 1;
    }
    return config, Run(tried, None, current);
  }


  /** The position of `current` in the ranked names, found by a linear scan
      that stops at the first match. */
  method IndexIn(names: seq<string>, current: string) returns (index: Option<nat>)
    ensures current in names ==> index == Some(IndexOf(names, current))
    ensures current !in names ==> index == None
  {
    index := None;
    var i := 0;
    while i < |names|
      invariant 0 <= i <= |names|
      invariant forall j :: 0 <= j < i ==> names[j] != current
    {
      if names[i] == current {
        index := Some(i);
        assert IndexOf(names, current) == i by {
          var k := IndexOf(names, current);
          assert !(k < i) && !(i < k);
        }
        return;
      }
      i := i + 1;
    }
  }

  /** The cache sweep of `reset_daily_counts`: only the keys that end with
      `today` stay, in their order. */
  method SweepIn(q: seq<Slot>, today: string) returns (kept: seq<Slot>)
    requires Keyed(q)
    ensures Keyed(kept)
    ensures kept == SweepDay(q, today)
  {
    kept := [];
    for i := 0 to |q|
      invariant kept == SweepDay(q[..i], today)
    {
      SweepDayAppend(q[..i], q[i], today);
      assert q[..i + 1] == q[..i] + [q[i]];
      if EndsWith(q[i].key, today) {
        kept := kept + [q[i]];
      }
    }
    assert q[..|q|] == q;
    SweepDayKeyed(q, today);
  }

  /** One block of `_setup_other_apis`: a provider with a key longer than 20
      characters is enabled. */
  method EnableOther(m: map<Provider, Config>, p: Provider) returns (n: map<Provider, Config>)
    requires p in m
    ensures n == m[p := OtherStep(m[p])]
  {
    n := m;
    var c := m[p];
    if c.apiKey.Some? && c.apiKey.value != "" {
      if |c.apiKey.value| > 20 {
        n := m[p := c.(enabled := true)];
      }
    }
  }

  /** `_setup_other_apis`: Stability, then Luma, then Kling. */
  method EnableOthers(before: map<Provider, Config>) returns (m: map<Provider, Config>)
    requires forall p: Provider :: p in before
    ensures m == map p | p in before :: if p in {Stability, Luma, Kling} then OtherStep(before[p]) else before[p]
  {
    m := EnableOther(before, Stability);
    m := EnableOther(m, Luma);
    m := EnableOther(m, Kling);
  }

  /** A non-empty set has an element to pick. */
  lemma HasMember(s: set<int>)
    requires s != {}
    ensures exists x :: x in s
  {
    if forall x :: x !in s {
      assert false;
    }
  }

  /** The first loop of `_cleanup_old_sessions`: the users whose session has
      been idle for longer than the timeout. */
  method StaleUsers(live: map<int, Session>, now: int) returns (stale: set<int>)
    ensures forall u :: u in stale <==> u in live && now - live[u].lastActivity > SessionTimeout
    ensures live - stale == Sweep(live, now)
  {
    var todo := live.Keys;
    stale := {};
    while todo != {}
      invariant todo <= live.Keys
      invariant forall v :: v in stale <==> v in live && v !in todo && now - live[v].lastActivity > SessionTimeout
      decreases todo
    {
      HasMember(todo);
      var u :| u in todo;
      if now - live[u].lastActivity > SessionTimeout {
        stale := stale + {u};
      }
      todo := todo - {u};
    }
  }

  /** The counter reset of `reset_daily_counts`, provider by provider. */
  method ZeroAll(before: map<Provider, Config>) returns (m: map<Provider, Config>)
    requires forall p: Provider :: p in before
    ensures m == map p | p in before :: Zeroed(before[p])
  {
    m := before;
    for i := 0 to |AllProviders|
      invariant m.Keys == before.Keys
      invariant forall p :: p in m ==> m[p] == if p in AllProviders[..i] then Zeroed(before[p]) else before[p]
    {
      var p := AllProviders[i];
      assert AllProviders[..i + 1] == AllProviders[..i] + [p];
      m := m[p := Zeroed(before[p])];
    }
    forall p | p in m ensures m[p] == Zeroed(before[p]) {
      AllProvidersListed(p);
      assert AllProviders[..|AllProviders|] == AllProviders;
    }
  }

  /** The selection pass of `_select_best_models`, provider by provider. */
  method SelectAll(before: map<Provider, Config>) returns (m: map<Provider, Config>)
    requires forall p: Provider :: p in before
    ensures m == map p | p in before :: SelectBest(before[p])
  {
    m := before;
    for i := 0 to |AllProviders|
      invariant m.Keys == before.Keys
      invariant forall p :: p in m ==> m[p] == if p in AllProviders[..i] then SelectBest(before[p]) else before[p]
    {
      var p := AllProviders[i];
      assert AllProviders[..i + 1] == AllProviders[..i] + [p];
      var d := ChooseBest(before[p]);
      m := m[p := d];
    }
    forall p | p in m ensures m[p] == SelectBest(before[p]) {
      AllProvidersListed(p);
      assert AllProviders[..|AllProviders|] == AllProviders;
    }
  }

  /** The discovery steps of `ensure_discovery`, one after the other:
      `_setup_and_discover_google`, `_setup_and_discover_openai`,
      `_setup_other_apis` and `_select_best_models`. */
  method Discover(m: map<Provider, Config>, env: DiscoveryEnv) returns (d: map<Provider, Config>)
    requires WellFormedRegistry(m)
    requires forall p :: p in m ==> m[p].discovered == map[] && m[p].active == map[]
    ensures d == Discovered(m, env) && WellFormedRegistry(d)
  {
    PipelineDiscovers(m, env);
    DiscoveredWellFormed(m, env);
    var g := StepGoogle(m[Google], env);
    d := m[Google := g];
    var o := StepOpenAI(d[OpenAI], env);
    d := d[OpenAI := o];
    d := EnableOthers(d);
    d := SelectAll(d);
  }

  class SmartAIManager {
    var providers: map<Provider, Config>
    var quota: seq<Slot>
    var sessions: map<int, Session>
    var nextHandle: nat
    var assets: map<string, Asset>
    var discoveryCompleted: bool

    /** Every provider has its record, named after it, with ranked model lists
        and active models taken from them; the quota cache has unique keys;
        chat handles are below the next one; no models before discovery. */
    ghost predicate Valid()
      reads this
    {
      && WellFormedRegistry(providers)
      && Keyed(quota)
      && HandlesBelow(sessions, nextHandle)
      && (!discoveryCompleted ==> forall p :: p in providers ==> providers[p].discovered == map[] && providers[p].active == map[])
    }

    /** `__init__` with `_init_providers`: every record is built from the
        environment, and the key checks can only leave it disabled. */
    constructor (keyEnv: Provider -> Option<string>, limitEnv: Provider -> Option<int>)
      ensures Valid()
      ensures providers == InitialRegistry(keyEnv, limitEnv)
      ensures forall p :: p in providers ==> !providers[p].enabled
      ensures quota == [] && sessions == map[] && nextHandle == 0 && assets == map[] && !discoveryCompleted
    {
      var m := map p: Provider | p in AllProviders ::
                 Config(p, keyEnv(p), false, LimitOf(p, limitEnv), 0, 0, None, map[], map[]);
      for i := 0 to |AllProviders|
        invariant m == map p: Provider | p in AllProviders ::
                         Config(p, keyEnv(p), false, LimitOf(p, limitEnv), 0, 0, None, map[], map[])
      {
        var p := AllProviders[i];
        if CheckKey(m[p].apiKey) != KeyAccepted {
          m := m[p := m[p].(enabled := false)];
        }
      }
      providers := m;
      quota := [];
      sessions := map[];
      nextHandle := 0;
      assets := map[];
      discoveryCompleted := false;
      new;
      forall p: Provider ensures p in providers && providers[p].name == p && ModelsWellFormed(providers[p]) {
        AllProvidersListed(p);
      }
    }

    /** Every provider has its record, named after it. */
    ghost predicate Registered()
      reads this
    {
      forall p: Provider :: p in providers && providers[p].name == p
    }

    // ------------------------------------------------------------ discovery

    /** `ensure_discovery`: the first call discovers the models of every
        provider and marks discovery done, even when it failed; later calls
        change nothing. */
    method EnsureDiscovery(env: DiscoveryEnv)
      requires Valid()
      modifies this
      ensures Valid()
      ensures providers == AfterDiscovery(old(discoveryCompleted), old(providers), env)
      ensures discoveryCompleted
      ensures quota == old(quota) && sessions == old(sessions) && nextHandle == old(nextHandle) && assets == old(assets)
    {
      if !discoveryCompleted {
        DiscoverAll(env);
      }
    }

    /** The first discovery: Google, OpenAI, the other APIs, then the choice
        of the active models. */
    method DiscoverAll(env: DiscoveryEnv)
      requires Valid() && !discoveryCompleted
      modifies this
      ensures Valid() && discoveryCompleted
      ensures providers == Discovered(old(providers), env)
      ensures quota == old(quota) && sessions == old(sessions) && nextHandle == old(nextHandle) && assets == old(assets)
    {
      providers := Discover(providers, env);
      discoveryCompleted := true;
    }

    // --------------------------------------------------------- availability

    /** `get_available_providers`: the enabled providers under their daily
        limit that serve the service, in registry order, then stably sorted by
        `(errors_today, usage_today)`. */
    method GetAvailableProviders(s: ServiceType) returns (order: seq<Provider>)
      requires Registered()
      ensures order == AvailableOrder(providers, s)
    {
      order := AvailableIn(providers, s);
    }

    /** `get_available_services`: for each kind of request, whether some
        provider can take it. */
    function GetAvailableServices(): (r: Services)
      reads this
      ensures r.chat <==> exists p :: p in providers && Eligible(p, providers[p], Chat)
      ensures r.imageGeneration <==> exists p :: p in providers && Eligible(p, providers[p], Image)
      ensures r.videoGeneration <==> exists p :: p in providers && Eligible(p, providers[p], Video)
    {
      AnyAvailable(providers, Chat);
      AnyAvailable(providers, Image);
      AnyAvailable(providers, Video);
      Services(AvailableOrder(providers, Chat) != [],
               AvailableOrder(providers, Image) != [],
               AvailableOrder(providers, Video) != [])
    }

    // -------------------------------------------------------------- fallback

    /** `rotate_model`: no model when the service has none; otherwise the model
        after `current` in the ranked list (the head for an empty or unknown
        model, or after the last one), which becomes the active model. */
    method RotateModel(p: Provider, s: ServiceType, current: string) returns (r: Option<string>)
      requires Valid()
      modifies this
      ensures Valid()
      ensures providers == old(providers)[p := RotateIn(old(providers)[p], s, current).0]
      ensures r == RotateIn(old(providers)[p], s, current).1
      ensures quota == old(quota) && sessions == old(sessions) && nextHandle == old(nextHandle)
      ensures assets == old(assets) && discoveryCompleted == old(discoveryCompleted)
    {
      var c := providers[p];
      var d;
      d, r := RotateConfig(c, s, current);
      RotateKeepsWellFormed(c, s, current);
      WellFormedUpdate(providers, p, d);
      providers := providers[p := d];
    }

    /** `_execute_with_fallback` on the provider's record, with the session
        bookkeeping of the Gemini chat backend: the sweep and the open or touch
        happen on every call, and at one instant repeating them changes nothing,
        so one round stands for all of them. */
    method ExecuteWithFallback(p: Provider, s: ServiceType, call: Backend, budget: nat, user: int, now: int)
      returns (outcome: Outcome, tried: seq<string>)
      requires Valid()
      modifies this
      ensures Valid()
      ensures var a := Execute(old(providers)[p], p, s, call, budget);
              outcome == a.outcome && tried == a.tried && providers == old(providers)[p := a.config]
      ensures p == Google && s == Chat && tried != [] ==>
                (sessions, nextHandle) == Housekeep(old(sessions), old(nextHandle), user, now)
      ensures !(p == Google && s == Chat && tried != []) ==> sessions == old(sessions) && nextHandle == old(nextHandle)
      ensures quota == old(quota) && assets == old(assets) && discoveryCompleted == old(discoveryCompleted)
    {
      if !discoveryCompleted {
        NoModelsNoCall(providers[p], p, s, call, budget);
      }
      var books;
      books, outcome, tried := FallbackOn(Snapshot(), p, s, call, budget, user, now);
      Load(books);
    }

    // ------------------------------------------------------------- requests

    /** The state a request works on: everything but the discovery flag. */
    function Snapshot(): Books
      reads this
    {
      Books(providers, quota, sessions, nextHandle, assets)
    }

    /** `chat_with_ai`, `generate_image` and `generate_video`: discovery, then
        the reply `Serve` gives on the registry discovery leaves. The record of
        the provider that answers counts one more use, the user's count for
        the day goes up by one, and a generated image or video is cached under
        its kind, the user and the digest of the prompt. Gemini chat calls
        sweep and touch the sessions. */
    method Request(s: ServiceType, user: int, text: string, today: string, stored: int, limits: UserLimits,
                   env: DiscoveryEnv, call: Backend, now: int, digest: string -> string)
      returns (reply: Reply)
      requires Valid()
      modifies this
      ensures Valid() && discoveryCompleted
      ensures var r := Serve(s, user, text, today, stored, limits,
                             AfterDiscovery(old(discoveryCompleted), old(providers), env), old(quota), call);
              reply == r.reply && Snapshot() == Settled(old(Snapshot()), r, s, user, now, digest)
    {
      EnsureDiscovery(env);
      reply := Handle(s, user, text, today, stored, limits, call, now, digest);
    }

    /** `chat_with_ai`: a chat request, tried on Gemini and OpenAI with 16
        attempts each. */
    method ChatWithAI(user: int, message: string, today: string, stored: int, limits: UserLimits, env: DiscoveryEnv,
                  call: Backend, now: int, digest: string -> string)
      returns (reply: Reply)
      requires Valid()
      modifies this
      ensures Valid() && discoveryCompleted
      ensures var r := Serve(Chat, user, message, today, stored, limits,
                             AfterDiscovery(old(discoveryCompleted), old(providers), env), old(quota), call);
              reply == r.reply && Snapshot() == Settled(old(Snapshot()), r, Chat, user, now, digest)
    {
      reply := Request(Chat, user, message, today, stored, limits, env, call, now, digest);
    }

    /** `generate_image`: an image request, tried on Gemini, OpenAI and
        Stability with 6 attempts each. */
    method GenerateImage(user: int, prompt: string, today: string, stored: int, limits: UserLimits, env: DiscoveryEnv,
                  call: Backend, now: int, digest: string -> string)
      returns (reply: Reply)
      requires Valid()
      modifies this
      ensures Valid() && discoveryCompleted
      ensures var r := Serve(Image, user, prompt, today, stored, limits,
                             AfterDiscovery(old(discoveryCompleted), old(providers), env), old(quota), call);
              reply == r.reply && Snapshot() == Settled(old(Snapshot()), r, Image, user, now, digest)
    {
      reply := Request(Image, user, prompt, today, stored, limits, env, call, now, digest);
    }

    /** `generate_video`: a video request, tried on Gemini, Luma and Kling
        with 6 attempts each. */
    method GenerateVideo(user: int, prompt: string, today: string, stored: int, limits: UserLimits, env: DiscoveryEnv,
                  call: Backend, now: int, digest: string -> string)
      returns (reply: Reply)
      requires Valid()
      modifies this
      ensures Valid() && discoveryCompleted
      ensures var r := Serve(Video, user, prompt, today, stored, limits,
                             AfterDiscovery(old(discoveryCompleted), old(providers), env), old(quota), call);
              reply == r.reply && Snapshot() == Settled(old(Snapshot()), r, Video, user, now, digest)
    {
      reply := Request(Video, user, prompt, today, stored, limits, env, call, now, digest);
    }

    /** A request once discovery is done. */
    method Handle(s: ServiceType, user: int, text: string, today: string, stored: int, limits: UserLimits,
                  call: Backend, now: int, digest: string -> string)
      returns (reply: Reply)
      requires Valid() && discoveryCompleted
      modifies this
      ensures Valid() && discoveryCompleted
      ensures var r := Serve(s, user, text, today, stored, limits, old(providers), old(quota), call);
              reply == r.reply && Snapshot() == Settled(old(Snapshot()), r, s, user, now, digest)
    {
      var books;
      books, reply := ServeOn(Snapshot(), s, user, text, today, stored, limits, call, now, digest);
      Load(books);
    }

    /** Stores what a request left behind. */
    method Load(b: Books)
      modifies this
      ensures Snapshot() == b && discoveryCompleted == old(discoveryCompleted)
    {
      providers, quota, sessions, nextHandle, assets := b.providers, b.quota, b.sessions, b.nextHandle, b.assets;
    }

    // ------------------------------------------------------------ the quota

    /** `check_user_limit`: the cached usage of the user's key for today, or
        the count `stored` in the database on a miss; the key becomes the most
        recent entry and the oldest is evicted past capacity. The request is
        allowed while the usage is under the service's limit. */
    method CheckUserLimit(user: int, service: string, today: string, stored: int, limits: UserLimits)
      returns (allowed: bool, remaining: int)
      requires Valid()
      modifies this
      ensures Valid()
      ensures var key := CacheKey(user, today, service);
              && quota == CheckCache(old(quota), key, stored)
              && Verdict(allowed, remaining) == Decide(Usage(old(quota), key, stored), LimitFor(limits, service))
      ensures providers == old(providers) && sessions == old(sessions) && nextHandle == old(nextHandle)
      ensures assets == old(assets) && discoveryCompleted == old(discoveryCompleted)
    {
      quota, allowed, remaining := CheckIn(quota, CacheKey(user, today, service), stored, LimitFor(limits, service));
    }

    /** `update_user_usage`: one more use of the service today. */
    method UpdateUserUsage(user: int, service: string, today: string)
      requires Valid()
      modifies this
      ensures Valid()
      ensures quota == Bump(old(quota), CacheKey(user, today, service))
      ensures providers == old(providers) && sessions == old(sessions) && nextHandle == old(nextHandle)
      ensures assets == old(assets) && discoveryCompleted == old(discoveryCompleted)
    {
      var key := CacheKey(user, today, service);
      BumpKeyed(quota, key);
      quota := Bump(quota, key);
    }

    // --------------------------------------------------------- the sessions

    /** `_cleanup_old_sessions`: sessions idle for more than an hour go. */
    method CleanupOldSessions(now: int)
      requires Valid()
      modifies this
      ensures Valid()
      ensures sessions == Sweep(old(sessions), now)
      ensures providers == old(providers) && quota == old(quota) && nextHandle == old(nextHandle)
      ensures assets == old(assets) && discoveryCompleted == old(discoveryCompleted)
    {
      var stale := StaleUsers(sessions, now);
      sessions := sessions - stale;
    }

    /** The session part of a Gemini chat call: a new chat for an unknown
        user, then the user's session is marked active. */
    method TouchSession(user: int, now: int)
      requires Valid()
      modifies this
      ensures Valid()
      ensures (sessions, nextHandle) == Open(old(sessions), old(nextHandle), user, now)
      ensures providers == old(providers) && quota == old(quota)
      ensures assets == old(assets) && discoveryCompleted == old(discoveryCompleted)
    {
      ghost var touched := Open(sessions, nextHandle, user, now);
      if user !in sessions {
        sessions := sessions[user := Session(nextHandle, now)];
        nextHandle := nextHandle + 1;
      }
      sessions := sessions[user := sessions[user].(lastActivity := now)];
      assert sessions == touched.0;
    }

    // ------------------------------------------------------------ the reset

    /** `reset_daily_counts`: the cache keeps only the keys that end with
        today's date, and every provider's counters and last error are
        cleared. */
    method ResetDailyCounts(today: string)
      requires Valid()
      modifies this
      ensures Valid()
      ensures quota == SweepDay(old(quota), today)
      ensures providers == map p | p in old(providers) :: Zeroed(old(providers)[p])
      ensures sessions == old(sessions) && nextHandle == old(nextHandle)
      ensures assets == old(assets) && discoveryCompleted == old(discoveryCompleted)
    {
      quota := SweepIn(quota, today);
      providers := ZeroAll(providers);
    }
  }
}
