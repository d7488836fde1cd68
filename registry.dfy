/** The provider registry: one configuration record per provider, the key
    checks made at start-up, the enabling and model-discovery steps, and which
    providers are available for a service and in what order. */
module Registry {
  import opened Wrappers
  import opened Text
  import opened Sorting
  import opened Catalog

  /** `ProviderConfig`. `avg_response_time` is left out (a float nothing reads). */
  datatype Config = Config(
    name: Provider,
    apiKey: Option<string>,
    enabled: bool,
    dailyLimit: int,
    usageToday: int,
    errorsToday: int,
    lastError: Option<string>,
    discovered: map<ServiceType, seq<ModelInfo>>,
    active: map<ServiceType, string>)

  /** Daily limits used when the environment gives none. */
  function DefaultDailyLimit(p: Provider): int {
    match p
    case Google => 50
    case OpenAI => 30
    case Stability => 20
    case Luma => 10
    case Kling => 5
  }

  /** Python truthiness of an optional key: present and non-empty. */
  predicate KeySet(key: Option<string>) {
    key.Some? && key.value != ""
  }

  datatype KeyCheck = KeyMissing | KeyTooShort | KeyAccepted

  /** The start-up key check: a missing or blank key, then a key shorter than 10. */
  function CheckKey(key: Option<string>): (r: KeyCheck)
    ensures r == KeyMissing <==> key.None? || Strip(key.value) == ""
    ensures r == KeyTooShort <==> key.Some? && Strip(key.value) != "" && |key.value| < 10
  {
    if key.None? || Strip(key.value) == "" then KeyMissing
    else if |key.value| < 10 then KeyTooShort
    else KeyAccepted
  }

  /** The record `_init_providers` builds. Whatever `CheckKey` says, `enabled`
      is false: both failing key checks set it to false and an accepted key
      leaves the default, which is also false, so every provider starts
      disabled. */
  function InitConfig(p: Provider, key: Option<string>, limit: int): (c: Config)
    ensures c.name == p && c.apiKey == key && c.dailyLimit == limit
    ensures !c.enabled && c.usageToday == 0 && c.errorsToday == 0 && c.lastError == None
    ensures c.discovered == map[] && c.active == map[]
  {
    Config(p, key, false, limit, 0, 0, None, map[], map[])
  }

  // --------------------------------------------------------------- discovery

  /** What discovery learns from outside: Google's model listing (`None` when
      listing fails) and whether each client could be set up. */
  datatype DiscoveryEnv = DiscoveryEnv(
    googleListing: Option<seq<string>>,
    googleSetupOk: bool,
    openaiSetupOk: bool)

  function Ranked(names: seq<string>, s: ServiceType, analyze: string -> Option<ModelInfo>): seq<ModelInfo> {
    SortByPriority(Classified(names, s, analyze))
  }

  /** `_setup_and_discover_google`: skipped without a key; disabled when the
      client cannot be configured; otherwise enabled, with the listed (or the
      static) names classified and ranked, and the top chat model made active. */
  function GoogleStep(c: Config, env: DiscoveryEnv): Config {
    if !KeySet(c.apiKey) then c
    else if !env.googleSetupOk then c.(enabled := false)
    else GoogleDiscover(c, if env.googleListing.Some? then env.googleListing.value else GoogleFallbackModels)
  }

  /** The enabled Google record with `names` classified and ranked. */
  function GoogleDiscover(c: Config, names: seq<string>): Config {
    var d := map[Chat := Ranked(names, Chat, AnalyzeGoogle),
                 Image := Ranked(names, Image, AnalyzeGoogle),
                 Video := Ranked(names, Video, AnalyzeGoogle)];
    c.(enabled := true, discovered := d,
       active := if d[Chat] != [] then c.active[Chat := d[Chat][0].name] else c.active)
  }

  function AnalyzeOpenAIChat(name: string): Option<ModelInfo> {
    AnalyzeOpenAI(name, Chat)
  }

  function AnalyzeOpenAIImage(name: string): Option<ModelInfo> {
    AnalyzeOpenAI(name, Image)
  }

  /** `_setup_and_discover_openai`: the fixed model lists, classified and ranked. */
  function OpenAIStep(c: Config, env: DiscoveryEnv): Config {
    if !KeySet(c.apiKey) then c
    else if !env.openaiSetupOk then c.(enabled := false)
    else OpenAIDiscover(c, OpenAIKnownChat, OpenAIKnownImage)
  }

  function OpenAIDiscover(c: Config, chat: seq<string>, image: seq<string>): Config {
    c.(enabled := true,
       discovered := map[Chat := Ranked(chat, Chat, AnalyzeOpenAIChat),
                         Image := Ranked(image, Image, AnalyzeOpenAIImage),
                         Video := []])
  }

  /** `_setup_other_apis`: a key longer than 20 characters enables the provider. */
  function OtherStep(c: Config): Config {
    if KeySet(c.apiKey) && |c.apiKey.value| > 20 then c.(enabled := true) else c
  }

  /** `_select_best_models` for one provider. */
  function SelectBest(c: Config): Config {
    if !c.enabled then c
    else
      c.(active := map s: ServiceType | s in c.active || HasModels(c, s) ::
                     if HasModels(c, s) then BestModel(c.discovered[s]).name else c.active[s])
  }

  /** The record lists at least one model for the service. */
  predicate HasModels(c: Config, s: ServiceType) {
    s in c.discovered && c.discovered[s] != []
  }

  function DiscoverOne(c: Config, env: DiscoveryEnv): Config {
    var c' := match c.name
              case Google => GoogleStep(c, env)
              case OpenAI => OpenAIStep(c, env)
              case _ => OtherStep(c);
    SelectBest(c')
  }

  /** The whole registry after one discovery run. */
  function Discovered(m: map<Provider, Config>, env: DiscoveryEnv): (r: map<Provider, Config>)
    ensures r.Keys == m.Keys
  {
    map p | p in m :: DiscoverOne(m[p], env)
  }

  /** After discovery Google and OpenAI are enabled exactly when they have a
      non-empty key and their client was set up; this overrides the start-up
      check, so a short or blank key is enough. The other three are enabled
      exactly when their key is longer than 20 characters. */
  lemma DiscoveryEnabling(c: Config, env: DiscoveryEnv)
    requires !c.enabled
    ensures c.name == Google ==> (DiscoverOne(c, env).enabled <==> KeySet(c.apiKey) && env.googleSetupOk)
    ensures c.name == OpenAI ==> (DiscoverOne(c, env).enabled <==> KeySet(c.apiKey) && env.openaiSetupOk)
    ensures c.name !in {Google, OpenAI} ==>
              (DiscoverOne(c, env).enabled <==> c.apiKey.Some? && |c.apiKey.value| > 20)
  {
  }

  /** A key the start-up check rejected as too short still enables Google. */
  lemma ShortKeyStillEnablesGoogle(key: string, limit: int, env: DiscoveryEnv)
    requires 0 < |key| < 10 && Strip(key) != "" && env.googleSetupOk
    ensures CheckKey(Some(key)) == KeyTooShort
    ensures DiscoverOne(InitConfig(Google, Some(key), limit), env).enabled
  {
  }

  /** Stability, Luma and Kling are never given models: their lists stay as
      they were (empty after start-up), so the fallback loop fails for them
      before calling the backend. */
  lemma OthersGetNoModels(c: Config, env: DiscoveryEnv)
    requires c.name !in {Google, OpenAI}
    requires c.discovered == map[] && c.active == map[]
    ensures DiscoverOne(c, env).discovered == map[]
    ensures DiscoverOne(c, env).active == map[]
  {
  }

  /** The registry invariant about models: every list is ranked, holds no empty
      names, and an active model is a member of its service's list. */
  predicate ModelsWellFormed(c: Config) {
    && (forall s :: s in c.discovered ==> RankedList(c.discovered[s]))
    && (forall s :: s in c.active ==> s in c.discovered && c.active[s] in Names(c.discovered[s]))
  }

  /** A ranked model list with no empty names. */
  predicate RankedList(models: seq<ModelInfo>) {
    SortedByPriority(models) && forall i :: 0 <= i < |models| ==> models[i].name != ""
  }

  lemma RankedWellFormed(names: seq<string>, s: ServiceType, analyze: string -> Option<ModelInfo>)
    requires forall n :: analyze(n).Some? ==> analyze(n).value.name == n && n != ""
    ensures RankedList(Ranked(names, s, analyze))
  {
    SortByPriorityRanks(Classified(names, s, analyze));
    var r := Ranked(names, s, analyze);
    forall i | 0 <= i < |r| ensures r[i].name != "" {
      assert r[i] in multiset(Classified(names, s, analyze));
      ClassifiedMembers(names, s, analyze, r[i]);
      var k :| 0 <= k < |names| && analyze(names[k]) == Some(r[i]);
      assert names[k] in names;
    }
  }

  lemma AnalyzeGoogleKeepsName()
    ensures forall n :: AnalyzeGoogle(n).Some? ==> AnalyzeGoogle(n).value.name == n && n != ""
  {
  }

  lemma GoogleRanked(names: seq<string>)
    ensures RankedList(Ranked(names, Chat, AnalyzeGoogle))
    ensures RankedList(Ranked(names, Image, AnalyzeGoogle))
    ensures RankedList(Ranked(names, Video, AnalyzeGoogle))
  {
    AnalyzeGoogleKeepsName();
    RankedWellFormed(names, Chat, AnalyzeGoogle);
    RankedWellFormed(names, Image, AnalyzeGoogle);
    RankedWellFormed(names, Video, AnalyzeGoogle);
  }

  /** A record given ranked lists, and the head of its chat list as the active
      chat model, is well formed. */
  lemma HeadActiveWellFormed(c: Config, d: map<ServiceType, seq<ModelInfo>>)
    requires c.active == map[] && Chat in d
    requires forall s :: s in d ==> RankedList(d[s])
    ensures ModelsWellFormed(c.(enabled := true, discovered := d,
                                active := if d[Chat] != [] then c.active[Chat := d[Chat][0].name] else c.active))
  {
    if d[Chat] != [] {
      assert Names(d[Chat])[0] == d[Chat][0].name;
    }
  }

  lemma GoogleDiscoverWellFormed(c: Config, names: seq<string>)
    requires c.active == map[]
    ensures ModelsWellFormed(GoogleDiscover(c, names))
  {
    GoogleRanked(names);
    var d := map[Chat := Ranked(names, Chat, AnalyzeGoogle),
                 Image := Ranked(names, Image, AnalyzeGoogle),
                 Video := Ranked(names, Video, AnalyzeGoogle)];
    HeadActiveWellFormed(c, d);
  }

  lemma GoogleStepWellFormed(c: Config, env: DiscoveryEnv)
    requires c.discovered == map[] && c.active == map[]
    ensures ModelsWellFormed(GoogleStep(c, env))
  {
    if KeySet(c.apiKey) && env.googleSetupOk {
      GoogleDiscoverWellFormed(c, if env.googleListing.Some? then env.googleListing.value else GoogleFallbackModels);
    }
  }

  lemma OpenAIDiscoverWellFormed(c: Config, chat: seq<string>, image: seq<string>)
    requires c.active == map[]
    ensures ModelsWellFormed(OpenAIDiscover(c, chat, image))
  {
    RankedWellFormed(chat, Chat, AnalyzeOpenAIChat);
    RankedWellFormed(image, Image, AnalyzeOpenAIImage);
  }

  lemma OpenAIStepWellFormed(c: Config, env: DiscoveryEnv)
    requires c.discovered == map[] && c.active == map[]
    ensures ModelsWellFormed(OpenAIStep(c, env))
  {
    if KeySet(c.apiKey) && env.openaiSetupOk {
      OpenAIDiscoverWellFormed(c, OpenAIKnownChat, OpenAIKnownImage);
    }
  }

  /** Selecting the best models keeps the lists and makes each non-empty
      list's head the active model. */
  lemma SelectBestHeads(c: Config)
    requires ModelsWellFormed(c)
    ensures ModelsWellFormed(SelectBest(c))
    ensures var d := SelectBest(c);
            d.enabled ==> forall s :: s in d.discovered && d.discovered[s] != [] ==>
              s in d.active && d.active[s] == d.discovered[s][0].name
  {
    var d := SelectBest(c);
    forall s | s in c.discovered && c.discovered[s] != []
      ensures BestModel(c.discovered[s]) == c.discovered[s][0]
    {
      BestOfRankedIsHead(c.discovered[s]);
    }
    assert d.discovered == c.discovered;
    forall s | s in d.active ensures s in d.discovered && d.active[s] in Names(d.discovered[s]) {
      if c.enabled && s in c.discovered && c.discovered[s] != [] {
        assert d.active[s] == c.discovered[s][0].name;
        assert Names(c.discovered[s])[0] == c.discovered[s][0].name;
      } else {
        assert d.active[s] == c.active[s];
      }
    }
  }

  /** Discovery ranks every list and makes each enabled provider's active model
      the head of its list: the first model of least priority. Discovery runs
      once, on the records built at start-up, which hold no models. */
  lemma DiscoveryRanks(c: Config, env: DiscoveryEnv)
    requires c.discovered == map[] && c.active == map[]
    ensures ModelsWellFormed(DiscoverOne(c, env)) && DiscoverOne(c, env).name == c.name
    ensures var d := DiscoverOne(c, env);
            d.enabled ==> forall s :: s in d.discovered && d.discovered[s] != [] ==>
              s in d.active && d.active[s] == d.discovered[s][0].name
  {
    assert ModelsWellFormed(c);
    match c.name {
      case Google => GoogleStepWellFormed(c, env); SelectBestHeads(GoogleStep(c, env));
      case OpenAI => OpenAIStepWellFormed(c, env); SelectBestHeads(OpenAIStep(c, env));
      case _ => SelectBestHeads(OtherStep(c));
    }
  }

  // ------------------------------------------------------------ availability

  /** Which providers `get_available_providers` considers for each service. */
  predicate Serves(p: Provider, s: ServiceType) {
    match s
    case Chat => p in {Google, OpenAI}
    case Image => p in {Google, OpenAI, Stability}
    case Video => p in {Google, Luma, Kling}
  }

  predicate Eligible(p: Provider, c: Config, s: ServiceType) {
    c.enabled && c.usageToday < c.dailyLimit && Serves(p, s)
  }

  /** The eligible providers of `ps`, in order. */
  function Candidates(ps: seq<Provider>, m: map<Provider, Config>, s: ServiceType): (r: seq<Provider>)
    ensures forall p :: p in r <==> p in ps && p in m && Eligible(p, m[p], s)
  {
    if ps == [] then []
    else
      Candidates(ps[..|ps| - 1], m, s)
        + (var p := ps[|ps| - 1]; if p in m && Eligible(p, m[p], s) then [p] else [])
  }

  lemma CandidatesStep(ps: seq<Provider>, i: nat, m: map<Provider, Config>, s: ServiceType)
    requires i < |ps|
    ensures Candidates(ps[..i + 1], m, s)
         == Candidates(ps[..i], m, s) + if ps[i] in m && Eligible(ps[i], m[ps[i]], s) then [ps[i]] else []
  {
    assert ps[..i + 1][..i] == ps[..i];
  }

  /** The sort key `(errors_today, usage_today)`. */
  function LoadKey(m: map<Provider, Config>): Provider -> Key {
    p => if p in m then (m[p].errorsToday, m[p].usageToday) else (0, 0)
  }

  /** `get_available_providers`, as a value: the eligible providers in registry
      order, stably sorted by `(errors_today, usage_today)`. */
  function AvailableOrder(m: map<Provider, Config>, s: ServiceType): seq<Provider> {
    SortStable(Candidates(AllProviders, m, s), LoadKey(m))
  }

  predicate NoDuplicates<T(==)>(s: seq<T>) {
    forall i, j :: 0 <= i < j < |s| ==> s[i] != s[j]
  }

  lemma {:induction false} CandidatesNoDuplicates(ps: seq<Provider>, m: map<Provider, Config>, s: ServiceType)
    requires NoDuplicates(ps)
    ensures NoDuplicates(Candidates(ps, m, s))
    decreases |ps|
  {
    if ps != [] {
      var init := ps[..|ps| - 1];
      assert NoDuplicates(init);
      CandidatesNoDuplicates(init, m, s);
      assert ps[|ps| - 1] !in init;
    }
  }

  lemma {:induction false} MultisetNoDuplicates<T>(a: seq<T>, b: seq<T>)
    requires multiset(a) == multiset(b) && NoDuplicates(a)
    ensures NoDuplicates(b)
  {
    forall i, j | 0 <= i < j < |b| ensures b[i] != b[j] {
      if b[i] == b[j] {
        assert multiset(b)[b[i]] >= 2 by {
          assert b == b[..j] + b[j..];
          assert b[..j][i] == b[i];
          assert b[j..][0] == b[j];
        }
        AtMostOnce(a, b[i]);
      }
    }
  }

  lemma {:induction false} AtMostOnce<T>(a: seq<T>, x: T)
    requires NoDuplicates(a)
    ensures multiset(a)[x] <= 1
    decreases |a|
  {
    if a != [] {
      assert a == [a[0]] + a[1..];
      assert NoDuplicates(a[1..]);
      AtMostOnce(a[1..], x);
      if a[0] == x { assert x !in a[1..]; }
    }
  }

  lemma AllProvidersListed(p: Provider)
    ensures p in AllProviders
  {
    match p {
      case Google => assert AllProviders[0] == p;
      case OpenAI => assert AllProviders[1] == p;
      case Stability => assert AllProviders[2] == p;
      case Luma => assert AllProviders[3] == p;
      case Kling => assert AllProviders[4] == p;
    }
  }

  lemma AvailableMembers(m: map<Provider, Config>, s: ServiceType)
    ensures forall p :: p in AvailableOrder(m, s) <==> p in m && Eligible(p, m[p], s)
  {
    var c := Candidates(AllProviders, m, s);
    var r := AvailableOrder(m, s);
    forall p ensures p in r <==> p in m && Eligible(p, m[p], s) {
      assert p in r <==> p in multiset(r);
      assert p in c <==> p in multiset(c);
      AllProvidersListed(p);
    }
  }

  lemma AvailableNoDuplicates(m: map<Provider, Config>, s: ServiceType)
    ensures NoDuplicates(AvailableOrder(m, s))
  {
    assert NoDuplicates(AllProviders) by {
      assert AllProviders == [Google, OpenAI, Stability, Luma, Kling];
    }
    CandidatesNoDuplicates(AllProviders, m, s);
    MultisetNoDuplicates(Candidates(AllProviders, m, s), AvailableOrder(m, s));
  }

  /** There is an available provider exactly when some provider is eligible. */
  lemma AnyAvailable(m: map<Provider, Config>, s: ServiceType)
    ensures AvailableOrder(m, s) != [] <==> exists p :: p in m && Eligible(p, m[p], s)
  {
    AvailableMembers(m, s);
    var r := AvailableOrder(m, s);
    if r != [] {
      assert r[0] in r;
    }
  }

  /** The available providers are exactly the enabled providers under their
      daily limit that serve the service, each once, ordered by
      `(errors_today, usage_today)`, ties kept in registry order. */
  lemma AvailableOrderSpec(m: map<Provider, Config>, s: ServiceType)
    ensures forall p :: p in AvailableOrder(m, s) <==> p in m && Eligible(p, m[p], s)
    ensures NoDuplicates(AvailableOrder(m, s))
    ensures Sorted(AvailableOrder(m, s), LoadKey(m))
    ensures forall k :: WithKey(AvailableOrder(m, s), LoadKey(m), k) == WithKey(Candidates(AllProviders, m, s), LoadKey(m), k)
  {
    var c := Candidates(AllProviders, m, s);
    AvailableMembers(m, s);
    AvailableNoDuplicates(m, s);
    SortStableSorted(c, LoadKey(m));
    forall k ensures WithKey(AvailableOrder(m, s), LoadKey(m), k) == WithKey(c, LoadKey(m), k) {
      SortStableKeepsTies(c, LoadKey(m), k);
    }
  }
}
