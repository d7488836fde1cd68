/** Model catalogue and ranking: service types, providers, model records and the
    rule tables that turn a model name into a service type and a priority
    (lower is preferred). */
module Catalog {
  import opened Wrappers
  import opened Text
  import opened Sorting

  datatype ServiceType = Chat | Image | Video {
    function Value(): string {
      match this
      case Chat => "chat"
      case Image => "image"
      case Video => "video"
    }
  }

  datatype Provider = Google | OpenAI | Stability | Luma | Kling {
    function Value(): string {
      match this
      case Google => "google"
      case OpenAI => "openai"
      case Stability => "stability"
      case Luma => "luma"
      case Kling => "kling"
    }
  }

  /** The five providers in the registry's insertion order. */
  const AllProviders: seq<Provider> := [Google, OpenAI, Stability, Luma, Kling]

  const AllServices: seq<ServiceType> := [Chat, Image, Video]

  /** The position of a provider in `AllProviders`. */
  function ProviderIndex(p: Provider): (i: nat)
    ensures i < |AllProviders| && AllProviders[i] == p
  {
    match p case Google => 0 case OpenAI => 1 case Stability => 2 case Luma => 3 case Kling => 4
  }

  /** The position of a service in `AllServices`. */
  function ServiceIndex(s: ServiceType): (i: nat)
    ensures i < |AllServices| && AllServices[i] == s
  {
    match s case Chat => 0 case Image => 1 case Video => 2
  }

  /** A discovered model. The source's fields that nothing reads (release date,
      token limit, deprecation and enhancement flags) are omitted. */
  datatype ModelInfo = ModelInfo(
    name: string,
    provider: Provider,
    service: ServiceType,
    version: string,
    priority: int,
    isLatest: bool)

  // ---------------------------------------------------------------- Google

  /** Service type of a lower-cased Google model name; first matching rule wins. */
  function GoogleService(l: string): Option<ServiceType> {
    if Contains(l, "gemini") && !Contains(l, "tts") then Some(Chat)
    else if Contains(l, "imagen") || Contains(l, "banana") then Some(Image)
    else if Contains(l, "veo") then Some(Video)
    else None
  }

  /** Version string and priority of a Google chat model, newest first. */
  function GoogleChatTier(l: string): (string, int) {
    if Contains(l, "gemini-3") then ("3.0", 10)
    else if Contains(l, "gemini-2.5") || Contains(l, "gemini-2-5") then ("2.5", 15)
    else if Contains(l, "gemini-2.0") || Contains(l, "gemini-2-0") then ("2.0", 20)
    else if Contains(l, "gemini-1.5") || Contains(l, "gemini-1-5") then ("1.5", 30)
    else if Contains(l, "gemini-1.0") || Contains(l, "gemini-1-0") || Contains(l, "gemini-pro") then ("1.0", 40)
    else ("1.0", 100)
  }

  function GoogleImagePriority(l: string): int {
    if Contains(l, "banana") then 5
    else if Contains(l, "imagen-4") then 10
    else if Contains(l, "imagen-3") then 20
    else if Contains(l, "imagen-2") then 30
    else 50
  }

  /** `_analyze_google_model`: `None` for a name that matches no service rule. */
  function AnalyzeGoogle(name: string): (r: Option<ModelInfo>)
    ensures r.Some? ==> r.value.name == name && r.value.provider == Google && name != ""
    ensures r.Some? ==> r.value.isLatest == Contains(Lower(name), "latest")
    ensures r.Some? && r.value.service == Chat ==> r.value.priority in {10, 15, 20, 30, 40, 100}
    ensures r.Some? && r.value.service == Image ==> r.value.version == "1.0" && r.value.priority in {5, 10, 20, 30, 50}
    ensures r.Some? && r.value.service == Video ==> r.value.version == "1.0" && r.value.priority == 10
  {
    var l := Lower(name);
    match GoogleService(l)
    case None => None
    case Some(s) =>
      var (version, priority) :=
        match s
        case Chat => GoogleChatTier(l)
        case Image => ("1.0", GoogleImagePriority(l))
        case Video => ("1.0", 10);
      Some(ModelInfo(name, Google, s, version, priority, Contains(l, "latest")))
  }

  /** Google's service rules, both directions: first match wins, and a name that
      matches none is discarded. */
  lemma GoogleClassification(name: string)
    ensures var l := Lower(name);
            var chat := Contains(l, "gemini") && !Contains(l, "tts");
            var image := !chat && (Contains(l, "imagen") || Contains(l, "banana"));
            var video := !chat && !image && Contains(l, "veo");
            && (AnalyzeGoogle(name).Some? && AnalyzeGoogle(name).value.service == Chat <==> chat)
            && (AnalyzeGoogle(name).Some? && AnalyzeGoogle(name).value.service == Image <==> image)
            && (AnalyzeGoogle(name).Some? && AnalyzeGoogle(name).value.service == Video <==> video)
            && (AnalyzeGoogle(name).None? <==> !chat && !image && !video)
  {
  }

  /** The chat table, first matching rule wins: gemini-3 gets 3.0/10,
      gemini-2.5 (or 2-5) 2.5/15, gemini-2.0 (or 2-0) 2.0/20, gemini-1.5 (or
      1-5) 1.5/30, gemini-1.0 (or 1-0, or gemini-pro) 1.0/40, any other
      Gemini chat model 1.0/100. */
  lemma GoogleChatTable(name: string)
    requires AnalyzeGoogle(name).Some? && AnalyzeGoogle(name).value.service == Chat
    ensures var l := Lower(name);
            var m := AnalyzeGoogle(name).value;
            var v3 := Contains(l, "gemini-3");
            var v25 := !v3 && (Contains(l, "gemini-2.5") || Contains(l, "gemini-2-5"));
            var v20 := !v3 && !v25 && (Contains(l, "gemini-2.0") || Contains(l, "gemini-2-0"));
            var v15 := !v3 && !v25 && !v20 && (Contains(l, "gemini-1.5") || Contains(l, "gemini-1-5"));
            var v10 := !v3 && !v25 && !v20 && !v15
                       && (Contains(l, "gemini-1.0") || Contains(l, "gemini-1-0") || Contains(l, "gemini-pro"));
            && (v3 ==> m.version == "3.0" && m.priority == 10)
            && (v25 ==> m.version == "2.5" && m.priority == 15)
            && (v20 ==> m.version == "2.0" && m.priority == 20)
            && (v15 ==> m.version == "1.5" && m.priority == 30)
            && (v10 ==> m.version == "1.0" && m.priority == 40)
            && (!v3 && !v25 && !v20 && !v15 && !v10 ==> m.version == "1.0" && m.priority == 100)
  {
  }

  /** The image table, first matching rule wins: banana 5, imagen-4 10,
      imagen-3 20, imagen-2 30, any other image model 50; so a newer Imagen
      is always preferred to an older one. */
  lemma GoogleImageTable(name: string)
    requires AnalyzeGoogle(name).Some? && AnalyzeGoogle(name).value.service == Image
    ensures var l := Lower(name);
            var p := AnalyzeGoogle(name).value.priority;
            var banana := Contains(l, "banana");
            var i4 := !banana && Contains(l, "imagen-4");
            var i3 := !banana && !i4 && Contains(l, "imagen-3");
            var i2 := !banana && !i4 && !i3 && Contains(l, "imagen-2");
            && (banana ==> p == 5)
            && (i4 ==> p == 10)
            && (i3 ==> p == 20)
            && (i2 ==> p == 30)
            && (!banana && !i4 && !i3 && !i2 ==> p == 50)
  {
  }

  /** Rank of a Gemini version string; larger is newer. */
  function VersionRank(v: string): int {
    if v == "3.0" then 5
    else if v == "2.5" then 4
    else if v == "2.0" then 3
    else if v == "1.5" then 2
    else 1
  }

  /** A Google chat model of a newer Gemini version always gets a strictly
      smaller (preferred) priority; chat priorities are 10/15/20/30/40/100. */
  lemma GoogleNewerChatPreferred(a: string, b: string)
    requires AnalyzeGoogle(a).Some? && AnalyzeGoogle(a).value.service == Chat
    requires AnalyzeGoogle(b).Some? && AnalyzeGoogle(b).value.service == Chat
    requires VersionRank(AnalyzeGoogle(a).value.version) > VersionRank(AnalyzeGoogle(b).value.version)
    ensures AnalyzeGoogle(a).value.priority < AnalyzeGoogle(b).value.priority
    ensures AnalyzeGoogle(a).value.priority in {10, 15, 20, 30, 40}
  {
    assert AnalyzeGoogle(a).value == ModelInfo(a, Google, Chat, GoogleChatTier(Lower(a)).0, GoogleChatTier(Lower(a)).1,
                                               Contains(Lower(a), "latest"));
    assert AnalyzeGoogle(b).value == ModelInfo(b, Google, Chat, GoogleChatTier(Lower(b)).0, GoogleChatTier(Lower(b)).1,
                                               Contains(Lower(b), "latest"));
    ChatTierRank(Lower(a));
    ChatTierRank(Lower(b));
  }

  /** Each chat tier pairs a version with its priority. */
  lemma ChatTierRank(l: string)
    ensures var (v, p) := GoogleChatTier(l);
            || (VersionRank(v) == 5 && p == 10)
            || (VersionRank(v) == 4 && p == 15)
            || (VersionRank(v) == 3 && p == 20)
            || (VersionRank(v) == 2 && p == 30)
            || (VersionRank(v) == 1 && (p == 40 || p == 100))
  {
  }

  /** Image priorities are 5/10/20/30/50 for banana, imagen-4, imagen-3, imagen-2
      and any other image model; a "banana" model outranks every other image model. */
  lemma GoogleImageRanking(a: string, b: string)
    requires AnalyzeGoogle(a).Some? && AnalyzeGoogle(a).value.service == Image
    requires AnalyzeGoogle(b).Some? && AnalyzeGoogle(b).value.service == Image
    requires Contains(Lower(a), "banana") && !Contains(Lower(b), "banana")
    ensures AnalyzeGoogle(a).value.priority == 5
    ensures AnalyzeGoogle(b).value.priority in {10, 20, 30, 50}
    ensures AnalyzeGoogle(a).value.priority < AnalyzeGoogle(b).value.priority
  {
  }

  /** The static list used when listing Google's models fails. */
  const GoogleFallbackModels: seq<string> := [
    "nano-banana-pro-preview",
    "imagen-4.0-generate-preview-06-06",
    "imagen-3.0-generate-001",
    "gemini-2.5-flash", "gemini-2.5-pro", "gemini-3-flash-preview",
    "gemini-3-pro-preview", "gemini-2.0-flash",
    "veo-3.0-generate-001"]

  // ---------------------------------------------------------------- OpenAI

  /** `_analyze_openai_model`: the service type is given by the caller. */
  function AnalyzeOpenAI(name: string, s: ServiceType): (r: Option<ModelInfo>)
    ensures r.Some? ==> r.value.name == name && r.value.provider == OpenAI && r.value.service == s
    ensures r.Some? ==> !r.value.isLatest
    ensures r.Some? && s != Video ==> name != ""
    ensures r.Some? && s == Chat ==> r.value.priority in {5, 10, 15, 20, 25, 30}
    ensures r.Some? && s == Image ==> r.value.priority in {5, 10}
    ensures s == Image ==> (r.Some? <==> Contains(Lower(name), "dall-e-3") || Contains(Lower(name), "dall-e-2"))
    ensures s == Video ==> r.Some? && r.value.version == "1.0" && r.value.priority == 100
  {
    var l := Lower(name);
    var tier: Option<(string, int)> :=
      match s
      case Chat =>
        if Contains(l, "gpt-4o") then Some(("4.0", if Contains(l, "mini") then 5 else 10))
        else if Contains(l, "gpt-4-turbo") then Some(("4.0", 15))
        else if Contains(l, "gpt-4") then Some(("4.0", 20))
        else if Contains(l, "gpt-3.5-turbo") then Some(("3.5", if Contains(l, "instruct") then 30 else 25))
        else None
      case Image =>
        if Contains(l, "dall-e-3") then Some(("3.0", 5))
        else if Contains(l, "dall-e-2") then Some(("2.0", 10))
        else None
      case Video => Some(("1.0", 100));
    match tier
    case None => None
    case Some((version, priority)) => Some(ModelInfo(name, OpenAI, s, version, priority, false))
  }

  /** A chat model is recognised exactly when its lower-cased name mentions
      "gpt-4" (which covers "gpt-4o" and "gpt-4-turbo") or "gpt-3.5-turbo". */
  lemma OpenAIChatRecognised(name: string)
    ensures AnalyzeOpenAI(name, Chat).Some? <==> Contains(Lower(name), "gpt-4") || Contains(Lower(name), "gpt-3.5-turbo")
  {
    var l := Lower(name);
    if Contains(l, "gpt-4o") {
      ContainsInner(l, "gpt-4o", "gpt-4", 0);
    } else if Contains(l, "gpt-4-turbo") {
      ContainsInner(l, "gpt-4-turbo", "gpt-4", 0);
    }
  }

  /** The chat table on the names the manager knows without listing: priorities
      5 < 10 < 15 < 20 < 25 < 30 for gpt-4o-mini, gpt-4o, gpt-4-turbo, gpt-4,
      gpt-3.5-turbo and gpt-3.5-turbo-instruct. */
  lemma OpenAIChatTable()
    ensures AnalyzeOpenAI("gpt-4o-mini", Chat) == Some(ModelInfo("gpt-4o-mini", OpenAI, Chat, "4.0", 5, false))
    ensures AnalyzeOpenAI("gpt-4o", Chat) == Some(ModelInfo("gpt-4o", OpenAI, Chat, "4.0", 10, false))
    ensures AnalyzeOpenAI("gpt-4-turbo", Chat) == Some(ModelInfo("gpt-4-turbo", OpenAI, Chat, "4.0", 15, false))
    ensures AnalyzeOpenAI("gpt-4", Chat) == Some(ModelInfo("gpt-4", OpenAI, Chat, "4.0", 20, false))
    ensures AnalyzeOpenAI("gpt-3.5-turbo", Chat) == Some(ModelInfo("gpt-3.5-turbo", OpenAI, Chat, "3.5", 25, false))
    ensures AnalyzeOpenAI("gpt-3.5-turbo-instruct", Chat)
         == Some(ModelInfo("gpt-3.5-turbo-instruct", OpenAI, Chat, "3.5", 30, false))
  {
    Gpt4oMini();
    Gpt4o();
    Gpt4Turbo();
    Gpt4();
    Gpt35Turbo();
    Gpt35TurboInstruct();
  }

  lemma Gpt4oMini()
    ensures AnalyzeOpenAI("gpt-4o-mini", Chat) == Some(ModelInfo("gpt-4o-mini", OpenAI, Chat, "4.0", 5, false))
  {
    LowerNoCapitals("gpt-4o-mini");
    assert OccursAt("gpt-4o-mini", "gpt-4o", 0);
    assert OccursAt("gpt-4o-mini", "mini", 7);
  }

  lemma Gpt4o()
    ensures AnalyzeOpenAI("gpt-4o", Chat) == Some(ModelInfo("gpt-4o", OpenAI, Chat, "4.0", 10, false))
  {
    LowerNoCapitals("gpt-4o");
    assert OccursAt("gpt-4o", "gpt-4o", 0);
    MissingChar("gpt-4o", "mini", 'm');
  }

  lemma Gpt4Turbo()
    ensures AnalyzeOpenAI("gpt-4-turbo", Chat) == Some(ModelInfo("gpt-4-turbo", OpenAI, Chat, "4.0", 15, false))
  {
    LowerNoCapitals("gpt-4-turbo");
    MissingPair("gpt-4-turbo", "gpt-4o", 4);
    assert OccursAt("gpt-4-turbo", "gpt-4-turbo", 0);
  }

  lemma Gpt4()
    ensures AnalyzeOpenAI("gpt-4", Chat) == Some(ModelInfo("gpt-4", OpenAI, Chat, "4.0", 20, false))
  {
    LowerNoCapitals("gpt-4");
    MissingChar("gpt-4", "gpt-4o", 'o');
    MissingChar("gpt-4", "gpt-4-turbo", 'u');
    assert OccursAt("gpt-4", "gpt-4", 0);
  }

  lemma Gpt35Turbo()
    ensures AnalyzeOpenAI("gpt-3.5-turbo", Chat) == Some(ModelInfo("gpt-3.5-turbo", OpenAI, Chat, "3.5", 25, false))
  {
    NotGpt4("gpt-3.5-turbo");
    assert OccursAt("gpt-3.5-turbo", "gpt-3.5-turbo", 0);
    MissingChar("gpt-3.5-turbo", "instruct", 'i');
  }

  lemma Gpt35TurboInstruct()
    ensures AnalyzeOpenAI("gpt-3.5-turbo-instruct", Chat)
         == Some(ModelInfo("gpt-3.5-turbo-instruct", OpenAI, Chat, "3.5", 30, false))
  {
    NotGpt4("gpt-3.5-turbo-instruct");
    assert OccursAt("gpt-3.5-turbo-instruct", "gpt-3.5-turbo", 0);
    assert OccursAt("gpt-3.5-turbo-instruct", "instruct", 14);
  }

  /** A lower-case name without a '4' matches none of the GPT-4 rules. */
  lemma NotGpt4(name: string)
    requires '4' !in name
    requires forall i :: 0 <= i < |name| ==> !('A' <= name[i] <= 'Z')
    ensures Lower(name) == name
    ensures !Contains(name, "gpt-4o") && !Contains(name, "gpt-4-turbo") && !Contains(name, "gpt-4")
  {
    LowerNoCapitals(name);
    MissingChar(name, "gpt-4o", '4');
    MissingChar(name, "gpt-4-turbo", '4');
    MissingChar(name, "gpt-4", '4');
  }

  /** The image table: dall-e-3 (priority 5) before dall-e-2 (priority 10). */
  lemma OpenAIImageTable()
    ensures AnalyzeOpenAI("dall-e-3", Image) == Some(ModelInfo("dall-e-3", OpenAI, Image, "3.0", 5, false))
    ensures AnalyzeOpenAI("dall-e-2", Image) == Some(ModelInfo("dall-e-2", OpenAI, Image, "2.0", 10, false))
  {
    LowerNoCapitals("dall-e-3");
    assert OccursAt("dall-e-3", "dall-e-3", 0);
    LowerNoCapitals("dall-e-2");
    MissingChar("dall-e-2", "dall-e-3", '3');
    assert OccursAt("dall-e-2", "dall-e-2", 0);
  }

  const OpenAIKnownChat: seq<string> :=
    ["gpt-4o", "gpt-4o-mini", "gpt-4-turbo", "gpt-4", "gpt-3.5-turbo", "gpt-3.5-turbo-instruct"]

  const OpenAIKnownImage: seq<string> := ["dall-e-3", "dall-e-2"]

  // ---------------------------------------------------------- classification

  /** The models of service `s` that `analyze` makes of `names`, in name order. */
  function Classified(names: seq<string>, s: ServiceType, analyze: string -> Option<ModelInfo>): (r: seq<ModelInfo>)
    ensures forall m :: m in r ==> m.service == s
    ensures |r| <= |names|
  {
    if names == [] then []
    else
      Classified(names[..|names| - 1], s, analyze)
        + match analyze(names[|names| - 1])
          case Some(m) => if m.service == s then [m] else []
          case None => []
  }

  /** A classified model is exactly the analysis of one of the names. */
  lemma {:induction false} ClassifiedMembers(names: seq<string>, s: ServiceType, analyze: string -> Option<ModelInfo>, m: ModelInfo)
    ensures m in Classified(names, s, analyze)
        <==> m.service == s && exists i :: 0 <= i < |names| && analyze(names[i]) == Some(m)
    decreases |names|
  {
    if names != [] {
      var init := names[..|names| - 1];
      ClassifiedMembers(init, s, analyze, m);
      if exists i :: 0 <= i < |init| && analyze(init[i]) == Some(m) {
        var i :| 0 <= i < |init| && analyze(init[i]) == Some(m);
        assert analyze(names[i]) == Some(m);
      }
      if exists i :: 0 <= i < |names| && analyze(names[i]) == Some(m) {
        var i :| 0 <= i < |names| && analyze(names[i]) == Some(m);
        if i < |init| { assert analyze(init[i]) == Some(m); }
      }
    }
  }

  lemma ClassifiedStep(names: seq<string>, i: nat, s: ServiceType, analyze: string -> Option<ModelInfo>)
    requires i < |names|
    ensures Classified(names[..i + 1], s, analyze)
         == Classified(names[..i], s, analyze)
              + if analyze(names[i]).Some? && analyze(names[i]).value.service == s then [analyze(names[i]).value] else []
  {
    assert names[..i + 1][..i] == names[..i];
  }

  /** An analysis that never yields service `s` classifies nothing under it. */
  lemma ClassifiedNone(names: seq<string>, s: ServiceType, analyze: string -> Option<ModelInfo>)
    requires forall n :: analyze(n).Some? ==> analyze(n).value.service != s
    ensures Classified(names, s, analyze) == []
  {
    var r := Classified(names, s, analyze);
    if r != [] {
      ClassifiedMembers(names, s, analyze, r[0]);
    }
  }

  /** An empty list for every service. */
  function NoBuckets(): (b: map<ServiceType, seq<ModelInfo>>)
    ensures forall s :: s in b && b[s] == []
  {
    var b := map s: ServiceType | s in AllServices :: [];
    assert forall s: ServiceType :: s in b by {
      forall s: ServiceType ensures s in b {
        assert AllServices[ServiceIndex(s)] == s;
      }
    }
    b
  }

  /** The per-service lists after one pass over `names`: each model is appended
      to the list of its service type. */
  method Classify(names: seq<string>, analyze: string -> Option<ModelInfo>, into: map<ServiceType, seq<ModelInfo>>)
    returns (buckets: map<ServiceType, seq<ModelInfo>>)
    requires forall s :: s in into
    ensures forall s :: s in buckets && buckets[s] == into[s] + Classified(names, s, analyze)
  {
    buckets := into;
    BucketedStart(into, names, analyze);
    for i := 0 to |names|
      invariant buckets == Bucketed(into, names[..i], analyze)
    {
      BucketedStep(into, names, i, analyze);
      match analyze(names[i]) {
        case Some(m) =>
          buckets := buckets[m.service := buckets[m.service] + [m]];
        case None =>
      }
    }
    assert names[..|names|] == names;
  }

  /** The lists `Classify` builds from `into` over `names`. */
  function Bucketed(into: map<ServiceType, seq<ModelInfo>>, names: seq<string>, analyze: string -> Option<ModelInfo>)
    : (r: map<ServiceType, seq<ModelInfo>>)
    ensures r.Keys == into.Keys
  {
    map s | s in into :: into[s] + Classified(names, s, analyze)
  }

  lemma BucketedStart(into: map<ServiceType, seq<ModelInfo>>, names: seq<string>, analyze: string -> Option<ModelInfo>)
    ensures Bucketed(into, names[..0], analyze) == into
  {
    assert names[..0] == [];
    forall s | s in into ensures into[s] + Classified(names[..0], s, analyze) == into[s] {
      assert into[s] + [] == into[s];
    }
  }

  lemma BucketedAt(into: map<ServiceType, seq<ModelInfo>>, names: seq<string>, i: nat,
                   analyze: string -> Option<ModelInfo>, s: ServiceType)
    requires i < |names| && s in into
    ensures Bucketed(into, names[..i + 1], analyze)[s]
         == Bucketed(into, names[..i], analyze)[s]
              + if analyze(names[i]).Some? && analyze(names[i]).value.service == s then [analyze(names[i]).value] else []
  {
    ClassifiedStep(names, i, s, analyze);
    var c := Classified(names[..i], s, analyze);
    if analyze(names[i]).Some? && analyze(names[i]).value.service == s {
      assert into[s] + (c + [analyze(names[i]).value]) == (into[s] + c) + [analyze(names[i]).value];
    } else {
      assert c + [] == c;
    }
  }

  lemma BucketedStep(into: map<ServiceType, seq<ModelInfo>>, names: seq<string>, i: nat,
                     analyze: string -> Option<ModelInfo>)
    requires i < |names| && forall s :: s in into
    ensures var b := Bucketed(into, names[..i], analyze);
            Bucketed(into, names[..i + 1], analyze)
              == match analyze(names[i])
                 case Some(m) => b[m.service := b[m.service] + [m]]
                 case None => b
  {
    var b := Bucketed(into, names[..i], analyze);
    var b' := Bucketed(into, names[..i + 1], analyze);
    forall s ensures s in b && s in b' && b'[s] == b[s] + if analyze(names[i]).Some? && analyze(names[i]).value.service == s
                                                       then [analyze(names[i]).value] else [] {
      BucketedAt(into, names, i, analyze, s);
    }
    match analyze(names[i]) {
      case Some(m) => AppendAt(b, b', m);
      case None => AppendNothing(b, b');
    }
  }

  lemma AppendAt(b: map<ServiceType, seq<ModelInfo>>, b': map<ServiceType, seq<ModelInfo>>, m: ModelInfo)
    requires b'.Keys == b.Keys && m.service in b
    requires forall s :: s in b ==> b'[s] == b[s] + if m.service == s then [m] else []
    ensures b' == b[m.service := b[m.service] + [m]]
  {
    var u := b[m.service := b[m.service] + [m]];
    forall s | s in u ensures u[s] == b'[s] {
      if s != m.service { assert b'[s] == b[s] + []; }
    }
  }

  lemma AppendNothing(b: map<ServiceType, seq<ModelInfo>>, b': map<ServiceType, seq<ModelInfo>>)
    requires b'.Keys == b.Keys
    requires forall s :: s in b ==> b'[s] == b[s] + []
    ensures b' == b
  {
    forall s | s in b ensures b'[s] == b[s] {
      assert b[s] + [] == b[s];
    }
  }

  // ----------------------------------------------------------------- ranking

  function PriorityKey(m: ModelInfo): Key {
    (m.priority, 0)
  }

  /** `list.sort(key=lambda x: x.priority)`. */
  function SortByPriority(models: seq<ModelInfo>): (r: seq<ModelInfo>)
    ensures multiset(r) == multiset(models)
  {
    SortStable(models, PriorityKey)
  }

  predicate SortedByPriority(models: seq<ModelInfo>) {
    forall i, j :: 0 <= i < j < |models| ==> models[i].priority <= models[j].priority
  }

  /** The ranked list is ascending by priority and keeps discovery order among
      equal priorities. */
  lemma SortByPriorityRanks(models: seq<ModelInfo>)
    ensures SortedByPriority(SortByPriority(models))
    ensures forall p :: WithKey(SortByPriority(models), PriorityKey, (p, 0)) == WithKey(models, PriorityKey, (p, 0))
  {
    SortStableSorted(models, PriorityKey);
    forall p ensures WithKey(SortByPriority(models), PriorityKey, (p, 0)) == WithKey(models, PriorityKey, (p, 0)) {
      SortStableKeepsTies(models, PriorityKey, (p, 0));
    }
  }

  /** The position of the first entry of least priority. */
  function BestIndex(models: seq<ModelInfo>): (i: nat)
    requires models != []
    ensures i < |models|
    ensures forall j :: 0 <= j < |models| ==> models[i].priority <= models[j].priority
    ensures forall j :: 0 <= j < i ==> models[j].priority > models[i].priority
  {
    if |models| == 1 then 0
    else
      var k := BestIndex(models[..|models| - 1]);
      if models[|models| - 1].priority < models[k].priority then |models| - 1 else k
  }

  /** `min(models, key=lambda x: x.priority)`: the first entry of least priority. */
  function BestModel(models: seq<ModelInfo>): (m: ModelInfo)
    requires models != []
    ensures m in models
    ensures forall x :: x in models ==> m.priority <= x.priority
  {
    models[BestIndex(models)]
  }

  /** On a ranked list the best model is the head. */
  lemma BestOfRankedIsHead(models: seq<ModelInfo>)
    requires models != [] && SortedByPriority(models)
    ensures BestModel(models) == models[0]
  {
    var i := BestIndex(models);
    assert KeyLe(PriorityKey(models[0]), PriorityKey(models[i]));
  }

  function Names(models: seq<ModelInfo>): (r: seq<string>)
    ensures |r| == |models|
    ensures forall i :: 0 <= i < |models| ==> r[i] == models[i].name
  {
    if models == [] then [] else [models[0].name] + Names(models[1..])
  }
}
