/** The adapter registry: provider name to adapter class, with creation, registration and listing,
    and the table of predefined configurations. */
module LlmFactory {
  import opened Wrappers
  import opened LlmAdapter
  import OpenAIAdapter
  import opened PyText

  /** The classes the registry can hold: the two built-in ones, or one registered later,
      which brings its own provider name. */
  datatype AdapterClass =
    | OpenAIAdapterClass
    | OpenRouterAdapterClass
    | OtherAdapterClass(className: string, providerName: string)

  /** The keyword arguments `create_adapter` forwards to the class, absent ones taking the defaults. */
  datatype AdapterOptions = AdapterOptions(enableCaching: Option<bool> := None, cacheSystemMessages: Option<bool> := None)

  /** An adapter instance as a chatbot holds it. */
  datatype Adapter =
    | OpenAIFamily(adapter: OpenAIAdapter.Adapter)
    | OtherAdapter(cls: AdapterClass, settings: AdapterSettings)

  function SettingsOf(a: Adapter): AdapterSettings {
    match a
    case OpenAIFamily(x) => x.settings
    case OtherAdapter(_, s) => s
  }

  function ProviderName(a: Adapter): string {
    match a
    case OpenAIFamily(x) => OpenAIAdapter.ProviderName(x)
    case OtherAdapter(cls, _) => if cls.OtherAdapterClass? then cls.providerName else ""
  }

  /** `adapter_class(model=model, **kwargs)`. */
  function Instantiate(cls: AdapterClass, model: string, options: AdapterOptions): (a: Adapter)
    ensures SettingsOf(a).model == model
    ensures SettingsOf(a).enableCaching == options.enableCaching.GetOr(true)
    ensures SettingsOf(a).cacheSystemMessages == options.cacheSystemMessages.GetOr(true)
    ensures cls == OpenAIAdapterClass ==> ProviderName(a) == "OpenAI"
    ensures cls == OpenRouterAdapterClass ==> ProviderName(a) == "OpenRouter"
    ensures cls.OtherAdapterClass? ==> ProviderName(a) == cls.providerName
  {
    var settings := AdapterSettings(model, enableCaching := options.enableCaching.GetOr(true),
                                    cacheSystemMessages := options.cacheSystemMessages.GetOr(true));
    match cls
    case OpenAIAdapterClass => OpenAIFamily(OpenAIAdapter.NewOpenAIAdapter(settings))
    case OpenRouterAdapterClass => OpenAIFamily(OpenAIAdapter.NewOpenRouterAdapter(settings))
    case OtherAdapterClass(_, _) => OtherAdapter(cls, settings)
  }

  /** The `ValueError` of `create_adapter`: the unknown name and the keys available at the time. */
  datatype FactoryError = UnknownProvider(provider: string, available: seq<string>)

  /** One name as Python's `repr` writes a string without quotes or backslashes. */
  function Quoted(name: string): (q: string)
    ensures |q| == |name| + 2 && q[0] == '\'' && q[|q| - 1] == '\'' && q[1..|q| - 1] == name
  {
    "'" + name + "'"
  }

  /** The inside of a printed list of names: each one quoted, separated by ", ". */
  function QuotedList(names: seq<string>): (r: string)
    ensures r == "" <==> names == []
    ensures names != [] ==> r[0] == '\'' && r[|r| - 1] == '\''
  {
    if names == [] then ""
    else if |names| == 1 then Quoted(names[0])
    else QuotedList(names[..|names| - 1]) + ", " + Quoted(names[|names| - 1])
  }

  /** Every name of the list appears in its printed form, quoted. */
  lemma {:induction false} QuotedListNames(names: seq<string>)
    ensures forall n :: n in names ==> Contains(QuotedList(names), Quoted(n))
  {
    if names != [] {
      var init, last := names[..|names| - 1], names[|names| - 1];
      assert names == init + [last];
      QuotedListEndsWith(names);
      QuotedListNames(init);
      forall n | n in names
        ensures Contains(QuotedList(names), Quoted(n))
      {
        if n != last {
          QuotedListKeeps(init, last, Quoted(n));
        }
      }
    }
  }

  /** The printed list ends with its last name, quoted. */
  lemma {:induction false} QuotedListEndsWith(names: seq<string>)
    requires names != []
    ensures Contains(QuotedList(names), Quoted(names[|names| - 1]))
  {
    var r, q := QuotedList(names), Quoted(names[|names| - 1]);
    if |names| > 1 {
      assert r == QuotedList(names[..|names| - 1]) + ", " + q;
      assert r[|r| - |q|..] == q;
    }
    ContainsAt(r, q, |r| - |q|);
  }

  /** Adding a name at the end keeps what the printed list contained. */
  lemma {:induction false} QuotedListKeeps(init: seq<string>, last: string, q: string)
    requires init != [] && Contains(QuotedList(init), q)
    ensures Contains(QuotedList(init + [last]), q)
  {
    var names := init + [last];
    assert names[..|names| - 1] == init;
    assert QuotedList(names) == QuotedList(init) + (", " + Quoted(last));
    ContainsExtend(QuotedList(init), ", " + Quoted(last), q);
  }

  /** The text of the `ValueError`: the unknown name, then the registered names as a Python list. */
  function ErrorMessage(e: FactoryError): (text: string)
    ensures var head := "Unknown provider: " + e.provider + ". Available: [";
            && |head| < |text| && text[..|head|] == head
            && text[|head|..|text| - 1] == QuotedList(e.available) && text[|text| - 1] == ']'
  {
    var head := "Unknown provider: " + e.provider + ". Available: [";
    var text := head + (QuotedList(e.available) + "]");
    assert text[|head|..|text| - 1] == QuotedList(e.available);
    text
  }

  /** The error names the provider asked for, and every registered name appears in it, quoted. */
  lemma ErrorMessageNames(e: FactoryError)
    ensures Contains(ErrorMessage(e), e.provider)
    ensures forall p :: p in e.available ==> Contains(ErrorMessage(e), Quoted(p))
  {
    var head := "Unknown provider: " + e.provider + ". Available: [";
    var list := QuotedList(e.available);
    assert ErrorMessage(e) == head + (list + "]");
    assert head[18..18 + |e.provider|] == e.provider;
    ContainsAt(head, e.provider, 18);
    ContainsExtend(head, list + "]", e.provider);
    QuotedListNames(e.available);
    forall p | p in e.available
      ensures Contains(ErrorMessage(e), Quoted(p))
    {
      ContainsExtend(list, "]", Quoted(p));
      ContainsPrepend(head, list + "]", Quoted(p));
    }
  }

  /** `LLMFactory`: the class-level dict `_adapters`, as its keys in insertion order and the map. */
  class LLMFactory {
    var providers: seq<string>
    var adapters: map<string, AdapterClass>

    ghost predicate Valid()
      reads this
    {
      && (forall i, j :: 0 <= i < j < |providers| ==> providers[i] != providers[j])
      && (forall p :: p in adapters <==> p in providers)
    }

    /** The registry as the class body defines it. */
    constructor ()
      ensures Valid()
      ensures providers == ["openai", "openrouter"]
      ensures adapters == map["openai" := OpenAIAdapterClass, "openrouter" := OpenRouterAdapterClass]
    {
      providers := ["openai", "openrouter"];
      adapters := map["openai" := OpenAIAdapterClass, "openrouter" := OpenRouterAdapterClass];
    }

    /** `create_adapter`: an unknown provider raises, listing the available keys; a known one
        constructs exactly its class with the given model and options. */
    function CreateAdapter(provider: string, model: string, options: AdapterOptions := AdapterOptions()):
      (r: Result<Adapter, FactoryError>)
      reads this
      ensures r.Failure? <==> provider !in adapters
      ensures r.Failure? ==> r.error == UnknownProvider(provider, providers)
      ensures r.Success? ==> r.value == Instantiate(adapters[provider], model, options)
    {
      if provider !in adapters then Failure(UnknownProvider(provider, providers))
      else Success(Instantiate(adapters[provider], model, options))
    }

    /** `register_adapter`: adds or overwrites exactly one entry. A new name goes to the end of the
        key order; an overwritten one keeps its place, as a Python dict does. */
    method RegisterAdapter(name: string, cls: AdapterClass)
      requires Valid()
      modifies this
      ensures Valid()
      ensures adapters == old(adapters)[name := cls]
      ensures providers == if name in old(adapters) then old(providers) else old(providers) + [name]
      ensures forall p :: p != name && p in old(adapters) ==> p in adapters && adapters[p] == old(adapters)[p]
      ensures CreateAdapter(name, "").Success?
    {
      if name !in adapters {
        providers := providers + [name];
      }
      adapters := adapters[name := cls];
    }

    /** `get_available_providers`: every registered name exactly once, in registration order. */
    function GetAvailableProviders(): (r: seq<string>)
      reads this
      requires Valid()
      ensures r == providers
      ensures forall p :: p in r <==> p in adapters
      ensures forall i, j :: 0 <= i < j < |r| ==> r[i] != r[j]
    {
      providers
    }
  }

  /** One entry of `LLM_CONFIGS`: the keyword arguments for `create_adapter`. */
  datatype LlmConfig = LlmConfig(provider: string, model: string, enableCaching: bool, cacheSystemMessages: bool)

  function OptionsOf(c: LlmConfig): AdapterOptions {
    AdapterOptions(enableCaching := Some(c.enableCaching), cacheSystemMessages := Some(c.cacheSystemMessages))
  }

  /** `LLM_CONFIGS`, in its insertion order. */
  const LlmConfigs: seq<(string, LlmConfig)> := [
    ("gpt4o", LlmConfig("openrouter", "openai/gpt-4o", true, true)),
    ("gpt4o-mini", LlmConfig("openrouter", "openai/gpt-4o-mini", true, true)),
    ("gpt4.1-mini", LlmConfig("openrouter", "openai/gpt-4.1-mini", true, true)),
    ("claude-sonnet", LlmConfig("openrouter", "anthropic/claude-3-sonnet", true, true)),
    ("claude-haiku", LlmConfig("openrouter", "anthropic/claude-3-haiku", true, true)),
    ("llama-70b", LlmConfig("openrouter", "meta-llama/llama-3-70b-instruct", false, false)),
    ("claude-sonnet-cached", LlmConfig("openrouter", "anthropic/claude-3-sonnet", true, true))
  ]

  /** `LLM_CONFIGS[name]`, `None` standing for the `KeyError`. */
  function ConfigNamed(name: string): Option<LlmConfig> {
    FindConfig(LlmConfigs, name)
  }

  function FindConfig(table: seq<(string, LlmConfig)>, name: string): Option<LlmConfig> {
    if table == [] then None
    else if table[0].0 == name then Some(table[0].1)
    else FindConfig(table[1..], name)
  }

  /** The entry the multi-server chatbot falls back on. */
  lemma DefaultConfigEntry()
    ensures ConfigNamed("gpt4.1-mini") == Some(LlmConfig("openrouter", "openai/gpt-4.1-mini", true, true))
  {
  }

  /** Every predefined configuration names the OpenRouter provider. */
  lemma ConfigsUseOpenRouter()
    ensures forall i :: 0 <= i < |LlmConfigs| ==> LlmConfigs[i].1.provider == "openrouter"
  {
  }

  /** A found configuration is one of the table's entries. */
  lemma {:induction false} FindConfigInTable(table: seq<(string, LlmConfig)>, name: string)
    requires FindConfig(table, name).Some?
    ensures exists i :: 0 <= i < |table| && table[i] == (name, FindConfig(table, name).value)
  {
    if table[0].0 != name {
      FindConfigInTable(table[1..], name);
      var i :| 0 <= i < |table[1..]| && table[1..][i] == (name, FindConfig(table, name).value);
      assert table[i + 1] == table[1..][i];
    }
  }

  /** Creating an adapter from any predefined configuration never raises, as long as "openrouter"
      is still registered (it always is: registration never removes a name). */
  lemma ConfigsCreatable(f: LLMFactory, name: string)
    requires "openrouter" in f.adapters
    requires ConfigNamed(name).Some?
    ensures var c := ConfigNamed(name).value; f.CreateAdapter(c.provider, c.model, OptionsOf(c)).Success?
  {
    FindConfigInTable(LlmConfigs, name);
    ConfigsUseOpenRouter();
  }

  /** The default adapter of the multi-server chatbot: `LLM_CONFIGS["gpt4.1-mini"]` through a
      registry in its initial state is an OpenRouter adapter for "openai/gpt-4.1-mini" with caching on. */
  lemma DefaultAdapter(f: LLMFactory)
    requires f.adapters == map["openai" := OpenAIAdapterClass, "openrouter" := OpenRouterAdapterClass]
    ensures ConfigNamed("gpt4.1-mini").Some?
    ensures var c := ConfigNamed("gpt4.1-mini").value;
            var r := f.CreateAdapter(c.provider, c.model, OptionsOf(c));
            r.Success? && ProviderName(r.value) == "OpenRouter"
            && SettingsOf(r.value) == AdapterSettings("openai/gpt-4.1-mini", true, true)
  {
  }
}
