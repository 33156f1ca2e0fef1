/** The registry of text-generation backends (`UnifiedModelManager`): an
    insertion-ordered map from provider name to provider, an active provider
    and a fallback provider, with single-hop failover on generation. The
    backends themselves are opaque: a provider is an identity, the answer its
    availability probe gave at start-up and the information record it
    reports; what its `generate` does is supplied by the caller. */
module ModelManager {
  import opened Wrappers
  import opened OrderedMaps

  const OLLAMA := "ollama"
  const HUGGINGFACE := "huggingface"
  const NO_PROVIDER_ERROR := "No model providers available"

  /** One backend. `available` is what `is_available()` answered when the
      registry probed it; `info` is what `get_model_info()` reports. */
  datatype Provider = Provider(id: nat, available: bool, info: map<string, string>)

  /** What one call of a provider's `generate` does: return text or raise. */
  datatype Generation = Generated(text: string) | Raised(error: string)

  /** The behaviour of the backends: the outcome of calling `generate` on
      provider `p` with `prompt` as the `attempt`-th provider call (0 or 1)
      of one registry call. */
  type Responder = (Provider, string, nat) -> Generation

  /** What `get_provider_info` returns: one record, or one per provider. */
  datatype InfoReport =
    | Single(info: map<string, string>)
    | PerProvider(infos: OrderedMap<string, map<string, string>>)

  /** The registry's `generate`, as a value: the active provider is tried
      first; on failure the fallback, if any, is tried once and its outcome
      is final; with no fallback the first failure is final. */
  function Failover(active: Option<Provider>, fallback: Option<Provider>, prompt: string, respond: Responder): Generation {
    if active.None? then Raised(NO_PROVIDER_ERROR)
    else
      var first := respond(active.value, prompt, 0);
      if first.Generated? then first
      else if fallback.Some? then respond(fallback.value, prompt, 1)
      else first
  }

  /** The first name in `keys` that `items` maps to `p`, if any: the search
      loop of `get_active_provider_name` as a value. */
  function FirstHolder(keys: seq<string>, items: map<string, Provider>, p: Provider): Option<string> {
    if |keys| == 0 then None
    else if keys[0] in items && items[keys[0]] == p then Some(keys[0])
    else FirstHolder(keys[1..], items, p)
  }

  /** `FirstHolder` finds the first holder, and finds none only when no
      listed name maps to `p`. */
  lemma {:induction false} FirstHolderIsFirst(keys: seq<string>, items: map<string, Provider>, p: Provider)
    ensures FirstHolder(keys, items, p).None? <==>
              forall i :: 0 <= i < |keys| ==> !(keys[i] in items && items[keys[i]] == p)
    ensures FirstHolder(keys, items, p).Some? ==>
              exists i :: 0 <= i < |keys| && keys[i] == FirstHolder(keys, items, p).value
                && keys[i] in items && items[keys[i]] == p
                && forall j :: 0 <= j < i ==> !(keys[j] in items && items[keys[j]] == p)
  {
    if |keys| > 0 && !(keys[0] in items && items[keys[0]] == p) {
      FirstHolderIsFirst(keys[1..], items, p);
      var r := FirstHolder(keys[1..], items, p);
      if r.Some? {
        var i :| 0 <= i < |keys[1..]| && keys[1..][i] == r.value && keys[1..][i] in items && items[keys[1..][i]] == p
          && forall j :: 0 <= j < i ==> !(keys[1..][j] in items && items[keys[1..][j]] == p);
        assert keys[i + 1] == r.value;
        assert forall j :: 0 <= j < i + 1 ==> !(keys[j] in items && items[keys[j]] == p) by {
          forall j | 0 <= j < i + 1 ensures !(keys[j] in items && items[keys[j]] == p) {
            if j > 0 { assert keys[j] == keys[1..][j - 1]; }
          }
        }
      } else {
        forall i | 0 <= i < |keys| ensures !(keys[i] in items && items[keys[i]] == p) {
          if i > 0 { assert keys[i] == keys[1..][i - 1]; }
        }
      }
    }
  }

  /** The name found holds the provider searched for. */
  lemma FirstHolderHolds(keys: seq<string>, items: map<string, Provider>, p: Provider)
    requires FirstHolder(keys, items, p).Some?
    ensures FirstHolder(keys, items, p).value in items && items[FirstHolder(keys, items, p).value] == p
  {
    FirstHolderIsFirst(keys, items, p);
  }

  /** When the names are distinct and map to distinct providers, the holder
      of the provider registered under `n` is `n` itself. */
  lemma HolderOfRegistered(keys: seq<string>, items: map<string, Provider>, n: string)
    requires forall i, j :: 0 <= i < j < |keys| ==> keys[i] != keys[j]
    requires forall k :: k in items <==> k in keys
    requires forall a, b :: a in items && b in items && a != b ==> items[a] != items[b]
    requires n in items
    ensures FirstHolder(keys, items, items[n]) == Some(n)
  {
    FirstHolderIsFirst(keys, items, items[n]);
  }

  class Registry {
    var providers: OrderedMap<string, Provider>
    var active: Option<Provider>
    var fallback: Option<Provider>

    /** The providers are keyed by distinct names and are distinct
        backends; the active and the fallback provider, when set, are
        registered. */
    ghost predicate Valid()
      reads this
    {
      && providers.Valid()
      && (forall a, b :: a in providers.items && b in providers.items && a != b ==>
            providers.items[a] != providers.items[b])
      && (active.Some? ==> active.value in providers.items.Values)
      && (fallback.Some? ==> fallback.value in providers.items.Values)
    }

    /** The name of the active provider as `get_active_provider_name`
        reports it. */
    function ActiveName(): Option<string>
      reads this
    {
      if active.None? then None else FirstHolder(providers.keys, providers.items, active.value)
    }

    /** Start-up (`__init__`, `_initialize_providers`, `_set_active_provider`).
        `ollama` and `huggingface` are the constructed backends, `None` when
        construction raised; a backend is registered only if its probe said
        it is available, the ollama one first. `primary` and `fallbackName`
        are the configured provider names. */
    constructor (ollama: Option<Provider>, huggingface: Option<Provider>, primary: string, fallbackName: string)
      requires ollama.Some? && huggingface.Some? ==> ollama.value != huggingface.value
      ensures Valid()
      ensures providers.keys ==
                (if ollama.Some? && ollama.value.available then [OLLAMA] else []) +
                (if huggingface.Some? && huggingface.value.available then [HUGGINGFACE] else [])
      ensures OLLAMA in providers.items ==> providers.items[OLLAMA] == ollama.value
      ensures HUGGINGFACE in providers.items ==> providers.items[HUGGINGFACE] == huggingface.value
      ensures primary in providers.items ==> active == Some(providers.items[primary])
      ensures primary !in providers.items && providers.keys != [] ==> active == Some(providers.items[providers.keys[0]])
      ensures providers.keys == [] ==> active == None
      ensures fallback == if fallbackName in providers.items && fallbackName != primary
                          then Some(providers.items[fallbackName]) else None
    {
      providers := Empty();
      active := None;
      fallback := None;
      new;
      var registered := Empty();
      if ollama.Some? && ollama.value.available {
        registered := registered.Put(OLLAMA, ollama.value);
      }
      if huggingface.Some? && huggingface.value.available {
        assert |OLLAMA| != |HUGGINGFACE|;
        registered := registered.Put(HUGGINGFACE, huggingface.value);
      }
      providers := registered;
      SetActiveProvider(primary, fallbackName);
    }

    /** `_set_active_provider`: the primary if registered; the fallback if
        registered under a name other than the primary's; and, failing a
        primary, the first registered provider. */
    method SetActiveProvider(primary: string, fallbackName: string)
      requires Valid()
      requires active.None? && fallback.None?
      modifies this`active, this`fallback
      ensures Valid()
      ensures primary in providers.items ==> active == Some(providers.items[primary])
      ensures primary !in providers.items && providers.keys != [] ==> active == Some(providers.items[providers.keys[0]])
      ensures providers.keys == [] ==> active == None
      ensures fallback == if fallbackName in providers.items && fallbackName != primary
                          then Some(providers.items[fallbackName]) else None
    {
      if primary in providers.items {
        active := Some(providers.items[primary]);
      }
      if fallbackName in providers.items && fallbackName != primary {
        fallback := Some(providers.items[fallbackName]);
      }
      if active.None? && providers.keys != [] {
        var first := providers.keys[0];
        active := Some(providers.items[first]);
      }
    }

    /** `generate`: tries the active provider, then at most once the
        fallback. `calls` lists the providers called, in order. The registry
        itself is left as it was: failover lasts for one call only. */
    method Generate(prompt: string, respond: Responder) returns (r: Generation, calls: seq<Provider>)
      requires Valid()
      ensures r == Failover(active, fallback, prompt, respond)
      ensures active.None? ==> r == Raised(NO_PROVIDER_ERROR) && calls == []
      ensures active.Some? ==> 1 <= |calls| <= 2 && calls[0] == active.value
      ensures active.Some? && respond(active.value, prompt, 0).Generated? ==>
                r == respond(active.value, prompt, 0) && calls == [active.value]
      ensures active.Some? && respond(active.value, prompt, 0).Raised? && fallback.Some? ==>
                r == respond(fallback.value, prompt, 1) && calls == [active.value, fallback.value]
      ensures active.Some? && respond(active.value, prompt, 0).Raised? && fallback.None? ==>
                r == respond(active.value, prompt, 0) && calls == [active.value]
    {
      if active.None? {
        return Raised(NO_PROVIDER_ERROR), [];
      }
      r := respond(active.value, prompt, 0);
      calls := [active.value];
      if r.Raised? && fallback.Some? {
        r := respond(fallback.value, prompt, 1);
        calls := calls + [fallback.value];
      }
    }

    /** `get_available_providers`: every registered name once, in
        registration order. */
    function AvailableProviders(): (names: seq<string>)
      reads this
      requires Valid()
      ensures forall n :: n in names <==> n in providers.items
      ensures forall i, j :: 0 <= i < j < |names| ==> names[i] != names[j]
    {
      providers.keys
    }

    /** `switch_provider`: succeeds exactly when `name` is registered, and
        then makes that provider active; otherwise nothing changes. */
    method SwitchProvider(name: string) returns (ok: bool)
      requires Valid()
      modifies this`active
      ensures Valid()
      ensures ok <==> name in providers.items
      ensures ok ==> active == Some(providers.items[name]) && ActiveName() == Some(name)
      ensures !ok ==> active == old(active)
    {
      if name in providers.items {
        active := Some(providers.items[name]);
        HolderOfRegistered(providers.keys, providers.items, name);
        return true;
      }
      return false;
    }

    /** `get_provider_info`: with a (non-empty) name, the record of that
        provider or a `not_available` record; without one, every provider's
        record under its name, in registration order. */
    method GetProviderInfo(name: Option<string>) returns (r: InfoReport)
      requires Valid()
      ensures name.Some? && name.value != "" && name.value in providers.items ==>
                r == Single(providers.items[name.value].info)
      ensures name.Some? && name.value != "" && name.value !in providers.items ==>
                r == Single(map["status" := "not_available", "provider" := name.value])
      ensures name.None? || name.value == "" ==> r.PerProvider? && AllInfo(r.infos)
    {
      if name.Some? && name.value != "" {
        if name.value in providers.items {
          return Single(providers.items[name.value].info);
        }
        return Single(map["status" := "not_available", "provider" := name.value]);
      }
      var infos := CollectInfo();
      return PerProvider(infos);
    }

    /** `infos` holds every provider's record under its name, in
        registration order. */
    ghost predicate AllInfo(infos: OrderedMap<string, map<string, string>>)
      reads this
    {
      && infos.Valid()
      && infos.keys == providers.keys
      && forall n :: n in infos.items ==> n in providers.items && infos.items[n] == providers.items[n].info
    }

    /** The loop of `get_provider_info` that collects every record. */
    method CollectInfo() returns (infos: OrderedMap<string, map<string, string>>)
      requires Valid()
      ensures AllInfo(infos)
    {
      infos := Empty();
      var i := 0;
      while i < |providers.keys|
        invariant 0 <= i <= |providers.keys|
        invariant infos.Valid()
        invariant infos.keys == providers.keys[..i]
        invariant forall n :: n in infos.items ==> n in providers.items && infos.items[n] == providers.items[n].info
      {
        var n := providers.keys[i];
        assert n !in infos.keys;
        infos := infos.Put(n, providers.items[n].info);
        assert providers.keys[..i + 1] == providers.keys[..i] + [n];
        i := i + 1;
      }
      assert providers.keys[..i] == providers.keys;
    }

    /** `get_active_provider_name`: the first registered name whose provider
        is the active one, or `None`. */
    method GetActiveProviderName() returns (r: Option<string>)
      requires Valid()
      ensures r == ActiveName()
      ensures r.None? <==> active.None?
      ensures r.Some? ==> r.value in providers.items && Some(providers.items[r.value]) == active
    {
      if active.None? {
        return None;
      }
      var p := active.value;
      ghost var holder :| holder in providers.items && providers.items[holder] == p;
      HolderOfRegistered(providers.keys, providers.items, holder);
      var i := 0;
      while i < |providers.keys| && !(providers.keys[i] in providers.items && providers.items[providers.keys[i]] == p)
        invariant 0 <= i <= |providers.keys|
        invariant FirstHolder(providers.keys[i..], providers.items, p) == Some(holder)
      {
        assert providers.keys[i..][1..] == providers.keys[i + 1..];
        i := i + 1;
      }
      assert i < |providers.keys|;
      return Some(providers.keys[i]);
    }
  }
}
