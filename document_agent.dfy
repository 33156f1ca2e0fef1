/** The document-intelligence agent (`DocumentIntelligenceAgent`): document
    validation and name-based classification, the choice of splitter, PII
    masking, and the provider-switching operations it layers over the model
    registry (switching, processing with a given provider and restoring the
    previous one, benchmarking every provider, batch processing).

    Extraction itself happens in an external library; it is a parameter
    here: the outcome of extracting a file with a given provider active. */
module DocumentIntelligence {
  import opened Wrappers
  import opened Text
  import opened Paths
  import opened OrderedMaps
  import opened Settings
  import opened ModelManager

  const SUPPORTED_FORMATS: seq<string> := [".pdf", ".png", ".jpg", ".jpeg", ".tiff", ".bmp", ".docx", ".doc", ".txt"]

  /** `validate_document`: the file's suffix, lower-cased, is a supported
      format. */
  function ValidateDocument(path: string): bool {
    Listed(Lower(Suffix(PathName(path))), SUPPORTED_FORMATS)
  }

  /** `x` is one of `options`, checked one option at a time. */
  predicate Listed(x: string, options: seq<string>)
    decreases |options|
  {
    |options| > 0 && (options[0] == x || Listed(x, options[1..]))
  }

  lemma {:induction false} ListedIsMember(x: string, options: seq<string>)
    ensures Listed(x, options) <==> x in options
    decreases |options|
  {
    if |options| > 0 {
      ListedIsMember(x, options[1..]);
      assert options == [options[0]] + options[1..];
    }
  }

  /** An accepted file's name ends, ignoring case, in a supported format
      preceded by at least one character. */
  lemma ValidatedEndsInFormat(path: string)
    requires ValidateDocument(path)
    ensures exists f :: f in SUPPORTED_FORMATS && EndsWith(Lower(PathName(path)), f) && |f| < |PathName(path)|
  {
    var name := PathName(path);
    var suffix := Suffix(name);
    var f := Lower(suffix);
    ListedIsMember(f, SUPPORTED_FORMATS);
    assert name[|name| - |suffix|..] == suffix;
    LowerSlice(name, |name| - |suffix|);
    assert Lower(name)[|name| - |suffix|..] == f;
    assert f in SUPPORTED_FORMATS && EndsWith(Lower(name), f) && |f| < |name|;
  }

  /** Validation looks at the file name only. */
  lemma ValidateByName(path: string, name: string)
    requires PathName(path) == name
    ensures ValidateDocument(path) <==> Lower(Suffix(name)) in SUPPORTED_FORMATS
  {
    ListedIsMember(Lower(Suffix(name)), SUPPORTED_FORMATS);
  }

  /** A file `stem.ext`, alone or in a directory, is accepted exactly when
      `.ext` lower-cased is a supported format: `scan.PDF` is accepted,
      `notes.pdf.bak` is not. */
  lemma ValidateByExtension(dir: string, stem: string, ext: string)
    requires stem != "" && '/' !in stem
    requires ext != "" && '.' !in ext && '/' !in ext
    ensures ValidateDocument(stem + "." + ext) <==> Lower("." + ext) in SUPPORTED_FORMATS
    ensures ValidateDocument(dir + "/" + (stem + "." + ext)) <==> Lower("." + ext) in SUPPORTED_FORMATS
  {
    var name := stem + "." + ext;
    DottedNameIsPlain(stem, ext);
    PathNameOfFile(dir, name);
    SuffixOfStemExt(stem, ext);
    ValidateByName(name, name);
    ValidateByName(dir + "/" + name, name);
  }

  /** A hidden file such as `.pdf` has no suffix and is rejected. */
  lemma HiddenFileRejected(ext: string)
    requires ext != "" && '.' !in ext && '/' !in ext
    ensures !ValidateDocument("." + ext)
  {
    var name := "." + ext;
    DottedNameIsPlain("", ext);
    assert "" + "." + ext == name;
    PathNameOfFile("", name);
    assert name[1..] == ext;
    NoSuffixWithoutDot(name);
    ListedIsMember(Lower(""), SUPPORTED_FORMATS);
  }

  /** The document types the agent can recognise. */
  datatype DocumentType = Invoice | DriverLicense | Passport | BusinessCard | Unknown {
    function Label(): string {
      match this
      case Invoice => "Invoice"
      case DriverLicense => "Driver License"
      case Passport => "Passport"
      case BusinessCard => "Business Card"
      case Unknown => "Unknown"
    }
  }

  /** The keywords of each type, in order of precedence. */
  const KEYWORDS: seq<(DocumentType, seq<string>)> := [
    (Invoice, ["invoice", "bill"]),
    (DriverLicense, ["license", "dl"]),
    (Passport, ["passport"]),
    (BusinessCard, ["business", "card"])
  ]

  /** One of `words` occurs somewhere in `name`. */
  predicate MentionsAny(name: string, words: seq<string>) {
    exists k :: 0 <= k < |words| && Contains(name, words[k])
  }

  /** The type of the first row of `table` with a keyword occurring in the
      name; `Unknown` when no row has one. */
  function FirstMatch(name: string, table: seq<(DocumentType, seq<string>)>): (t: DocumentType)
    ensures t == Unknown || exists k :: 0 <= k < |table| && table[k].0 == t
  {
    if |table| == 0 then Unknown
    else if MentionsAny(name, table[0].1) then table[0].0
    else
      var t := FirstMatch(name, table[1..]);
      assert t != Unknown ==> exists k :: 1 <= k < |table| && table[k].0 == t by {
        if t != Unknown {
          var k :| 0 <= k < |table[1..]| && table[1..][k].0 == t;
          assert table[k + 1].0 == t;
        }
      }
      t
  }

  lemma MentionsOne(name: string, a: string)
    ensures MentionsAny(name, [a]) <==> Contains(name, a)
  {
    if Contains(name, a) {
      assert [a][0] == a;
    }
  }

  lemma MentionsTwo(name: string, a: string, b: string)
    ensures MentionsAny(name, [a, b]) <==> Contains(name, a) || Contains(name, b)
  {
    if Contains(name, a) {
      assert [a, b][0] == a;
    } else if Contains(name, b) {
      assert [a, b][1] == b;
    }
  }

  /** The name test of `classify_document` on a lower-cased file name: the
      first type in order of precedence one of whose keywords occurs
      anywhere in the name. */
  function ClassifyName(name: string): (t: DocumentType)
    ensures t == FirstMatch(name, KEYWORDS)
  {
    MentionsTwo(name, "invoice", "bill");
    MentionsTwo(name, "license", "dl");
    MentionsOne(name, "passport");
    MentionsTwo(name, "business", "card");
    var k1 := KEYWORDS[1..];
    var k2 := k1[1..];
    var k3 := k2[1..];
    assert k1[0] == KEYWORDS[1] && k2[0] == KEYWORDS[2] && k3[0] == KEYWORDS[3] && k3[1..] == [];
    assert FirstMatch(name, k3) == if MentionsAny(name, ["business", "card"]) then BusinessCard else Unknown;
    assert FirstMatch(name, k2) == if MentionsAny(name, ["passport"]) then Passport else FirstMatch(name, k3);
    assert FirstMatch(name, k1) == if MentionsAny(name, ["license", "dl"]) then DriverLicense else FirstMatch(name, k2);
    if Contains(name, "invoice") || Contains(name, "bill") then Invoice
    else if Contains(name, "license") || Contains(name, "dl") then DriverLicense
    else if Contains(name, "passport") then Passport
    else if Contains(name, "business") || Contains(name, "card") then BusinessCard
    else Unknown
  }

  /** `classify_document`: `None` when the file cannot be opened, otherwise
      the label of the type its lower-cased file name indicates. */
  function ClassifyDocument(path: string, readable: bool): (kind: Option<string>)
    ensures kind.None? <==> !readable
    ensures kind.Some? ==> kind.value == FirstMatch(Lower(PathName(path)), KEYWORDS).Label()
  {
    if !readable then None else Some(ClassifyName(Lower(PathName(path))).Label())
  }

  /** Classification looks at the file name only, whatever the directory. */
  lemma ClassifyInDirectory(dir: string, name: string)
    requires name != "" && name != "." && '/' !in name
    ensures ClassifyDocument(dir + "/" + name, true) == Some(FirstMatch(Lower(name), KEYWORDS).Label())
  {
    PathNameOfFile(dir, name);
  }

  /** Keywords are matched as substrings, so a name that merely contains
      "dl" (as "handle" does) is taken for a driver licence. */
  lemma HandleIsDriverLicense()
    ensures ClassifyName("handle.pdf") == DriverLicense
  {
    var name := "handle.pdf";
    assert OccursAt(name, "dl", 3);
    AbsentCharExcludes(name, "invoice", 'v');
    AbsentCharExcludes(name, "bill", 'b');
  }

  /** An invoice keyword wins over every other keyword. */
  lemma InvoiceTakesPrecedence(name: string)
    requires Contains(name, "invoice") || Contains(name, "bill")
    ensures ClassifyName(name) == Invoice
  {
  }

  /** The document splitter of the extraction pipeline. */
  datatype Splitter = TextSplitter(model: string) | ImageSplitter(model: string)

  /** `_configure_splitter`: page-wise text splitting for a limited context
      window, image splitting otherwise; the local model names only when
      the active provider is ollama. `builds` is whether constructing and
      loading the chosen splitter succeeded; if not, the generic text
      splitter is used. */
  function ChooseSplitter(config: Config, active: Option<string>, builds: bool): (s: Splitter)
    ensures s.TextSplitter? <==> !builds || config.LimitedContext()
    ensures StartsWith(s.model, "ollama/") <==> builds && active == Some(OLLAMA)
    ensures !builds ==> s == TextSplitter("text-splitter")
  {
    assert ("ollama/" + config.ollamaModel)[..7] == "ollama/";
    assert ("ollama/" + config.ollamaVisionModel)[..7] == "ollama/";
    assert !StartsWith("text-splitter", "ollama/") by { assert "text-splitter"[0] != 'o'; }
    assert !StartsWith("vision-splitter", "ollama/") by { assert "vision-splitter"[0] != 'o'; }
    if !builds then TextSplitter("text-splitter")
    else if config.LimitedContext() then
      TextSplitter(if active == Some(OLLAMA) then "ollama/" + config.ollamaModel else "text-splitter")
    else
      ImageSplitter(if active == Some(OLLAMA) then "ollama/" + config.ollamaVisionModel else "vision-splitter")
  }

  /** `mask_pii`: the anonymised text when masking is enabled and the
      analysis succeeds (`analysis` is what analysing and anonymising
      `text` gives), otherwise the text unchanged. The analyser exists
      exactly when masking is enabled, since failing to build it fails the
      agent's construction. */
  function MaskPii(config: Config, text: string, analysis: Result<string>): (r: string)
    ensures r != text ==> config.enablePiiMasking && analysis == Ok(r)
    ensures config.enablePiiMasking && analysis.Ok? ==> r == analysis.value
    ensures !config.enablePiiMasking ==> r == text
  {
    if !config.enablePiiMasking then text
    else match analysis
      case Ok(masked) => masked
      case Err(_) => text
  }

  /** One extracted item, as a record of named fields. */
  type Record = map<string, string>

  /** The outcome of extracting a file: the name of the active provider,
      the file path and whether vision is used give the items or an error. */
  type Extraction = (Option<string>, string, bool) -> Result<seq<Record>>

  /** Whether configuring the extractor's language model succeeds once the
      named provider is active (`_configure_model_provider`). */
  type LlmLoader = string -> bool

  /** What `benchmark_providers` records for one provider. */
  datatype BenchEntry =
    | FailedToSwitch
    | BenchSuccess(responseLength: nat, providerInfo: map<string, string>)
    | BenchError(error: string)

  const NO_ACTIVE_INFO: map<string, string> := map["status" := "no_active_provider"]
  const SWITCH_ERROR := "Cannot switch to provider: "

  /** A name is truthy in Python: present and not empty. */
  predicate Truthy(name: Option<string>) {
    name.Some? && name.value != ""
  }

  /** `process_document_with_provider` switches only when a provider is
      requested and it is not the one already active. */
  predicate Switches(requested: Option<string>, original: Option<string>) {
    Truthy(requested) && (original.None? || requested.value != original.value)
  }

  /** The items of an extraction, or none when it failed. */
  function ItemsOrNone(r: Result<seq<Record>>): (items: seq<Record>)
    ensures r.Ok? ==> items == r.value
    ensures r.Err? ==> items == []
  {
    if r.Ok? then r.value else []
  }

  /** The entry the benchmark records for provider `n`: a failed switch if
      its model cannot be configured, otherwise the outcome of the
      registry's generation with `n` active. */
  function ExpectedEntry(items: map<string, Provider>, fallback: Option<Provider>, n: string,
                         prompt: string, respond: Responder, loads: LlmLoader): BenchEntry
    requires n in items
  {
    if !loads(n) then FailedToSwitch
    else match Failover(Some(items[n]), fallback, prompt, respond)
      case Generated(text) => BenchSuccess(|text|, if n != "" then items[n].info else NO_ACTIVE_INFO)
      case Raised(e) => BenchError(e)
  }

  /** A provider whose model loads and whose own generation succeeds is
      benchmarked as a success, with the length of its own answer. */
  lemma BenchmarkOfWorkingProvider(items: map<string, Provider>, fallback: Option<Provider>, n: string,
                                   prompt: string, respond: Responder, loads: LlmLoader)
    requires n in items && n != "" && loads(n)
    requires respond(items[n], prompt, 0).Generated?
    ensures ExpectedEntry(items, fallback, n, prompt, respond, loads) ==
              BenchSuccess(|respond(items[n], prompt, 0).text|, items[n].info)
  {
  }

  /** `s` is the splitter configured for some registered provider whose
      model loads. */
  ghost predicate SplitterFor(config: Config, builds: bool, items: map<string, Provider>, loads: LlmLoader, s: Splitter) {
    exists n :: n in items && loads(n) && s == ChooseSplitter(config, Some(n), builds)
  }

  class Agent {
    const registry: Registry
    const config: Config
    /** Whether constructing and loading the configured splitter succeeds. */
    const splitterBuilds: bool
    var splitter: Splitter

    ghost predicate Valid()
      reads this, registry
    {
      registry.Valid()
    }

    /** Construction (`__init__`, `_initialize_components`) over the shared
        registry: the splitter is configured for the active provider. */
    constructor (registry: Registry, config: Config, splitterBuilds: bool)
      requires registry.Valid()
      ensures this.registry == registry && this.config == config && this.splitterBuilds == splitterBuilds
      ensures Valid()
      ensures splitter == ChooseSplitter(config, registry.ActiveName(), splitterBuilds)
    {
      this.registry := registry;
      this.config := config;
      this.splitterBuilds := splitterBuilds;
      splitter := ChooseSplitter(config, registry.ActiveName(), splitterBuilds);
    }

    /** `switch_model_provider`: the registry switches whenever the name is
        registered; the switch is reported successful only if the model is
        then configured, and only then is the splitter reconfigured. */
    method SwitchModelProvider(name: string, loads: LlmLoader) returns (ok: bool)
      requires Valid()
      modifies registry`active, this`splitter
      ensures Valid()
      ensures ok <==> name in registry.providers.items && loads(name)
      ensures name in registry.providers.items ==>
                registry.active == Some(registry.providers.items[name]) && registry.ActiveName() == Some(name)
      ensures name !in registry.providers.items ==> registry.active == old(registry.active)
      ensures splitter == if ok then ChooseSplitter(config, Some(name), splitterBuilds) else old(splitter)
    {
      ok := registry.SwitchProvider(name);
      if ok {
        if !loads(name) {
          return false;
        }
        var active := registry.GetActiveProviderName();
        splitter := ChooseSplitter(config, active, splitterBuilds);
      }
    }

    /** `process_document`: extraction with the currently active provider. */
    method ProcessDocument(path: string, vision: bool, extract: Extraction) returns (r: Result<seq<Record>>)
      requires Valid()
      ensures r == extract(registry.ActiveName(), path, vision)
    {
      var active := registry.GetActiveProviderName();
      r := extract(active, path, vision);
    }

    /** `extract_with_pagination`: processing without vision. */
    method ExtractWithPagination(path: string, extract: Extraction) returns (r: Result<seq<Record>>)
      requires Valid()
      ensures r == extract(registry.ActiveName(), path, false)
    {
      r := ProcessDocument(path, false, extract);
    }

    /** `get_current_provider_info`: the active provider's record, or a
        `no_active_provider` record when no (truthy) name is active. */
    method GetCurrentProviderInfo() returns (r: map<string, string>)
      requires Valid()
      ensures Truthy(registry.ActiveName()) ==> r == registry.active.value.info
      ensures !Truthy(registry.ActiveName()) ==> r == NO_ACTIVE_INFO
    {
      var name := registry.GetActiveProviderName();
      if Truthy(name) {
        var report := registry.GetProviderInfo(name);
        return report.info;
      }
      return NO_ACTIVE_INFO;
    }

    /** `batch_process_documents`: every path once, in order of first
        appearance, mapped to its extracted items, or to an empty list when its
        extraction failed. */
    method BatchProcess(paths: seq<string>, extract: Extraction) returns (results: OrderedMap<string, seq<Record>>)
      requires Valid()
      ensures results.Valid()
      ensures results.keys == FirstOccurrences(paths)
      ensures forall p :: p in results.items ==> results.items[p] == ItemsOrNone(extract(registry.ActiveName(), p, false))
    {
      ghost var active := registry.ActiveName();
      ghost var expected := p => ItemsOrNone(extract(active, p, false));
      results := Empty();
      var i := 0;
      while i < |paths|
        invariant 0 <= i <= |paths|
        invariant results == PutAll(paths[..i], expected)
      {
        var r := ProcessDocument(paths[i], false, extract);
        PutAllSnoc(paths, i, expected);
        results := results.Put(paths[i], ItemsOrNone(r));
        i := i + 1;
      }
      PrefixFull(paths);
    }

    /** `process_document_with_provider`: switches to the requested provider
        when it is not already active, fails if that switch fails, extracts,
        and then switches back to the original provider if there was one. */
    method ProcessWithProvider(path: string, requested: Option<string>, vision: bool,
                               loads: LlmLoader, extract: Extraction) returns (r: Result<seq<Record>>)
      requires Valid()
      modifies registry`active, this`splitter
      ensures Valid()
      ensures !Switches(requested, old(registry.ActiveName())) ==>
                r == extract(old(registry.ActiveName()), path, vision)
                && registry.active == old(registry.active) && splitter == old(splitter)
      ensures Switches(requested, old(registry.ActiveName())) ==>
                r == if requested.value in registry.providers.items && loads(requested.value)
                     then extract(Some(requested.value), path, vision)
                     else Err(SWITCH_ERROR + requested.value)
      ensures Switches(requested, old(registry.ActiveName())) && Truthy(old(registry.ActiveName())) ==>
                registry.active == old(registry.active)
      ensures Switches(requested, old(registry.ActiveName())) && !Truthy(old(registry.ActiveName())) ==>
                registry.active == if requested.value in registry.providers.items
                                   then Some(registry.providers.items[requested.value]) else old(registry.active)
      ensures Switches(requested, old(registry.ActiveName())) && Truthy(old(registry.ActiveName()))
              && loads(old(registry.ActiveName()).value) ==>
                splitter == ChooseSplitter(config, old(registry.ActiveName()), splitterBuilds)
      ensures splitter == old(splitter) || SplitterFor(config, splitterBuilds, registry.providers.items, loads, splitter)
    {
      var original := registry.GetActiveProviderName();
      if !Switches(requested, original) {
        r := ProcessDocument(path, vision, extract);
        return;
      }
      var ok := SwitchModelProvider(requested.value, loads);
      if ok {
        r := ProcessDocument(path, vision, extract);
      } else {
        r := Err(SWITCH_ERROR + requested.value);
      }
      if Truthy(original) {
        ok := SwitchModelProvider(original.value, loads);
      }
    }

    /** One round of `benchmark_providers`: switch to `n`, generate, and
        record the outcome; `n` stays active afterwards. */
    method BenchmarkOne(n: string, prompt: string, loads: LlmLoader, respond: Responder) returns (entry: BenchEntry)
      requires Valid() && n in registry.providers.items
      modifies registry`active, this`splitter
      ensures Valid()
      ensures entry == ExpectedEntry(registry.providers.items, registry.fallback, n, prompt, respond, loads)
      ensures registry.active == Some(registry.providers.items[n])
      ensures splitter == if loads(n) then ChooseSplitter(config, Some(n), splitterBuilds) else old(splitter)
    {
      var ok := SwitchModelProvider(n, loads);
      if !ok {
        return FailedToSwitch;
      }
      var g, _ := registry.Generate(prompt, respond);
      match g {
        case Generated(text) =>
          var info := GetCurrentProviderInfo();
          entry := BenchSuccess(|text|, info);
        case Raised(e) =>
          entry := BenchError(e);
      }
    }

    /** The loop of `benchmark_providers` over the registered providers:
        each gets its entry, and the last one stays active. */
    method BenchmarkEach(prompt: string, loads: LlmLoader, respond: Responder) returns (results: OrderedMap<string, BenchEntry>)
      requires Valid()
      modifies registry`active, this`splitter
      ensures Valid()
      ensures results.Valid() && results.keys == registry.providers.keys
      ensures forall n :: n in results.items ==>
                n in registry.providers.items &&
                results.items[n] == ExpectedEntry(registry.providers.items, registry.fallback, n, prompt, respond, loads)
      ensures registry.active == if registry.providers.keys == [] then old(registry.active)
                                 else Some(registry.providers.items[registry.providers.keys[|registry.providers.keys| - 1]])
      ensures splitter == old(splitter) || SplitterFor(config, splitterBuilds, registry.providers.items, loads, splitter)
    {
      var names := registry.AvailableProviders();
      ghost var items := registry.providers.items;
      ghost var fallback := registry.fallback;
      results := Empty();
      var i := 0;
      while i < |names|
        invariant 0 <= i <= |names|
        invariant Valid()
        invariant registry.providers.items == items && registry.fallback == fallback
        invariant results.Valid() && results.keys == names[..i]
        invariant forall n :: n in results.items ==>
                    n in items && results.items[n] == ExpectedEntry(items, fallback, n, prompt, respond, loads)
        invariant registry.active == if i == 0 then old(registry.active) else Some(items[names[i - 1]])
        invariant splitter == old(splitter) || SplitterFor(config, splitterBuilds, items, loads, splitter)
      {
        var n := names[i];
        PrefixSnoc(names, i);
        assert n !in results.keys;
        var entry := BenchmarkOne(n, prompt, loads, respond);
        results := results.Put(n, entry);
        i := i + 1;
      }
      PrefixFull(names);
    }

    /** `benchmark_providers`: every registered provider in turn is switched
        to and asked to generate; each gets its entry, and afterwards the
        original provider, if there was one, is active again. */
    method Benchmark(prompt: string, loads: LlmLoader, respond: Responder) returns (results: OrderedMap<string, BenchEntry>)
      requires Valid()
      modifies registry`active, this`splitter
      ensures Valid()
      ensures results.Valid() && results.keys == registry.providers.keys
      ensures forall n :: n in results.items ==>
                n in registry.providers.items &&
                results.items[n] == ExpectedEntry(registry.providers.items, registry.fallback, n, prompt, respond, loads)
      ensures Truthy(old(registry.ActiveName())) ==> registry.active == old(registry.active)
      ensures !Truthy(old(registry.ActiveName())) ==>
                registry.active == if registry.providers.keys == [] then old(registry.active)
                                   else Some(registry.providers.items[registry.providers.keys[|registry.providers.keys| - 1]])
      ensures Truthy(old(registry.ActiveName())) && loads(old(registry.ActiveName()).value) ==>
                splitter == ChooseSplitter(config, old(registry.ActiveName()), splitterBuilds)
      ensures splitter == old(splitter) || SplitterFor(config, splitterBuilds, registry.providers.items, loads, splitter)
    {
      var original := registry.GetActiveProviderName();
      if original.Some? {
        FirstHolderHolds(registry.providers.keys, registry.providers.items, registry.active.value);
      }
      results := BenchmarkEach(prompt, loads, respond);
      if Truthy(original) {
        var _ := SwitchModelProvider(original.value, loads);
      }
    }
  }
}
