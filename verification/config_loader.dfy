/**
 * config_loader.py: the builders that overlay a user's settings or template
 * files onto the defaults of settings.py and md_templates.py.
 *
 * What the file system and the YAML parser report is an input here: a path is
 * described by a `PathState`, and the parsed contents of a file by `Value`s.
 * Error outcomes carry the kind of exception the source raises and the names
 * it reports; the message texts are not modelled.
 */
module ConfigLoader {
  import opened Wrappers
  import opened PathNames

  /** A value produced by `yaml.safe_load`; `Null` is Python's `None`. */
  datatype Value = Null | Text(text: string) | Items(items: seq<Value>) | Other(token: nat)

  /** `DEFAULT_CONFIG` of settings.py. */
  const DefaultConfig: map<string, Value> := map[
    "docstring_format" := Text("google"),
    "extra_fields" := Items([Text("Classes"), Text("Functions"), Text("Decorators"), Text("Usage")])
  ]

  const ModuleTemplate := "\n    MODULE TEMPLATE\n    # {{name}}\n\n    > {{module.short_description}}\n\n    {{module.long_description}}\n"
  const FunctionTemplate := "\n            FUNCTION TEMPLATE\n            # {{name}}\n            \n\n            > {{module.short_description}}\n\n            {{module.long_description}}\n            "
  const ClassTemplate := "\n    CLASS TEMPLATE\n    # {{name}}\n\n    > {{module.short_description}}\n\n    {{module.long_description}}\n"
  const MethodTemplate := "\n    METHOD TEMPLATE\n    # {{name}}\n\n    > {{module.short_description}}\n\n    {{module.long_description}}\n"

  /** `DEFAULT_TEMPLATES` of md_templates.py. */
  const DefaultTemplates: map<string, Value> := map[
    "module" := Text(ModuleTemplate),
    "function" := Text(FunctionTemplate),
    "class" := Text(ClassTemplate),
    "method" := Text(MethodTemplate)
  ]

  /** The accepted suffixes of `ConfigBuilder` and of `TemplateSetBuilder`. */
  const ConfigFormats := [".yaml", ".yml"]
  const TemplateFormats := [".md"]

  /** What the file system reports about a path: nothing, a file, or a directory and its entry names. */
  datatype PathState =
    | Missing(name: string)
    | File(name: string)
    | Directory(name: string, entries: seq<string>)

  /** The exceptions of this module, with the names they report. */
  datatype LoadError =
    | FileNotFound(path: string)                 // FileNotFoundError
    | NotADirectory(path: string)                // NotADirectoryError
    | InvalidFileFormat(path: string)            // ValueError, single file
    | InvalidDirectoryFormats(path: string)      // ValueError, directory entries
    | UnknownSettings(keys: seq<string>)         // KeyError of ConfigBuilder.get
    | UnknownTemplateFiles(names: seq<string>)   // KeyError of TemplateSetBuilder.get
    | MissingAttribute(attribute: string)        // AttributeError

  /** `test_file_exists`. */
  function TestFileExists(p: PathState): (r: Outcome<LoadError>)
    ensures r.Pass? <==> p.File?
    ensures r.Fail? ==> r.error == FileNotFound(p.name)
  {
    if p.File? then Pass else Fail(FileNotFound(p.name))
  }

  /** `test_directory_exists`. */
  function TestDirectoryExists(p: PathState): (r: Outcome<LoadError>)
    ensures r.Pass? <==> p.Directory?
    ensures r.Fail? ==> r.error == NotADirectory(p.name)
  {
    if p.Directory? then Pass else Fail(NotADirectory(p.name))
  }

  /** Some entry of a directory has a suffix outside `valid`. */
  predicate SomeEntryInvalid(entries: seq<string>, valid: seq<string>)
  {
    exists i :: 0 <= i < |entries| && Suffix(entries[i]) !in valid
  }

  /**
   * `test_files_are_valid_format` as written: a file with an accepted suffix
   * is not caught by the first branch and reaches `path.iterdir()`, which
   * fails on anything but a directory.
   */
  function FormatCheckAsWritten(p: PathState, valid: seq<string>): (r: Outcome<LoadError>)
    ensures p.File? ==> r.Fail?
    ensures p.Directory? ==> (r.Fail? <==> SomeEntryInvalid(p.entries, valid))
  {
    if p.File? && Suffix(p.name) !in valid then Fail(InvalidFileFormat(p.name))
    else
      match p
      case Missing(name) => Fail(FileNotFound(name))
      case File(name) => Fail(NotADirectory(name))
      case Directory(name, entries) =>
        if SomeEntryInvalid(entries, valid) then Fail(InvalidDirectoryFormats(name)) else Pass
  }

  /** The check as documented: a file by its own suffix, a directory by its entries'. */
  function FormatCheck(p: PathState, valid: seq<string>): (r: Outcome<LoadError>)
    ensures p.File? ==> (r.Pass? <==> Suffix(p.name) in valid)
    ensures p.Directory? ==> (r.Pass? <==> !SomeEntryInvalid(p.entries, valid))
    ensures !p.File? ==> r == FormatCheckAsWritten(p, valid)
  {
    if p.File? then
      if Suffix(p.name) in valid then Pass else Fail(InvalidFileFormat(p.name))
    else FormatCheckAsWritten(p, valid)
  }

  /** The check as written rejects every file, including one with an accepted suffix. */
  lemma AcceptedFileRejectedAsWritten()
    ensures FormatCheckAsWritten(File("settings.yaml"), ConfigFormats) == Fail(NotADirectory("settings.yaml"))
    ensures FormatCheck(File("settings.yaml"), ConfigFormats) == Pass
  {
    SuffixOfSettings();
  }

  /** `Suffix("settings.yaml")`. */
  lemma SuffixOfSettings()
    ensures Suffix("settings.yaml") == ".yaml"
  {
    assert LastIndexOf("settings.yaml", '.') == 8;
    assert "settings.yaml"[8..] == ".yaml";
  }

  /** `ConfigBuilder`: the path of the custom config, if any. */
  datatype ConfigBuilder = ConfigBuilder(configPath: Option<string>)

  /** `TemplateSetBuilder`: the directory of custom templates, if any. */
  datatype TemplateSetBuilder = TemplateSetBuilder(configPath: Option<PathState>)

  /** `ConfigBuilder(path)` as written. */
  function NewConfigBuilderAsWritten(path: Option<PathState>): (r: Result<ConfigBuilder, LoadError>)
    ensures path.None? ==> r == Success(ConfigBuilder(None))
  {
    match path
    case None => Success(ConfigBuilder(None))
    case Some(p) =>
      match TestFileExists(p)
      case Fail(e) => Failure(e)
      case Pass =>
        match FormatCheckAsWritten(p, ConfigFormats)
        case Fail(e) => Failure(e)
        case Pass => Success(ConfigBuilder(Some(p.name)))
  }

  /** As written, no path at all is accepted: a missing path, a directory and every file are refused. */
  lemma ConfigBuilderRefusesEveryPath(p: PathState)
    ensures NewConfigBuilderAsWritten(Some(p)).Failure?
    ensures p.File? && Suffix(p.name) in ConfigFormats ==>
      NewConfigBuilderAsWritten(Some(p)) == Failure(NotADirectory(p.name))
  {
  }

  /** `ConfigBuilder(path)` with the documented format check. */
  function NewConfigBuilder(path: Option<PathState>): (r: Result<ConfigBuilder, LoadError>)
    ensures path.None? ==> r == Success(ConfigBuilder(None))
    ensures path.Some? ==> (r.Success? <==> path.value.File? && Suffix(path.value.name) in ConfigFormats)
    ensures r.Success? && path.Some? ==> r.value.configPath == Some(path.value.name)
    ensures path.Some? && !path.value.File? ==> r == Failure(FileNotFound(path.value.name))
  {
    match path
    case None => Success(ConfigBuilder(None))
    case Some(p) =>
      match TestFileExists(p)
      case Fail(e) => Failure(e)
      case Pass =>
        match FormatCheck(p, ConfigFormats)
        case Fail(e) => Failure(e)
        case Pass => Success(ConfigBuilder(Some(p.name)))
  }

  /** `TemplateSetBuilder(path)`; only directories get to the format check. */
  function NewTemplateSetBuilder(path: Option<PathState>): (r: Result<TemplateSetBuilder, LoadError>)
    ensures path.None? ==> r == Success(TemplateSetBuilder(None))
    ensures path.Some? ==>
      (r.Success? <==> path.value.Directory? && !SomeEntryInvalid(path.value.entries, TemplateFormats))
    ensures r.Success? && path.Some? ==> r.value.configPath == path
    ensures path.Some? && !path.value.Directory? ==> r == Failure(NotADirectory(path.value.name))
  {
    match path
    case None => Success(TemplateSetBuilder(None))
    case Some(p) =>
      match TestDirectoryExists(p)
      case Fail(e) => Failure(e)
      case Pass =>
        match FormatCheckAsWritten(p, TemplateFormats)
        case Fail(e) => Failure(e)
        case Pass => Success(TemplateSetBuilder(Some(p)))
  }

  /** For the template builder the check as written and the documented one agree. */
  lemma TemplateCheckUnaffected(p: PathState)
    requires p.Directory?
    ensures FormatCheckAsWritten(p, TemplateFormats) == FormatCheck(p, TemplateFormats)
  {
  }

  /** `output.get(key) is not None`: the key is there with a non-null value. */
  predicate Present(output: map<string, Value>, key: string)
  {
    key in output && output[key] != Null
  }

  /**
   * One item of the overlay loop: the key looked up in the defaults, the name
   * reported when it is unknown, and the new value. For the config the name is
   * the key; for a template file it is the file name and the key its stem.
   */
  datatype Entry = Entry(key: string, reported: string, value: Value)

  /** The keys of the entries are pairwise different (dictionary keys, or stems of one directory). */
  predicate DistinctKeys(entries: seq<Entry>)
  {
    forall i, j :: 0 <= i < j < |entries| ==> entries[i].key != entries[j].key
  }

  /** The names of the entries whose key is not present in `defaults`, in encounter order. */
  function Unknown(defaults: map<string, Value>, entries: seq<Entry>): (r: seq<string>)
    ensures |r| <= |entries|
    ensures r == [] <==> forall i :: 0 <= i < |entries| ==> Present(defaults, entries[i].key)
    ensures forall name :: name in r <==>
      exists i :: 0 <= i < |entries| && entries[i].reported == name && !Present(defaults, entries[i].key)
    decreases |entries|
  {
    if entries == [] then []
    else
      var init, e := entries[..|entries| - 1], entries[|entries| - 1];
      assert forall i :: 0 <= i < |init| ==> init[i] == entries[i];
      Unknown(defaults, init) + (if Present(defaults, e.key) then [] else [e.reported])
  }

  /** Unknown names are reported in encounter order: the names of a concatenation concatenate. */
  lemma {:induction false} UnknownAppend(defaults: map<string, Value>, a: seq<Entry>, b: seq<Entry>)
    ensures Unknown(defaults, a + b) == Unknown(defaults, a) + Unknown(defaults, b)
    decreases |b|
  {
    if b == [] {
      assert a + b == a;
    } else {
      var ab, init, e := a + b, b[..|b| - 1], b[|b| - 1];
      var last := if Present(defaults, e.key) then [] else [e.reported];
      assert ab[..|ab| - 1] == a + init && ab[|ab| - 1] == e;
      assert Unknown(defaults, ab) == Unknown(defaults, a + init) + last;
      assert Unknown(defaults, b) == Unknown(defaults, init) + last;
      UnknownAppend(defaults, a, init);
    }
  }

  /** `defaults` with the value of every entry whose key is present there written over it. */
  function Overlay(defaults: map<string, Value>, entries: seq<Entry>): (r: map<string, Value>)
    ensures r.Keys == defaults.Keys
    decreases |entries|
  {
    if entries == [] then defaults
    else
      var init, e := entries[..|entries| - 1], entries[|entries| - 1];
      var o := Overlay(defaults, init);
      if Present(defaults, e.key) then o[e.key := e.value] else o
  }

  /** The outcome of the loop in both `get` methods: the overlay, or the names of the unknown entries. */
  function Merge(defaults: map<string, Value>, entries: seq<Entry>): Result<map<string, Value>, seq<string>>
  {
    var unknown := Unknown(defaults, entries);
    if unknown == [] then Success(Overlay(defaults, entries)) else Failure(unknown)
  }

  /** An overlay leaves a key that no entry names at its default. */
  lemma {:induction false} OverlayUntouched(defaults: map<string, Value>, entries: seq<Entry>, k: string)
    requires forall i :: 0 <= i < |entries| ==> entries[i].key != k
    requires k in defaults
    ensures Overlay(defaults, entries)[k] == defaults[k]
    decreases |entries|
  {
    if entries != [] {
      var init := entries[..|entries| - 1];
      assert forall i :: 0 <= i < |init| ==> init[i] == entries[i];
      OverlayUntouched(defaults, init, k);
    }
  }

  /** With distinct keys, an entry whose key is present in the defaults has the last word on it. */
  lemma {:induction false} OverlayApplies(defaults: map<string, Value>, entries: seq<Entry>, i: nat)
    requires DistinctKeys(entries)
    requires i < |entries| && Present(defaults, entries[i].key)
    ensures Overlay(defaults, entries)[entries[i].key] == entries[i].value
    decreases |entries|
  {
    var init, e := entries[..|entries| - 1], entries[|entries| - 1];
    assert forall j :: 0 <= j < |init| ==> init[j] == entries[j];
    if i < |entries| - 1 {
      OverlayApplies(defaults, init, i);
    }
  }

  /**
   * The overlay loop fails exactly when some entry is unknown, reporting every
   * unknown name in encounter order; on success the result has exactly the
   * default keys, each entry's value under its key, and the default elsewhere.
   */
  lemma MergeMeaning(defaults: map<string, Value>, entries: seq<Entry>)
    requires DistinctKeys(entries)
    ensures Merge(defaults, entries).Failure? <==>
      exists i :: 0 <= i < |entries| && !Present(defaults, entries[i].key)
    ensures Merge(defaults, entries).Failure? ==> Merge(defaults, entries).error == Unknown(defaults, entries)
    ensures Merge(defaults, entries).Success? ==>
      && Merge(defaults, entries).value.Keys == defaults.Keys
      && (forall i :: 0 <= i < |entries| ==> Merge(defaults, entries).value[entries[i].key] == entries[i].value)
      && (forall k :: k in defaults && (forall i :: 0 <= i < |entries| ==> entries[i].key != k) ==>
            Merge(defaults, entries).value[k] == defaults[k])
  {
    var u := Unknown(defaults, entries);
    if exists i :: 0 <= i < |entries| && !Present(defaults, entries[i].key) {
      var i :| 0 <= i < |entries| && !Present(defaults, entries[i].key);
      assert entries[i].reported in u;
    } else {
      forall i | 0 <= i < |entries|
        ensures Overlay(defaults, entries)[entries[i].key] == entries[i].value
      {
        OverlayApplies(defaults, entries, i);
      }
      forall k | k in defaults && (forall i :: 0 <= i < |entries| ==> entries[i].key != k)
        ensures Overlay(defaults, entries)[k] == defaults[k]
      {
        OverlayUntouched(defaults, entries, k);
      }
    }
  }

  /**
   * The loop of both `get` methods: look each key up in the output built so
   * far, collect the names of the unknown ones, write the others over it.
   */
  method OverlayLoop(defaults: map<string, Value>, entries: seq<Entry>)
    returns (output: map<string, Value>, notInDefault: seq<string>)
    requires DistinctKeys(entries)
    ensures output == Overlay(defaults, entries)
    ensures notInDefault == Unknown(defaults, entries)
  {
    output := defaults;
    notInDefault := [];
    for n := 0 to |entries|
      invariant output == Overlay(defaults, entries[..n])
      invariant notInDefault == Unknown(defaults, entries[..n])
    {
      var e := entries[n];
      assert entries[..n + 1][..n] == entries[..n];
      assert Present(output, e.key) == Present(defaults, e.key) by {
        if e.key in defaults {
          OverlayUntouched(defaults, entries[..n], e.key);
        }
      }
      if !Present(output, e.key) {
        notInDefault := notInDefault + [e.reported];
        continue;
      }
      output := output[e.key := e.value];
    }
    assert entries[..|entries|] == entries;
  }

  /** The config entries: each setting is its own key and name. */
  function ConfigEntries(custom: seq<(string, Value)>): (r: seq<Entry>)
    ensures |r| == |custom|
    ensures forall i :: 0 <= i < |custom| ==> r[i] == Entry(custom[i].0, custom[i].0, custom[i].1)
  {
    seq(|custom|, i requires 0 <= i < |custom| => Entry(custom[i].0, custom[i].0, custom[i].1))
  }

  /** A template file, the name `iterdir` yields and the value `load_yaml` returns for it. */
  datatype TemplateFile = TemplateFile(name: string, contents: Value)

  /** The template entries: looked up by stem, reported by file name. */
  function TemplateEntries(files: seq<TemplateFile>): (r: seq<Entry>)
    ensures |r| == |files|
    ensures forall i :: 0 <= i < |files| ==> r[i] == Entry(Stem(files[i].name), files[i].name, files[i].contents)
  {
    seq(|files|, i requires 0 <= i < |files| => Entry(Stem(files[i].name), files[i].name, files[i].contents))
  }

  /** `ConfigBuilder.get` as written: with a path it calls a loader the class does not have. */
  function ConfigGetAsWritten(b: ConfigBuilder): (r: Result<map<string, Value>, LoadError>)
    ensures b.configPath.None? ==> r == Success(DefaultConfig)
    ensures b.configPath.Some? ==> r == Failure(MissingAttribute("__load_yaml"))
  {
    if b.configPath.None? then Success(DefaultConfig) else Failure(MissingAttribute("__load_yaml"))
  }

  /**
   * `ConfigBuilder.get` with the custom config read by the loader the
   * utilities provide; `custom` is the parsed mapping, in file order.
   */
  method ConfigGet(b: ConfigBuilder, custom: seq<(string, Value)>) returns (r: Result<map<string, Value>, LoadError>)
    requires DistinctKeys(ConfigEntries(custom))
    ensures b.configPath.None? ==> r == Success(DefaultConfig)
    ensures b.configPath.Some? ==> match Merge(DefaultConfig, ConfigEntries(custom))
      case Success(m) => r == Success(m)
      case Failure(keys) => r == Failure(UnknownSettings(keys))
  {
    if b.configPath.None? {
      return Success(DefaultConfig);
    }
    var outputConfig, notInDefault := OverlayLoop(DefaultConfig, ConfigEntries(custom));
    if |notInDefault| > 0 {
      return Failure(UnknownSettings(notInDefault));
    }
    return Success(outputConfig);
  }

  /** `files` are the entries of the builder's directory, in `iterdir` order. */
  predicate ListsDirectory(b: TemplateSetBuilder, files: seq<TemplateFile>)
  {
    b.configPath.Some? ==>
      && b.configPath.value.Directory?
      && |files| == |b.configPath.value.entries|
      && forall i :: 0 <= i < |files| ==> files[i].name == b.configPath.value.entries[i]
  }

  /**
   * `TemplateSetBuilder.get`; `files` are the entries of the template
   * directory, each with what `load_yaml` returned for it.
   */
  method TemplateGet(b: TemplateSetBuilder, files: seq<TemplateFile>) returns (r: Result<map<string, Value>, LoadError>)
    requires ListsDirectory(b, files)
    requires DistinctKeys(TemplateEntries(files))
    ensures b.configPath.None? ==> r == Success(DefaultTemplates)
    ensures b.configPath.Some? ==> match Merge(DefaultTemplates, TemplateEntries(files))
      case Success(m) => r == Success(m)
      case Failure(names) => r == Failure(UnknownTemplateFiles(names))
  {
    if b.configPath.None? {
      return Success(DefaultTemplates);
    }
    var outputTemplates, notInDefault := OverlayLoop(DefaultTemplates, TemplateEntries(files));
    if |notInDefault| > 0 {
      return Failure(UnknownTemplateFiles(notInDefault));
    }
    return Success(outputTemplates);
  }

  /** The settings `DEFAULT_CONFIG` defines, none of them null. */
  lemma DefaultConfigKeys()
    ensures DefaultConfig.Keys == {"docstring_format", "extra_fields"}
    ensures forall k :: k in DefaultConfig ==> Present(DefaultConfig, k)
  {
  }

  /** The template categories `DEFAULT_TEMPLATES` defines, none of them null. */
  lemma DefaultTemplateKeys()
    ensures DefaultTemplates.Keys == {"module", "function", "class", "method"}
    ensures forall k :: k in DefaultTemplates ==> Present(DefaultTemplates, k)
  {
  }

  /**
   * The files of a directory the template builder accepted all end in `.md`,
   * so their stems are pairwise different: the precondition of `TemplateGet`
   * holds for them.
   */
  lemma AcceptedDirectoryHasDistinctStems(p: PathState, files: seq<TemplateFile>)
    requires NewTemplateSetBuilder(Some(p)).Success?
    requires |files| == |p.entries| && forall i :: 0 <= i < |files| ==> files[i].name == p.entries[i]
    requires forall i, j :: 0 <= i < j < |p.entries| ==> p.entries[i] != p.entries[j]
    ensures DistinctKeys(TemplateEntries(files))
  {
    forall i, j | 0 <= i < j < |files| ensures Stem(files[i].name) != Stem(files[j].name) {
      assert Suffix(files[i].name) in TemplateFormats && Suffix(files[j].name) in TemplateFormats;
      if Stem(files[i].name) == Stem(files[j].name) {
        StemInjective(files[i].name, files[j].name);
      }
    }
  }
}
