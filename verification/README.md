# docurator in Dafny

docurator collects documentation from Python code through a decorator. With
`@document_me`, each function, class or method records its docstring, name,
qualified name, type and signature in a registry at definition time. That
record goes into the record of the object's module.

This project models the following parts of docurator:

- **The registry** (`docurator_object.py`).
  - `Docurator.add` (class `Registry.Docurator`) updates two dictionaries in place:
    - the module records;
    - a cache of members whose class has not been registered yet.
  - Every step of `Add` is proved to follow the pure transition `RegistrySpec.AddState`.
  - `RegistryProperties` proves what one `add` does: rejection, lazy module records, routing and draining.
  - `RegistryOrdering` proves the main property: a class's members come out the same whether its method decorators fire before the class decorator (as they do in Python) or after it. This includes the `Cache` fixture with `add`, `retrieve` and `clear`.
  - `decorator_factory` is `Registry.DecoratorFactory`.
  - `QualNames` holds the qualified-name helpers and the cache key.
- **The legacy registry** (`docurator.py`, module `LegacyRegistry`). Its `add` appends one record per call to a per-module list.
- **The record dataclasses** (`doc_containers.py`, module `DocContainers`).
- **Configuration loading** (`_components/config_loader.py`, module `ConfigLoader`).
  - The format and existence checks.
  - The two builders.
  - The loops of both `get` methods. Each loop overlays user entries onto a copy of `DEFAULT_CONFIG` or `DEFAULT_TEMPLATES`, and collects the entries that are not in the defaults.
  - The defaults are transcribed from `settings.py` and `md_templates.py`.
  - `PathNames` models the `pathlib` suffix and stem these checks use.
- **The fixture modules** docurator documents:
  - `fibonacci_sequence` and the dictionary-backed `Cache` (`AdvancedOperations`);
  - the list-backed `Stack` and `Queue` (`DataStructures`);
  - the string helpers (`StringOperations`).

Modelling decisions:

- **Introspection is an input.** Live introspection (`callable`, `inspect.isclass`, `__qualname__`, `inspect.getmodule`, `__bases__`, `inspect.signature`) is the input record `RegistrySpec.Introspected`. The signature is an opaque token.
- **Assumed interface of `doc_containers`.** The module `docurator._components.doc_containers`, which `docurator_object.py` imports, is not part of this model. The assumed interface:
  - a module record has a `contents` set;
  - `contains_class(p)` and `get_class(p).contents` look up the class whose qualified name is `p`;
  - the member sets of a module's classes are held in `ModuleDocs.classes`, keyed by that name;
  - every class added from a module gets an entry there;
  - a second add of a class with the same qualified name replaces its member set (`classes[qualname] := cached`), so members recorded under the first add are dropped;
  - records of `_components.doc_containers` compare field-wise, like a generated dataclass `__eq__`.
- **The file system is an input.** `ConfigLoader.PathState` says what a path is: missing, a file, or a directory with its entry names. The parsed YAML is a sequence of (key, `Value`) pairs.

## Model

| member | source | states |
|---|---|---|
| `QualNames.Split` | docurator/docurator/docurator_object.py:135 | `qualname.split('.')` gives at least one part, and no part contains a dot |
| `QualNames.JoinSplit` | docurator/docurator/docurator_object.py:139 | `'.'.join(s.split('.')) == s` for every string |
| `QualNames.SplitCount` | docurator/docurator/docurator_object.py:135 | there is more than one segment exactly when the name contains a dot |
| `QualNames.IsMethod` | docurator/docurator/docurator_object.py:133-135 | `__is_method` holds exactly when the qualified name contains a dot |
| `QualNames.ClassBelongingKey` | docurator/docurator/docurator_object.py:137-139 | for a dotted name, the owner key followed by a dot and the last segment rebuilds the name, and the key is shorter |
| `QualNames.OwnerOfNested` | docurator/docurator/docurator_object.py:137-139 | the owner key of `owner.name` is `owner`, and its last segment is `name` |
| `QualNames.CacheKey` | docurator/docurator/docurator_object.py:117 | the key starts with the module name followed by a dot, and its length is the sum of the parts plus one |
| `QualNames.CacheKeyInjective` | docurator/docurator/docurator_object.py:115-130 | with dot-free module names, equal keys mean the same module and owner |
| `QualNames.CacheKeyCollision` | docurator/docurator/docurator_object.py:117 | module `a.b` with class `C`, and module `a` with nested class `b.C`, share the key `a.b.C` |
| `RegistrySpec.Unwrap` | docurator/docurator/docurator_object.py:63-66 | a classmethod is replaced by its function; anything else is kept |
| `RegistrySpec.WithoutRoot` | docurator/docurator/docurator_object.py:111 | keeps exactly the bases other than `object`; with no `object` among them, keeps them all |
| `RegistrySpec.WithoutRootAppend` | docurator/docurator/docurator_object.py:111 | the filter keeps order: filtering a concatenation gives the filtered parts concatenated |
| `RegistrySpec.Parents` | docurator/docurator/docurator_object.py:111-112 | `None` exactly when every base is `object`; otherwise a non-empty list of the other bases |
| `RegistrySpec.CreateObjectDoc` | docurator/docurator/docurator_object.py:81-96 | a plain record carrying the object's docstring, name, qualname, type and signature |
| `RegistrySpec.CreateClassDoc` | docurator/docurator/docurator_object.py:109-113 | a class record with the shared fields and `parents` as `Parents(bases)` |
| `RegistrySpec.CreateDoc` | docurator/docurator/docurator_object.py:88-96 | a class record exactly for classes; the shared fields always come from the object |
| `RegistrySpec.NewModuleDocs` | docurator/docurator/docurator_object.py:74-79 | a fresh module record has the module's name and docstring, and empty contents and classes |
| `RegistrySpec.CacheAdd` | docurator/docurator/docurator_object.py:115-122 | the owner's key is added if missing and gains the record; every other entry is unchanged |
| `RegistrySpec.CachePop` | docurator/docurator/docurator_object.py:124-130 | returns what was cached under the class's key, or the empty set; the key is removed and the other entries are unchanged |
| `RegistrySpec.AddState` | docurator/docurator/docurator_object.py:54-106 | fails with `NotCallable` exactly for a non-callable; on success the module keys gain the object's module |
| `RegistrySpec.Run` | docurator/docurator/docurator_object.py:54-69 | a sequence of adds fails exactly when one of its objects is not callable |
| `Registry.Docurator.constructor` | docurator/docurator/docurator_object.py:40-47 | a new registry has no module records and an empty cache |
| `Registry.Docurator.AddToMethodCache` | docurator/docurator/docurator_object.py:115-122 | the cache becomes `CacheAdd` of the old cache; the module records are untouched |
| `Registry.Docurator.PopFromMethodCache` | docurator/docurator/docurator_object.py:124-130 | returns the cached members of the class, or the empty set, and removes the key; the module records are untouched |
| `Registry.Docurator.Add` | docurator/docurator/docurator_object.py:54-106 | fails exactly for a non-callable, and then leaves the state unchanged; otherwise the new state is `AddState` of the old one |
| `Registry.DecoratorFactory` | docurator/docurator/docurator_object.py:148-178 | `production` gives the identity decorator; `document` and `doc` give the collecting one; any other mode is the `ValueError` with its message |
| `Registry.DocumentMeCollects` | docurator/docurator/docurator_object.py:143-181 | `document_me`, built from the configured mode `doc`, collects |
| `Registry.Decorate` | docurator/docurator/docurator_object.py:166-178 | the identity decorator returns its argument and does not touch the registry; the collecting one adds the argument and returns it, or propagates the `ValueError` with the registry unchanged |
| `RegistryProperties.AddRejectsNonCallable` | docurator/docurator/docurator_object.py:63-69 | a non-callable, after unwrapping, is rejected before any change |
| `RegistryProperties.AddModuleRecord` | docurator/docurator/docurator_object.py:71-79 | a module record is created on the first add from that module, with the module's name and docstring; later adds keep its header; other modules are untouched |
| `RegistryProperties.AddTopLevel` | docurator/docurator/docurator_object.py:99-106 | a dot-free qualname joins the module's top-level contents; a dotted one leaves them unchanged |
| `RegistryProperties.AddMember` | docurator/docurator/docurator_object.py:99-105 | a dotted record joins the members of its owner class if the module holds that class, and otherwise the cache under `module.owner`; the other place is unchanged |
| `RegistryProperties.AddClassDrainsCache` | docurator/docurator/docurator_object.py:88-94 | after a class is added, its cache key is gone and its members are exactly what was cached for it |
| `RegistryProperties.RunKeepsModules` | docurator/docurator/docurator_object.py:71-79 | along any run the set of documented modules only grows, and contains the module of every added object |
| `RegistryProperties.PendingMemberStaysCached` | docurator/docurator/docurator_object.py:115-130 | a cached member stays in the cache through any run of callables that does not add its owner class |
| `RegistryProperties.RouteKeepsPending` | docurator/docurator/docurator_object.py:99-106 | routing another record leaves a pending member out of the module record and cached under its own key only |
| `RegistryProperties.AddKeepsPending` | docurator/docurator/docurator_object.py:54-106 | one add of another record, not a class claiming the member's key, keeps a pending member out of every module record and cached under its own key only |
| `RegistryProperties.PendingMemberUnrecorded` | docurator/docurator/docurator_object.py:49-52 | a pending member never appears in `docs` (no module's contents, no class's members) through any run of callables that neither adds its owner class nor adds the same record again |
| `RegistryOrdering.RunAppend` | docurator/docurator/docurator_object.py:54-69 | running `a + b` is running `a`, then `b` on the result, or the failure of `a` |
| `RegistryOrdering.AddPlainKeepsHeld` | docurator/docurator/docurator_object.py:88-106 | adding a non-class neither creates nor removes a class entry |
| `RegistryOrdering.RunMethodsKeepHeld` | docurator/docurator/docurator_object.py:99-104 | adding methods of a class that is not registered never registers it |
| `RegistryOrdering.AddMethodUnheld` | docurator/docurator/docurator_object.py:99-104 | a method whose class is not registered goes into that class's cache entry |
| `RegistryOrdering.AddMethodHeld` | docurator/docurator/docurator_object.py:99-102 | a method whose class is registered joins that class's members |
| `RegistryOrdering.MethodThenClass` | docurator/docurator/docurator_object.py:88-94 | a method added before its class is drained into the class's members |
| `RegistryOrdering.ClassThenMethod` | docurator/docurator/docurator_object.py:99-102 | a method added after its class reaches the same final state |
| `RegistryOrdering.SwapMethodAndClass` | docurator/docurator/docurator_object.py:88-105 | method-then-class and class-then-method give the same registry state |
| `RegistryOrdering.MethodsBeforeClass` | docurator/docurator/docurator_object.py:88-105 | any number of methods before their class gives the same state as the class first |
| `RegistryOrdering.AnyInterleaving` | docurator/docurator/docurator_object.py:88-105 | methods split around their class give the same state as the class first |
| `RegistryOrdering.ClassFirstMembers` | docurator/docurator/docurator_object.py:88-94 | after a class is added it is registered, its members are what was cached for it, and its cache key is gone |
| `RegistryOrdering.MethodsJoinMembers` | docurator/docurator/docurator_object.py:99-102 | methods added while their class is registered all join its members |
| `RegistryOrdering.ClassThenMethodsMembers` | docurator/docurator/docurator_object.py:88-105 | class first, then its methods: the members are what was cached plus the records of all the methods |
| `RegistryOrdering.ClassMembersOrderIndependent` | docurator/docurator/docurator_object.py:88-105 | for any split of the methods around the class, the class's final members are what was cached plus all method records, and nothing stays cached |
| `RegistryOrdering.CacheFixtureRegistration` | docurator/test_src/advanced_operations.py:82-141 | registering `Cache` and its `add`, `retrieve` and `clear` gives the same state in either order; the class holds exactly those three records |
| `LegacyRegistry.Appended` | docurator/docurator/docurator.py:72-79 | one add appends one record to its own module's list and none to any other |
| `LegacyRegistry.LegacyAddState` | docurator/docurator/docurator.py:46-79 | fails exactly for a non-callable; on success each module's list gains exactly `Appended`, the module keys gain the object's module, and existing headers are kept |
| `LegacyRegistry.LegacyRunContents` | docurator/docurator/docurator.py:63-79 | after any adds of callables, each module's list is its old list followed by that module's records in call order, and headers never change |
| `LegacyRegistry.NoDeduplication` | docurator/docurator/docurator.py:72-79 | adding the same object twice lists its record twice |
| `LegacyRegistry.LegacyDocurator.constructor` | docurator/docurator/docurator.py:38-40 | a new legacy registry is empty |
| `LegacyRegistry.LegacyDocurator.Add` | docurator/docurator/docurator.py:46-79 | fails exactly for a non-callable, and then leaves the state unchanged; otherwise the new state is `LegacyAddState` of the old one |
| `LegacyRegistry.Decorate` | docurator/docurator/docurator.py:85-98 | the identity decorator leaves the legacy registry alone; the collecting one adds and returns the argument, or propagates the `ValueError` |
| `DocContainers.Build` | docurator/docurator/doc_containers.py:9-37 | builds a `ClassDocs` exactly when asked to, with exactly the six given fields |
| `DocContainers.ModuleDefaultsToNone` | docurator/docurator/doc_containers.py:21-26 | leaving `module` out gives `None`; a missing docstring is `None` |
| `DocContainers.EqualityIsFieldwise` | docurator/docurator/doc_containers.py:9-26 | two records are equal exactly when they are of the same class and all six fields agree |
| `DocContainers.ClassMatters` | docurator/docurator/doc_containers.py:28-37 | a `Docs` and a `ClassDocs` with the same fields are never equal |
| `DocContainers.EqualRecordsCollapse` | docurator/docurator/doc_containers.py:9-10 | records with equal fields are one element of a set |
| `ConfigLoader.TestFileExists` | docurator/docurator/_components/config_loader.py:26-39 | passes exactly for an existing file; otherwise `FileNotFoundError` naming the path |
| `ConfigLoader.TestDirectoryExists` | docurator/docurator/_components/config_loader.py:42-55 | passes exactly for an existing directory; otherwise `NotADirectoryError` naming the path |
| `ConfigLoader.FormatCheckAsWritten` | docurator/docurator/_components/config_loader.py:59-81 | the check as written fails on every file, and on a directory exactly when some entry has a suffix outside the list |
| `ConfigLoader.FormatCheck` | docurator/docurator/_components/config_loader.py:59-81 | a file passes exactly when its suffix is accepted; a directory passes exactly when every entry's suffix is accepted |
| `ConfigLoader.AcceptedFileRejectedAsWritten` | docurator/docurator/_components/config_loader.py:72-78 | `settings.yaml` against `.yaml`/`.yml` gives `NotADirectoryError` as written, but passes the documented check |
| `ConfigLoader.NewConfigBuilderAsWritten` | docurator/docurator/_components/config_loader.py:136-152 | with no path the builder has no config path |
| `ConfigLoader.ConfigBuilderRefusesEveryPath` | docurator/docurator/_components/config_loader.py:146-152 | as written, `ConfigBuilder(path)` fails for every path; for a `.yaml`/`.yml` file it fails with `NotADirectoryError` |
| `ConfigLoader.NewConfigBuilder` | docurator/docurator/_components/config_loader.py:136-152 | succeeds exactly with no path or with an existing `.yaml`/`.yml` file, and keeps the path; anything but a file is `FileNotFoundError` |
| `ConfigLoader.NewTemplateSetBuilder` | docurator/docurator/_components/config_loader.py:85-101 | succeeds exactly with no path or with a directory whose every entry has suffix `.md`; anything but a directory is `NotADirectoryError` |
| `ConfigLoader.TemplateCheckUnaffected` | docurator/docurator/_components/config_loader.py:99-100 | for the directories the template builder checks, the check as written and the documented one agree |
| `ConfigLoader.Unknown` | docurator/docurator/_components/config_loader.py:168-172 | collects exactly the names of the entries whose key is absent or null in the defaults; it is empty exactly when every key is present |
| `ConfigLoader.UnknownAppend` | docurator/docurator/_components/config_loader.py:168-172 | unknown names are collected in encounter order: the names of a concatenation are the names of its parts concatenated |
| `ConfigLoader.Overlay` | docurator/docurator/_components/config_loader.py:167-173 | the merged map has exactly the default key set |
| `ConfigLoader.OverlayUntouched` | docurator/docurator/_components/config_loader.py:167-173 | a default key that no entry names keeps its default value |
| `ConfigLoader.OverlayApplies` | docurator/docurator/_components/config_loader.py:169-173 | with distinct keys, an entry whose key is a default gets its own value in the result |
| `ConfigLoader.MergeMeaning` | docurator/docurator/_components/config_loader.py:166-180 | the merge fails exactly when some entry is unknown, reporting all unknown names in order; on success the result has the default keys, every entry's value, and the defaults elsewhere |
| `ConfigLoader.OverlayLoop` | docurator/docurator/_components/config_loader.py:168-173 | the loop over the entries builds `Overlay` and collects `Unknown` |
| `ConfigLoader.ConfigEntries` | docurator/docurator/_components/config_loader.py:169 | each setting is looked up and reported under its own key |
| `ConfigLoader.TemplateEntries` | docurator/docurator/_components/config_loader.py:118-124 | each template file is looked up by its stem and reported by its full name |
| `ConfigLoader.ConfigGetAsWritten` | docurator/docurator/_components/config_loader.py:163-166 | with no path the result is `DEFAULT_CONFIG`; with a path, as written, the result is an `AttributeError` for `__load_yaml` |
| `ConfigLoader.ConfigGet` | docurator/docurator/_components/config_loader.py:154-180 | with no path the result is `DEFAULT_CONFIG`; otherwise the merged config, or `KeyError` with the unknown settings in order |
| `ConfigLoader.TemplateGet` | docurator/docurator/_components/config_loader.py:103-131 | with no path the result is `DEFAULT_TEMPLATES`; otherwise the merged templates, or `KeyError` with the file names of unknown stems in order |
| `ConfigLoader.DefaultConfigKeys` | docurator/docurator/_defaults/settings.py:4-12 | the default settings are exactly `docstring_format` and `extra_fields`, none null |
| `ConfigLoader.DefaultTemplateKeys` | docurator/docurator/_defaults/md_templates.py:45-50 | the template categories are exactly `module`, `function`, `class` and `method`, none null |
| `ConfigLoader.AcceptedDirectoryHasDistinctStems` | docurator/docurator/_components/config_loader.py:116-124 | the files of an accepted template directory have pairwise distinct stems, so no two entries write the same category |
| `PathNames.Suffix` | docurator/docurator/_components/config_loader.py:73-76 | the suffix is empty or a dot followed by dot-free text, and it ends the name |
| `PathNames.Stem` | docurator/docurator/_components/config_loader.py:119 | stem followed by suffix is the name |
| `PathNames.StemOfSuffixed` | docurator/docurator/_components/config_loader.py:119 | a name with a suffix has a non-empty stem: the part before the suffix |
| `PathNames.StemInjective` | docurator/docurator/_components/config_loader.py:119 | names with equal suffix and equal stem are equal |
| `PathNames.SuffixExamples` | docurator/docurator/_components/config_loader.py:73 | `config.yaml` has suffix `.yaml` and stem `config`; `archive.tar.gz` has suffix `.gz` |
| `PathNames.NoSuffixExamples` | docurator/docurator/_components/config_loader.py:76 | `.md`, `notes.` and `README` have no suffix |
| `AdvancedOperations.FibPrefix` | docurator/test_src/advanced_operations.py:76-79 | the first `n` Fibonacci numbers: length `n`, item `i` is `Fib(i)` |
| `AdvancedOperations.FibonacciSequence` | docurator/test_src/advanced_operations.py:50-79 | `ValueError` with its message exactly when `n <= 0`; otherwise the first `n` Fibonacci numbers |
| `AdvancedOperations.FibPrefixShape` | docurator/test_src/advanced_operations.py:76-78 | the result starts 0, then 1, and every later item is the sum of the two before it |
| `AdvancedOperations.FibPrefixExtends` | docurator/test_src/advanced_operations.py:60-61 | a shorter result is a prefix of a longer one |
| `AdvancedOperations.FibonacciExamples` | docurator/test_src/advanced_operations.py:66-71 | `fibonacci_sequence(5) == [0, 1, 1, 2, 3]`, `fibonacci_sequence(1) == [0]`, and `0` is rejected |
| `AdvancedOperations.Lookup` | docurator/test_src/advanced_operations.py:128 | `get` returns the stored value exactly for a stored key, else `None` |
| `AdvancedOperations.LookupAfterAdd` | docurator/test_src/advanced_operations.py:93-107 | after storing `v` under `k`, `k` reads `v` and every other key reads as before |
| `AdvancedOperations.LookupAfterClear` | docurator/test_src/advanced_operations.py:130-141 | after `clear` every key reads `None` |
| `AdvancedOperations.Cache.constructor` | docurator/test_src/advanced_operations.py:89-91 | a new cache is empty |
| `AdvancedOperations.Cache.Add` | docurator/test_src/advanced_operations.py:93-107 | the store becomes the old store with `key` set to `value` |
| `AdvancedOperations.Cache.Retrieve` | docurator/test_src/advanced_operations.py:109-128 | returns the lookup of `key` in the store |
| `AdvancedOperations.Cache.Clear` | docurator/test_src/advanced_operations.py:130-141 | the store becomes empty |
| `AdvancedOperations.CacheExamples` | docurator/test_src/advanced_operations.py:101-139 | the docstring examples: `add('a', 100)` then `retrieve('a')` is 100, `retrieve('b')` is `None`, and after `clear` `retrieve('a')` is `None` |
| `DataStructures.StackPop` | docurator/test_src/data_structures.py:23-34 | fails with the `IndexError` message exactly on an empty list; otherwise the popped item appended to the rest gives the list |
| `DataStructures.QueueDequeue` | docurator/test_src/data_structures.py:59-70 | fails with the `IndexError` message exactly on an empty list; otherwise the front item followed by the rest gives the list |
| `DataStructures.PopAfterPush` | docurator/test_src/data_structures.py:15-34 | a pop right after a push returns the pushed item and restores the list |
| `DataStructures.DequeueAfterEnqueue` | docurator/test_src/data_structures.py:51-70 | enqueuing at the back does not change which item a non-empty queue dequeues first |
| `DataStructures.PopAllReverses` | docurator/test_src/data_structures.py:15-34 | popping until empty yields the items newest first |
| `DataStructures.DequeueAllInOrder` | docurator/test_src/data_structures.py:51-70 | dequeuing until empty yields the items oldest first |
| `DataStructures.Stack.constructor` | docurator/test_src/data_structures.py:11-13 | a new stack is empty |
| `DataStructures.Stack.Push` | docurator/test_src/data_structures.py:15-21 | the item is appended at the top |
| `DataStructures.Stack.Pop` | docurator/test_src/data_structures.py:23-34 | on an empty stack, the `IndexError` and no change; otherwise the top item is returned and removed, as `StackPop` says |
| `DataStructures.Stack.IsEmpty` | docurator/test_src/data_structures.py:36-42 | true exactly when no items are held |
| `DataStructures.Queue.constructor` | docurator/test_src/data_structures.py:47-49 | a new queue is empty |
| `DataStructures.Queue.Enqueue` | docurator/test_src/data_structures.py:51-57 | the item is appended at the back |
| `DataStructures.Queue.Dequeue` | docurator/test_src/data_structures.py:59-70 | on an empty queue, the `IndexError` and no change; otherwise the front item is returned and removed, as `QueueDequeue` says |
| `DataStructures.Queue.IsEmpty` | docurator/test_src/data_structures.py:72-78 | true exactly when no items are held |
| `DataStructures.StackScenario` | docurator/test_src/data_structures.py:8-42 | a stack fed 1, 2, 3 pops 3, 2, 1 and then fails with the `IndexError` |
| `DataStructures.QueueScenario` | docurator/test_src/data_structures.py:44-78 | a queue fed 1, 2, 3 dequeues 1, 2, 3 and then fails with the `IndexError` |
| `StringOperations.ReverseString` | docurator/test_src/string_operations.py:8-17 | the same length, and character `i` is character `len - 1 - i` of the input |
| `StringOperations.ReverseInvolution` | docurator/test_src/string_operations.py:8-17 | reversing twice gives the input back |
| `StringOperations.ReverseAppend` | docurator/test_src/string_operations.py:17 | the reverse of `a + b` is the reverse of `b` followed by the reverse of `a` |
| `StringOperations.UpperChar` | docurator/test_src/string_operations.py:28 | maps `a`-`z` to `A`-`Z` and leaves other characters alone; the result is never lower-case |
| `StringOperations.ToUppercase` | docurator/test_src/string_operations.py:19-28 | the same length; each lower-case ASCII letter is raised and every other character kept |
| `StringOperations.UppercaseIdempotent` | docurator/test_src/string_operations.py:28 | upper-casing twice is upper-casing once |
| `StringOperations.UppercaseReverse` | docurator/test_src/string_operations.py:19-28 | upper-casing commutes with reversal, on ASCII text |
| `StringOperations.CountVowels` | docurator/test_src/string_operations.py:30-40 | between 0 and the length; 0 exactly when no character is a vowel; the length exactly when every character is |
| `StringOperations.CountVowelsAppend` | docurator/test_src/string_operations.py:40 | the count of a concatenation is the sum of the counts |
| `StringOperations.CountVowelsReverse` | docurator/test_src/string_operations.py:30-40 | reversal keeps the count |
| `StringOperations.CountVowelsUppercase` | docurator/test_src/string_operations.py:39-40 | upper-casing keeps the count, on ASCII text |
| `StringOperations.UpperCharVowel` | docurator/test_src/string_operations.py:39 | a character and its upper-case form are both vowels or both not, on ASCII text |

## Left out

- Live introspection, `inspect.signature` and `inspect.getmodule` are inputs; a signature is an opaque token.
- Logging calls are left out.
- The module-record and class-record objects of `docurator_object.py` are values written back into the dictionaries. Aliasing between the record returned by the `docs` property and later adds is not modelled.
- `docurator._components.doc_containers` is not part of this model. Its interface is assumed as described above. In particular, `ClassDocs(..., parents=...)` in `docurator_object.py` and the `ModuleDocs`/`ObjectDocs` imports of `docurator.py` do not match the classes `doc_containers.py` defines; the registries use their own record types.
- `QualNames.CacheKey`: the cache key is the concatenated string, as in the code, so it is not injective for dotted module names (`QualNames.CacheKeyCollision`); members of two such classes share an entry.
- Frozenness (`frozen=True`) holds by construction: datatype values cannot be updated.
- `module_traverser.py` (both copies) is left out: file-system walking and dynamic imports.
- `content_parser.py` is left out.
- `math_operations.py` and `solve_quadratic` are left out: floating point.
- `load_yaml` is not modelled: its file reading and YAML parsing are inputs. `Value` stands for what the parser returns, and a parsed config is taken to be a mapping with string keys.
- Existence checks are inputs (`PathState`). The `Path(Path)` branches at `config_loader.py:37`, `:53` and `:70` are unreachable, because both constructors wrap the argument in `Path` first; they are not modelled.
- `ConfigGet`: `DEFAULT_CONFIG` and `DEFAULT_TEMPLATES` are returned without a copy when there is no path, so a caller could mutate the shared defaults. Maps are values here, so that aliasing is not captured. The `deepcopy` before the overlay holds by construction.
- `TemplateGet`: the file contents are an input, so a template file that is a directory, or unreadable, is not modelled.
- Error messages of the `ValueError`, `KeyError`, `FileNotFoundError` and `NotADirectoryError` raised in `config_loader.py` are not modelled. The error value carries the exception kind and the reported path or names.
- Python dictionary iteration order is modelled as the order of the entry sequence.
- `StringOperations.ToUppercase`: only ASCII letters are upper-cased. Python's full Unicode case mapping (`ß` to `SS`, for example) is not modelled.
- `StringOperations.UppercaseReverse`, `StringOperations.CountVowelsUppercase`, `StringOperations.UpperCharVowel`: these hold for the ASCII upper-casing above. Under Python's full case mapping they can fail: `'ı'.upper()` is `'I'`, a vowel, and `'ŉ'.upper()` is the two characters `'ʼN'`.
- `RegistryOrdering.AnyInterleaving`, `RegistryOrdering.ClassMembersOrderIndependent`: the members they reorder are methods (`RegistryOrdering.MethodOf` requires a non-class). A decorated nested class among the members, which fires as `Outer.a, Outer.Inner.x, Outer.Inner, Outer.b, Outer`, is not covered.
- Introspection is assumed to succeed. When `inspect.getmodule` returns `None`, `.__name__` raises `AttributeError` at `docurator_object.py:72`. When `inspect.signature` raises `ValueError` at `:86`, a new, empty module record is already stored. The partial state left by a raise at `:72-86` is not modelled.
- `AdvancedOperations.Lookup`, `AdvancedOperations.Cache.Retrieve`: the result is an `Option`, so a stored `None` and a missing key differ. Python's `dict.get` returns `None` for both.

## Findings

| source | as written | input that shows it | evidently intended | confidence | as-written member | corrected member |
|---|---|---|---|---|---|---|
| docurator/docurator/_components/config_loader.py:72-78 | a file whose suffix is accepted fails the first test and reaches `path.iterdir()`, which raises `NotADirectoryError` on a file | `ConfigBuilder("settings.yaml")` for an existing file `settings.yaml` | a file is checked by its own suffix only, as the docstring at :60-68 says | high, not executed | `ConfigLoader.ConfigBuilderRefusesEveryPath` | `ConfigLoader.NewConfigBuilder` |
| docurator/docurator/_components/config_loader.py:166 | `self.__load_yaml` is name-mangled to `_ConfigBuilder__load_yaml`, which the class does not have, so it raises `AttributeError` | `ConfigBuilder.get()` on any builder with a config path | call `self.utilities.load_yaml(self.config_path)` | high, not executed | `ConfigLoader.ConfigGetAsWritten` | `ConfigLoader.ConfigGet` |
