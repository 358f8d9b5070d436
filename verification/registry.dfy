/**
 * The documentation registry of docurator_object.py: the class `Docurator`,
 * whose `add` updates its two dictionaries in place, and `decorator_factory`,
 * which chooses between an identity decorator and one that registers.
 *
 * Every step of `Docurator.Add` is proved to follow `RegistrySpec.AddState`,
 * so the properties proved about that function hold of the class.
 */
module Registry {
  import opened Wrappers
  import opened QualNames
  import opened RegistrySpec

  class Docurator {
    /** `__module_docs`: module name to module record; read through the `docs` property. */
    var moduleDocs: map<string, ModuleDocs>
    /** `__class_method_cache`: `"<module>.<owner qualname>"` to pending member records. */
    var classMethodCache: map<string, set<ObjectDocs>>

    /** Both fields as one value. */
    function State(): RegistryState
      reads this
    {
      RegistryState(moduleDocs, classMethodCache)
    }

    /** `Docurator()`: no module records and no pending members. */
    constructor()
      ensures State() == EmptyRegistry
    {
      moduleDocs := map[];
      classMethodCache := map[];
    }

    /** `__add_to_method_cache`: file `doc` under the key of its owner, creating the set on first use. */
    method AddToMethodCache(moduleName: string, doc: ObjectDocs)
      modifies this
      ensures classMethodCache == CacheAdd(old(classMethodCache), moduleName, doc)
      ensures moduleDocs == old(moduleDocs)
    {
      var methodPath := ClassBelongingKey(doc.qualname);
      var key := CacheKey(moduleName, methodPath);
      var cache: set<ObjectDocs>;
      if key in classMethodCache {
        cache := classMethodCache[key];
      } else {
        cache := {};
        classMethodCache := classMethodCache[key := cache];
      }
      classMethodCache := classMethodCache[key := cache + {doc}];
    }

    /** `__pop_from_method_cache`: remove and return the entry of a class, or an empty set. */
    method PopFromMethodCache(moduleName: string, classQualname: string) returns (methods: set<ObjectDocs>)
      modifies this
      ensures var key := CacheKey(moduleName, classQualname);
        && methods == Cached(old(classMethodCache), key)
        && classMethodCache == old(classMethodCache) - {key}
        && key !in classMethodCache
      ensures moduleDocs == old(moduleDocs)
    {
      var key := CacheKey(moduleName, classQualname);
      if key in classMethodCache {
        methods := classMethodCache[key];
        classMethodCache := classMethodCache - {key};
      } else {
        methods := {};
      }
    }

    /**
     * `add`: reject a non-callable before any change; otherwise create the
     * module record on first use, build the record, drain the cache entry of a
     * class, and route the record by its qualified name.
     */
    method Add(x: Decorated) returns (r: Outcome<AddError>)
      modifies this
      ensures r.Fail? <==> !Unwrap(x).callable
      ensures r.Fail? ==> r.error == NotCallable && State() == old(State())
      ensures r.Pass? ==> State() == AddState(old(State()), x).value
    {
      var f := Unwrap(x);
      if !f.callable {
        return Fail(NotCallable);
      }
      ghost var s0 := State();
      var moduleName := f.moduleName;
      var md: ModuleDocs;
      if moduleName in moduleDocs {
        md := moduleDocs[moduleName];
      } else {
        md := NewModuleDocs(f);
        moduleDocs := moduleDocs[moduleName := md];
      }
      ghost var md0, docs1 := md, moduleDocs;
      assert md0 == ModuleRecord(s0.moduleDocs, f);
      assert docs1 == s0.moduleDocs || docs1 == s0.moduleDocs[moduleName := md0];
      var doc: ObjectDocs;
      if f.isClass {
        doc := CreateClassDoc(f);
        var cachedClassMethods := PopFromMethodCache(moduleName, doc.qualname);
        md := md.(classes := md.classes[doc.qualname := cachedClassMethods]);
      } else {
        doc := CreateObjectDoc(f);
      }
      assert doc == CreateDoc(f);
      ghost var popped := CachePop(s0.methodCache, moduleName, f.qualname);
      assert md == if f.isClass then md0.(classes := md0.classes[f.qualname := popped.0]) else md0;
      assert classMethodCache == if f.isClass then popped.1 else s0.methodCache;
      ghost var routed := Route(md, classMethodCache, moduleName, doc);
      if IsMethod(f.qualname) {
        var className := ClassBelongingKey(doc.qualname);
        if className in md.classes {
          md := md.(classes := md.classes[className := md.classes[className] + {doc}]);
        } else {
          AddToMethodCache(moduleName, doc);
        }
      } else {
        md := md.(contents := md.contents + {doc});
      }
      assert (md, classMethodCache) == routed;
      assert moduleDocs == docs1;
      if docs1 != s0.moduleDocs {
        UpdateTwice(s0.moduleDocs, moduleName, md0, md);
      }
      moduleDocs := moduleDocs[moduleName := md];
      return Pass;
    }
  }

  /** The two decorators `decorator_factory` can return. */
  datatype Documentor = Passthrough | Collecting

  /** The mode the module is configured with (`mode = 'doc'`). */
  const ConfiguredMode := "doc"

  /** `decorator_factory(mode)`: the error is the `ValueError` message. */
  function DecoratorFactory(mode: string): (r: Result<Documentor, string>)
    ensures r == Success(Passthrough) <==> mode == "production"
    ensures r == Success(Collecting) <==> mode == "document" || mode == "doc"
    ensures r.Failure? <==> mode !in ["production", "document", "doc"]
    ensures r.Failure? ==> r.error == "Mode " + mode + " was not recognized."
  {
    if mode == "production" then Success(Passthrough)
    else if mode in ["document", "doc"] then Success(Collecting)
    else Failure("Mode " + mode + " was not recognized.")
  }

  /** `document_me = decorator_factory(mode)` with the configured mode collects. */
  lemma DocumentMeCollects()
    ensures DecoratorFactory(ConfiguredMode) == Success(Collecting)
  {
  }

  /**
   * Applying a decorator to `x`: the passthrough one returns `x` and leaves the
   * registry alone; the collecting one adds `x` to `registry` and returns it,
   * or propagates the `ValueError` of `add`.
   */
  method Decorate(d: Documentor, registry: Docurator, x: Decorated) returns (r: Result<Decorated, AddError>)
    modifies registry
    ensures d.Passthrough? ==> r == Success(x) && registry.State() == old(registry.State())
    ensures d.Collecting? && Unwrap(x).callable ==>
      r == Success(x) && registry.State() == AddState(old(registry.State()), x).value
    ensures d.Collecting? && !Unwrap(x).callable ==>
      r == Failure(NotCallable) && registry.State() == old(registry.State())
  {
    match d
    case Passthrough =>
      return Success(x);
    case Collecting =>
      var outcome := registry.Add(x);
      if outcome.Fail? {
        return Failure(outcome.error);
      }
      return Success(x);
  }
}
