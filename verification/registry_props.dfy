/** What one `Docurator.add` call does to the registry (docurator_object.py). */
module RegistryProperties {
  import opened Wrappers
  import opened QualNames
  import opened RegistrySpec

  /** The module record of `name` in a state, if any. */
  function ModuleOf(s: RegistryState, name: string): Option<ModuleDocs>
  {
    if name in s.moduleDocs then Some(s.moduleDocs[name]) else None
  }

  /** A non-callable argument is rejected and no state is produced. */
  lemma AddRejectsNonCallable(s: RegistryState, x: Decorated)
    requires !Unwrap(x).callable
    ensures AddState(s, x) == Failure(NotCallable)
  {
  }

  /**
   * The module record is created on the first add from a module, with that
   * module's name and docstring; later adds keep its name and docstring, and
   * every other module's record is untouched.
   */
  lemma AddModuleRecord(s: RegistryState, x: Decorated)
    requires Unwrap(x).callable
    ensures var f := Unwrap(x);
      var t := AddState(s, x).value;
      && f.moduleName in t.moduleDocs
      && (f.moduleName in s.moduleDocs ==>
            t.moduleDocs[f.moduleName].name == s.moduleDocs[f.moduleName].name
            && t.moduleDocs[f.moduleName].docstring == s.moduleDocs[f.moduleName].docstring)
      && (f.moduleName !in s.moduleDocs ==>
            t.moduleDocs[f.moduleName].name == f.moduleName
            && t.moduleDocs[f.moduleName].docstring == f.moduleDoc)
      && forall n :: n in s.moduleDocs && n != f.moduleName ==> t.moduleDocs[n] == s.moduleDocs[n]
  {
  }

  /**
   * A single-segment qualname joins the module's top-level contents; a
   * multi-segment one leaves the top-level contents as they were.
   */
  lemma AddTopLevel(s: RegistryState, x: Decorated)
    requires Unwrap(x).callable
    ensures var f := Unwrap(x);
      var before := ModuleRecord(s.moduleDocs, f).contents;
      var after := AddState(s, x).value.moduleDocs[f.moduleName].contents;
      && ('.' !in f.qualname ==> after == before + {CreateDoc(f)})
      && ('.' in f.qualname ==> after == before)
  {
  }

  /**
   * A multi-segment record joins the members of the class named by its
   * qualname minus the last segment when the module holds that class, and
   * otherwise the cache entry `"<module>.<owner path>"`; the other place is
   * left as it was.
   */
  lemma AddMember(s: RegistryState, x: Decorated)
    requires Unwrap(x).callable && '.' in Unwrap(x).qualname
    ensures var f := Unwrap(x);
      var owner := ClassBelongingKey(f.qualname);
      var key := CacheKey(f.moduleName, owner);
      var md0 := ModuleRecord(s.moduleDocs, f);
      var t := AddState(s, x).value;
      var md := t.moduleDocs[f.moduleName];
      && (owner in md0.classes ==>
            && md.classes[owner] == md0.classes[owner] + {CreateDoc(f)}
            && Cached(t.methodCache, key) == Cached(s.methodCache, key))
      && (owner !in md0.classes ==>
            && owner !in md.classes
            && Cached(t.methodCache, key) == Cached(s.methodCache, key) + {CreateDoc(f)})
  {
    var f := Unwrap(x);
    var owner := ClassBelongingKey(f.qualname);
    assert owner != f.qualname;
    CacheKeysDiffer(f.moduleName, owner, f.qualname);
  }

  /**
   * Adding a class drains its cache entry `"<module>.<qualname>"`: the entry
   * is gone afterwards and the class's members are exactly what was cached.
   */
  lemma AddClassDrainsCache(s: RegistryState, x: Decorated)
    requires Unwrap(x).callable && Unwrap(x).isClass
    ensures var f := Unwrap(x);
      var key := CacheKey(f.moduleName, f.qualname);
      var t := AddState(s, x).value;
      && key !in t.methodCache
      && f.qualname in t.moduleDocs[f.moduleName].classes
      && t.moduleDocs[f.moduleName].classes[f.qualname] == Cached(s.methodCache, key)
  {
    var f := Unwrap(x);
    if '.' in f.qualname {
      var owner := ClassBelongingKey(f.qualname);
      CacheKeysDiffer(f.moduleName, owner, f.qualname);
    }
  }

  /** Different-length owner paths give different keys. */
  lemma CacheKeysDiffer(moduleName: string, o1: string, o2: string)
    requires |o1| != |o2|
    ensures CacheKey(moduleName, o1) != CacheKey(moduleName, o2)
  {
  }

  /** The key set of `docs` only grows along a sequence of adds. */
  lemma {:induction false} RunKeepsModules(s: RegistryState, xs: seq<Decorated>)
    requires Run(s, xs).Success?
    ensures s.moduleDocs.Keys <= Run(s, xs).value.moduleDocs.Keys
    ensures forall i :: 0 <= i < |xs| ==> Unwrap(xs[i]).moduleName in Run(s, xs).value.moduleDocs
    decreases |xs|
  {
    if xs != [] {
      var t := AddState(s, xs[0]).value;
      RunKeepsModules(t, xs[1..]);
      assert forall i :: 1 <= i < |xs| ==> xs[i] == xs[1..][i - 1];
    }
  }

  /**
   * A member whose cache entry no later class add claims stays in the cache:
   * nothing else removes a cache entry.
   */
  lemma {:induction false} PendingMemberStaysCached(s: RegistryState, xs: seq<Decorated>, key: string, d: ObjectDocs)
    requires d in Cached(s.methodCache, key)
    requires forall i :: 0 <= i < |xs| ==> Unwrap(xs[i]).callable
    requires forall i :: 0 <= i < |xs| && Unwrap(xs[i]).isClass ==>
               CacheKey(Unwrap(xs[i]).moduleName, Unwrap(xs[i]).qualname) != key
    ensures Run(s, xs).Success? && d in Cached(Run(s, xs).value.methodCache, key)
    decreases |xs|
  {
    if xs != [] {
      var f := Unwrap(xs[0]);
      var t := AddState(s, xs[0]).value;
      assert d in Cached(t.methodCache, key);
      forall i | 0 <= i < |xs[1..]|
        ensures Unwrap(xs[1..][i]).callable
        ensures Unwrap(xs[1..][i]).isClass ==>
          CacheKey(Unwrap(xs[1..][i]).moduleName, Unwrap(xs[1..][i]).qualname) != key
      {
        assert xs[1..][i] == xs[i + 1];
      }
      PendingMemberStaysCached(t, xs[1..], key, d);
    }
  }

  /** `d` is in neither the top-level contents nor any class's members of a module record. */
  predicate FreeOf(md: ModuleDocs, d: ObjectDocs)
  {
    d !in md.contents && forall p :: p in md.classes ==> d !in md.classes[p]
  }

  /** `d` is in no module record: `docs` does not show it. */
  predicate Unrecorded(s: RegistryState, d: ObjectDocs)
  {
    forall m :: m in s.moduleDocs ==> FreeOf(s.moduleDocs[m], d)
  }

  /** `d` is cached under `key` and under no other key. */
  predicate CachedOnlyUnder(cache: map<string, set<ObjectDocs>>, key: string, d: ObjectDocs)
  {
    && d in Cached(cache, key)
    && forall k :: k in cache && d in cache[k] ==> k == key
  }

  /** Routing another record keeps `d` out of the module record and in its cache entry only. */
  lemma RouteKeepsPending(md: ModuleDocs, cache: map<string, set<ObjectDocs>>, moduleName: string,
                          doc: ObjectDocs, key: string, d: ObjectDocs)
    requires doc != d && FreeOf(md, d) && CachedOnlyUnder(cache, key, d)
    ensures FreeOf(Route(md, cache, moduleName, doc).0, d)
    ensures CachedOnlyUnder(Route(md, cache, moduleName, doc).1, key, d)
  {
  }

  /**
   * One add of another record, that is not a class claiming `key`, keeps a
   * pending member out of `docs` and in its cache entry only.
   */
  lemma AddKeepsPending(s: RegistryState, x: Decorated, key: string, d: ObjectDocs)
    requires Unwrap(x).callable && CreateDoc(Unwrap(x)) != d
    requires Unwrap(x).isClass ==> CacheKey(Unwrap(x).moduleName, Unwrap(x).qualname) != key
    requires Unrecorded(s, d) && CachedOnlyUnder(s.methodCache, key, d)
    ensures Unrecorded(AddState(s, x).value, d)
    ensures CachedOnlyUnder(AddState(s, x).value.methodCache, key, d)
  {
    var f := Unwrap(x);
    var md0 := ModuleRecord(s.moduleDocs, f);
    assert FreeOf(md0, d);
    var popped := CachePop(s.methodCache, f.moduleName, f.qualname);
    var md1 := if f.isClass then md0.(classes := md0.classes[f.qualname := popped.0]) else md0;
    var cache1 := if f.isClass then popped.1 else s.methodCache;
    assert FreeOf(md1, d) by {
      if f.isClass {
        assert d !in popped.0;
      }
    }
    assert CachedOnlyUnder(cache1, key, d);
    RouteKeepsPending(md1, cache1, f.moduleName, CreateDoc(f), key, d);
  }
  /**
   * A pending member never shows in `docs` through any run of callables that
   * does not add its owner class and does not add the same record again; it
   * stays cached under its own key only.
   */
  lemma {:induction false} PendingMemberUnrecorded(s: RegistryState, xs: seq<Decorated>, key: string, d: ObjectDocs)
    requires Unrecorded(s, d) && CachedOnlyUnder(s.methodCache, key, d)
    requires forall i :: 0 <= i < |xs| ==> Unwrap(xs[i]).callable && CreateDoc(Unwrap(xs[i])) != d
    requires forall i :: 0 <= i < |xs| && Unwrap(xs[i]).isClass ==>
               CacheKey(Unwrap(xs[i]).moduleName, Unwrap(xs[i]).qualname) != key
    ensures Run(s, xs).Success?
    ensures Unrecorded(Run(s, xs).value, d) && CachedOnlyUnder(Run(s, xs).value.methodCache, key, d)
    decreases |xs|
  {
    if xs != [] {
      AddKeepsPending(s, xs[0], key, d);
      var t := AddState(s, xs[0]).value;
      forall i | 0 <= i < |xs[1..]|
        ensures Unwrap(xs[1..][i]).callable && CreateDoc(Unwrap(xs[1..][i])) != d
        ensures Unwrap(xs[1..][i]).isClass ==>
          CacheKey(Unwrap(xs[1..][i]).moduleName, Unwrap(xs[1..][i]).qualname) != key
      {
        assert xs[1..][i] == xs[i + 1];
      }
      PendingMemberUnrecorded(t, xs[1..], key, d);
    }
  }
}
