/**
 * The ordering hazard of docurator_object.py: method decorators run before
 * the decorator of their class. Whatever the position of the class among its
 * methods, the registry ends in the same state.
 */
module RegistryOrdering {
  import opened Wrappers
  import opened QualNames
  import opened RegistrySpec

  /** `m` is a plain (non-class) method of the class `c`, from the same module. */
  predicate MethodOf(m: Decorated, c: Decorated)
  {
    var f, g := Unwrap(m), Unwrap(c);
    && f.callable && !f.isClass && '.' !in f.name
    && f.qualname == g.qualname + "." + f.name
    && f.moduleName == g.moduleName && f.moduleDoc == g.moduleDoc
  }

  /** `c` is a class that `add` accepts. */
  predicate AddableClass(c: Decorated)
  {
    Unwrap(c).callable && Unwrap(c).isClass
  }

  /** The module `moduleName` already holds a class with qualified name `q`. */
  predicate Held(s: RegistryState, moduleName: string, q: string)
  {
    moduleName in s.moduleDocs && q in s.moduleDocs[moduleName].classes
  }

  /** Running `a + b` is running `a`, then `b` on the result. */
  lemma {:induction false} RunAppend(s: RegistryState, a: seq<Decorated>, b: seq<Decorated>)
    ensures Run(s, a + b) == match Run(s, a)
                             case Failure(e) => Failure(e)
                             case Success(t) => Run(t, b)
    decreases |a|
  {
    if a == [] {
      assert a + b == b;
    } else {
      assert (a + b)[0] == a[0] && (a + b)[1..] == a[1..] + b;
      match AddState(s, a[0])
      case Failure(e) =>
        assert Run(s, a + b) == Failure(e);
      case Success(t) =>
        assert Run(s, a + b) == Run(t, a[1..] + b);
        assert Run(s, a) == Run(t, a[1..]);
        RunAppend(t, a[1..], b);
    }
  }

  /** Running `a + b` after a successful `a`. */
  lemma RunAppendOk(s: RegistryState, a: seq<Decorated>, b: seq<Decorated>)
    requires Run(s, a).Success?
    ensures Run(s, a + b) == Run(Run(s, a).value, b)
  {
    RunAppend(s, a, b);
  }

  /** Two adds in a row. */
  lemma RunTwo(s: RegistryState, x: Decorated, y: Decorated)
    requires AddState(s, x).Success?
    ensures Run(s, [x, y]) == AddState(AddState(s, x).value, y)
  {
    assert [x, y][1..] == [y];
    var t := AddState(s, x).value;
    assert Run(s, [x, y]) == Run(t, [y]);
    if AddState(t, y).Success? {
      assert Run(t, [y]) == Run(AddState(t, y).value, []);
    }
  }

  /** Adding a plain object neither creates nor removes a held class. */
  lemma AddPlainKeepsHeld(s: RegistryState, m: Decorated, moduleName: string, q: string)
    requires Unwrap(m).callable && !Unwrap(m).isClass
    ensures Held(AddState(s, m).value, moduleName, q) <==> Held(s, moduleName, q)
  {
  }

  /** Adding methods of `c` never makes the module hold `c`. */
  lemma {:induction false} RunMethodsKeepHeld(s: RegistryState, ms: seq<Decorated>, c: Decorated)
    requires forall i :: 0 <= i < |ms| ==> MethodOf(ms[i], c)
    requires !Held(s, Unwrap(c).moduleName, Unwrap(c).qualname)
    ensures Run(s, ms).Success?
    ensures !Held(Run(s, ms).value, Unwrap(c).moduleName, Unwrap(c).qualname)
    decreases |ms|
  {
    if ms != [] {
      AddPlainKeepsHeld(s, ms[0], Unwrap(c).moduleName, Unwrap(c).qualname);
      assert forall i :: 0 <= i < |ms[1..]| ==> ms[1..][i] == ms[i + 1];
      RunMethodsKeepHeld(AddState(s, ms[0]).value, ms[1..], c);
    }
  }

  /** A method whose class is not held yet goes to the cache entry of that class. */
  lemma AddMethodUnheld(s: RegistryState, m: Decorated, c: Decorated)
    requires MethodOf(m, c) && !Held(s, Unwrap(c).moduleName, Unwrap(c).qualname)
    ensures var g := Unwrap(c);
      var key := CacheKey(g.moduleName, g.qualname);
      AddState(s, m) == Success(RegistryState(
        s.moduleDocs[g.moduleName := ModuleRecord(s.moduleDocs, g)],
        s.methodCache[key := Cached(s.methodCache, key) + {CreateDoc(Unwrap(m))}]))
  {
    OwnerOfNested(Unwrap(c).qualname, Unwrap(m).name);
    assert Unwrap(m).qualname[|Unwrap(c).qualname|] == '.';
    assert ModuleRecord(s.moduleDocs, Unwrap(m)) == ModuleRecord(s.moduleDocs, Unwrap(c));
  }

  /** A method whose class is held joins that class's members. */
  lemma AddMethodHeld(s: RegistryState, m: Decorated, c: Decorated)
    requires MethodOf(m, c) && Held(s, Unwrap(c).moduleName, Unwrap(c).qualname)
    ensures var g := Unwrap(c);
      var md := s.moduleDocs[g.moduleName];
      AddState(s, m) == Success(RegistryState(
        s.moduleDocs[g.moduleName := md.(classes := md.classes[g.qualname := md.classes[g.qualname] + {CreateDoc(Unwrap(m))}])],
        s.methodCache))
  {
    OwnerOfNested(Unwrap(c).qualname, Unwrap(m).name);
    assert Unwrap(m).qualname[|Unwrap(c).qualname|] == '.';
    assert ModuleRecord(s.moduleDocs, Unwrap(m)) == s.moduleDocs[Unwrap(c).moduleName];
  }

  /** Routing a class record never touches the member set of that class itself. */
  lemma RouteClassKeepsOwnMembers(md: ModuleDocs, cache: map<string, set<ObjectDocs>>, moduleName: string,
                                  dc: ObjectDocs, x: set<ObjectDocs>, d: ObjectDocs)
    ensures var r := Route(md.(classes := md.classes[dc.qualname := x]), cache, moduleName, dc);
      && dc.qualname in r.0.classes && r.0.classes[dc.qualname] == x
      && Route(md.(classes := md.classes[dc.qualname := x + {d}]), cache, moduleName, dc)
         == (r.0.(classes := r.0.classes[dc.qualname := x + {d}]), r.1)
  {
    var q := dc.qualname;
    var md1, md2 := md.(classes := md.classes[q := x]), md.(classes := md.classes[q := x + {d}]);
    assert md.classes[q := x][q := x + {d}] == md.classes[q := x + {d}];
    if IsMethod(q) {
      var owner := ClassBelongingKey(q);
      assert |owner| < |q|;
      assert owner in md1.classes <==> owner in md2.classes;
      if owner in md1.classes {
        var c1 := md.classes[q := x][owner := md1.classes[owner] + {dc}];
        var c2 := md.classes[q := x + {d}][owner := md2.classes[owner] + {dc}];
        assert md1.classes[owner] == md2.classes[owner];
        assert c1[q := x + {d}] == c2;
      }
    }
  }

  /** The module record and cache after adding class `c` whose drained members gain `extra`. */
  function DrainedRoute(s: RegistryState, c: Decorated, extra: set<ObjectDocs>)
    : (ModuleDocs, map<string, set<ObjectDocs>>)
  {
    var g := Unwrap(c);
    var key := CacheKey(g.moduleName, g.qualname);
    var md0 := ModuleRecord(s.moduleDocs, g);
    Route(md0.(classes := md0.classes[g.qualname := Cached(s.methodCache, key) + extra]),
          s.methodCache - {key}, g.moduleName, CreateDoc(g))
  }

  /** Adding a class, spelled out. */
  lemma AddClassState(s: RegistryState, c: Decorated)
    requires AddableClass(c)
    ensures var r := DrainedRoute(s, c, {});
      AddState(s, c) == Success(RegistryState(s.moduleDocs[Unwrap(c).moduleName := r.0], r.1))
  {
    var g := Unwrap(c);
    assert Cached(s.methodCache, CacheKey(g.moduleName, g.qualname)) + {}
        == Cached(s.methodCache, CacheKey(g.moduleName, g.qualname));
  }

  /** A pending method is drained together with whatever was cached before it. */
  lemma DrainPending(s: RegistryState, m: Decorated, c: Decorated)
    requires AddableClass(c) && MethodOf(m, c)
    requires !Held(s, Unwrap(c).moduleName, Unwrap(c).qualname)
    ensures DrainedRoute(AddState(s, m).value, c, {}) == DrainedRoute(s, c, {CreateDoc(Unwrap(m))})
  {
    var g := Unwrap(c);
    var key := CacheKey(g.moduleName, g.qualname);
    var s1 := AddState(s, m).value;
    AddMethodUnheld(s, m, c);
    assert ModuleRecord(s1.moduleDocs, g) == ModuleRecord(s.moduleDocs, g);
    assert Cached(s1.methodCache, key) + {} == Cached(s.methodCache, key) + {CreateDoc(Unwrap(m))};
    assert s1.methodCache - {key} == s.methodCache - {key};
  }

  /** Method first: it waits in the cache, and the class drains it. */
  lemma MethodThenClass(s: RegistryState, m: Decorated, c: Decorated)
    requires AddableClass(c) && MethodOf(m, c)
    requires !Held(s, Unwrap(c).moduleName, Unwrap(c).qualname)
    ensures var r := DrainedRoute(s, c, {CreateDoc(Unwrap(m))});
      AddState(AddState(s, m).value, c) == Success(RegistryState(s.moduleDocs[Unwrap(c).moduleName := r.0], r.1))
  {
    var g := Unwrap(c);
    var s1 := AddState(s, m).value;
    AddMethodUnheld(s, m, c);
    AddClassState(s1, c);
    DrainPending(s, m, c);
    var r := DrainedRoute(s, c, {CreateDoc(Unwrap(m))});
    UpdateTwice(s.moduleDocs, g.moduleName, ModuleRecord(s.moduleDocs, g), r.0);
  }


  /** The class-first state holds the class with exactly what was cached for it. */
  lemma ClassFirstHolds(s: RegistryState, c: Decorated)
    requires AddableClass(c)
    ensures var g := Unwrap(c);
      var t := AddState(s, c).value;
      var b := DrainedRoute(s, c, {});
      && t == RegistryState(s.moduleDocs[g.moduleName := b.0], b.1)
      && Held(t, g.moduleName, g.qualname)
      && t.moduleDocs[g.moduleName] == b.0
  {
    AddClassState(s, c);
    var g := Unwrap(c);
    var key := CacheKey(g.moduleName, g.qualname);
    var md0 := ModuleRecord(s.moduleDocs, g);
    var x := Cached(s.methodCache, key);
    assert x + {} == x;
    RouteClassKeepsOwnMembers(md0, s.methodCache - {key}, g.moduleName, CreateDoc(g), x, CreateDoc(g));
  }

  /** Class first: the method finds the class and joins its members directly. */
  lemma ClassThenMethod(s: RegistryState, m: Decorated, c: Decorated)
    requires AddableClass(c) && MethodOf(m, c)
    ensures var r := DrainedRoute(s, c, {CreateDoc(Unwrap(m))});
      AddState(AddState(s, c).value, m) == Success(RegistryState(s.moduleDocs[Unwrap(c).moduleName := r.0], r.1))
  {
    var g := Unwrap(c);
    var q, mod := g.qualname, g.moduleName;
    var key := CacheKey(mod, q);
    var dm := CreateDoc(Unwrap(m));
    var x := Cached(s.methodCache, key);
    ClassFirstHolds(s, c);
    var t1 := AddState(s, c).value;
    var b := DrainedRoute(s, c, {});
    RouteClassKeepsOwnMembers(ModuleRecord(s.moduleDocs, g), s.methodCache - {key}, mod, CreateDoc(g), x, dm);
    assert x + {} == x;
    AddMethodHeld(t1, m, c);
    UpdateTwice(s.moduleDocs, mod, b.0, DrainedRoute(s, c, {dm}).0);
  }

  /** One method before its class, or after it: the same final state. */
  lemma SwapMethodAndClass(s: RegistryState, m: Decorated, c: Decorated)
    requires AddableClass(c) && MethodOf(m, c)
    requires !Held(s, Unwrap(c).moduleName, Unwrap(c).qualname)
    ensures Run(s, [m, c]) == Run(s, [c, m])
  {
    MethodThenClass(s, m, c);
    ClassThenMethod(s, m, c);
    RunTwo(s, m, c);
    RunTwo(s, c, m);
  }

  /** Swapping the last method with the class that follows it. */
  lemma SwapLast(s: RegistryState, init: seq<Decorated>, m: Decorated, c: Decorated)
    requires AddableClass(c) && MethodOf(m, c)
    requires Run(s, init).Success?
    requires !Held(Run(s, init).value, Unwrap(c).moduleName, Unwrap(c).qualname)
    ensures Run(s, init + [m] + [c]) == Run(s, init + [c] + [m])
  {
    var t := Run(s, init).value;
    assert init + [m] + [c] == init + [m, c];
    assert init + [c] + [m] == init + [c, m];
    RunAppendOk(s, init, [m, c]);
    RunAppendOk(s, init, [c, m]);
    SwapMethodAndClass(t, m, c);
  }

  /** Equal runs stay equal when the same object is added to both. */
  lemma RunSameSuffix(s: RegistryState, a: seq<Decorated>, b: seq<Decorated>, m: Decorated)
    requires Run(s, a) == Run(s, b)
    ensures Run(s, a + [m]) == Run(s, b + [m])
  {
    RunAppend(s, a, [m]);
    RunAppend(s, b, [m]);
  }

  /** The last element split off a non-empty sequence, on both sides of `c`. */
  lemma SplitLast(ms: seq<Decorated>, c: Decorated)
    requires ms != []
    ensures var init, m := ms[..|ms| - 1], ms[|ms| - 1];
      && ms == init + [m]
      && ms + [c] == init + [m] + [c]
      && [c] + ms == [c] + init + [m]
      && forall i :: 0 <= i < |init| ==> init[i] == ms[i]
  {
    assert ms == ms[..|ms| - 1] + [ms[|ms| - 1]];
  }

  /** All methods before their class, or the class first: the same final state. */
  lemma {:induction false} MethodsBeforeClass(s: RegistryState, ms: seq<Decorated>, c: Decorated)
    requires AddableClass(c)
    requires forall i :: 0 <= i < |ms| ==> MethodOf(ms[i], c)
    requires !Held(s, Unwrap(c).moduleName, Unwrap(c).qualname)
    ensures Run(s, ms + [c]) == Run(s, [c] + ms)
    decreases |ms|
  {
    if ms != [] {
      var init, m := ms[..|ms| - 1], ms[|ms| - 1];
      SplitLast(ms, c);
      RunMethodsKeepHeld(s, init, c);
      SwapLast(s, init, m, c);
      MethodsBeforeClass(s, init, c);
      RunSameSuffix(s, init + [c], [c] + init, m);
    }
  }

  /**
   * For any interleaving of a class with its methods, the registry ends as it
   * does when the class is added first.
   */
  lemma AnyInterleaving(s: RegistryState, before: seq<Decorated>, after: seq<Decorated>, c: Decorated)
    requires AddableClass(c)
    requires forall i :: 0 <= i < |before| ==> MethodOf(before[i], c)
    requires forall i :: 0 <= i < |after| ==> MethodOf(after[i], c)
    requires !Held(s, Unwrap(c).moduleName, Unwrap(c).qualname)
    ensures Run(s, before + [c] + after) == Run(s, [c] + before + after)
  {
    MethodsBeforeClass(s, before, c);
    RunAppend(s, before + [c], after);
    RunAppend(s, [c] + before, after);
  }

  /** The documents of a sequence of objects. */
  function DocsOf(ms: seq<Decorated>): (r: set<ObjectDocs>)
    ensures forall i :: 0 <= i < |ms| ==> CreateDoc(Unwrap(ms[i])) in r
    ensures forall d :: d in r ==> exists i :: 0 <= i < |ms| && d == CreateDoc(Unwrap(ms[i]))
  {
    set i | 0 <= i < |ms| :: CreateDoc(Unwrap(ms[i]))
  }

  /** `t` holds the class `c` with members `x`, and nothing is cached for it. */
  predicate HoldsWith(t: RegistryState, c: Decorated, x: set<ObjectDocs>)
  {
    var g := Unwrap(c);
    && CacheKey(g.moduleName, g.qualname) !in t.methodCache
    && Held(t, g.moduleName, g.qualname)
    && t.moduleDocs[g.moduleName].classes[g.qualname] == x
  }

  /** Adding a class leaves it holding what was cached for it, and drains the entry. */
  lemma ClassFirstMembers(s: RegistryState, c: Decorated)
    requires AddableClass(c)
    ensures var g := Unwrap(c);
      && AddState(s, c).Success?
      && HoldsWith(AddState(s, c).value, c, Cached(s.methodCache, CacheKey(g.moduleName, g.qualname)))
  {
    var g := Unwrap(c);
    var key := CacheKey(g.moduleName, g.qualname);
    var md0 := ModuleRecord(s.moduleDocs, g);
    var x := Cached(s.methodCache, key);
    ClassFirstHolds(s, c);
    assert x + {} == x;
    RouteClassKeepsOwnMembers(md0, s.methodCache - {key}, g.moduleName, CreateDoc(g), x, CreateDoc(g));
    if '.' in g.qualname {
      var owner := ClassBelongingKey(g.qualname);
      assert |CacheKey(g.moduleName, owner)| < |key|;
    }
  }

  /** A method added while its class is held joins the members; the cache is untouched. */
  lemma MethodJoinsMembers(u: RegistryState, m: Decorated, c: Decorated, x: set<ObjectDocs>)
    requires MethodOf(m, c) && HoldsWith(u, c, x)
    ensures AddState(u, m).Success?
    ensures HoldsWith(AddState(u, m).value, c, x + {CreateDoc(Unwrap(m))})
  {
    AddMethodHeld(u, m, c);
  }

  /** A run of one accepted object is that add. */
  lemma RunOne(s: RegistryState, x: Decorated)
    requires AddState(s, x).Success?
    ensures Run(s, [x]) == AddState(s, x)
  {
    assert [x][1..] == [];
    assert Run(s, [x]) == Run(AddState(s, x).value, []);
  }

  /** The documents of a sequence grow by the record of the object appended. */
  lemma DocsOfSnoc(ms: seq<Decorated>, m: Decorated)
    ensures DocsOf(ms + [m]) == DocsOf(ms) + {CreateDoc(Unwrap(m))}
  {
    var l, r := DocsOf(ms + [m]), DocsOf(ms) + {CreateDoc(Unwrap(m))};
    assert (ms + [m])[|ms|] == m;
    forall d | d in l ensures d in r {
      var i :| 0 <= i < |ms + [m]| && d == CreateDoc(Unwrap((ms + [m])[i]));
      if i < |ms| { assert (ms + [m])[i] == ms[i]; }
    }
    forall d | d in DocsOf(ms) ensures d in l {
      var i :| 0 <= i < |ms| && d == CreateDoc(Unwrap(ms[i]));
      assert (ms + [m])[i] == ms[i];
    }
  }

  /** One more method after the class. */
  lemma MethodAfterMembers(u: RegistryState, m: Decorated, c: Decorated, y: set<ObjectDocs>)
    requires MethodOf(m, c) && HoldsWith(u, c, y)
    ensures Run(u, [m]).Success? && HoldsWith(Run(u, [m]).value, c, y + {CreateDoc(Unwrap(m))})
  {
    MethodJoinsMembers(u, m, c, y);
    RunOne(u, m);
  }

  /** Appending one more method to a run that holds the class. */
  lemma RunSnocMembers(s: RegistryState, a: seq<Decorated>, m: Decorated, c: Decorated, y: set<ObjectDocs>)
    requires MethodOf(m, c)
    requires Run(s, a).Success? && HoldsWith(Run(s, a).value, c, y)
    ensures Run(s, a + [m]).Success? && HoldsWith(Run(s, a + [m]).value, c, y + {CreateDoc(Unwrap(m))})
  {
    RunAppendOk(s, a, [m]);
    MethodAfterMembers(Run(s, a).value, m, c, y);
  }

  /** `DocsOfSnoc` seen from the whole sequence, with `y` in front. */
  lemma DocsOfLast(ms: seq<Decorated>, y: set<ObjectDocs>)
    requires ms != []
    ensures y + DocsOf(ms) == y + DocsOf(ms[..|ms| - 1]) + {CreateDoc(Unwrap(ms[|ms| - 1]))}
  {
    assert ms == ms[..|ms| - 1] + [ms[|ms| - 1]];
    DocsOfSnoc(ms[..|ms| - 1], ms[|ms| - 1]);
  }

  /** Methods added while their class is held all join its members. */
  lemma {:induction false} MethodsJoinMembers(t: RegistryState, ms: seq<Decorated>, c: Decorated, y: set<ObjectDocs>)
    requires forall i :: 0 <= i < |ms| ==> MethodOf(ms[i], c)
    requires HoldsWith(t, c, y)
    ensures Run(t, ms).Success? && HoldsWith(Run(t, ms).value, c, y + DocsOf(ms))
    decreases |ms|
  {
    if ms == [] {
      assert y + DocsOf(ms) == y;
    } else {
      var init, m := ms[..|ms| - 1], ms[|ms| - 1];
      SplitLast(ms, c);
      MethodsJoinMembers(t, init, c, y);
      RunSnocMembers(t, init, m, c, y + DocsOf(init));
      DocsOfLast(ms, y);
    }
  }

  /**
   * Adding the class and then its methods leaves the class's members equal to
   * what was cached for it plus the methods' records, and no cache entry for it.
   */
  lemma ClassThenMethodsMembers(s: RegistryState, ms: seq<Decorated>, c: Decorated)
    requires AddableClass(c)
    requires forall i :: 0 <= i < |ms| ==> MethodOf(ms[i], c)
    ensures var g := Unwrap(c);
      && Run(s, [c] + ms).Success?
      && HoldsWith(Run(s, [c] + ms).value, c, Cached(s.methodCache, CacheKey(g.moduleName, g.qualname)) + DocsOf(ms))
  {
    ClassFirstMembers(s, c);
    RunOne(s, c);
    RunAppendOk(s, [c], ms);
    var g := Unwrap(c);
    MethodsJoinMembers(AddState(s, c).value, ms, c, Cached(s.methodCache, CacheKey(g.moduleName, g.qualname)));
  }

  /**
   * The class's final members do not depend on where the class stands among
   * its methods: they are the cached records plus every method's record.
   */
  lemma ClassMembersOrderIndependent(s: RegistryState, before: seq<Decorated>, after: seq<Decorated>, c: Decorated)
    requires AddableClass(c)
    requires forall i :: 0 <= i < |before| ==> MethodOf(before[i], c)
    requires forall i :: 0 <= i < |after| ==> MethodOf(after[i], c)
    requires !Held(s, Unwrap(c).moduleName, Unwrap(c).qualname)
    ensures var g := Unwrap(c);
      && Run(s, before + [c] + after).Success?
      && var t := Run(s, before + [c] + after).value;
      && g.moduleName in t.moduleDocs
      && g.qualname in t.moduleDocs[g.moduleName].classes
      && t.moduleDocs[g.moduleName].classes[g.qualname]
         == Cached(s.methodCache, CacheKey(g.moduleName, g.qualname)) + DocsOf(before + after)
  {
    AnyInterleaving(s, before, after, c);
    var ms := before + after;
    assert forall i :: 0 <= i < |ms| ==> MethodOf(ms[i], c) by {
      forall i | 0 <= i < |ms| ensures MethodOf(ms[i], c) {
        if i < |before| { assert ms[i] == before[i]; } else { assert ms[i] == after[i - |before|]; }
      }
    }
    assert [c] + before + after == [c] + ms;
    ClassThenMethodsMembers(s, ms, c);
  }

  /**
   * The `Cache` fixture of advanced_operations.py: the decorators of `add`,
   * `retrieve` and `clear` fire while the class body runs, before the class
   * decorator. The class still ends holding exactly the three method records,
   * with nothing left pending, as if it had been registered first.
   */
  lemma CacheFixtureRegistration(cache: Introspected, ms: seq<Decorated>)
    requires cache.callable && cache.isClass && cache.qualname == "Cache"
    requires |ms| == 3
    requires Unwrap(ms[0]).name == "add" && Unwrap(ms[1]).name == "retrieve" && Unwrap(ms[2]).name == "clear"
    requires forall i :: 0 <= i < |ms| ==> MethodOf(ms[i], Bare(cache))
    ensures Run(EmptyRegistry, ms + [Bare(cache)]) == Run(EmptyRegistry, [Bare(cache)] + ms)
    ensures Run(EmptyRegistry, ms + [Bare(cache)]).Success?
    ensures var t := Run(EmptyRegistry, ms + [Bare(cache)]).value;
      && HoldsWith(t, Bare(cache), {CreateDoc(Unwrap(ms[0])), CreateDoc(Unwrap(ms[1])), CreateDoc(Unwrap(ms[2]))})
      && t.moduleDocs[cache.moduleName].classes["Cache"]
         == {CreateDoc(Unwrap(ms[0])), CreateDoc(Unwrap(ms[1])), CreateDoc(Unwrap(ms[2]))}
  {
    var c := Bare(cache);
    MethodsBeforeClass(EmptyRegistry, ms, c);
    ClassThenMethodsMembers(EmptyRegistry, ms, c);
    FixtureDocs(ms);
  }

  /** The documents of three objects. */
  lemma FixtureDocs(ms: seq<Decorated>)
    requires |ms| == 3
    ensures {} + DocsOf(ms) == {CreateDoc(Unwrap(ms[0])), CreateDoc(Unwrap(ms[1])), CreateDoc(Unwrap(ms[2]))}
  {
    var r := {CreateDoc(Unwrap(ms[0])), CreateDoc(Unwrap(ms[1])), CreateDoc(Unwrap(ms[2]))};
    forall d | d in DocsOf(ms) ensures d in r {
      var i :| 0 <= i < |ms| && d == CreateDoc(Unwrap(ms[i]));
      assert i == 0 || i == 1 || i == 2;
    }
    assert {} + DocsOf(ms) == DocsOf(ms);
  }
}
