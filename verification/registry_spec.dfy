/**
 * The state transition of `Docurator.add` (docurator_object.py), as a pure
 * function of the registry's two dictionaries. The class `Registry.Docurator`
 * updates its fields in place and is proved to follow this function.
 *
 * The container module `_components.doc_containers` is not part of this model.
 * Assumed interface: a module record has a `contents` set, and
 * `contains_class(p)` / `get_class(p).contents` look a class up by its
 * qualified name `p`. The member sets of the classes a module holds are kept
 * in `ModuleDocs.classes`, keyed by that qualified name.
 */
module RegistrySpec {
  import opened Wrappers
  import opened QualNames

  /** `inspect.signature(f)`, kept opaque. */
  type SignatureToken = nat

  /** What live introspection reports about one object. */
  datatype Introspected = Introspected(
    callable: bool,             // callable(f)
    isClass: bool,              // inspect.isclass(f)
    name: string,               // f.__name__
    qualname: string,           // f.__qualname__
    typeName: string,           // f.__class__.__name__
    moduleName: string,         // inspect.getmodule(f).__name__
    moduleDoc: Option<string>,  // inspect.getmodule(f).__doc__
    docstring: Option<string>,  // f.__doc__
    bases: seq<string>,         // f.__bases__ (names; "object" is the root)
    signature: SignatureToken)  // inspect.signature(f)

  /** The argument of `add`: a plain object, or a `classmethod` wrapper around one. */
  datatype Decorated = Bare(obj: Introspected) | ClassMethod(func: Introspected)

  /**
   * A documentation record of `docurator._components.doc_containers`, as the
   * registries use it; equality is field-wise, as for a dataclass. It differs
   * from `DocContainers.Docs`, the records of `doc_containers.py`: the class
   * record carries `parents` and there is no module field.
   */
  datatype ObjectDocs =
    | ObjectDocs(docstring: Option<string>, name: string, qualname: string,
                 typeName: string, signature: SignatureToken)
    | ClassDocs(docstring: Option<string>, name: string, qualname: string,
                typeName: string, signature: SignatureToken, parents: Option<seq<string>>)

  /** The record of one module: its top-level entities and the members of its classes. */
  datatype ModuleDocs = ModuleDocs(
    name: string,
    docstring: Option<string>,
    contents: set<ObjectDocs>,
    classes: map<string, set<ObjectDocs>>)

  /** `__module_docs` and `__class_method_cache`. */
  datatype RegistryState = RegistryState(
    moduleDocs: map<string, ModuleDocs>,
    methodCache: map<string, set<ObjectDocs>>)

  datatype AddError = NotCallable

  const EmptyRegistry := RegistryState(map[], map[])

  /** The universal base class, dropped from `parents`. */
  const RootBase := "object"

  /** `isinstance(func, classmethod)`: unwrap to `func.__func__`. */
  function Unwrap(x: Decorated): (f: Introspected)
    ensures x.ClassMethod? ==> f == x.func
    ensures x.Bare? ==> f == x.obj
  {
    match x
    case Bare(o) => o
    case ClassMethod(g) => g
  }

  /** `[obj for obj in bases if obj is not object]`. */
  function WithoutRoot(bases: seq<string>): (r: seq<string>)
    ensures forall p :: p in r <==> p in bases && p != RootBase
    ensures |r| <= |bases|
    ensures RootBase !in bases ==> r == bases
  {
    if bases == [] then []
    else (if bases[0] == RootBase then [] else [bases[0]]) + WithoutRoot(bases[1..])
  }

  /** The filter keeps order: filtering a concatenation concatenates the filtered parts. */
  lemma {:induction false} WithoutRootAppend(a: seq<string>, b: seq<string>)
    ensures WithoutRoot(a + b) == WithoutRoot(a) + WithoutRoot(b)
    decreases |a|
  {
    if a == [] {
      assert a + b == b;
    } else {
      assert (a + b)[1..] == a[1..] + b;
      WithoutRootAppend(a[1..], b);
    }
  }

  /** `parents or None`: the direct bases without the root, `None` when that leaves nothing. */
  function Parents(bases: seq<string>): (r: Option<seq<string>>)
    ensures r.None? <==> forall i :: 0 <= i < |bases| ==> bases[i] == RootBase
    ensures r.Some? ==> r.value != [] && forall p :: p in r.value <==> p in bases && p != RootBase
  {
    var ps := WithoutRoot(bases);
    if ps == [] then
      assert forall i :: 0 <= i < |bases| ==> bases[i] == RootBase by {
        forall i | 0 <= i < |bases| ensures bases[i] == RootBase {
          assert bases[i] in bases;
        }
      }
      None
    else
      assert ps[0] in bases;
      Some(ps)
  }

  /** The shared fields of every record, taken from the introspected object. */
  predicate SharesFields(d: ObjectDocs, f: Introspected)
  {
    && d.docstring == f.docstring && d.name == f.name && d.qualname == f.qualname
    && d.typeName == f.typeName && d.signature == f.signature
  }

  /** `ObjectDocs(**shared_content)`. */
  function CreateObjectDoc(f: Introspected): (d: ObjectDocs)
    ensures d.ObjectDocs? && SharesFields(d, f)
  {
    ObjectDocs(f.docstring, f.name, f.qualname, f.typeName, f.signature)
  }

  /** `Docurator.__create_class_doc`. */
  function CreateClassDoc(f: Introspected): (d: ObjectDocs)
    ensures d.ClassDocs? && SharesFields(d, f) && d.parents == Parents(f.bases)
  {
    ClassDocs(f.docstring, f.name, f.qualname, f.typeName, f.signature, Parents(f.bases))
  }

  /** The record built for `f` before routing. */
  function CreateDoc(f: Introspected): (d: ObjectDocs)
    ensures d.ClassDocs? <==> f.isClass
    ensures SharesFields(d, f)
  {
    if f.isClass then CreateClassDoc(f) else CreateObjectDoc(f)
  }

  /** A fresh module record, `ModuleDocs(module_name, module.__doc__)`. */
  function NewModuleDocs(f: Introspected): (md: ModuleDocs)
    ensures md.name == f.moduleName && md.docstring == f.moduleDoc
    ensures md.contents == {} && md.classes == map[]
  {
    ModuleDocs(f.moduleName, f.moduleDoc, {}, map[])
  }

  /** The module record `add` works on: the existing one, or a fresh one. */
  function ModuleRecord(docs: map<string, ModuleDocs>, f: Introspected): ModuleDocs
  {
    if f.moduleName in docs then docs[f.moduleName] else NewModuleDocs(f)
  }

  /** The cached set under `key`, empty when there is none. */
  function Cached(cache: map<string, set<ObjectDocs>>, key: string): set<ObjectDocs>
  {
    if key in cache then cache[key] else {}
  }

  /** The member set of class `path` in a module, empty when there is none. */
  function Members(md: ModuleDocs, path: string): set<ObjectDocs>
  {
    if path in md.classes then md.classes[path] else {}
  }

  /** `Docurator.__add_to_method_cache`. */
  function CacheAdd(cache: map<string, set<ObjectDocs>>, moduleName: string, doc: ObjectDocs)
    : (r: map<string, set<ObjectDocs>>)
    ensures var key := CacheKey(moduleName, ClassBelongingKey(doc.qualname));
      && r.Keys == cache.Keys + {key}
      && r[key] == Cached(cache, key) + {doc}
      && forall k :: k in cache && k != key ==> r[k] == cache[k]
  {
    var key := CacheKey(moduleName, ClassBelongingKey(doc.qualname));
    cache[key := Cached(cache, key) + {doc}]
  }

  /** `Docurator.__pop_from_method_cache`: the cached methods and the cache without them. */
  function CachePop(cache: map<string, set<ObjectDocs>>, moduleName: string, classQualname: string)
    : (r: (set<ObjectDocs>, map<string, set<ObjectDocs>>))
    ensures var key := CacheKey(moduleName, classQualname);
      && r.0 == Cached(cache, key)
      && r.1.Keys == cache.Keys - {key}
      && forall k :: k in r.1 ==> r.1[k] == cache[k]
  {
    var key := CacheKey(moduleName, classQualname);
    (Cached(cache, key), cache - {key})
  }

  /** The routing at the end of `add`: top-level contents, an owner's contents, or the cache. */
  function Route(md: ModuleDocs, cache: map<string, set<ObjectDocs>>, moduleName: string, doc: ObjectDocs)
    : (ModuleDocs, map<string, set<ObjectDocs>>)
  {
    if IsMethod(doc.qualname) then
      var owner := ClassBelongingKey(doc.qualname);
      if owner in md.classes then
        (md.(classes := md.classes[owner := md.classes[owner] + {doc}]), cache)
      else
        (md, CacheAdd(cache, moduleName, doc))
    else
      (md.(contents := md.contents + {doc}), cache)
  }

  /** A second write to the same key overrides the first. */
  lemma UpdateTwice<K, V>(m: map<K, V>, k: K, a: V, b: V)
    ensures m[k := a][k := b] == m[k := b]
  {
  }

  /** `Docurator.add` on the registry state. */
  function AddState(s: RegistryState, x: Decorated): (r: Result<RegistryState, AddError>)
    ensures r.Failure? <==> !Unwrap(x).callable
    ensures r.Failure? ==> r.error == NotCallable
    ensures r.Success? ==> r.value.moduleDocs.Keys == s.moduleDocs.Keys + {Unwrap(x).moduleName}
  {
    var f := Unwrap(x);
    if !f.callable then Failure(NotCallable)
    else
      var md0 := ModuleRecord(s.moduleDocs, f);
      var doc := CreateDoc(f);
      var popped := CachePop(s.methodCache, f.moduleName, f.qualname);
      var md1 := if f.isClass then md0.(classes := md0.classes[f.qualname := popped.0]) else md0;
      var cache1 := if f.isClass then popped.1 else s.methodCache;
      var routed := Route(md1, cache1, f.moduleName, doc);
      Success(RegistryState(s.moduleDocs[f.moduleName := routed.0], routed.1))
  }

  /** A sequence of `add` calls; the first failure stops the sequence. */
  function Run(s: RegistryState, xs: seq<Decorated>): (r: Result<RegistryState, AddError>)
    ensures r.Failure? <==> exists i :: 0 <= i < |xs| && !Unwrap(xs[i]).callable
    decreases |xs|
  {
    if xs == [] then Success(s)
    else
      match AddState(s, xs[0])
      case Failure(e) => Failure(e)
      case Success(t) =>
        var r := Run(t, xs[1..]);
        assert forall i :: 1 <= i < |xs| ==> xs[i] == xs[1..][i - 1];
        r
  }
}
