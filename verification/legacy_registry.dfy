/**
 * The earlier registry of docurator.py: `add` appends one record per call to
 * the list of its module, with no class/method routing and no deduplication.
 * Its mode factory has the same body as the one of docurator_object.py and is
 * modelled once, by `Registry.DecoratorFactory`.
 */
module LegacyRegistry {
  import opened Wrappers
  import opened RegistrySpec
  import Registry

  /** A module record of this registry: its contents are a list. */
  datatype LegacyModuleDocs = LegacyModuleDocs(name: string, docstring: Option<string>, contents: seq<ObjectDocs>)

  /** The list of records of `moduleName`, empty when the module is not registered. */
  function Contents(docs: map<string, LegacyModuleDocs>, moduleName: string): seq<ObjectDocs>
  {
    if moduleName in docs then docs[moduleName].contents else []
  }

  /** The records one add of `f` appends to the list of `moduleName`. */
  function Appended(f: Introspected, moduleName: string): (r: seq<ObjectDocs>)
    ensures |r| == if f.moduleName == moduleName then 1 else 0
  {
    if f.moduleName == moduleName then [CreateObjectDoc(f)] else []
  }

  /** `add` on the dictionary `__docs`. */
  function LegacyAddState(docs: map<string, LegacyModuleDocs>, x: Decorated)
    : (r: Result<map<string, LegacyModuleDocs>, AddError>)
    ensures r.Failure? <==> !Unwrap(x).callable
    ensures r.Failure? ==> r.error == NotCallable
    ensures r.Success? ==> var f := Unwrap(x);
      && r.value.Keys == docs.Keys + {f.moduleName}
      && (forall m :: Contents(r.value, m) == Contents(docs, m) + Appended(f, m))
      && (forall m :: m in docs ==> r.value[m].name == docs[m].name && r.value[m].docstring == docs[m].docstring)
      && (f.moduleName !in docs ==>
            r.value[f.moduleName].name == f.moduleName && r.value[f.moduleName].docstring == f.moduleDoc)
  {
    var f := Unwrap(x);
    if !f.callable then Failure(NotCallable)
    else
      var md := if f.moduleName in docs then docs[f.moduleName]
                else LegacyModuleDocs(f.moduleName, f.moduleDoc, []);
      Success(docs[f.moduleName := md.(contents := md.contents + [CreateObjectDoc(f)])])
  }

  /** A sequence of `add` calls, the last one applied last; the first failure stops it. */
  function LegacyRun(docs: map<string, LegacyModuleDocs>, xs: seq<Decorated>)
    : Result<map<string, LegacyModuleDocs>, AddError>
    decreases |xs|
  {
    if xs == [] then Success(docs)
    else
      match LegacyRun(docs, xs[..|xs| - 1])
      case Failure(e) => Failure(e)
      case Success(t) => LegacyAddState(t, xs[|xs| - 1])
  }

  /** The records of the objects of `xs` from module `moduleName`, in call order. */
  function RecordsOf(xs: seq<Decorated>, moduleName: string): (r: seq<ObjectDocs>)
    ensures |r| <= |xs|
    decreases |xs|
  {
    if xs == [] then []
    else
      var f := Unwrap(xs[|xs| - 1]);
      RecordsOf(xs[..|xs| - 1], moduleName) + Appended(f, moduleName)
  }

  /** `t` is `docs` after the adds of `xs`: the records appended per module, the headers kept. */
  ghost predicate Extends(docs: map<string, LegacyModuleDocs>, t: map<string, LegacyModuleDocs>, xs: seq<Decorated>)
  {
    && (forall m :: Contents(t, m) == Contents(docs, m) + RecordsOf(xs, m))
    && (forall m :: m in docs ==> m in t && t[m].name == docs[m].name && t[m].docstring == docs[m].docstring)
  }

  /** One more add keeps `Extends`. */
  lemma ExtendsStep(docs: map<string, LegacyModuleDocs>, t: map<string, LegacyModuleDocs>, xs: seq<Decorated>, x: Decorated)
    requires Extends(docs, t, xs) && Unwrap(x).callable
    ensures Extends(docs, LegacyAddState(t, x).value, xs + [x])
  {
    assert (xs + [x])[..|xs|] == xs;
    forall m ensures RecordsOf(xs + [x], m) == RecordsOf(xs, m) + Appended(Unwrap(x), m) {
    }
  }

  /**
   * After any sequence of adds of callables, every module's list is its old
   * list followed by the records of that module's objects, in call order,
   * one per call; a module header, once created, never changes.
   */
  lemma {:induction false} LegacyRunContents(docs: map<string, LegacyModuleDocs>, xs: seq<Decorated>)
    requires forall i :: 0 <= i < |xs| ==> Unwrap(xs[i]).callable
    ensures LegacyRun(docs, xs).Success?
    ensures Extends(docs, LegacyRun(docs, xs).value, xs)
    decreases |xs|
  {
    if xs == [] {
      assert forall m :: RecordsOf(xs, m) == [];
    } else {
      var init, x := xs[..|xs| - 1], xs[|xs| - 1];
      assert forall i :: 0 <= i < |init| ==> init[i] == xs[i];
      LegacyRunContents(docs, init);
      ExtendsStep(docs, LegacyRun(docs, init).value, init, x);
      assert init + [x] == xs;
    }
  }

  /** No deduplication: adding the same object twice lists its record twice. */
  lemma NoDeduplication(docs: map<string, LegacyModuleDocs>, x: Decorated)
    requires Unwrap(x).callable
    ensures var f := Unwrap(x);
      && LegacyRun(docs, [x, x]).Success?
      && Contents(LegacyRun(docs, [x, x]).value, f.moduleName)
         == Contents(docs, f.moduleName) + [CreateObjectDoc(f), CreateObjectDoc(f)]
  {
    LegacyRunContents(docs, [x, x]);
    var m := Unwrap(x).moduleName;
    assert [x, x][..1] == [x];
    assert RecordsOf([x], m) == [CreateObjectDoc(Unwrap(x))];
  }

  /** The legacy `Docurator`. */
  class LegacyDocurator {
    /** `__docs`: module name to module record; read through the `docs` property. */
    var docs: map<string, LegacyModuleDocs>

    /** `Docurator()`: no module records. */
    constructor()
      ensures docs == map[]
    {
      docs := map[];
    }

    /** `add`: reject a non-callable before any change, else append one record to its module's list. */
    method Add(x: Decorated) returns (r: Outcome<AddError>)
      modifies this
      ensures r.Fail? <==> !Unwrap(x).callable
      ensures r.Fail? ==> r.error == NotCallable && docs == old(docs)
      ensures r.Pass? ==> docs == LegacyAddState(old(docs), x).value
    {
      var f := Unwrap(x);
      if !f.callable {
        return Fail(NotCallable);
      }
      var moduleDocs: LegacyModuleDocs;
      if f.moduleName in docs {
        moduleDocs := docs[f.moduleName];
      } else {
        moduleDocs := LegacyModuleDocs(f.moduleName, f.moduleDoc, []);
        docs := docs[f.moduleName := moduleDocs];
      }
      var docContent := ObjectDocs(f.docstring, f.name, f.qualname, f.typeName, f.signature);
      docs := docs[f.moduleName := moduleDocs.(contents := moduleDocs.contents + [docContent])];
      return Pass;
    }
  }

  /**
   * Applying a decorator of `decorator_factory` (docurator.py) to `x`: the
   * passthrough one returns `x` untouched; the collecting one adds `x` to the
   * registry and returns it, or propagates the `ValueError` of `add`.
   */
  method Decorate(d: Registry.Documentor, registry: LegacyDocurator, x: Decorated)
    returns (r: Result<Decorated, AddError>)
    modifies registry
    ensures d.Passthrough? ==> r == Success(x) && registry.docs == old(registry.docs)
    ensures d.Collecting? && Unwrap(x).callable ==>
      r == Success(x) && registry.docs == LegacyAddState(old(registry.docs), x).value
    ensures d.Collecting? && !Unwrap(x).callable ==>
      r == Failure(NotCallable) && registry.docs == old(registry.docs)
  {
    match d
    case Passthrough =>
      return Success(x);
    case Collecting =>
      var outcome := registry.Add(x);
      if outcome.Fail? {
        return Failure(outcome.error);
      }
      return Success(x);
  }
}
