/**
 * The record types of doc_containers.py: the frozen dataclass `Docs` and its
 * undecorated subclass `ClassDocs`. A datatype value cannot change after it
 * is built, which is what `frozen=True` promises.
 *
 * `ClassDocs` is not decorated, so the dataclass machinery does not pick up
 * its `parents` annotation: it has exactly the six fields and the constructor
 * of `Docs`. The generated equality compares the class of both operands
 * first, so a `Docs` and a `ClassDocs` with the same fields differ; the two
 * classes are the two constructors below.
 */
module DocContainers {
  import opened Wrappers

  /** `inspect.signature(...)`, kept opaque. */
  type SignatureToken = nat

  /**
   * The records `doc_containers.py` defines. The registries build a different
   * record, `RegistrySpec.ObjectDocs`, because the `doc_containers` module they
   * import (with `parents` on its class record) is a different module.
   */
  datatype Docs =
    | Docs(docstring: Option<string>, name: string, qualname: string, typeName: string,
           signature: SignatureToken, moduleName: Option<string> := None)
    | ClassDocs(docstring: Option<string>, name: string, qualname: string, typeName: string,
                signature: SignatureToken, moduleName: Option<string> := None)

  /** The field tuple the generated `__eq__` and `__hash__` compare. */
  function AsTuple(d: Docs): (Option<string>, string, string, string, SignatureToken, Option<string>)
  {
    (d.docstring, d.name, d.qualname, d.typeName, d.signature, d.moduleName)
  }

  /** Building a record with `Docs(...)` or `ClassDocs(...)`, leaving `module` out when absent. */
  function Build(isClass: bool, docstring: Option<string>, name: string, qualname: string, typeName: string,
                 signature: SignatureToken, moduleName: Option<string>): (d: Docs)
    ensures d.ClassDocs? <==> isClass
    ensures AsTuple(d) == (docstring, name, qualname, typeName, signature, moduleName)
  {
    if isClass then ClassDocs(docstring, name, qualname, typeName, signature, moduleName)
    else Docs(docstring, name, qualname, typeName, signature, moduleName)
  }

  /** Leaving `module` out gives `None`; a missing docstring is stored as `None`. */
  lemma ModuleDefaultsToNone(docstring: Option<string>, name: string, qualname: string, typeName: string,
                             signature: SignatureToken)
    ensures Docs(docstring, name, qualname, typeName, signature).moduleName == None
    ensures ClassDocs(docstring, name, qualname, typeName, signature).moduleName == None
    ensures Docs(None, name, qualname, typeName, signature).docstring == None
  {
  }

  /**
   * Two records are equal exactly when they are of the same class and all six
   * fields are equal.
   */
  lemma EqualityIsFieldwise(a: Docs, b: Docs)
    ensures a == b <==> (a.ClassDocs? == b.ClassDocs? && AsTuple(a) == AsTuple(b))
  {
  }

  /** Records of the two classes never compare equal, whatever their fields. */
  lemma ClassMatters(docstring: Option<string>, name: string, qualname: string, typeName: string,
                     signature: SignatureToken, moduleName: Option<string>)
    ensures Build(false, docstring, name, qualname, typeName, signature, moduleName)
         != Build(true, docstring, name, qualname, typeName, signature, moduleName)
  {
  }

  /** Equal records have equal fields, so they collapse to one element of a set. */
  lemma EqualRecordsCollapse(a: Docs, b: Docs)
    requires a.ClassDocs? == b.ClassDocs? && AsTuple(a) == AsTuple(b)
    ensures {a, b} == {a}
  {
  }
}
