/**
 * Qualified-name handling of the registry (docurator_object.py):
 * `qualname.split('.')`, `'.'.join(...)`, `__is_method` and
 * `__create_class_belonging_key`, plus the string key of the method cache.
 */
module QualNames {

  /** Python's `s.split('.')`: never empty, `""` splits to `[""]`. */
  function Split(s: string): (parts: seq<string>)
    ensures |parts| >= 1
    ensures forall i :: 0 <= i < |parts| ==> '.' !in parts[i]
    decreases |s|
  {
    if s == [] then [[]]
    else if s[0] == '.' then [[]] + Split(s[1..])
    else
      var rest := Split(s[1..]);
      [[s[0]] + rest[0]] + rest[1..]
  }

  /** Python's `'.'.join(parts)`. */
  function Join(parts: seq<string>): string
  {
    if parts == [] then []
    else if |parts| == 1 then parts[0]
    else parts[0] + "." + Join(parts[1..])
  }

  lemma {:induction false} JoinSplit(s: string)
    ensures Join(Split(s)) == s
    decreases |s|
  {
    if s == [] {
    } else if s[0] == '.' {
      JoinSplit(s[1..]);
      assert s == "." + s[1..];
    } else {
      var rest := Split(s[1..]);
      JoinSplit(s[1..]);
      if |rest| == 1 {
        assert Split(s) == [[s[0]] + rest[0]];
      } else {
        assert Split(s)[1..] == rest[1..];
        assert Join(Split(s)) == [s[0]] + rest[0] + "." + Join(rest[1..]);
        assert Join(rest) == rest[0] + "." + Join(rest[1..]);
      }
      assert s == [s[0]] + s[1..];
    }
  }

  /** The number of segments exceeds one exactly when the string contains a dot. */
  lemma {:induction false} SplitCount(s: string)
    ensures |Split(s)| > 1 <==> '.' in s
    decreases |s|
  {
    if s != [] && s[0] != '.' {
      SplitCount(s[1..]);
      assert '.' in s <==> '.' in s[1..];
    }
  }

  /** Joining all but the last part, then a dot, then the last part, gives the whole join. */
  lemma {:induction false} JoinSnoc(parts: seq<string>)
    requires |parts| >= 2
    ensures Join(parts[..|parts| - 1]) + "." + parts[|parts| - 1] == Join(parts)
    decreases |parts|
  {
    if |parts| == 2 {
      assert parts[..1] == [parts[0]];
    } else {
      JoinSnoc(parts[1..]);
      assert parts[1..][..|parts| - 2] == parts[..|parts| - 1][1..];
      assert parts[1..][|parts| - 2] == parts[|parts| - 1];
    }
  }

  /** Splitting `a.b` where `b` has no dot: the parts of `a`, then `b`. */
  lemma {:induction false} SplitAppendSegment(a: string, b: string)
    requires '.' !in b
    ensures Split(a + "." + b) == Split(a) + [b]
    decreases |a|
  {
    if a == [] {
      assert a + "." + b == "." + b;
      SplitNoDot(b);
    } else {
      assert (a + "." + b)[1..] == a[1..] + "." + b;
      SplitAppendSegment(a[1..], b);
    }
  }

  /** A dot-free string is a single segment. */
  lemma {:induction false} SplitNoDot(s: string)
    requires '.' !in s
    ensures Split(s) == [s]
    decreases |s|
  {
    if s != [] {
      assert '.' !in s[1..];
      SplitNoDot(s[1..]);
      assert [s[0]] + s[1..] == s;
    }
  }

  /** `Docurator.__is_method`: more than one dot-separated segment. */
  function IsMethod(qualname: string): (r: bool)
    ensures r <==> '.' in qualname
  {
    SplitCount(qualname);
    |Split(qualname)| > 1
  }

  /** The last dot-separated segment (`__name__` of a nested definition). */
  function LastSegment(qualname: string): (r: string)
    ensures '.' !in r
  {
    var parts := Split(qualname);
    parts[|parts| - 1]
  }

  /**
   * `Docurator.__create_class_belonging_key`: the qualified name minus its
   * last segment. For a nested name this is exactly the text before the last dot.
   */
  function ClassBelongingKey(qualname: string): (owner: string)
    ensures '.' in qualname ==> owner + "." + LastSegment(qualname) == qualname
    ensures '.' in qualname ==> |owner| < |qualname|
  {
    var parts := Split(qualname);
    if '.' in qualname then
      SplitCount(qualname);
      JoinSnoc(parts);
      JoinSplit(qualname);
      Join(parts[..|parts| - 1])
    else
      Join(parts[..|parts| - 1])
  }

  /** The owner of a name defined directly inside `owner` is `owner`. */
  lemma OwnerOfNested(owner: string, name: string)
    requires '.' !in name
    ensures ClassBelongingKey(owner + "." + name) == owner
    ensures LastSegment(owner + "." + name) == name
  {
    var q := owner + "." + name;
    SplitAppendSegment(owner, name);
    assert Split(q)[..|Split(q)| - 1] == Split(owner);
    JoinSplit(owner);
    assert q[|owner|] == '.';
  }

  /** The method-cache key `f'{module_name}.{method_path}'`. */
  function CacheKey(moduleName: string, ownerPath: string): (key: string)
    ensures |key| == |moduleName| + 1 + |ownerPath|
    ensures key[..|moduleName|] == moduleName && key[|moduleName|] == '.'
  {
    moduleName + "." + ownerPath
  }

  /** Keys from dot-free module names identify the (module, owner) pair. */
  lemma CacheKeyInjective(m1: string, o1: string, m2: string, o2: string)
    requires '.' !in m1 && '.' !in m2
    requires CacheKey(m1, o1) == CacheKey(m2, o2)
    ensures m1 == m2 && o1 == o2
  {
    var k := CacheKey(m1, o1);
    if |m1| != |m2| {
      assert false;
    }
    assert m1 == k[..|m1|] == m2;
    assert o1 == k[|m1| + 1..] == o2;
  }

  /**
   * With a dotted module name two different (module, owner) pairs share a key:
   * methods of class `C` in module `a.b` and of the nested class `b.C` in module `a`.
   */
  lemma CacheKeyCollision()
    ensures CacheKey("a.b", "C") == CacheKey("a", "b.C")
  {
  }
}
