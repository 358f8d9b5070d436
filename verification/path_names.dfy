/**
 * The parts of a file name that `pathlib` derives and that config_loader.py
 * relies on: `suffix` (the extension, dot included) and `stem` (the rest).
 * For a final path component `name`, with `i` the position of its last dot,
 * the suffix is `name[i:]` when `0 < i < len(name) - 1`, and empty otherwise.
 */
module PathNames {

  /** `name.rfind(c)`: the position of the last `c`, or -1. */
  function LastIndexOf(name: string, c: char): (i: int)
    ensures -1 <= i < |name|
    ensures i == -1 <==> c !in name
    ensures i >= 0 ==> name[i] == c && c !in name[i + 1..]
  {
    if name == [] then -1
    else if name[|name| - 1] == c then
      assert name[|name|..] == [];
      |name| - 1
    else
      var i := LastIndexOf(name[..|name| - 1], c);
      assert name == name[..|name| - 1] + [name[|name| - 1]];
      if i >= 0 then
        assert name[i + 1..] == name[..|name| - 1][i + 1..] + [name[|name| - 1]];
        i
      else
        i
  }

  /** `PurePath.suffix` of a final component. */
  function Suffix(name: string): (s: string)
    ensures s == [] || (|s| >= 2 && s[0] == '.' && '.' !in s[1..])
    ensures |s| <= |name| && s == name[|name| - |s|..]
  {
    var i := LastIndexOf(name, '.');
    if 0 < i < |name| - 1 then
      assert name[i..][1..] == name[i + 1..];
      name[i..]
    else ""
  }

  /** `PurePath.stem` of a final component. */
  function Stem(name: string): (s: string)
    ensures s + Suffix(name) == name
  {
    var i := LastIndexOf(name, '.');
    if 0 < i < |name| - 1 then
      assert name[..i] + name[i..] == name;
      name[..i]
    else
      name
  }

  /** A non-empty suffix leaves a non-empty stem: a leading dot does not start an extension. */
  lemma StemOfSuffixed(name: string)
    requires Suffix(name) != ""
    ensures Stem(name) != "" && Stem(name) == name[..|name| - |Suffix(name)|]
  {
  }

  /** Two names with the same suffix and the same stem are the same name. */
  lemma StemInjective(a: string, b: string)
    requires Suffix(a) == Suffix(b) && Stem(a) == Stem(b)
    ensures a == b
  {
    assert a == Stem(a) + Suffix(a) && b == Stem(b) + Suffix(b);
  }

  /** Examples: the suffix starts at the last dot. */
  lemma SuffixExamples()
    ensures Suffix("config.yaml") == ".yaml" && Stem("config.yaml") == "config"
    ensures Suffix("archive.tar.gz") == ".gz"
  {
    assert LastIndexOf("config.yaml", '.') == 6;
    assert "config.yaml"[6..] == ".yaml";
    assert LastIndexOf("archive.tar.gz", '.') == 11;
    assert "archive.tar.gz"[11..] == ".gz";
  }

  /** Examples: a leading dot, a trailing dot or no dot gives no suffix. */
  lemma NoSuffixExamples()
    ensures Suffix(".md") == "" && Stem(".md") == ".md"
    ensures Suffix("notes.") == ""
    ensures Suffix("README") == ""
  {
    assert LastIndexOf(".md", '.') == 0;
    assert LastIndexOf("notes.", '.') == 5;
    assert '.' !in "README";
  }
}
