/**
 * The split of the configured adapter identifier, `settings.ADAPTER.rsplit(".", 1)`,
 * unpacked into a module path and a class name. The import of the module and the
 * lookup of the class are not part of this model.
 */
module Identifier {
  import opened Wrappers
  import opened Config

  /** The position of the last occurrence of `c` in `s`, if any. */
  function LastIndexOf(s: string, c: char): (r: Option<nat>)
    ensures r.None? <==> c !in s
    ensures r.Some? ==> r.value < |s| && s[r.value] == c
    ensures r.Some? ==> forall j :: r.value < j < |s| ==> s[j] != c
  {
    if s == [] then None
    else if s[|s| - 1] == c then Some(|s| - 1)
    else LastIndexOf(s[..|s| - 1], c)
  }

  /**
   * `name.rsplit(".", 1)` unpacked into two names: the module part before the
   * last dot (which may itself contain dots) and the class part after it. A
   * name without a dot splits into one part only, and unpacking that fails.
   */
  function SplitAdapterName(name: string): (r: Result<(string, string), Error>)
    ensures r.Failure? <==> '.' !in name
    ensures r.Failure? ==> r.error == NotEnoughValues
    ensures r.Success? ==> name == r.value.0 + "." + r.value.1 && '.' !in r.value.1
  {
    match LastIndexOf(name, '.')
    case None => Failure(NotEnoughValues)
    case Some(i) =>
      assert name == name[..i] + "." + name[i + 1..];
      Success((name[..i], name[i + 1..]))
  }

  /** `init_adapter` up to the import: reading ADAPTER, then splitting it. */
  function InitAdapterNames(settings: Settings): (r: Result<(string, string), Error>)
    ensures settings.adapter.None? ==> r == Failure(MissingSetting("ADAPTER"))
    ensures settings.adapter.Some? ==> r == SplitAdapterName(settings.adapter.value)
  {
    match settings.adapter
    case None => Failure(MissingSetting("ADAPTER"))
    case Some(name) => SplitAdapterName(name)
  }

  /**
   * Joining a module path and a dot-free class name with a dot and splitting
   * again gives back the two parts: the split is at the last dot, so dots in
   * the module path stay in the module part.
   */
  lemma SplitJoin(modulePath: string, className: string)
    requires '.' !in className
    ensures SplitAdapterName(modulePath + "." + className) == Success((modulePath, className))
  {
    var name := modulePath + "." + className;
    // The dot after modulePath is the last one: className holds none.
    assert name[|modulePath|] == '.';
    assert forall j :: |modulePath| < j < |name| ==> name[j] == className[j - |modulePath| - 1];
    var k := LastIndexOf(name, '.');
    assert k == Some(|modulePath|);
    assert name[..|modulePath|] == modulePath && name[|modulePath| + 1..] == className;
  }
}
