/** mltemplate/utils/dynamic.py: splitting a Hydra-style target into module and class names. */
module Dynamic {
  import opened Wrappers

  datatype DynamicError = ValueError(message: string)

  /** Index of the last occurrence of `c` in `s`, the place where `rsplit(c, 1)` cuts. */
  function LastIndexOf(s: string, c: char): (r: Option<nat>)
    ensures r.None? <==> c !in s
    ensures r.Some? ==> r.value < |s| && s[r.value] == c && c !in s[r.value + 1..]
  {
    if s == [] then None
    else if s[|s| - 1] == c then Some(|s| - 1)
    else
      var r := LastIndexOf(s[..|s| - 1], c);
      assert s == s[..|s| - 1] + [s[|s| - 1]];
      if r.Some? then
        assert s[r.value + 1..] == s[..|s| - 1][r.value + 1..] + [s[|s| - 1]];
        r
      else r
  }

  /**
   * `module_name, class_name = target.rsplit(".", 1)`. Without a "." the split yields a single
   * element and the two-name unpacking raises ValueError.
   */
  function SplitTarget(target: string): (r: Result<(string, string), DynamicError>)
    ensures r.Failure? <==> '.' !in target
    ensures r.Success? ==> r.value.0 + "." + r.value.1 == target
    ensures r.Success? ==> '.' !in r.value.1
  {
    match LastIndexOf(target, '.')
    case None => Failure(ValueError("not enough values to unpack (expected 2, got 1)"))
    case Some(i) =>
      assert target == target[..i] + "." + target[i + 1..];
      Success((target[..i], target[i + 1..]))
  }

  /** The class name is the part after the LAST dot: the module path keeps its own dots. */
  lemma SplitTargetExample()
    ensures SplitTarget("mltemplate.data.mnist.MNISTDataModule")
         == Success(("mltemplate.data.mnist", "MNISTDataModule"))
  {
    SplitTargetUnique("mltemplate.data.mnist.MNISTDataModule", "mltemplate.data.mnist", "MNISTDataModule");
  }

  /** The split is determined: any (module, class) pair that rebuilds the target with a dot-free class is the result. */
  lemma SplitTargetUnique(target: string, m: string, c: string)
    requires m + "." + c == target && '.' !in c
    ensures SplitTarget(target) == Success((m, c))
  {
    var r := SplitTarget(target);
    assert target[|m|] == '.';
    assert r.Success?;
    var (m', c') := r.value;
    assert |c'| == |c|;
    assert c' == target[|target| - |c|..] == c;
    assert m' == target[..|m|] == m;
  }
}
