/** `format!` with one `{}` hole: a fixed prefix, the argument, a fixed
    suffix. Every `build_url` and every error `Display` in the adapters has
    this shape, so the shape and its inverse are defined once here. */
module Format {
  import opened Types

  /** The text `format!(prefix{}suffix, arg)` produces. */
  function Fill(prefix: string, arg: string, suffix: string): (r: string)
    ensures |r| == |prefix| + |arg| + |suffix|
    ensures r[..|prefix|] == prefix
    ensures r[|prefix|..|prefix| + |arg|] == arg
    ensures r[|prefix| + |arg|..] == suffix
  {
    prefix + arg + suffix
  }

  /** Reads the argument back out of a filled template, if `s` is one. */
  function Unfill(prefix: string, suffix: string, s: string): (r: Option<string>)
    ensures r.Some? ==> Fill(prefix, r.value, suffix) == s
    ensures r.None? ==> forall arg :: Fill(prefix, arg, suffix) != s
  {
    if |prefix| + |suffix| <= |s| && s[..|prefix|] == prefix && s[|s| - |suffix|..] == suffix then
      var arg := s[|prefix|..|s| - |suffix|];
      assert Fill(prefix, arg, suffix) == s by {
        assert s == s[..|prefix|] + arg + s[|s| - |suffix|..];
      }
      Some(arg)
    else
      None
  }

  /** Reading back what was filled in gives the argument again: a filled
      template determines its argument. */
  lemma UnfillFill(prefix: string, arg: string, suffix: string)
    ensures Unfill(prefix, suffix, Fill(prefix, arg, suffix)) == Some(arg)
  {
    var s := Fill(prefix, arg, suffix);
    var r := Unfill(prefix, suffix, s);
    assert r.Some?;
    assert Fill(prefix, r.value, suffix) == s;
    FillInjective(prefix, r.value, arg, suffix);
  }

  /** Two different arguments never fill a template to the same text. */
  lemma FillInjective(prefix: string, a: string, b: string, suffix: string)
    requires Fill(prefix, a, suffix) == Fill(prefix, b, suffix)
    ensures a == b
  {
    var s := Fill(prefix, a, suffix);
    assert |a| == |b|;
    assert a == s[|prefix|..|prefix| + |a|];
  }
}
