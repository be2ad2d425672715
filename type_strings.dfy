/**
 * The service-type string helpers: the `qualified`, `localQualified` and
 * `stripLocal` extension getters on String, built from Kotlin's `endsWith`
 * and `removeSuffix`.
 */
module TypeStrings {

  /** Kotlin's String.endsWith. */
  predicate EndsWith(s: string, suffix: string)
  {
    |suffix| <= |s| && s[|s| - |suffix|..] == suffix
  }

  predicate IsPrefix(p: string, s: string)
  {
    |p| <= |s| && s[..|p|] == p
  }

  /** Kotlin's String.removeSuffix: drops the suffix once if it is there. */
  function RemoveSuffix(s: string, suffix: string): (r: string)
    ensures EndsWith(s, suffix) ==> r + suffix == s
    ensures !EndsWith(s, suffix) ==> r == s
  {
    if EndsWith(s, suffix) then s[..|s| - |suffix|] else s
  }

  /** `qualified`: the type with a trailing dot. */
  function Qualified(s: string): (r: string)
    ensures EndsWith(r, ".")
    ensures IsPrefix(s, r) && |r| <= |s| + 1
  {
    if EndsWith(s, ".") then s else s + "."
  }

  /** `localQualified`: the type ending in ".local.". */
  function LocalQualified(s: string): (r: string)
    ensures EndsWith(r, ".local.")
    ensures IsPrefix(s, r)
  {
    if EndsWith(s, ".local.") then s else Qualified(s) + "local."
  }

  /** `stripLocal`: at most one ".local." and then at most one ".local" removed. */
  function StripLocal(s: string): (r: string)
    ensures IsPrefix(r, s) && |s| - 13 <= |r|
    ensures !EndsWith(s, ".local.") && !EndsWith(s, ".local") ==> r == s
  {
    RemoveSuffix(RemoveSuffix(s, ".local."), ".local")
  }

  lemma QualifiedKeepsQualified(s: string)
    ensures EndsWith(s, ".") <==> Qualified(s) == s
  {
  }

  lemma QualifiedAppendsDot(s: string)
    requires !EndsWith(s, ".")
    ensures Qualified(s) == s + "." && |Qualified(s)| == |s| + 1
  {
  }

  lemma QualifiedIdempotent(s: string)
    ensures Qualified(Qualified(s)) == Qualified(s)
  {
  }

  lemma LocalQualifiedCases(s: string)
    ensures EndsWith(s, ".local.") ==> LocalQualified(s) == s
    ensures !EndsWith(s, ".local.") ==> LocalQualified(s) == Qualified(s) + "local."
  {
  }

  lemma LocalQualifiedIdempotent(s: string)
    ensures LocalQualified(LocalQualified(s)) == LocalQualified(s)
  {
  }

  /** A bare ".local" suffix is not recognised: it is qualified and gets a second "local.". */
  lemma LocalQualifiedOfBareLocal()
    ensures LocalQualified("_http._tcp.local") == "_http._tcp.local.local."
  {
    assert !EndsWith("_http._tcp.local", ".local.");
    assert !EndsWith("_http._tcp.local", ".");
  }

  /** Exactly what stripLocal removes, by the shape of the input. */
  lemma {:induction false} StripLocalRemoves(s: string)
    ensures EndsWith(s, ".local.") ==>
      StripLocal(s) + ".local." == s
      || StripLocal(s) + ".local" + ".local." == s
    ensures !EndsWith(s, ".local.") && EndsWith(s, ".local") ==> StripLocal(s) + ".local" == s
  {
    if EndsWith(s, ".local.") {
      var t := s[..|s| - 7];
      assert RemoveSuffix(s, ".local.") == t;
      assert t + ".local." == s;
      if EndsWith(t, ".local") {
        assert StripLocal(s) + ".local" == t;
        assert StripLocal(s) + ".local" + ".local." == s;
      }
    }
  }

  lemma StripLocalExamples()
    ensures StripLocal("_http._tcp.local.") == "_http._tcp"
    ensures StripLocal("_http._tcp.local") == "_http._tcp"
    ensures StripLocal("_http._tcp") == "_http._tcp"
  {
    assert EndsWith("_http._tcp.local.", ".local.");
    assert RemoveSuffix("_http._tcp.local.", ".local.") == "_http._tcp";
    assert !EndsWith("_http._tcp", ".local");
    assert !EndsWith("_http._tcp.local", ".local.");
    assert EndsWith("_http._tcp.local", ".local");
    assert !EndsWith("_http._tcp", ".local.");
  }
}
