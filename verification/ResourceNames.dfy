/** Azure resource names and the identities of ephemeral runners. */
module ResourceNames {
  import opened Common

  const MAX_NAME := 54
  const HEAD := 41
  const TAIL := 12
  const PROFILE := 21
  const IDENTITY := 32

  predicate IsNameChar(c: char) {
    'a' <= c <= 'z' || '0' <= c <= '9' || c == '-'
  }

  function CleanChar(c: char): char {
    if IsNameChar(c) then c else '-'
  }

  function Clean(s: string): string {
    seq(|s|, i requires 0 <= i < |s| => CleanChar(s[i]))
  }

  function TrimDashLeft(s: string): string {
    if s != [] && s[0] == '-' then TrimDashLeft(s[1..]) else s
  }

  function TrimDashRight(s: string): string {
    if s != [] && s[|s| - 1] == '-' then TrimDashRight(s[..|s| - 1]) else s
  }

  function TrimDash(s: string): string {
    TrimDashRight(TrimDashLeft(s))
  }

  /** Keeps the end of an overlong name, where the random identity is. */
  function Shorten(s: string): string {
    if |s| > MAX_NAME then s[..HEAD] + "-" + s[|s| - TAIL..] else s
  }

  function ResourceName(value: string): string {
    var trimmed := TrimDash(Clean(Lower(value)));
    Shorten(if trimmed == "" then "runner" else trimmed)
  }

  /** What Azure accepts for every name this controller derives. */
  predicate Shaped(s: string) {
    && 1 <= |s| <= MAX_NAME
    && (forall i :: 0 <= i < |s| ==> IsNameChar(s[i]))
    && s[0] != '-' && s[|s| - 1] != '-'
  }

  method AzureResourceName(value: string) returns (result: string)
    ensures result == ResourceName(value)
    ensures Shaped(result)
  {
    var lowered := Lower(value);
    var builder := "";
    for i := 0 to |lowered|
      invariant builder == Clean(lowered)[..i]
    {
      var c := lowered[i];
      if 'a' <= c <= 'z' || '0' <= c <= '9' || c == '-' {
        builder := builder + [c];
      } else {
        builder := builder + "-";
      }
    }
    assert builder == Clean(lowered);
    result := TrimDash(builder);
    if result == "" {
      result := "runner";
    }
    if |result| > MAX_NAME {
      result := result[..HEAD] + "-" + result[|result| - TAIL..];
    }
    ResourceNameIsShaped(value);
  }

  lemma {:induction false} TrimLeftShape(s: string)
    requires forall i :: 0 <= i < |s| ==> IsNameChar(s[i])
    ensures var t := TrimDashLeft(s);
      && (forall i :: 0 <= i < |t| ==> IsNameChar(t[i]))
      && (t != [] ==> t[0] != '-')
  {
    if s != [] && s[0] == '-' {
      TrimLeftShape(s[1..]);
    }
  }

  lemma {:induction false} TrimRightShape(s: string)
    requires forall i :: 0 <= i < |s| ==> IsNameChar(s[i])
    requires s != [] ==> s[0] != '-'
    ensures var t := TrimDashRight(s);
      && (forall i :: 0 <= i < |t| ==> IsNameChar(t[i]))
      && (t != [] ==> t[0] != '-' && t[|t| - 1] != '-')
  {
    if s != [] && s[|s| - 1] == '-' {
      TrimRightShape(s[..|s| - 1]);
    }
  }

  /** Whatever text comes in, the name that comes out is acceptable. */
  lemma ResourceNameIsShaped(value: string)
    ensures Shaped(ResourceName(value))
  {
    var cleaned := Clean(Lower(value));
    TrimLeftShape(cleaned);
    TrimRightShape(TrimDashLeft(cleaned));
  }

  /** The acceptable names are exactly the fixed points of normalisation. */
  lemma FixedPointsAreTheShapedNames(s: string)
    ensures ResourceName(s) == s <==> Shaped(s)
  {
    ResourceNameIsShaped(s);
    if Shaped(s) {
      assert forall i :: 0 <= i < |s| ==> LowerChar(s[i]) == s[i] && CleanChar(s[i]) == s[i];
      assert Lower(s) == s && Clean(s) == s;
    }
  }

  lemma NormalisationIsIdempotent(value: string)
    ensures ResourceName(ResourceName(value)) == ResourceName(value)
  {
    ResourceNameIsShaped(value);
    FixedPointsAreTheShapedNames(ResourceName(value));
  }

  /** Normalisation alone loses information: distinct texts can share a name. */
  lemma NormalisationIsNotInjective()
    ensures "Runner" != "runner" && ResourceName("Runner") == ResourceName("runner")
  {
    assert Lower("Runner") == "runner" == Lower("runner");
  }

  /** An ASCII letter of either case, or a digit. */
  predicate IsAlphanumeric(c: char) {
    'a' <= c <= 'z' || 'A' <= c <= 'Z' || '0' <= c <= '9'
  }

  /** What becomes of one character. */
  function Written(c: char): char {
    if 'A' <= c <= 'Z' then c - 'A' + 'a' else if 'a' <= c <= 'z' || '0' <= c <= '9' then c else '-'
  }

  /** The part of a text from its first to its last letter or digit. */
  predicate IsCore(value: string, i: int, j: int) {
    && 0 <= i <= j < |value| && IsAlphanumeric(value[i]) && IsAlphanumeric(value[j])
    && (forall k :: 0 <= k < i ==> !IsAlphanumeric(value[k])) && (forall k :: j < k < |value| ==> !IsAlphanumeric(value[k]))
  }

  lemma {:induction false} TrimLeftDrops(s: string, i: nat)
    requires i < |s| && s[i] != '-' && forall k :: 0 <= k < i ==> s[k] == '-'
    ensures TrimDashLeft(s) == s[i..]
  {
    if i > 0 {
      TrimLeftDrops(s[1..], i - 1);
    }
  }

  lemma {:induction false} TrimRightDrops(s: string, j: nat)
    requires j < |s| && s[j] != '-' && forall k :: j < k < |s| ==> s[k] == '-'
    ensures TrimDashRight(s) == s[..j + 1]
  {
    if j < |s| - 1 {
      TrimRightDrops(s[..|s| - 1], j);
      assert s[..|s| - 1][..j + 1] == s[..j + 1];
    } else {
      assert s[..j + 1] == s;
    }
  }

  lemma {:induction false} AllDashesVanish(s: string)
    requires forall k :: 0 <= k < |s| ==> s[k] == '-'
    ensures TrimDashLeft(s) == ""
  {
    if s != "" {
      AllDashesVanish(s[1..]);
    }
  }

  /** The name of a text is its core, letters in lower case, digits kept and every
      other character a dash; a core over 54 characters keeps its first 41 and its
      last 12. */
  lemma NameIsTheCore(value: string, i: nat, j: nat)
    requires IsCore(value, i, j)
    ensures var core := seq(j - i + 1, k requires 0 <= k < j - i + 1 => Written(value[i + k]));
      ResourceName(value) == if |core| > 54 then core[..41] + "-" + core[|core| - 12..] else core
  {
    var core := seq(j - i + 1, k requires 0 <= k < j - i + 1 => Written(value[i + k]));
    var cleaned := Clean(Lower(value));
    assert forall k :: 0 <= k < |value| ==> cleaned[k] == Written(value[k]);
    assert forall k :: 0 <= k < |value| && !IsAlphanumeric(value[k]) ==> cleaned[k] == '-';
    TrimLeftDrops(cleaned, i);
    TrimRightDrops(cleaned[i..], j - i);
    assert cleaned[i..][..j - i + 1] == core;
  }

  /** A text without a letter or digit is named "runner". */
  lemma NothingUsableIsRunner(value: string)
    requires forall k :: 0 <= k < |value| ==> !IsAlphanumeric(value[k])
    ensures ResourceName(value) == "runner"
  {
    AllDashesVanish(Clean(Lower(value)));
  }

  /** Every text falls under one of the two descriptions. */
  lemma CoreOrNothing(value: string) returns (i: nat, j: nat)
    ensures IsCore(value, i, j) || forall k :: 0 <= k < |value| ==> !IsAlphanumeric(value[k])
  {
    i, j := 0, |value|;
    while i < |value| && !IsAlphanumeric(value[i])
      invariant i <= |value| && forall k :: 0 <= k < i ==> !IsAlphanumeric(value[k])
    {
      i := i + 1;
    }
    while j > i && !IsAlphanumeric(value[j - 1])
      invariant i <= j <= |value| && forall k :: j <= k < |value| ==> !IsAlphanumeric(value[k])
    {
      j := j - 1;
    }
    j := if j > 0 then j - 1 else 0;
  }

  function Take(s: string, n: nat): string {
    if |s| <= n then s else s[..n]
  }

  /** A random UUID without its dashes. */
  predicate IsIdentity(id: string) {
    |id| == IDENTITY && forall i :: 0 <= i < |id| ==> '0' <= id[i] <= '9' || 'a' <= id[i] <= 'f'
  }

  function NewRunnerName(profile: string, identity: string): string {
    Take(ResourceName(profile), PROFILE) + "-" + identity
  }

  /** A fresh runner name needs no further normalisation, for any profile. */
  lemma RunnerNamesAreFixedPoints(profile: string, identity: string)
    requires IsIdentity(identity)
    ensures Shaped(NewRunnerName(profile, identity))
    ensures ResourceName(NewRunnerName(profile, identity)) == NewRunnerName(profile, identity)
  {
    ResourceNameIsShaped(profile);
    FixedPointsAreTheShapedNames(NewRunnerName(profile, identity));
  }

  /** Two runners share a VM name only if they drew the same random identity,
      even across profiles and however long the profile names are. */
  lemma DistinctIdentitiesGiveDistinctVMs(p: string, a: string, q: string, b: string)
    requires IsIdentity(a) && IsIdentity(b)
    ensures ResourceName(NewRunnerName(p, a)) == ResourceName(NewRunnerName(q, b)) ==> a == b
    ensures p == q ==> (ResourceName(NewRunnerName(p, a)) == ResourceName(NewRunnerName(q, b)) <==> a == b)
  {
    RunnerNamesAreFixedPoints(p, a);
    RunnerNamesAreFixedPoints(q, b);
    var m, n := NewRunnerName(p, a), NewRunnerName(q, b);
    assert m[|m| - IDENTITY..] == a && n[|n| - IDENTITY..] == b;
  }
}
