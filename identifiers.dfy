/**
  The identifiers `writing` derives from the `name` and `org` options before any file
  is written: `packageSafeName`, the slug of the name, and `machineName`,
  `<slug of org>/<packageSafeName>`. Each is assigned only when the options it needs
  are truthy; otherwise the option keeps whatever value it had.
*/
module Identifiers {
  import opened Wrappers
  import Slug

  /** A string option is truthy in JavaScript when it is set and not the empty string. */
  predicate Truthy(o: Option<string>) { o.Some? && o.value != "" }

  datatype Ids = Ids(packageSafeName: Option<string>, machineName: Option<string>)

  /** Both identifiers unset, as on a fresh options object. */
  const Unset: Ids := Ids(None, None)

  /** The two `if` statements at the start of `writing`, applied to the options' prior values. */
  function Derive(name: Option<string>, org: Option<string>, prior: Ids): Ids
  {
    var packageSafeName := if Truthy(name) then Some(Slug.Slug(name.value)) else prior.packageSafeName;
    var machineName :=
      if Truthy(name) && Truthy(org) then Some(Slug.Slug(org.value) + "/" + packageSafeName.value)
      else prior.machineName;
    Ids(packageSafeName, machineName)
  }

  /** The number of occurrences of `c` in `s`. */
  function Count(c: char, s: string): nat
  {
    if s == [] then 0 else (if s[0] == c then 1 else 0) + Count(c, s[1..])
  }

  lemma {:induction false} CountConcat(c: char, a: string, b: string)
    ensures Count(c, a + b) == Count(c, a) + Count(c, b)
  {
    if a == [] {
      assert a + b == b;
    } else {
      assert (a + b)[1..] == a[1..] + b;
      CountConcat(c, a[1..], b);
    }
  }

  lemma {:induction false} CountAbsent(c: char, s: string)
    requires forall i :: 0 <= i < |s| ==> s[i] != c
    ensures Count(c, s) == 0
  {
    if s != [] {
      CountAbsent(c, s[1..]);
    }
  }

  /** `packageSafeName` is set to the slug of the name exactly when the name is truthy. */
  lemma PackageSafeName(name: Option<string>, org: Option<string>)
    ensures Derive(name, org, Unset).packageSafeName.Some? <==> Truthy(name)
    ensures Truthy(name) ==> Derive(name, org, Unset).packageSafeName == Some(Slug.Slug(name.value))
  {
  }

  /**
    `machineName` is set exactly when name and org are both truthy; it is then the
    org slug, one `/`, and the name slug, and holds no other `/`.
  */
  lemma MachineName(name: Option<string>, org: Option<string>)
    ensures Derive(name, org, Unset).machineName.Some? <==> Truthy(name) && Truthy(org)
    ensures Truthy(name) && Truthy(org) ==>
      Derive(name, org, Unset).machineName == Some(Slug.Slug(org.value) + "/" + Slug.Slug(name.value))
    ensures Truthy(name) && Truthy(org) ==> Count('/', Derive(name, org, Unset).machineName.value) == 1
  {
    if Truthy(name) && Truthy(org) {
      var o, n := Slug.Slug(org.value), Slug.Slug(name.value);
      Slug.SlugAlphabet(org.value);
      Slug.SlugAlphabet(name.value);
      CountAbsent('/', o);
      CountAbsent('/', n);
      CountConcat('/', o + "/", n);
      CountConcat('/', o, "/");
    }
  }

  /** A falsy name leaves both identifiers as they were; a falsy org leaves `machineName`. */
  lemma DeriveKeepsPrior(name: Option<string>, org: Option<string>, prior: Ids)
    ensures !Truthy(name) ==> Derive(name, org, prior) == prior
    ensures !Truthy(org) ==> Derive(name, org, prior).machineName == prior.machineName
  {
  }
}
