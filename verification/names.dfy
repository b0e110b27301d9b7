/** The hyphen-joined naming scheme every resource name of the stack follows. */
module Names {
  import opened Wrappers

  /** Joins the parts with a single "-" between neighbours. */
  function Join(parts: seq<string>): string
    decreases |parts|
  {
    if |parts| == 0 then ""
    else if |parts| == 1 then parts[0]
    else Join(parts[..|parts| - 1]) + "-" + parts[|parts| - 1]
  }

  /** The stack-wide prefix `orgName-projectName-environment-regionName`. */
  function NamePrefix(org: string, project: string, environment: string, regionName: string): (r: string)
    ensures r == org + "-" + project + "-" + environment + "-" + regionName
  {
    var parts := [org, project, environment, regionName];
    assert parts[..3] == [org, project, environment];
    assert parts[..3][..2] == [org, project];
    assert parts[..3][..2][..1] == [org];
    assert Join([org, project]) == org + "-" + project;
    assert Join([org, project, environment]) == org + "-" + project + "-" + environment;
    Join(parts)
  }

  /** A resource name: the prefix, a hyphen, then the resource's base name. */
  function Qualify(prefix: string, base: string): (r: string)
    ensures r == prefix + "-" + base
    ensures |r| == |prefix| + 1 + |base|
  {
    var parts := [prefix, base];
    assert parts[..1] == [prefix];
    assert Join(parts) == Join([prefix]) + "-" + base;
    Join(parts)
  }

  /** Recovers the base name from a qualified name, if it has the prefix. */
  function Unqualify(prefix: string, name: string): (r: Option<string>)
    ensures r.Some? ==> Qualify(prefix, r.value) == name
  {
    var n := |prefix| + 1;
    if |name| >= n && name[..n] == prefix + "-" then
      assert name == name[..n] + name[n..];
      Some(name[n..])
    else None
  }

  /** Unqualify inverts Qualify: a name carries its prefix exactly when it
      is that prefix qualified by the recovered base. */
  lemma UnqualifyQualify(prefix: string, base: string, name: string)
    ensures Unqualify(prefix, name) == Some(base) <==> name == Qualify(prefix, base)
  {
    if name == Qualify(prefix, base) {
      var n := |prefix| + 1;
      assert name[..n] == prefix + "-";
      assert name[n..] == base;
    }
  }

  /** Under a fixed prefix, distinct base names give distinct resource names. */
  lemma QualifyInjective(prefix: string, a: string, b: string)
    ensures Qualify(prefix, a) == Qualify(prefix, b) <==> a == b
  {
    if Qualify(prefix, a) == Qualify(prefix, b) {
      UnqualifyQualify(prefix, a, Qualify(prefix, a));
      UnqualifyQualify(prefix, b, Qualify(prefix, b));
    }
  }

}
