/**
 The alias pin: a method named `name` in `namespace` that stands for another
 method, `original`, and is remapped once that method is known. Its kind and
 visibility are fixed; its path is built from namespace, scope and name on
 first request and remembered.
 */
module Pin {
  import opened Types

  /** The kinds of pin, one per `Pin` kind constant. */
  datatype PinKind =
    | NamespaceKind | MethodKind | MethodAliasKind | AttributeKind | ParameterKind
    | ConstantKind | LocalVariableKind | InstanceVariableKind | ClassVariableKind
    | GlobalVariableKind | ProxyTypeKind

  datatype Visibility = Public | Protected | Private

  /** The scope `MethodAlias` builds an instance path for. */
  const InstanceScope: string := "instance"

  /** The separator between namespace and name: `#` for an instance method,
      `.` for any other scope. */
  function Separator(scope: string): (sep: string)
    ensures |sep| == 1
    ensures sep == "#" <==> scope == InstanceScope
  {
    if scope == InstanceScope then "#" else "."
  }

  function PathOf(namespace: string, scope: string, name: string): string
  {
    namespace + Separator(scope) + name
  }

  /** A path splits back into its namespace, its separator and its name. */
  lemma PathParts(namespace: string, scope: string, name: string)
    ensures |PathOf(namespace, scope, name)| == |namespace| + 1 + |name|
    ensures PathOf(namespace, scope, name)[..|namespace|] == namespace
    ensures PathOf(namespace, scope, name)[|namespace|] == '#' <==> scope == InstanceScope
    ensures PathOf(namespace, scope, name)[|namespace| + 1..] == name
  {
    var path := PathOf(namespace, scope, name);
    assert path == namespace + (Separator(scope) + name);
    assert (Separator(scope) + name)[1..] == name;
  }

  /** Within one namespace, the path determines the name and whether the
      scope is the instance scope. */
  lemma PathInjective(namespace: string, s1: string, n1: string, s2: string, n2: string)
    requires PathOf(namespace, s1, n1) == PathOf(namespace, s2, n2)
    ensures n1 == n2
    ensures s1 == InstanceScope <==> s2 == InstanceScope
  {
    PathParts(namespace, s1, n1);
    PathParts(namespace, s2, n2);
  }

  /**
   `Pin::MethodAlias`. `namespace` and `name` come from the base pin and are
   never reassigned; `cachedPath` is `@path`, nil until `path` is first asked.
   */
  class MethodAlias {
    const namespace: string
    const name: string
    const scope: string
    const original: Option<string>
    var cachedPath: Option<string>

    /** A remembered path is the one the pin's namespace, scope and name give. */
    ghost predicate Valid()
      reads this
    {
      cachedPath.Some? ==> cachedPath.value == PathOf(namespace, scope, name)
    }

    /** `initialize`: scope defaults to the instance scope and `original` to
        nil; both are kept as given. */
    constructor(namespace: string, name: string, nameonly scope: string := InstanceScope,
                nameonly original: Option<string> := None)
      ensures Valid()
      ensures this.namespace == namespace && this.name == name
      ensures this.scope == scope && this.original == original
      ensures cachedPath.None?
      ensures Kind() == MethodAliasKind
      ensures GetVisibility() == Public
    {
      this.namespace := namespace;
      this.name := name;
      this.scope := scope;
      this.original := original;
      cachedPath := None;
    }

    /** `kind`: an alias pin, whatever it was built from. */
    function Kind(): (k: PinKind)
      ensures k.MethodAliasKind?
    {
      MethodAliasKind
    }

    /** `visibility`: always public. */
    function GetVisibility(): (v: Visibility)
      ensures v.Public?
    {
      Public
    }

    /** `path`: the remembered path if there is one; otherwise builds it from
        namespace, separator and name and remembers it. */
    method Path() returns (p: string)
      requires Valid()
      modifies this`cachedPath
      ensures Valid()
      ensures p == PathOf(namespace, scope, name)
      ensures old(cachedPath).Some? ==> p == old(cachedPath).value && cachedPath == old(cachedPath)
      ensures cachedPath == Some(p)
    {
      if cachedPath.None? {
        cachedPath := Some(namespace + Separator(scope) + name);
      }
      p := cachedPath.value;
    }
  }

  /** Asking an alias for its path twice gives the same answer, and the first
      answer already matches its namespace, scope and name. */
  method PathIsStable(a: MethodAlias) returns (first: string, second: string)
    requires a.Valid()
    modifies a`cachedPath
    ensures first == second
    ensures |first| == |a.namespace| + 1 + |a.name|
    ensures first[..|a.namespace|] == a.namespace
    ensures first[|a.namespace|] == '#' <==> a.scope == InstanceScope
  {
    first := a.Path();
    second := a.Path();
    PathParts(a.namespace, a.scope, a.name);
  }
}
