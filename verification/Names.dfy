/** Object names, "ns/name" references and the keys written into shared ConfigMaps. */
module Names {
  import opened Base

  /** A namespaced name, `types.NamespacedName`. */
  datatype NN = NN(ns: string, name: string)

  /** One key of one ConfigMap. */
  datatype Slot = Slot(cm: NN, key: string)

  /** Kubernetes namespaces and object names use lower-case alphanumerics, '-' and '.' only. */
  predicate ValidPart(s: string) {
    '/' !in s && ':' !in s && '_' !in s
  }

  predicate ValidName(n: NN) {
    ValidPart(n.ns) && ValidPart(n.name)
  }

  function SplitNSName(ref: string, defaultNS: string): NN {
    var i := IndexOf(ref, '/');
    if i < |ref| then NN(ref[..i], ref[i + 1..]) else NN(defaultNS, ref)
  }

  /** The "ns/cm:key" form in which an orphan is recorded in status. */
  function OrphanRef(s: Slot): string {
    QualifiedName(s.cm) + ":" + s.key
  }

  function QualifiedName(n: NN): string {
    n.ns + "/" + n.name
  }

  function SplitOrphanRef(ref: string): Option<(string, string)> {
    var i := IndexOf(ref, ':');
    if i < |ref| then Some((ref[..i], ref[i + 1..])) else None
  }

  /** The slot an orphan reference denotes when read in namespace `defaultNS`. */
  function OrphanSlot(ref: string, defaultNS: string): Option<Slot> {
    match SplitOrphanRef(ref)
    case None => None
    case Some((cmRef, key)) => Some(Slot(SplitNSName(cmRef, defaultNS), key))
  }

  /** A reference with a '/' names a namespace, the part before the first one; any other is a name in the
      default namespace. */
  lemma SplitNSNameMeans(ref: string, defaultNS: string)
    ensures var n := SplitNSName(ref, defaultNS);
      if '/' in ref then '/' !in n.ns && n.ns + "/" + n.name == ref else n.ns == defaultNS && n.name == ref
  {
    var i := IndexOf(ref, '/');
    assert i < |ref| ==> ref == ref[..i] + [ref[i]] + ref[i + 1..];
  }

  lemma SplitQualifiedName(n: NN, defaultNS: string)
    requires '/' !in n.ns
    ensures SplitNSName(QualifiedName(n), defaultNS) == n
  {
    var q := QualifiedName(n);
    assert q[..|n.ns|] == n.ns && q[|n.ns| + 1..] == n.name;
    IndexOfIsFirst(q, '/', |n.ns|);
  }

  /** Printing an orphan reference and parsing it back gives the same slot, in any namespace. */
  lemma OrphanRefRoundTrip(s: Slot, defaultNS: string)
    requires ValidName(s.cm)
    ensures OrphanSlot(OrphanRef(s), defaultNS) == Some(s)
  {
    var q := QualifiedName(s.cm);
    var ref := OrphanRef(s);
    assert ref[..|q|] == q && ref[|q| + 1..] == s.key;
    IndexOfIsFirst(ref, ':', |q|);
    SplitQualifiedName(s.cm, defaultNS);
  }

  lemma QualifiedNameInjective(a: NN, b: NN)
    requires ValidName(a) && ValidName(b) && QualifiedName(a) == QualifiedName(b)
    ensures a == b
  {
    SplitQualifiedName(a, "");
    SplitQualifiedName(b, "");
  }

  const ROUTE_PREFIX := "session_route_"
  const ROUTE_SUFFIX := ".conf"

  /** The file name of a route in the openresty ConfigMap. */
  function OpenrestyKey(route: string): string {
    ROUTE_PREFIX + route + ROUTE_SUFFIX
  }

  /** The key of a model in the monitor ConfigMap. */
  function MonitorKey(name: string): string {
    name + ".monitor.conf"
  }

  /** Whether `key` is the openresty key of some route. */
  predicate IsRouteKey(key: string) {
    && |ROUTE_PREFIX| + |ROUTE_SUFFIX| <= |key|
    && key[..|ROUTE_PREFIX|] == ROUTE_PREFIX
    && key[|key| - |ROUTE_SUFFIX|..] == ROUTE_SUFFIX
  }

  lemma OpenrestyKeyIsRouteKey(route: string)
    ensures IsRouteKey(OpenrestyKey(route)) && OpenrestyKey(route) != ""
  {
    assert OpenrestyKey(route)[..|ROUTE_PREFIX|] == ROUTE_PREFIX;
  }

  lemma OpenrestyKeyInjective(a: string, b: string)
    requires OpenrestyKey(a) == OpenrestyKey(b)
    ensures a == b
  {
    var k := OpenrestyKey(a);
    assert a == k[|ROUTE_PREFIX|..|k| - |ROUTE_SUFFIX|];
    assert b == k[|ROUTE_PREFIX|..|k| - |ROUTE_SUFFIX|];
  }

  /** A Kubernetes name has no '_', so a monitor key never is an openresty key. */
  lemma MonitorKeyIsNotRouteKey(name: string)
    requires '_' !in name
    ensures !IsRouteKey(MonitorKey(name))
  {
    var k := MonitorKey(name);
    assert k[7] == if 7 < |name| then name[7] else ".monitor.conf"[7 - |name|];
    assert |ROUTE_PREFIX| <= |k| ==> k[..|ROUTE_PREFIX|][7] == k[7];
  }
}
