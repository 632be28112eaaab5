/** The CART configuration: replacing the workers of a document that the chart owns. */
module Cart {
  import opened Base
  import opened Text
  import opened Config
  import opened Names
  import opened Cluster
  import opened Reconcile

  datatype Worker = Worker(url: string, maxLoad: int)

  /** A value of a document: a list of workers, or anything else. */
  datatype Value = Workers(list: seq<Worker>) | Other(text: string)

  type Doc = map<string, Value>

  /** The YAML library: parsing may fail, an empty text may parse to no document at all. */
  datatype Yaml = Yaml(parse: string -> Result<Option<Doc>, string>, emit: Doc -> string) {
    /** Printed documents parse back and are not empty texts. */
    ghost predicate Faithful() {
      forall d :: parse(emit(d)) == Ok(Some(d)) && (d != map[] ==> emit(d) != "")
    }
  }

  const WORKERS_KEY := "workers"

  const DEFAULT_MAX_LOAD := 20

  // ---- RenderCart ----

  function WorkerOf(p: Peer, maxLoad: int): Worker {
    Worker("http://" + p.ip + ":" + Decimal(p.port), if p.maxLoad == 0 then maxLoad else p.maxLoad)
  }

  function WorkersOf(peers: seq<Peer>, maxLoad: int): (r: seq<Worker>)
    ensures |r| == |peers|
    ensures forall i :: 0 <= i < |r| ==> r[i] == WorkerOf(peers[i], maxLoad)
  {
    seq(|peers|, i requires 0 <= i < |peers| => WorkerOf(peers[i], maxLoad))
  }

  /** `workerList`. */
  method WorkerList(peers: seq<Peer>, maxLoad: int) returns (workers: seq<Worker>)
    ensures workers == WorkersOf(peers, maxLoad)
  {
    workers := [];
    for i := 0 to |peers|
      invariant |workers| == i
      invariant forall j :: 0 <= j < i ==> workers[j] == WorkerOf(peers[j], maxLoad)
    {
      var p := peers[i];
      var ml := p.maxLoad;
      if ml == 0 {
        ml := maxLoad;
      }
      workers := workers + [Worker("http://" + p.ip + ":" + Decimal(p.port), ml)];
    }
  }

  /** A worker's url says which backend it is, also for addresses that contain colons. */
  lemma UrlsIdentifyBackends(p: Peer, q: Peer, maxLoad: int)
    requires WorkerOf(p, maxLoad).url == WorkerOf(q, maxLoad).url
    ensures p.ip == q.ip && p.port == q.port
  {
    HostsAgree(p.ip, Decimal(p.port), q.ip, Decimal(q.port));
    DecimalInjective(p.port, q.port);
  }

  lemma HostsAgree(a: string, m: string, b: string, n: string)
    requires "http://" + a + ":" + m == "http://" + b + ":" + n && ':' !in m && ':' !in n
    ensures a == b && m == n
  {
    var s, t := "http://" + a + ":" + m, "http://" + b + ":" + n;
    assert s[7 + |a|] == ':' && t[7 + |b|] == ':';
    assert forall i :: 8 + |a| <= i < |s| ==> s[i] == m[i - 8 - |a|] != ':';
    assert forall i :: 8 + |b| <= i < |t| ==> t[i] == n[i - 8 - |b|] != ':';
    assert a == s[7..7 + |a|] && b == t[7..7 + |b|];
    assert m == s[8 + |a|..] && n == t[8 + |b|..];
  }

  /** A discovery result as the renderer gets it: the backends and the route's max load. */
  datatype Load = Load(peers: seq<Peer>, maxLoad: int)

  /** The workers that a load turns into; a load that is not positive falls back to 20. */
  function ListOf(l: Load): seq<Worker> {
    WorkersOf(l.peers, if l.maxLoad <= 0 then DEFAULT_MAX_LOAD else l.maxLoad)
  }

  /** The document a text holds; no document is an empty one. */
  function Document(y: Yaml, text: string): Result<Doc, string> {
    match y.parse(text)
    case Err(e) => Err(e)
    case Ok(None) => Ok(map[])
    case Ok(Some(d)) => Ok(d)
  }

  /** The text that `RenderCart` makes of a base: the same document with exactly these workers. */
  function Rendering(y: Yaml, base: string, l: Load): Result<string, string> {
    match Document(y, base)
    case Err(e) => Err(e)
    case Ok(doc) => Ok(y.emit(doc[WORKERS_KEY := Workers(ListOf(l))]))
  }

  method RenderCart(y: Yaml, base: string, peers: seq<Peer>, maxLoad: int) returns (r: Result<string, string>)
    ensures r == Rendering(y, base, Load(peers, maxLoad))
    ensures y.parse(base).Err? ==> r == Err(y.parse(base).error)
  {
    var max := maxLoad;
    if max <= 0 {
      max := DEFAULT_MAX_LOAD;
    }
    var parsed := y.parse(base);
    if parsed.Err? {
      return Err(parsed.error);
    }
    var doc := map[];
    if parsed.value.Some? {
      doc := parsed.value.value;
    }
    var workers := WorkerList(peers, max);
    doc := doc[WORKERS_KEY := Workers(workers)];
    r := Ok(y.emit(doc));
  }

  /** What was rendered reads back as the base document with exactly the new workers. */
  lemma RenderingReadsBack(y: Yaml, base: string, l: Load)
    requires y.Faithful() && Rendering(y, base, l).Ok?
    ensures var text := Rendering(y, base, l).value;
      && text != ""
      && Document(y, text).Ok?
      && Document(y, text).value[WORKERS_KEY] == Workers(ListOf(l))
      && forall k :: k != WORKERS_KEY ==> ValueAt(Document(y, text).value, k) == ValueAt(Document(y, base).value, k)
  {
    var doc := Document(y, base).value[WORKERS_KEY := Workers(ListOf(l))];
    assert WORKERS_KEY in doc;
  }

  function ValueAt(d: Doc, k: string): Option<Value> {
    if k in d then Some(d[k]) else None
  }

  /** Rendering over a rendering is rendering over its base. */
  lemma RenderingOverRendering(y: Yaml, base: string, p: Load, q: Load)
    requires y.Faithful() && Rendering(y, base, p).Ok?
    ensures Rendering(y, Rendering(y, base, p).value, q) == Rendering(y, base, q)
  {
    var doc, after := Document(y, base).value, Workers(ListOf(q));
    assert doc[WORKERS_KEY := Workers(ListOf(p))][WORKERS_KEY := after] == doc[WORKERS_KEY := after];
  }

  // ---- Runs ----

  /** What happens to the CART key: somebody else writes it or removes its ConfigMap, or a reconcile reaches
      the CART step with these backends, with or without the read and the write succeeding. */
  datatype Event = Rewritten(text: string) | Gone | Reconciled(load: Load, readable: bool, writable: bool)

  /** The content of the key after an event; None while the ConfigMap is missing. With no backends nothing is
      written; a base that cannot be read, or that is empty although the key is the chart's own, is kept. */
  function After(y: Yaml, exclusive: bool, content: Option<string>, ev: Event): Option<string> {
    match ev
    case Rewritten(text) => Some(text)
    case Gone => None
    case Reconciled(l, readable, writable) =>
      if l.peers == [] || !readable || content.None? || (exclusive && content.value == "") then content
      else
        var text := Rendering(y, content.value, l);
        if text.Ok? && writable then Some(text.value) else content
  }

  function AfterAll(y: Yaml, exclusive: bool, content: Option<string>, events: seq<Event>): Option<string>
    decreases |events|
  {
    if events == [] then content
    else After(y, exclusive, AfterAll(y, exclusive, content, events[..|events| - 1]), events[|events| - 1])
  }

  /** What somebody else last left in the key. */
  function LastBase(content: Option<string>, events: seq<Event>): Option<string>
    decreases |events|
  {
    if events == [] then content
    else
      match events[|events| - 1]
      case Rewritten(text) => Some(text)
      case Gone => None
      case Reconciled(_, _, _) => LastBase(content, events[..|events| - 1])
  }

  /** The load of the last reconcile since then that had backends and whose read and write succeeded. */
  function LastLoad(events: seq<Event>): Option<Load>
    decreases |events|
  {
    if events == [] then None
    else
      match events[|events| - 1]
      case Reconciled(l, readable, writable) =>
        if l.peers != [] && readable && writable then Some(l) else LastLoad(events[..|events| - 1])
      case _ => None
  }

  /** A base that reconciles may write over: a document, and not empty when the key is the chart's own. */
  predicate Usable(y: Yaml, exclusive: bool, base: Option<string>) {
    base.Some? && Document(y, base.value).Ok? && (exclusive ==> base.value != "")
  }

  /** Over any run of rewrites and reconciles, the key holds what was last put there by somebody else, with
      the workers of the last successful reconcile since; a base that is no usable document is never touched. */
  lemma {:induction false} BaseIsPreserved(y: Yaml, exclusive: bool, content: Option<string>, events: seq<Event>)
    requires y.Faithful()
    ensures var base, load := LastBase(content, events), LastLoad(events);
      AfterAll(y, exclusive, content, events) ==
      if Usable(y, exclusive, base) && load.Some? then Some(Rendering(y, base.value, load.value).value) else base
    decreases |events|
  {
    if events == [] {
    } else {
      var before := events[..|events| - 1];
      BaseIsPreserved(y, exclusive, content, before);
      var base, load := LastBase(content, before), LastLoad(before);
      if Usable(y, exclusive, base) && load.Some? {
        RenderingReadsBack(y, base.value, load.value);
        if events[|events| - 1].Reconciled? {
          RenderingOverRendering(y, base.value, load.value, events[|events| - 1].load);
        }
      }
    }
  }

  /** So after a run the document is the last base with exactly the workers of the last successful load, which
      are not empty, and every other key is as it was last written. */
  lemma WorkersAfterRun(y: Yaml, exclusive: bool, content: Option<string>, events: seq<Event>)
    requires y.Faithful() && Usable(y, exclusive, LastBase(content, events)) && LastLoad(events).Some?
    ensures var base, l := LastBase(content, events).value, LastLoad(events).value;
      && AfterAll(y, exclusive, content, events).Some?
      && var doc := Document(y, AfterAll(y, exclusive, content, events).value);
         && doc.Ok?
         && ValueAt(doc.value, WORKERS_KEY) == Some(Workers(ListOf(l))) && ListOf(l) != []
         && forall k :: k != WORKERS_KEY ==> ValueAt(doc.value, k) == ValueAt(Document(y, base).value, k)
  {
    BaseIsPreserved(y, exclusive, content, events);
    RenderingReadsBack(y, LastBase(content, events).value, LastLoad(events).value);
    LastLoadHasPeers(events);
  }

  lemma {:induction false} LastLoadHasPeers(events: seq<Event>)
    ensures LastLoad(events).Some? ==> LastLoad(events).value.peers != []
    decreases |events|
  {
    if events == [] {
    } else {
      LastLoadHasPeers(events[..|events| - 1]);
    }
  }

  // ---- The reconcile's CART step ----

  function CartContent(w: World, cm: NN, key: string): Option<string> {
    if cm in w.cms then Some(Lookup(w.cms[cm], key)) else None
  }

  /** The CART step of a reconcile that has backends is such an event, when what it writes is what
      `RenderCart` makes of what it reads. */
  lemma CartStepIsEvent(y: Yaml, w: World, n: NN, e: Env, now: int, l: Load)
    requires n in w.routes && w.routes[n].spec.cart.Some? && l.peers != [] && y.Faithful()
    requires
      var c := w.routes[n].spec.cart.value;
      var cm := SplitNSName(c.cmRef, n.ns);
      e.cartText == if cm in w.cms && Rendering(y, Lookup(w.cms[cm], CartKey(c)), l).Ok?
                    then Some(Rendering(y, Lookup(w.cms[cm], CartKey(c)), l).value) else None
    ensures
      var c := w.routes[n].spec.cart.value;
      var cm := SplitNSName(c.cmRef, n.ns);
      CartContent(CartWrite(w, n, e, now).w, cm, CartKey(c)) ==
      After(y, c.outputKey == "", CartContent(w, cm, CartKey(c)), Reconciled(l, e.cartRead, e.cartWrite == Fine))
  {
    var c := w.routes[n].spec.cart.value;
    var cm := SplitNSName(c.cmRef, n.ns);
    if cm in w.cms && Rendering(y, Lookup(w.cms[cm], CartKey(c)), l).Ok? {
      RenderingReadsBack(y, Lookup(w.cms[cm], CartKey(c)), l);
    }
  }
}
