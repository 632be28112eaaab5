/** Rendering an llm route: its peers, its options and its body size. */
module RouteConf {
  import opened Base
  import opened Text
  import opened Config
  import opened LuaTable

  // ---- Peers ----

  /** What the engine reads of a peer; an absent number is 0 and an absent string empty. */
  datatype LuaPeer = LuaPeer(
    ip: string, port: int, name: string, priority: int, maxConcurrency: int, probe: string, gpu: string)

  function Rendered(p: Peer): LuaPeer {
    LuaPeer(p.ip, p.port, p.name, p.priority, p.maxConcurrency, p.probePath, p.gpu)
  }

  /** Every text of the peer survives `%q`. */
  predicate ReadablePeer(p: Peer, isPrint: char -> bool) {
    Readable(p.ip, isPrint) && Readable(p.name, isPrint) && Readable(p.probePath, isPrint) && Readable(p.gpu, isPrint)
  }

  function Positions(items: seq<Item>): seq<Atom> {
    if items == [] then []
    else if items[0].At? then [items[0].value] + Positions(items[1..])
    else Positions(items[1..])
  }

  /** The value of `key`, the last assignment winning. */
  function Assigned(items: seq<Item>, key: string): Option<Atom> {
    if items == [] then None
    else
      var last := items[|items| - 1];
      if last.Named? && last.key == key then Some(last.value) else Assigned(items[..|items| - 1], key)
  }

  function NumberAt(values: seq<Atom>, k: nat): int {
    if k < |values| && values[k].Num? then values[k].n else 0
  }

  function TextAt(values: seq<Atom>, k: nat): string {
    if k < |values| && values[k].Quote? then values[k].text else ""
  }

  function TextOf(v: Option<Atom>): string {
    if v.Some? && v.value.Quote? then v.value.text else ""
  }

  function PeerOf(items: seq<Item>): LuaPeer {
    var at := Positions(items);
    LuaPeer(TextAt(at, 0), NumberAt(at, 1), TextAt(at, 2), NumberAt(at, 3), NumberAt(at, 4),
            TextOf(Assigned(items, "probe")), TextOf(Assigned(items, "gpu")))
  }

  /** The peer that a row of the table denotes. */
  function ReadPeer(row: string): Option<LuaPeer> {
    match ReadItems(row)
    case None => None
    case Some(items) => Some(PeerOf(items))
  }

  ghost predicate PrintsAs(s: string, items: seq<Item>, isPrint: char -> bool) {
    items != [] && (forall i :: i in items ==> WellNamed(i)) && s == PrintItems(items, isPrint)
  }

  /** `s` is a row with `n` positions that denotes `peer`, if all its texts are readable. */
  ghost predicate Denotes(s: string, n: nat, peer: LuaPeer, readable: bool, isPrint: char -> bool) {
    exists items ::
      && PrintsAs(s, items, isPrint) && |Positions(items)| == n
      && PeerOf(items) == peer && AllReadable(items, isPrint) == readable
  }

  lemma {:induction false} PositionsAppended(items: seq<Item>, i: Item)
    ensures Positions(items + [i]) == Positions(items) + if i.At? then [i.value] else []
  {
    if items == [] {
    } else {
      assert (items + [i])[1..] == items[1..] + [i];
      PositionsAppended(items[1..], i);
    }
  }

  lemma AssignedAppended(items: seq<Item>, i: Item, key: string)
    ensures Assigned(items + [i], key) == if i.Named? && i.key == key then Some(i.value) else Assigned(items, key)
  {
    assert (items + [i])[..|items|] == items;
  }

  /** The peer after one more item on a row of `n` positions. */
  function Extended(peer: LuaPeer, n: nat, i: Item): LuaPeer {
    match i
    case At(Num(k)) => if n == 3 then peer.(priority := k) else if n == 4 then peer.(maxConcurrency := k) else peer
    case Named(key, Quote(text)) =>
      if key == "probe" then peer.(probe := text) else if key == "gpu" then peer.(gpu := text) else peer
    case _ => peer
  }

  lemma PeerExtended(items: seq<Item>, i: Item)
    requires |Positions(items)| >= 3 && (i.At? ==> i.value.Num?) && (i.Named? ==> i.value.Quote?)
    ensures |Positions(items + [i])| == |Positions(items)| + if i.At? then 1 else 0
    ensures PeerOf(items + [i]) == Extended(PeerOf(items), |Positions(items)|, i)
  {
    PositionsAppended(items, i);
    AssignedAppended(items, i, "probe");
    AssignedAppended(items, i, "gpu");
  }

  lemma ItemAppended(s: string, n: nat, peer: LuaPeer, readable: bool, isPrint: char -> bool, i: Item)
    requires Denotes(s, n, peer, readable, isPrint) && n >= 3
    requires WellNamed(i) && (i.At? ==> i.value.Num?) && (i.Named? ==> i.value.Quote?)
    ensures Denotes(s + ", " + PrintItem(i, isPrint), if i.At? then n + 1 else n, Extended(peer, n, i),
                    readable && ReadableItem(i, isPrint), isPrint)
  {
    var items :|
      && PrintsAs(s, items, isPrint) && |Positions(items)| == n
      && PeerOf(items) == peer && AllReadable(items, isPrint) == readable;
    PrintAppended(items, i, isPrint);
    PeerExtended(items, i);
    ReadableAppended(items, i, isPrint);
    assert PrintsAs(s + ", " + PrintItem(i, isPrint), items + [i], isPrint);
  }

  lemma TupleStarts(ip: string, port: int, name: string, isPrint: char -> bool)
    ensures Denotes(Quoted(ip, isPrint) + ", " + Decimal(port) + ", " + Quoted(name, isPrint), 3,
                    LuaPeer(ip, port, name, 0, 0, "", ""), Readable(ip, isPrint) && Readable(name, isPrint), isPrint)
  {
    var first, second, third := At(Quote(ip)), At(Num(port)), At(Quote(name));
    var items := [first, second, third];
    PrintAppended([first], second, isPrint);
    PrintAppended([first, second], third, isPrint);
    assert [first] + [second] == [first, second] && [first, second] + [third] == items;
    ThreePositions(first, second, third);
    ThreeReadable(first, second, third, isPrint);
    assert PrintsAs(Quoted(ip, isPrint) + ", " + Decimal(port) + ", " + Quoted(name, isPrint), items, isPrint);
  }

  lemma ThreeReadable(first: Item, second: Item, third: Item, isPrint: char -> bool)
    ensures AllReadable([first, second, third], isPrint) ==
            (ReadableItem(first, isPrint) && ReadableItem(second, isPrint) && ReadableItem(third, isPrint))
  {
    ReadableAppended([first], second, isPrint);
    ReadableAppended([first, second], third, isPrint);
    assert [first] + [second] == [first, second] && [first, second] + [third] == [first, second, third];
    assert AllReadable([first], isPrint) == ReadableItem(first, isPrint);
  }

  lemma ThreePositions(first: Item, second: Item, third: Item)
    requires first.At? && second.At? && third.At?
    ensures Positions([first, second, third]) == [first.value, second.value, third.value]
    ensures forall key :: Assigned([first, second, third], key) == None
  {
    PositionsAppended([first], second);
    PositionsAppended([first, second], third);
    assert [first] + [second] == [first, second] && [first, second] + [third] == [first, second, third];
    assert Positions([first]) == [first.value];
    forall key
      ensures Assigned([first, second, third], key) == None
    {
      AssignedAppended([first, second], third, key);
      AssignedAppended([first], second, key);
    }
  }

  lemma DenotedIsRead(s: string, n: nat, peer: LuaPeer, readable: bool, isPrint: char -> bool)
    requires Denotes(s, n, peer, readable, isPrint)
    ensures ReadPeer(s) == if readable then Some(peer) else None
  {
    var items :|
      && PrintsAs(s, items, isPrint) && |Positions(items)| == n
      && PeerOf(items) == peer && AllReadable(items, isPrint) == readable;
    ReadItemsBack(items, isPrint);
  }

  lemma NumberAppended(s: string, n: nat, peer: LuaPeer, readable: bool, isPrint: char -> bool, k: int)
    requires Denotes(s, n, peer, readable, isPrint) && 3 <= n <= 4
    ensures Denotes(s + ", " + Decimal(k), n + 1, if n == 3 then peer.(priority := k) else peer.(maxConcurrency := k),
                    readable, isPrint)
  {
    ItemAppended(s, n, peer, readable, isPrint, At(Num(k)));
  }

  lemma NamedAppended(s: string, n: nat, peer: LuaPeer, readable: bool, isPrint: char -> bool,
                      key: string, intro: string, text: string)
    requires Denotes(s, n, peer, readable, isPrint) && n >= 3
    requires (key == "probe" || key == "gpu") && intro == ", " + key + " = "
    ensures Denotes(s + intro + Quoted(text, isPrint), n,
                    if key == "probe" then peer.(probe := text) else peer.(gpu := text),
                    readable && Readable(text, isPrint), isPrint)
  {
    var i := Named(key, Quote(text));
    assert WellNamed(i) by {
      assert key[0] == 'p' || key[0] == 'g';
    }
    ItemAppended(s, n, peer, readable, isPrint, i);
    NamedText(s, key, Quoted(text, isPrint));
  }

  lemma NamedText(s: string, key: string, value: string)
    ensures s + ", " + (key + " = " + value) == s + (", " + key + " = ") + value
  {
  }

  lemma ProbeAppended(s: string, n: nat, peer: LuaPeer, readable: bool, isPrint: char -> bool, path: string)
    requires Denotes(s, n, peer, readable, isPrint) && n >= 3
    ensures Denotes(s + ", probe = " + Quoted(path, isPrint), n, peer.(probe := path),
                    readable && Readable(path, isPrint), isPrint)
  {
    NamedAppended(s, n, peer, readable, isPrint, "probe", ", probe = ", path);
  }

  lemma GPUAppended(s: string, n: nat, peer: LuaPeer, readable: bool, isPrint: char -> bool, gpu: string)
    requires Denotes(s, n, peer, readable, isPrint) && n >= 3
    ensures Denotes(s + ", gpu = " + Quoted(gpu, isPrint), n, peer.(gpu := gpu),
                    readable && Readable(gpu, isPrint), isPrint)
  {
    NamedAppended(s, n, peer, readable, isPrint, "gpu", ", gpu = ", gpu);
  }

  /** `Peer.LuaTuple`, where `isPrint` is what Go takes for printable: the row reads back as the peer, a
      concurrency without a priority included, exactly when all its texts survive `%q`. */
  method LuaTuple(p: Peer, isPrint: char -> bool) returns (s: string)
    ensures ReadPeer(s) == if ReadablePeer(p, isPrint) then Some(Rendered(p)) else None
  {
    s := Quoted(p.ip, isPrint) + ", " + Decimal(p.port) + ", " + Quoted(p.name, isPrint);
    ghost var n, peer := 3, LuaPeer(p.ip, p.port, p.name, 0, 0, "", "");
    ghost var readable := Readable(p.ip, isPrint) && Readable(p.name, isPrint);
    TupleStarts(p.ip, p.port, p.name, isPrint);
    if p.priority != 0 || p.maxConcurrency != 0 {
      NumberAppended(s, n, peer, readable, isPrint, p.priority);
      s := s + ", " + Decimal(p.priority);
      n, peer := 4, peer.(priority := p.priority);
      if p.maxConcurrency != 0 {
        NumberAppended(s, n, peer, readable, isPrint, p.maxConcurrency);
        s := s + ", " + Decimal(p.maxConcurrency);
        n, peer := 5, peer.(maxConcurrency := p.maxConcurrency);
      }
    }
    if p.probePath != "" {
      ProbeAppended(s, n, peer, readable, isPrint, p.probePath);
      s := s + ", probe = " + Quoted(p.probePath, isPrint);
      peer, readable := peer.(probe := p.probePath), readable && Readable(p.probePath, isPrint);
    }
    if p.gpu != "" {
      GPUAppended(s, n, peer, readable, isPrint, p.gpu);
      s := s + ", gpu = " + Quoted(p.gpu, isPrint);
      peer, readable := peer.(gpu := p.gpu), readable && Readable(p.gpu, isPrint);
    }
    DenotedIsRead(s, n, peer, readable, isPrint);
  }

  // ---- The body size ----

  function LeadingDigits(s: string): (n: nat)
    ensures n <= |s|
  {
    if s == [] || !IsDigit(s[0]) then 0 else 1 + LeadingDigits(s[1..])
  }

  /** `nginxSizeRe`: one to seven digits, the first not 0, and at most one of k, m and g. */
  predicate IsNginxSize(v: string) {
    var n := LeadingDigits(v);
    1 <= n <= 7 && v[0] != '0' && (n == |v| || (n == |v| - 1 && v[n] in "kKmMgG"))
  }

  lemma {:induction false} LeadingDigitsAre(s: string)
    ensures var n := LeadingDigits(s);
      (n < |s| ==> !IsDigit(s[n])) && forall i :: 0 <= i < n ==> IsDigit(s[i])
  {
    if s == [] || !IsDigit(s[0]) {
    } else {
      LeadingDigitsAre(s[1..]);
    }
  }

  /** `k` digits of which the first is not 0, and then nothing or a unit letter. */
  ghost predicate SizeOf(v: string, k: int) {
    && 1 <= k <= 7 && k <= |v| <= k + 1 && v[0] != '0' && (forall i :: 0 <= i < k ==> IsDigit(v[i]))
    && (|v| == k + 1 ==> v[k] in ['k', 'K', 'm', 'M', 'g', 'G'])
  }

  lemma NginxSizeExactly(v: string)
    ensures IsNginxSize(v) <==> exists k :: SizeOf(v, k)
  {
    var n := LeadingDigits(v);
    LeadingDigitsAre(v);
    assert IsNginxSize(v) ==> SizeOf(v, n);
    forall k | SizeOf(v, k)
      ensures k == n && IsNginxSize(v)
    {
      assert |v| == k + 1 ==> !IsDigit(v[k]);
    }
  }

  /** The largest number that `n` more digits can make of `acc`. */
  function Largest(acc: nat, n: nat): nat
    decreases n
  {
    if n == 0 then acc else Largest(10 * acc + 9, n - 1)
  }

  lemma {:induction false} LargestGrows(a: nat, b: nat, n: nat, m: nat)
    requires a <= b && n <= m
    ensures Largest(a, n) <= Largest(b, m)
    decreases m
  {
    if n > 0 {
      LargestGrows(10 * a + 9, 10 * b + 9, n - 1, m - 1);
    } else if m > 0 {
      LargestGrows(a, 10 * b + 9, 0, m - 1);
    }
  }

  lemma {:induction false} ReadDigitsBounds(acc: nat, s: string)
    ensures ReadDigits(acc, s).1 == s[LeadingDigits(s)..]
    ensures acc <= ReadDigits(acc, s).0 <= Largest(acc, LeadingDigits(s))
    decreases s
  {
    if s == [] || !IsDigit(s[0]) {
    } else {
      var next := 10 * acc + DigitValue(s[0]);
      ReadDigitsBounds(next, s[1..]);
      LargestGrows(next, 10 * acc + 9, LeadingDigits(s[1..]), LeadingDigits(s[1..]));
    }
  }

  /** An accepted size is a number from 1 to 9999999, so never "no limit" and never too large, and a unit. */
  lemma NginxSizeIsBounded(v: string)
    requires IsNginxSize(v)
    ensures var (n, unit) := ReadDigits(0, v); 1 <= n <= 9_999_999 && (unit == "" || (|unit| == 1 && unit[0] in "kKmMgG"))
  {
    ReadDigitsBounds(DigitValue(v[0]), v[1..]);
    ReadDigitsBounds(0, v);
    LargestGrows(0, 0, LeadingDigits(v), 7);
    assert Largest(0, 7) == 9_999_999;
  }

  // ---- The table ----

  /** An expression of the table constructor: the peers, or a literal. */
  datatype Expr = PeerTable(rows: seq<string>) | Literal(text: string)

  datatype Assign = Assign(key: string, expr: Expr)

  datatype Conf = Conf(route: string, bodySize: Option<string>, table: seq<Assign>)

  datatype RouteData = RouteData(route: string, extra: map<string, string>, raw: map<string, string>, peers: seq<Peer>)

  const MAX_BODY_SIZE := "max_body_size"

  /** The last assignment to `key` wins. */
  function Last(table: seq<Assign>, key: string): Option<Expr> {
    if table == [] then None
    else
      var a := table[|table| - 1];
      if a.key == key then Some(a.expr) else Last(table[..|table| - 1], key)
  }

  /** The option `key` as the engine receives it. */
  function OptionValue(table: seq<Assign>, key: string): Option<LuaValue> {
    match Last(table, key)
    case Some(Literal(text)) => Some(LuaLiteral(text))
    case _ => None
  }

  /** What the spec says about the option: Raw first, then the value, which arrives as a word or on one line. */
  function IntendedValue(d: RouteData, key: string, isNum: string -> bool): Option<LuaValue> {
    if key in d.raw then Some(LuaLiteral(d.raw[key]))
    else if key in d.extra && key != MAX_BODY_SIZE then
      Some(if IsWord(d.extra[key], isNum) then Word(d.extra[key]) else Str(OneLine(d.extra[key])))
    else None
  }

  /** The peers that the table hands to the engine, in order. */
  ghost predicate HandsOver(table: seq<Assign>, peers: seq<Peer>) {
    match Last(table, "peers")
    case Some(PeerTable(rows)) =>
      |rows| == |peers| && forall i :: 0 <= i < |rows| ==> ReadPeer(rows[i]) == Some(Rendered(peers[i]))
    case _ => false
  }

  /** `keys` lists `all`: a template visits every key of a map exactly once. */
  ghost predicate Enumerates(keys: seq<string>, all: set<string>) {
    (forall k :: k in keys <==> k in all) && forall i, j :: 0 <= i < j < |keys| ==> keys[i] != keys[j]
  }

  lemma LastAppended(table: seq<Assign>, a: Assign)
    ensures forall k :: Last(table + [a], k) == if k == a.key then Some(a.expr) else Last(table, k)
  {
    assert (table + [a])[..|table|] == table;
  }

  /** Every row reads back as its peer, or as nothing at all if a text of the peer did not survive. */
  ghost predicate RowsOf(rows: seq<string>, peers: seq<Peer>, isPrint: char -> bool) {
    && |rows| == |peers|
    && forall i :: 0 <= i < |rows| ==>
         ReadPeer(rows[i]) == if ReadablePeer(peers[i], isPrint) then Some(Rendered(peers[i])) else None
  }

  predicate AllPeersReadable(peers: seq<Peer>, isPrint: char -> bool) {
    forall i :: 0 <= i < |peers| ==> ReadablePeer(peers[i], isPrint)
  }

  /** The rows of the peers. */
  method RenderPeers(peers: seq<Peer>, isPrint: char -> bool) returns (rows: seq<string>)
    ensures RowsOf(rows, peers, isPrint)
  {
    rows := [];
    for i := 0 to |peers|
      invariant RowsOf(rows, peers[..i], isPrint)
    {
      var row := LuaTuple(peers[i], isPrint);
      rows := rows + [row];
    }
    assert peers[..|peers|] == peers;
  }

  /** One section of the table: an assignment per key, to `text(key)`. */
  method RenderSection(table: seq<Assign>, keys: seq<string>, text: string -> string) returns (r: seq<Assign>)
    ensures forall k :: Last(r, k) == if k in keys then Some(Literal(text(k))) else Last(table, k)
  {
    r := table;
    for i := 0 to |keys|
      invariant forall k :: Last(r, k) == if k in keys[..i] then Some(Literal(text(k))) else Last(table, k)
    {
      var a := Assign(keys[i], Literal(text(keys[i])));
      LastAppended(r, a);
      r := r + [a];
      assert keys[..i + 1] == keys[..i] + [keys[i]];
    }
    assert keys[..|keys|] == keys;
  }

  function ExtraText(extra: map<string, string>, isNum: string -> bool): string -> string {
    k => LuaVal(Lookup(extra, k), isNum)
  }

  function RawText(raw: map<string, string>): string -> string {
    k => Lookup(raw, k)
  }

  /** The options that go into the table. */
  function TableExtra(extra: map<string, string>): map<string, string> {
    extra - {MAX_BODY_SIZE}
  }

  lemma OptionArrives(table: seq<Assign>, d: RouteData, k: string, isNum: string -> bool)
    requires forall n :: isNum(n) ==> '"' !in n
    requires Last(table, k) ==
             if k in d.raw then Some(Literal(d.raw[k]))
             else if k in TableExtra(d.extra) then Some(Literal(LuaVal(d.extra[k], isNum)))
             else None
    ensures OptionValue(table, k) == IntendedValue(d, k, isNum)
  {
    if k in d.extra {
      LuaValMeans(d.extra[k], isNum);
    }
  }

  /** The table of the template: the peers, then the options, then the raw options. */
  method RenderTable(rows: seq<string>, extra: map<string, string>, raw: map<string, string>, isNum: string -> bool,
                     extraKeys: seq<string>, rawKeys: seq<string>)
    returns (table: seq<Assign>)
    requires Enumerates(extraKeys, extra.Keys) && Enumerates(rawKeys, raw.Keys)
    ensures forall k :: Last(table, k) ==
                        if k in raw then Some(Literal(raw[k]))
                        else if k in extra then Some(Literal(LuaVal(extra[k], isNum)))
                        else if k == "peers" then Some(PeerTable(rows))
                        else None
  {
    table := [Assign("peers", PeerTable(rows))];
    LastAppended([], table[0]);
    assert table == [] + [table[0]];
    table := RenderSection(table, extraKeys, ExtraText(extra, isNum));
    table := RenderSection(table, rawKeys, RawText(raw));
  }

  /** `RenderRoute` for an llm route, where `keysOf` is the order in which the template visits a map. The body
      size is refused unless it is an nginx size, and leaves the options; every other option arrives with its
      intended value; and the peers arrive exactly when no option is named "peers" and all their texts survive. */
  method RenderRoute(d: RouteData, isNum: string -> bool, isPrint: char -> bool, keysOf: set<string> -> seq<string>)
    returns (r: Result<Conf, string>)
    requires forall n :: isNum(n) ==> '"' !in n
    requires forall s :: Enumerates(keysOf(s), s)
    ensures r.Err? <==> MAX_BODY_SIZE in d.extra && !IsNginxSize(TrimSpace(d.extra[MAX_BODY_SIZE]))
    ensures r.Ok? ==> r.value.route == d.route
    ensures r.Ok? ==> r.value.bodySize == if MAX_BODY_SIZE in d.extra then Some(TrimSpace(d.extra[MAX_BODY_SIZE])) else None
    ensures r.Ok? ==> forall k :: k != "peers" ==> OptionValue(r.value.table, k) == IntendedValue(d, k, isNum)
    ensures r.Ok? ==> (HandsOver(r.value.table, d.peers) <==>
                         "peers" !in d.extra && "peers" !in d.raw && AllPeersReadable(d.peers, isPrint))
  {
    var bodySize: Option<string>, extra := None, d.extra;
    if MAX_BODY_SIZE in d.extra {
      var v := TrimSpace(d.extra[MAX_BODY_SIZE]);
      if !IsNginxSize(v) {
        return Err(d.extra[MAX_BODY_SIZE]);
      }
      bodySize := Some(v);
      extra := d.extra - {MAX_BODY_SIZE};
    }
    assert extra == TableExtra(d.extra);
    var rows := RenderPeers(d.peers, isPrint);
    var table := RenderTable(rows, extra, d.raw, isNum, keysOf(extra.Keys), keysOf(d.raw.Keys));
    TableArrives(table, rows, d, isNum, isPrint);
    r := Ok(Conf(d.route, bodySize, table));
  }

  lemma TableArrives(table: seq<Assign>, rows: seq<string>, d: RouteData, isNum: string -> bool, isPrint: char -> bool)
    requires forall n :: isNum(n) ==> '"' !in n
    requires forall k :: Last(table, k) ==
                         if k in d.raw then Some(Literal(d.raw[k]))
                         else if k in TableExtra(d.extra) then Some(Literal(LuaVal(d.extra[k], isNum)))
                         else if k == "peers" then Some(PeerTable(rows))
                         else None
    requires RowsOf(rows, d.peers, isPrint)
    ensures forall k :: k != "peers" ==> OptionValue(table, k) == IntendedValue(d, k, isNum)
    ensures HandsOver(table, d.peers) <==>
            "peers" !in d.extra && "peers" !in d.raw && AllPeersReadable(d.peers, isPrint)
  {
    forall k | k != "peers"
      ensures OptionValue(table, k) == IntendedValue(d, k, isNum)
    {
      OptionArrives(table, d, k, isNum);
    }
    assert forall i :: 0 <= i < |rows| ==>
      (ReadPeer(rows[i]) == Some(Rendered(d.peers[i])) <==> ReadablePeer(d.peers[i], isPrint));
  }
}
