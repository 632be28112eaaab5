/** Rendering a video route: its two tiers of peers and its download bandwidth. */
module Video {
  import opened Base
  import opened Text
  import opened Config

  // ---- Tiers ----

  /** A line of the upstream: nginx knows primary servers and backups, nothing in between. */
  datatype VideoPeer = VideoPeer(ip: string, port: int, name: string, backup: bool)

  function Priorities(peers: seq<Peer>): set<int> {
    set p | p in peers :: p.priority
  }

  /** `checkVideoTiers`. */
  method CheckVideoTiers(peers: seq<Peer>) returns (ok: bool)
    ensures ok <==> |Priorities(peers)| <= 2
  {
    var seen: set<int> := {};
    for i := 0 to |peers|
      invariant seen == Priorities(peers[..i])
    {
      assert peers[..i + 1] == peers[..i] + [peers[i]];
      seen := seen + {peers[i].priority};
    }
    assert peers[..|peers|] == peers;
    ok := |seen| <= 2;
  }

  ghost predicate IsTop(peers: seq<Peer>, top: int) {
    (exists p :: p in peers && p.priority == top) && forall p :: p in peers ==> p.priority <= top
  }

  /** Exactly the peers below `top` are backups. */
  ghost predicate IsFlattened(peers: seq<Peer>, out: seq<VideoPeer>, top: int) {
    |out| == |peers| && forall i :: 0 <= i < |out| ==> (out[i].backup <==> peers[i].priority < top)
  }

  /** `toVideoPeers`: order and length are kept, and exactly the peers of the highest priority are primary. */
  method ToVideoPeers(peers: seq<Peer>) returns (out: seq<VideoPeer>)
    ensures |out| == |peers|
    ensures forall i :: 0 <= i < |out| ==>
              out[i].ip == peers[i].ip && out[i].port == peers[i].port && out[i].name == peers[i].name
    ensures peers != [] ==> exists top :: IsTop(peers, top) && IsFlattened(peers, out, top)
  {
    if |peers| == 0 {
      return [];
    }
    var top := peers[0].priority;
    for i := 0 to |peers|
      invariant exists k :: 0 <= k < |peers| && peers[k].priority == top
      invariant forall k :: 0 <= k < i ==> peers[k].priority <= top
    {
      if peers[i].priority > top {
        top := peers[i].priority;
      }
    }
    out := [];
    for i := 0 to |peers|
      invariant |out| == i
      invariant forall k :: 0 <= k < i ==>
                  out[k] == VideoPeer(peers[k].ip, peers[k].port, peers[k].name, peers[k].priority < top)
    {
      var p := peers[i];
      out := out + [VideoPeer(p.ip, p.port, p.name, p.priority < top)];
    }
    assert IsTop(peers, top) && IsFlattened(peers, out, top);
  }

  /** The flattening says exactly which peers come before which. */
  ghost predicate Faithful(peers: seq<Peer>, out: seq<VideoPeer>)
    requires |out| == |peers|
  {
    forall i, j :: 0 <= i < |peers| && 0 <= j < |peers| ==>
      (peers[i].priority > peers[j].priority <==> IsAhead(out[i], out[j]))
  }

  predicate IsAhead(p: VideoPeer, q: VideoPeer) {
    !p.backup && q.backup
  }

  lemma AtMostTwo(s: set<int>, a: int, b: int, c: int)
    requires a in s && b in s && c in s && a != b && b != c && a != c
    ensures |s| >= 3
  {
    var t := {a, b, c};
    assert t <= s && |t| == 3;
    SubsetSize(t, s);
  }

  lemma {:induction false} SubsetSize<T>(a: set<T>, b: set<T>)
    requires a <= b
    ensures |a| <= |b|
  {
    if a == {} {
    } else {
      var x :| x in a;
      SubsetSize(a - {x}, b - {x});
    }
  }

  lemma SizeAtMostTwo(s: set<int>, top: int, low: int)
    requires forall x :: x in s ==> x == top || x == low
    ensures |s| <= 2
  {
    var t := {top, low};
    assert forall x :: x in s ==> x in t;
    SubsetSize(s, t);
  }

  /** Flattening keeps the order of the priorities exactly when there are at most two of them, that is, when
      `checkVideoTiers` accepts the peers; and then some peer is primary. */
  lemma FlatteningIsFaithful(peers: seq<Peer>, out: seq<VideoPeer>, top: int)
    requires peers != [] && IsTop(peers, top) && IsFlattened(peers, out, top)
    ensures Faithful(peers, out) <==> |Priorities(peers)| <= 2
    ensures exists i :: 0 <= i < |out| && !out[i].backup
  {
    var p :| p in peers && p.priority == top;
    var t :| 0 <= t < |peers| && peers[t] == p;
    assert !out[t].backup;
    if Faithful(peers, out) {
      if low :| low in peers && low.priority < top {
        var l :| 0 <= l < |peers| && peers[l] == low;
        forall x | x in Priorities(peers)
          ensures x == top || x == low.priority
        {
          var q :| q in peers && q.priority == x;
          var j :| 0 <= j < |peers| && peers[j] == q;
          assert peers[j].priority > peers[l].priority <==> IsAhead(out[j], out[l]);
          assert peers[l].priority > peers[j].priority <==> IsAhead(out[l], out[j]);
        }
        SizeAtMostTwo(Priorities(peers), top, low.priority);
      } else {
        SizeAtMostTwo(Priorities(peers), top, top);
      }
    } else {
      var i, j :| 0 <= i < |peers| && 0 <= j < |peers|
                  && (peers[i].priority > peers[j].priority) != IsAhead(out[i], out[j]);
      assert peers[i] in peers && peers[j] in peers;
      AtMostTwo(Priorities(peers), top, peers[i].priority, peers[j].priority);
    }
  }

  // ---- Rates ----

  function Lower(s: string): (r: string)
    ensures |r| == |s|
  {
    seq(|s|, i requires 0 <= i < |s| => if 'A' <= s[i] <= 'Z' then s[i] - 'A' + 'a' else s[i])
  }

  /** No letter of A to Z is left: each has become the one at its place in a to z, and nothing else has changed. */
  lemma LowerIs(s: string, i: nat)
    requires i < |s|
    ensures var c, low := s[i], Lower(s)[i];
      if 'A' <= c <= 'Z' then 'a' <= low <= 'z' && low as int - 'a' as int == c as int - 'A' as int else low == c
  {
  }

  predicate HasSuffix(s: string, suffix: string) {
    |s| >= |suffix| && s[|s| - |suffix|..] == suffix
  }

  /** The factor of a bit rate's unit. */
  function BitUnit(low: string): Option<real> {
    if HasSuffix(low, "gbps") then Some(1000000000.0)
    else if HasSuffix(low, "mbps") then Some(1000000.0)
    else if HasSuffix(low, "kbps") then Some(1000.0)
    else None
  }

  /** The units in any case: bits per second in steps of a thousand, not of 1024. */
  lemma BitUnits(number: string, g: string)
    requires |g| == 4 && Lower(g)[1..] == "bps"
    ensures BitUnit(Lower(number + g)) ==
            match Lower(g)[0]
            case 'k' => Some(1000.0)
            case 'm' => Some(1000000.0)
            case 'g' => Some(1000000000.0)
            case _ => None
  {
    var low := Lower(number + g);
    assert low[|number|..] == Lower(g);
    assert Lower(g) == [Lower(g)[0]] + "bps";
  }

  datatype Problem = BadRate | BadLimit | LimitWithoutRate | RateNotDivisible

  /** The number of a bit rate, in bits per second, where `number` is what `ParseFloat` reads. */
  function Bits(s: string, number: string -> Option<real>): Option<real> {
    var low := Lower(s);
    if BitUnit(low).None? then None else Scaled(number(TrimSpace(low[..|low| - 4])), BitUnit(low).value)
  }

  /** A positive number of units. */
  function Scaled(n: Option<real>, unit: real): Option<real> {
    if n.Some? && n.value > 0.0 then Some(n.value * unit) else None
  }

  /** `parseRate`: nothing stays nothing, a bit rate becomes bytes per second, anything else is nginx's own. */
  function ParseRate(v: string, number: string -> Option<real>): Result<string, Problem> {
    RateOf(TrimSpace(v), number)
  }

  function RateOf(s: string, number: string -> Option<real>): Result<string, Problem> {
    if s == "" then Ok("")
    else if BitUnit(Lower(s)).None? then Ok(s)
    else if Bits(s, number).None? then Err(BadRate)
    else Ok(Decimal((Bits(s, number).value / 8.0).Floor))
  }

  const INT64_LIMIT := 0x8000_0000_0000_0000

  /** `strconv.ParseInt(s, 10, 64)`, and `Atoi` on a 64-bit machine. */
  function ParseInt(s: string): Option<int> {
    var signed := s != [] && (s[0] == '-' || s[0] == '+');
    var digits := if signed then s[1..] else s;
    if digits == [] || ReadDigits(0, digits).1 != [] then None
    else
      var n := ReadDigits(0, digits).0;
      var value: int := if signed && s[0] == '-' then 0 - n else n;
      if -INT64_LIMIT <= value < INT64_LIMIT then Some(value) else None
  }

  /** Exactly the texts of an optional sign and some digits that stand for an int64 are read, and as that. */
  lemma ParseIntMeans(s: string)
    ensures var signed := s != [] && s[0] in "+-";
      var digits := if signed then s[1..] else s;
      if digits != [] && AllDigits(digits) then
        var n: int := if signed && s[0] == '-' then 0 - Numeral(digits) else Numeral(digits);
        ParseInt(s) == if -0x8000_0000_0000_0000 <= n < 0x8000_0000_0000_0000 then Some(n) else None
      else ParseInt(s) == None
  {
    var digits := if s != [] && s[0] in "+-" then s[1..] else s;
    ReadDigitsStops(0, digits);
    if AllDigits(digits) {
      ReadDigitsMeans(digits);
    }
  }

  /** A number that fits reads back from its decimal text. */
  lemma ParseDecimal(n: int)
    requires -INT64_LIMIT <= n < INT64_LIMIT
    ensures ParseInt(Decimal(n)) == Some(n)
  {
    var m := if n < 0 then -n else n;
    ReadDigitsBack(m, "");
    assert Digits(m) + "" == Digits(m);
    assert Digits(m)[0] in Digits(m);
    if n < 0 {
      assert Decimal(n)[1..] == Digits(m);
    }
  }

  /** Go's integer division, which truncates toward zero. */
  function Quotient(a: int, b: int): int
    requires b > 0
  {
    if a >= 0 then a / b else -(-a / b)
  }

  /** The download limits of the template: connections at a time, and bytes per second for each. */
  datatype Download = Download(connections: string, rate: string)

  const DEFAULT_CONNECTIONS := "10"

  /** The rate divides over the connections: both are numbers, and there is a connection. */
  ghost predicate Divides(rate: string, connections: string) {
    ParseInt(rate).Some? && ParseInt(connections).Some? && ParseInt(connections).value > 0
  }

  /** `per` for each of `n` connections is a fair share of `total`. */
  ghost predicate Fair(total: int, n: int, per: int) {
    per >= 1 && n * per <= (if total > n then total else n) && total < (per + 1) * n
  }

  /** The part of `renderVideoRoute` that limits downloads. It succeeds exactly when nothing is limited, or a
      readable total rate divides over a positive number of connections. Both limits are set exactly when a
      rate is. Each connection gets at least 1 byte per second; together they get no more than the total,
      unless the total is too small to give every connection its 1; and not a byte per connection is wasted. */
  method LimitDownloads(rateLimit: string, connLimit: string, number: string -> Option<real>)
    returns (r: Result<Download, Problem>)
    ensures var rate := ParseRate(rateLimit, number);
      r.Ok? <==> rate.Ok? && if TrimSpace(rateLimit) == "" then TrimSpace(connLimit) == ""
                             else Divides(rate.value, if TrimSpace(connLimit) == "" then "10" else TrimSpace(connLimit))
    ensures r.Ok? ==> (r.value.connections != "" <==> TrimSpace(rateLimit) != "")
    ensures r.Ok? ==> (r.value.rate != "" <==> TrimSpace(rateLimit) != "")
    ensures r.Ok? && TrimSpace(rateLimit) != "" ==>
              var rate := ParseRate(rateLimit, number).value;
              && r.value.connections == (if TrimSpace(connLimit) == "" then "10" else TrimSpace(connLimit))
              && ParseInt(r.value.rate).Some?
              && Fair(ParseInt(rate).value, ParseInt(r.value.connections).value, ParseInt(r.value.rate).value)
  {
    var parsed := ParseRate(rateLimit, number);
    if parsed.Err? {
      return Err(parsed.error);
    }
    var rate := parsed.value;
    assert rate != "" <==> TrimSpace(rateLimit) != "";
    var connections := TrimSpace(connLimit);
    if connections == "" && rate != "" {
      connections := DEFAULT_CONNECTIONS;
    }
    var downloadRate := "";
    if connections != "" {
      var n := ParseInt(connections);
      if n.None? || n.value <= 0 {
        return Err(BadLimit);
      }
      if rate == "" {
        return Err(LimitWithoutRate);
      }
      var total := ParseInt(rate);
      if total.None? {
        return Err(RateNotDivisible);
      }
      var per := Quotient(total.value, n.value);
      if per < 1 {
        per := 1;
      }
      ShareIsFair(total.value, n.value, per);
      ParseDecimal(per);
      downloadRate := Decimal(per);
    }
    r := Ok(Download(connections, downloadRate));
  }

  lemma ShareIsFair(total: int, n: int, per: int)
    requires n > 0 && per == if Quotient(total, n) < 1 then 1 else Quotient(total, n)
    ensures Fair(total, n, per) && (per <= total || per == 1)
  {
    if total >= 0 {
      QuotientBounds(total, n, total / n);
      if total / n < 1 {
        assert total < n;
      }
    } else {
      assert -total / n >= 0;
    }
  }

  lemma QuotientBounds(total: int, n: int, q: int)
    requires total >= 0 && n > 0 && q == total / n
    ensures n * q <= total < (q + 1) * n && 0 <= q <= total
  {
    assert total == n * q + total % n;
    assert (q + 1) * n == n * q + n;
    AtLeastItself(n, q);
  }

  lemma {:induction false} AtLeastItself(n: int, q: int)
    requires n > 0 && q >= 0
    ensures n * q >= q
  {
    if q == 0 {
    } else {
      AtLeastItself(n, q - 1);
      assert n * q == n * (q - 1) + n;
    }
  }

  lemma BytesOf(bits: real)
    requires bits > 0.0 && bits / 8.0 < INT64_LIMIT as real
    ensures var total := (bits / 8.0).Floor;
      ParseInt(Decimal(total)) == Some(total) && (8 * total) as real <= bits < (8 * (total + 1)) as real
  {
    ParseDecimal((bits / 8.0).Floor);
  }

  /** A unit of so many bits per second, in any case. */
  predicate IsUnit(g: string, per: real) {
    || (Lower(g) == "kbps" && per == 1000.0)
    || (Lower(g) == "mbps" && per == 1000000.0)
    || (Lower(g) == "gbps" && per == 1000000000.0)
  }

  lemma LowerSplits(x: string, g: string)
    ensures Lower(x + g) == Lower(x) + Lower(g)
  {
  }

  lemma UnitOf(x: string, g: string, per: real)
    requires IsUnit(g, per)
    ensures var low := Lower(x + g);
      |low| >= 4 && low[..|low| - 4] == Lower(x) && BitUnit(low) == Some(per)
  {
    assert Lower(g)[1..] == "bps";
    BitUnits(x, g);
    LowerSplits(x, g);
  }

  lemma BitsMean(x: string, g: string, number: string -> Option<real>, per: real)
    requires IsUnit(g, per)
    ensures x + g != "" && BitUnit(Lower(x + g)).Some?
    ensures Bits(x + g, number) == Scaled(number(TrimSpace(Lower(x))), per)
  {
    UnitOf(x, g, per);
  }

  lemma RateOfBits(s: string, number: string -> Option<real>, total: int)
    requires Bits(s, number).Some? && total == (Bits(s, number).value / 8.0).Floor
    ensures RateOf(s, number) == Ok(Decimal(total))
  {
    assert s != "";
  }

  lemma NoRate(s: string, number: string -> Option<real>)
    requires s != "" && BitUnit(Lower(s)).Some? && Bits(s, number).None?
    ensures RateOf(s, number) == Err(BadRate)
  {
  }

  /** A number `n` and a unit `g`, of `per` bits per second, are `n * per` bits per second; one that is not
      positive, or no number at all, is refused. */
  lemma BitRateMeans(x: string, g: string, number: string -> Option<real>, n: Option<real>, per: real)
    returns (bits: Option<real>)
    requires IsUnit(g, per) && number(TrimSpace(Lower(x))) == n
    ensures bits.Some? <==> n.Some? && n.value > 0.0
    ensures bits.Some? ==> bits.value == n.value * per
    ensures Bits(x + g, number) == bits
    ensures bits.None? ==> RateOf(x + g, number) == Err(BadRate)
  {
    bits := Scaled(n, per);
    BitsMean(x, g, number, per);
    if bits.None? {
      NoRate(x + g, number);
    }
  }

  ghost predicate IsBitRate(s: string) {
    exists x, g, per :: IsUnit(g, per) && s == x + g
  }

  lemma SuffixIsUnit(x: string, g: string) returns (per: real)
    requires |g| == 4 && BitUnit(Lower(x + g)).Some?
    ensures IsUnit(g, per)
  {
    LowerSplits(x, g);
    assert Lower(x + g)[|x|..] == Lower(g);
    per := BitUnit(Lower(x + g)).value;
  }

  /** Any other text is handed on to nginx as it is, without the space around it. */
  lemma OtherRateMeans(v: string, number: string -> Option<real>)
    ensures IsBitRate(TrimSpace(v)) || ParseRate(v, number) == Ok(TrimSpace(v))
  {
    var s := TrimSpace(v);
    if BitUnit(Lower(s)).Some? {
      var x, g := s[..|s| - 4], s[|s| - 4..];
      assert s == x + g;
      var per := SuffixIsUnit(x, g);
    }
  }

  /** The total of a bit rate is its bits over eight, rounded down, and reads back from its text. */
  lemma BitRateTotal(s: string, number: string -> Option<real>) returns (total: int)
    requires Bits(s, number).Some? && Bits(s, number).value / 8.0 < INT64_LIMIT as real
    ensures RateOf(s, number) == Ok(Decimal(total)) && ParseInt(Decimal(total)) == Some(total)
    ensures (8 * total) as real <= Bits(s, number).value < (8 * (total + 1)) as real
  {
    var bits := Bits(s, number).value;
    total := (bits / 8.0).Floor;
    BytesOf(bits);
    RateOfBits(s, number, total);
  }
}
