/**
  ICS-20 denominations as deps/evmos/ibc/utils.go computes them, over the denomination
  traces of ibc-go (vendor/github.com/cosmos/ibc-go/v7/modules/apps/transfer/types).

  A transfer strips the prefix `port/channel/` of the end it leaves through, or adds the
  prefix of the end it arrives at.  Over a network of paired channel ends this is word
  reduction, and the theorems follow it along every route.
 */
module Denoms {
  import opened Types
  import opened Text

  datatype Port = Port(port: string, channel: string)

  /** The SHA-256 hash of a full denomination path is a parameter. */
  type Hash = string -> string

  // ---- Strings ---------------------------------------------------------------------

  /** `strings.Split(s, "/")` */
  function Split(s: string): (items: seq<string>)
    ensures |items| >= 1
  {
    if s == "" then [""]
    else if s[0] == '/' then [""] + Split(s[1..])
    else var rest := Split(s[1..]); [[s[0]] + rest[0]] + rest[1..]
  }

  /** `strings.Join(items, "/")` */
  function Join(items: seq<string>): string {
    if items == [] then "" else if |items| == 1 then items[0] else items[0] + "/" + Join(items[1..])
  }

  predicate NoSlash(s: string) { '/' !in s }

  lemma {:induction false} JoinSplit(s: string)
    ensures Join(Split(s)) == s
  {
    if s != "" {
      JoinSplit(s[1..]);
      var rest := Split(s[1..]);
      if s[0] == '/' {
        assert Split(s)[1..] == rest;
        assert Join(Split(s)) == "" + "/" + Join(rest);
      } else {
        assert Split(s)[1..] == rest[1..];
        JoinFirst([s[0]], rest);
      }
      assert s == [s[0]] + s[1..];
    }
  }

  lemma Regroup(a: string, b: string, c: string)
    ensures (a + b) + "/" + c == a + (b + "/" + c)
    ensures (a + "/" + b) + "/" + c == a + "/" + (b + "/" + c)
  {
  }

  lemma JoinFirst(c: string, rest: seq<string>)
    requires |rest| >= 1
    ensures Join([c + rest[0]] + rest[1..]) == c + Join(rest)
  {
    var items := [c + rest[0]] + rest[1..];
    assert items[1..] == rest[1..];
    if |rest| > 1 {
      Regroup(c, rest[0], Join(rest[1..]));
    }
  }

  lemma {:induction false} JoinConcat(a: seq<string>, b: seq<string>)
    requires a != [] && b != []
    ensures Join(a + b) == Join(a) + "/" + Join(b)
  {
    if |a| == 1 {
      assert (a + b)[1..] == b;
    } else {
      assert (a + b)[1..] == a[1..] + b;
      JoinConcat(a[1..], b);
      Regroup(a[0], Join(a[1..]), Join(b));
    }
  }

  // ---- Traces ------------------------------------------------------------------------

  datatype Trace = Trace(path: string, base: string)

  predicate IsDigits(s: string) {
    forall i :: 0 <= i < |s| ==> '0' <= s[i] <= '9'
  }

  function Value(s: string): nat
    requires IsDigits(s)
  {
    if s == "" then 0 else 10 * Value(s[..|s| - 1]) + (s[|s| - 1] as int - '0' as int)
  }

  /** `channel-{N}` with at most 20 digits and N below 2^64. */
  predicate IsValidChannelID(s: string) {
    && |s| >= 8 && s[..8] == "channel-"
    && 1 <= |s[8..]| <= 20 && IsDigits(s[8..])
    && Value(s[8..]) < 0x1_0000_0000_0000_0000
  }

  /** How many leading items `extractPathAndBaseFromFullDenom` takes for the path, from item `i` on. */
  function PathItems(items: seq<string>, i: nat): (k: nat)
    requires i <= |items|
    ensures i <= k <= |items|
    decreases |items| - i
  {
    if i + 1 < |items| && |items| > 2 && IsValidChannelID(items[i + 1]) then PathItems(items, i + 2) else i
  }

  function ParseDenomTrace(raw: string): Trace {
    var items := Split(raw);
    if items[0] == raw then Trace("", raw)
    else
      var k := PathItems(items, 0);
      Trace(Join(items[..k]), Join(items[k..]))
  }

  function GetFullDenomPath(t: Trace): string {
    if t.path == "" then t.base else t.path + "/" + t.base
  }

  function IBCDenom(hash: Hash, t: Trace): string {
    if t.path != "" then "ibc/" + hash(GetFullDenomPath(t)) else t.base
  }

  /** The parser takes every item for the path and leaves an empty base denomination. */
  predicate AllPath(raw: string) {
    PathItems(Split(raw), 0) == |Split(raw)|
  }

  lemma PathHasSlash(items: seq<string>)
    requires |items| >= 2
    ensures Join(items) != ""
  {
  }

  lemma SkipsOrTwo(items: seq<string>)
    ensures PathItems(items, 0) == 0 || PathItems(items, 0) >= 2
  {
  }

  /**
    Parsing and printing give the denomination back, except that a denomination
    made of port/channel pairs only comes back with a slash at its end.
   */
  lemma ParsePrint(raw: string)
    ensures GetFullDenomPath(ParseDenomTrace(raw)) == if AllPath(raw) then raw + "/" else raw
    ensures ParseDenomTrace(raw).path == "" ==> ParseDenomTrace(raw).base == raw
  {
    var items := Split(raw);
    var k := PathItems(items, 0);
    JoinSplit(raw);
    SkipsOrTwo(items);
    if items[0] == raw {
      OneItem(raw);
    } else if k == 0 {
      assert items[..0] == [] && items[0..] == items;
    } else {
      PathHasSlash(items[..k]);
      if k == |items| {
        assert items[..k] == items && items[k..] == [];
      } else {
        JoinConcat(items[..k], items[k..]);
        assert items[..k] + items[k..] == items;
      }
    }
  }

  lemma OneItem(raw: string)
    requires Split(raw)[0] == raw
    ensures |Split(raw)| == 1
  {
  }

  /** Splitting undoes joining items that hold no slash themselves. */
  lemma {:induction false} SplitJoin(items: seq<string>)
    requires items != [] && forall i :: 0 <= i < |items| ==> NoSlash(items[i])
    ensures Split(Join(items)) == items
  {
    SplitOne(items[0], if |items| == 1 then "" else "/" + Join(items[1..]));
    if |items| == 1 {
      assert items[0] + "" == items[0] && items == [items[0]];
    } else {
      SplitJoin(items[1..]);
      assert items[0] + "/" + Join(items[1..]) == items[0] + ("/" + Join(items[1..]));
      assert ("/" + Join(items[1..]))[1..] == Join(items[1..]);
      assert items == [items[0]] + items[1..];
    }
  }

  lemma {:induction false} SplitOne(item: string, rest: string)
    requires NoSlash(item) && (rest == "" || rest[0] == '/')
    ensures Split(item + rest) == [item] + (if rest == "" then [] else Split(rest[1..]))
  {
    if item == "" {
      assert item + rest == rest;
    } else {
      assert (item + rest)[1..] == item[1..] + rest;
      SplitOne(item[1..], rest);
      assert item == [item[0]] + item[1..];
    }
  }

  /** Two port and channel pairs and no base denomination. */
  lemma PathOnlyGainsSlash()
    ensures var raw := Join(["transfer", "channel-0", "transfer", "channel-1"]);
            AllPath(raw) && GetFullDenomPath(ParseDenomTrace(raw)) == raw + "/" != raw
  {
    var items := ["transfer", "channel-0", "transfer", "channel-1"];
    SplitJoin(items);
    assert "channel-0"[8..] == "0" && "channel-1"[8..] == "1";
    assert "0"[..0] == "" && "1"[..0] == "";
    assert IsValidChannelID(items[1]) && IsValidChannelID(items[3]);
    ParsePrint(Join(items));
  }

  /** Where any denomination is split: behind its longest run of pairs that end in channel identifiers, if it has three items. */
  lemma SplitPoint(raw: string)
    ensures var items, k := Split(raw), PathItems(Split(raw), 0);
            && k % 2 == 0 && (|items| <= 2 ==> k == 0)
            && (forall j :: 0 <= j < k && j % 2 == 1 ==> IsValidChannelID(items[j]))
            && (|items| > 2 && k + 1 < |items| ==> !IsValidChannelID(items[k + 1]))
    ensures var items, k := Split(raw), PathItems(Split(raw), 0);
            |items| > 1 ==> ParseDenomTrace(raw) == Trace(Join(items[..k]), Join(items[k..]))
    ensures |Split(raw)| == 1 ==> ParseDenomTrace(raw) == Trace("", raw)
  {
    PairsFrom(Split(raw), 0);
    JoinSplit(raw);
    if Split(raw)[0] == raw {
      OneItem(raw);
    }
  }

  lemma {:induction false} PairsFrom(items: seq<string>, i: nat)
    requires i <= |items|
    ensures var k := PathItems(items, i);
            && (k - i) % 2 == 0 && (|items| <= 2 ==> k == i)
            && (forall j :: i <= j < k && (j - i) % 2 == 1 ==> IsValidChannelID(items[j]))
            && (|items| > 2 && k + 1 < |items| ==> !IsValidChannelID(items[k + 1]))
    decreases |items| - i
  {
    if i + 1 < |items| && |items| > 2 && IsValidChannelID(items[i + 1]) {
      PairsFrom(items, i + 2);
    }
  }

  // ---- Coins ---------------------------------------------------------------------------

  function GetDenomPrefix(p: Port): string {
    p.port + "/" + p.channel + "/"
  }

  predicate ReceiverChainIsSource(src: Port, raw: string) {
    GetDenomPrefix(src) <= raw
  }

  /** The amount is the one parsed from the packet, already validated. */
  function GetReceivedCoin(hash: Hash, src: Port, dst: Port, raw: string, amount: int): Coin {
    if ReceiverChainIsSource(src, raw) then
      var unprefixed := raw[|GetDenomPrefix(src)|..];
      var trace := ParseDenomTrace(unprefixed);
      Coin(if trace.path != "" then IBCDenom(hash, trace) else unprefixed, amount)
    else
      Coin(IBCDenom(hash, ParseDenomTrace(GetDenomPrefix(dst) + raw)), amount)
  }

  function GetSentCoin(hash: Hash, raw: string, amount: int): Coin {
    Coin(IBCDenom(hash, ParseDenomTrace(raw)), amount)
  }

  /** The full denomination a transfer arrives with. */
  function ReceivedDenom(src: Port, dst: Port, raw: string): string {
    if ReceiverChainIsSource(src, raw) then raw[|GetDenomPrefix(src)|..] else GetDenomPrefix(dst) + raw
  }

  /** The received coin is the one the receiver itself would report for sending that denomination on. */
  lemma ReceivedIsSendable(hash: Hash, src: Port, dst: Port, raw: string, amount: int)
    ensures GetReceivedCoin(hash, src, dst, raw, amount) == GetSentCoin(hash, ReceivedDenom(src, dst, raw), amount)
  {
    ParsePrint(ReceivedDenom(src, dst, raw));
  }

  /** There and straight back restores the denomination if and only if it does not begin with the hop and its own pair. */
  lemma RoundTripIff(src: Port, dst: Port, raw: string)
    ensures ReceivedDenom(dst, src, ReceivedDenom(src, dst, raw)) == raw
       <==> !(GetDenomPrefix(src) + GetDenomPrefix(dst) <= raw)
  {
  }

  /** A denomination that starts with the hop and its pair loses both on the way there and back. */
  lemma DoubledPrefixIsLost(src: Port, dst: Port, rest: string)
    ensures var raw := GetDenomPrefix(src) + GetDenomPrefix(dst) + rest;
            ReceivedDenom(dst, src, ReceivedDenom(src, dst, raw)) == rest != raw
  {
  }

  /** The coin that comes back is the coin that was sent. */
  lemma RoundTripCoin(hash: Hash, src: Port, dst: Port, raw: string, amount: int)
    requires !(GetDenomPrefix(src) + GetDenomPrefix(dst) <= raw)
    ensures GetReceivedCoin(hash, dst, src, ReceivedDenom(src, dst, raw), amount) == GetSentCoin(hash, raw, amount)
  {
    ReceivedIsSendable(hash, dst, src, ReceivedDenom(src, dst, raw), amount);
    RoundTripIff(src, dst, raw);
  }

  // ---- Networks -------------------------------------------------------------------------

  datatype ChannelEnd = ChannelEnd(chain: nat, name: Port)

  /** Every end has one counterparty, and identifiers hold no slash. */
  ghost predicate Network(net: map<ChannelEnd, ChannelEnd>) {
    forall e :: e in net ==>
      && net[e] in net && net[net[e]] == e
      && NoSlash(e.name.port) && NoSlash(e.name.channel)
  }

  function Prefix(e: ChannelEnd): string { GetDenomPrefix(e.name) }

  /** A native denomination does not itself start like a hop of the network. */
  ghost predicate Native(net: map<ChannelEnd, ChannelEnd>, base: string) {
    forall e :: e in net ==> !(Prefix(e) <= base)
  }

  /** Sending over end `e`. */
  function Transfer(net: map<ChannelEnd, ChannelEnd>, e: ChannelEnd, raw: string): string
    requires e in net
  {
    ReceivedDenom(e.name, net[e].name, raw)
  }

  /** `route` leads from chain `c` over existing ends, one after the other. */
  ghost predicate Route(net: map<ChannelEnd, ChannelEnd>, c: nat, route: seq<ChannelEnd>)
    decreases |route|
  {
    route == [] || (route[0] in net && route[0].chain == c && Route(net, net[route[0]].chain, route[1..]))
  }

  ghost function Travel(net: map<ChannelEnd, ChannelEnd>, c: nat, raw: string, route: seq<ChannelEnd>): string
    requires Route(net, c, route)
    decreases |route|
  {
    if route == [] then raw else Travel(net, net[route[0]].chain, Transfer(net, route[0], raw), route[1..])
  }

  // ---- Traces as words ---------------------------------------------------------------------

  /** The hops of a trace, outermost first, and the base denomination. */
  function Render(hops: seq<ChannelEnd>, base: string): string {
    if hops == [] then base else Prefix(hops[0]) + Render(hops[1..], base)
  }

  function Hop(net: map<ChannelEnd, ChannelEnd>, e: ChannelEnd, hops: seq<ChannelEnd>): seq<ChannelEnd>
    requires e in net
  {
    if hops != [] && hops[0] == e then hops[1..] else [net[e]] + hops
  }

  /** The hops start on chain `c` and each leads to the chain of the next. */
  ghost predicate Chained(net: map<ChannelEnd, ChannelEnd>, c: nat, hops: seq<ChannelEnd>)
    decreases |hops|
  {
    hops == [] || (hops[0] in net && hops[0].chain == c && Chained(net, net[hops[0]].chain, hops[1..]))
  }

  /** No hop is followed by the hop at its paired end. */
  ghost predicate Reduced(net: map<ChannelEnd, ChannelEnd>, hops: seq<ChannelEnd>) {
    forall i, j :: 0 <= i < j < |hops| && j == i + 1 ==> !(hops[i] in net && hops[j] == net[hops[i]])
  }

  lemma NotShorter(a: string, b: string, x: string, y: string)
    requires NoSlash(b) && a + "/" + x == b + "/" + y
    ensures |a| >= |b|
  {
    var s := a + "/" + x;
    assert s[|a|] == '/';
    assert s[..|b|] == b;
  }

  lemma SlashSplits(a: string, b: string, x: string, y: string)
    requires NoSlash(a) && NoSlash(b) && a + "/" + x == b + "/" + y
    ensures a == b && x == y
  {
    var s := a + "/" + x;
    NotShorter(a, b, x, y);
    NotShorter(b, a, y, x);
    assert a == s[..|a|] && b == s[..|b|];
    assert x == s[|a| + 1..] && y == s[|b| + 1..];
  }

  /** Slash-free names can be read off a prefix. */
  lemma PrefixNames(p: Port, q: Port, rest: string)
    requires NoSlash(p.port) && NoSlash(p.channel) && NoSlash(q.port) && NoSlash(q.channel)
    ensures GetDenomPrefix(p) <= GetDenomPrefix(q) + rest <==> p == q
  {
    var raw := GetDenomPrefix(q) + rest;
    if GetDenomPrefix(p) <= raw {
      var u := raw[|GetDenomPrefix(p)|..];
      assert raw == GetDenomPrefix(p) + u;
      Regroup2(p.port, p.channel, u);
      Regroup2(q.port, q.channel, rest);
      SlashSplits(p.port, q.port, p.channel + "/" + u, q.channel + "/" + rest);
      SlashSplits(p.channel, q.channel, u, rest);
    }
  }

  lemma Regroup2(a: string, b: string, c: string)
    ensures (a + "/" + b + "/") + c == a + "/" + (b + "/" + c)
  {
  }

  /** One transfer on strings is one step of word reduction. */
  lemma TransferIsHop(net: map<ChannelEnd, ChannelEnd>, c: nat, hops: seq<ChannelEnd>, base: string, e: ChannelEnd)
    requires Network(net) && Native(net, base) && Chained(net, c, hops) && e in net && e.chain == c
    ensures Transfer(net, e, Render(hops, base)) == Render(Hop(net, e, hops), base)
    ensures Chained(net, net[e].chain, Hop(net, e, hops))
  {
    if hops == [] {
      assert Hop(net, e, hops)[1..] == [];
    } else {
      PrefixNames(e.name, hops[0].name, Render(hops[1..], base));
      if hops[0] == e {
        assert (Prefix(e) + Render(hops[1..], base))[|Prefix(e)|..] == Render(hops[1..], base);
      } else {
        assert Hop(net, e, hops)[1..] == hops;
      }
    }
  }

  lemma HopKeepsReduced(net: map<ChannelEnd, ChannelEnd>, hops: seq<ChannelEnd>, e: ChannelEnd)
    requires Network(net) && Reduced(net, hops) && e in net
    ensures Reduced(net, Hop(net, e, hops))
  {
  }

  /** In a reduced trace the way back undoes the way out. */
  lemma HopBack(net: map<ChannelEnd, ChannelEnd>, hops: seq<ChannelEnd>, e: ChannelEnd)
    requires Network(net) && Reduced(net, hops) && e in net
    ensures Hop(net, net[e], Hop(net, e, hops)) == hops
  {
  }

  /** From a reduced trace, over any end and straight back, comes the coin reported for the original. */
  lemma RoundTrip(hash: Hash, net: map<ChannelEnd, ChannelEnd>, c: nat, hops: seq<ChannelEnd>, base: string, e: ChannelEnd,
                  amount: int)
    requires Network(net) && Native(net, base) && Chained(net, c, hops) && Reduced(net, hops) && e in net && e.chain == c
    ensures GetReceivedCoin(hash, net[e].name, e.name, Transfer(net, e, Render(hops, base)), amount)
         == GetSentCoin(hash, Render(hops, base), amount)
  {
    TransferIsHop(net, c, hops, base, e);
    TransferIsHop(net, net[e].chain, Hop(net, e, hops), base, net[e]);
    HopBack(net, hops, e);
    ReceivedIsSendable(hash, net[e].name, e.name, Transfer(net, e, Render(hops, base)), amount);
  }

  // ---- Every route ----------------------------------------------------------------------------

  /** The hops of the trace after a route. */
  ghost function Hops(net: map<ChannelEnd, ChannelEnd>, c: nat, hops: seq<ChannelEnd>, route: seq<ChannelEnd>): seq<ChannelEnd>
    requires Route(net, c, route)
    decreases |route|
  {
    if route == [] then hops else Hops(net, net[route[0]].chain, Hop(net, route[0], hops), route[1..])
  }

  ghost function Arrival(net: map<ChannelEnd, ChannelEnd>, c: nat, route: seq<ChannelEnd>): nat
    requires Route(net, c, route)
    decreases |route|
  {
    if route == [] then c else Arrival(net, net[route[0]].chain, route[1..])
  }

  /** Every denomination that travels stays a reduced trace of hops that lead to where it is. */
  lemma {:induction false} TravelIsReduction(net: map<ChannelEnd, ChannelEnd>, c: nat, hops: seq<ChannelEnd>, base: string,
                                             route: seq<ChannelEnd>)
    requires Network(net) && Native(net, base) && Route(net, c, route)
    requires Chained(net, c, hops) && Reduced(net, hops)
    ensures Travel(net, c, Render(hops, base), route) == Render(Hops(net, c, hops, route), base)
    ensures Chained(net, Arrival(net, c, route), Hops(net, c, hops, route))
    ensures Reduced(net, Hops(net, c, hops, route))
    decreases |route|
  {
    if route != [] {
      var e := route[0];
      TransferIsHop(net, c, hops, base, e);
      HopKeepsReduced(net, hops, e);
      TravelIsReduction(net, net[e].chain, Hop(net, e, hops), base, route[1..]);
    }
  }

  /** From a native denomination, every reachable trace is reduced. */
  lemma ReachableIsReduced(net: map<ChannelEnd, ChannelEnd>, c: nat, base: string, route: seq<ChannelEnd>)
    requires Network(net) && Native(net, base) && Route(net, c, route)
    ensures Travel(net, c, base, route) == Render(Hops(net, c, [], route), base)
    ensures Reduced(net, Hops(net, c, [], route))
  {
    TravelIsReduction(net, c, [], base, route);
  }

  /** The route that retraces `route`. */
  ghost function Back(net: map<ChannelEnd, ChannelEnd>, c: nat, route: seq<ChannelEnd>): seq<ChannelEnd>
    requires Route(net, c, route)
    decreases |route|
  {
    if route == [] then [] else Back(net, net[route[0]].chain, route[1..]) + [net[route[0]]]
  }

  lemma {:induction false} RouteSnoc(net: map<ChannelEnd, ChannelEnd>, c: nat, route: seq<ChannelEnd>, e: ChannelEnd, raw: string)
    requires Route(net, c, route) && e in net && e.chain == Arrival(net, c, route)
    ensures Route(net, c, route + [e]) && Arrival(net, c, route + [e]) == net[e].chain
    ensures Travel(net, c, raw, route + [e]) == Transfer(net, e, Travel(net, c, raw, route))
    decreases |route|
  {
    var longer := route + [e];
    if route == [] {
      assert longer[1..] == [];
    } else {
      assert longer[1..] == route[1..] + [e];
      RouteSnoc(net, net[route[0]].chain, route[1..], e, Transfer(net, route[0], raw));
    }
  }

  /** Unwinding any multi-hop route returns the original denomination, from every reduced trace. */
  lemma {:induction false} Unwind(net: map<ChannelEnd, ChannelEnd>, c: nat, hops: seq<ChannelEnd>, base: string,
                                  route: seq<ChannelEnd>)
    requires Network(net) && Native(net, base) && Route(net, c, route)
    requires Chained(net, c, hops) && Reduced(net, hops)
    ensures Route(net, Arrival(net, c, route), Back(net, c, route))
    ensures Arrival(net, Arrival(net, c, route), Back(net, c, route)) == c
    ensures Travel(net, Arrival(net, c, route), Travel(net, c, Render(hops, base), route), Back(net, c, route))
         == Render(hops, base)
    decreases |route|
  {
    if route != [] {
      var e, rest := route[0], route[1..];
      var d := net[e].chain;
      var out := Hop(net, e, hops);
      TransferIsHop(net, c, hops, base, e);
      HopKeepsReduced(net, hops, e);
      Unwind(net, d, out, base, rest);
      var far := Arrival(net, d, rest);
      RouteSnoc(net, far, Back(net, d, rest), net[e], Travel(net, d, Render(out, base), rest));
      TransferIsHop(net, d, out, base, net[e]);
      HopBack(net, hops, e);
    }
  }

  /** The coin that arrives with the last hop of the way back is the coin reported as sent on the way out, amount included. */
  lemma UnwindCoin(hash: Hash, net: map<ChannelEnd, ChannelEnd>, c: nat, hops: seq<ChannelEnd>, base: string,
                   route: seq<ChannelEnd>, amount: int)
    requires Network(net) && Native(net, base) && Route(net, c, route) && route != []
    requires Chained(net, c, hops) && Reduced(net, hops)
    ensures var e, d := route[0], net[route[0]].chain;
            var far, back := Arrival(net, d, route[1..]), Back(net, d, route[1..]);
            && Route(net, far, back)
            && GetReceivedCoin(hash, net[e].name, e.name,
                               Travel(net, far, Travel(net, c, Render(hops, base), route), back), amount)
            == GetSentCoin(hash, Render(hops, base), amount)
  {
    var e := route[0];
    TransferIsHop(net, c, hops, base, e);
    HopKeepsReduced(net, hops, e);
    Unwind(net, net[e].chain, Hop(net, e, hops), base, route[1..]);
    RoundTrip(hash, net, c, hops, base, e, amount);
  }

  // ---- Channel identifiers -----------------------------------------------------------------------

  lemma {:induction false} DigitsValue(n: nat)
    ensures IsDigits(Digits(n)) && Value(Digits(n)) == n && |Digits(n)| >= 1
  {
    var d := Digits(n);
    if n < 10 {
      assert d[..0] == "";
    } else {
      DigitsValue(n / 10);
      assert d[..|d| - 1] == Digits(n / 10);
      assert forall i :: 0 <= i < |d| - 1 ==> d[i] == Digits(n / 10)[i];
    }
  }

  function Power10(k: nat): nat { if k == 0 then 1 else 10 * Power10(k - 1) }

  lemma {:induction false} PowerSum(a: nat, b: nat)
    ensures Power10(a + b) == Power10(a) * Power10(b)
  {
    if a > 0 {
      PowerSum(a - 1, b);
      assert 10 * Power10(a - 1) * Power10(b) == Power10(a) * Power10(b);
    }
  }

  lemma {:induction false} DigitsLength(n: nat, k: nat)
    requires k >= 1 && n < Power10(k)
    ensures |Digits(n)| <= k
  {
    if n >= 10 {
      DigitsLength(n / 10, k - 1);
    }
  }

  /** A numbered channel has a valid identifier if and only if its number fits 64 bits. */
  lemma ChannelIds(n: nat)
    ensures IsValidChannelID("channel-" + Digits(n)) <==> n < TwoTo64
  {
    var s := "channel-" + Digits(n);
    DigitsValue(n);
    assert s[8..] == Digits(n);
    if n < TwoTo64 {
      assert Power10(2) == 100 && Power10(3) == 1000;
      PowerSum(2, 3);
      PowerSum(5, 5);
      PowerSum(10, 10);
      DigitsLength(n, 20);
    }
  }

  lemma ChannelHasNoSlash(s: string)
    requires IsValidChannelID(s)
    ensures NoSlash(s)
  {
    assert s == s[..8] + s[8..];
  }

  // ---- Where a denomination is split ------------------------------------------------------------------

  /** The identifiers of the hops: port, channel, port, channel, ... */
  function Names(hops: seq<ChannelEnd>): seq<string> {
    if hops == [] then [] else [hops[0].name.port, hops[0].name.channel] + Names(hops[1..])
  }

  lemma {:induction false} NamesAt(hops: seq<ChannelEnd>, j: nat)
    requires j < |hops|
    ensures |Names(hops)| == 2 * |hops|
    ensures Names(hops)[2 * j] == hops[j].name.port && Names(hops)[2 * j + 1] == hops[j].name.channel
  {
    if |hops| > 1 {
      NamesAt(hops[1..], if j > 0 then j - 1 else 0);
    } else {
      assert Names(hops[1..]) == [];
    }
  }

  /** Ports without a slash and valid channel identifiers. */
  ghost predicate Wired(hops: seq<ChannelEnd>) {
    forall i :: 0 <= i < |hops| ==> NoSlash(hops[i].name.port) && IsValidChannelID(hops[i].name.channel)
  }

  /** The base does not go on like a path: its second item, if any, is no channel identifier. */
  predicate Plain(base: string) {
    |Split(base)| >= 2 ==> !IsValidChannelID(Split(base)[1])
  }

  lemma SlashFreeIsPlain(base: string)
    requires NoSlash(base)
    ensures Plain(base)
  {
    SplitOne(base, "");
    assert base + "" == base;
  }

  lemma {:induction false} ItemsHaveNoSlash(s: string)
    ensures forall i :: 0 <= i < |Split(s)| ==> NoSlash(Split(s)[i])
  {
    if s != "" {
      ItemsHaveNoSlash(s[1..]);
    }
  }

  lemma {:induction false} RenderItems(hops: seq<ChannelEnd>, base: string)
    ensures Render(hops, base) == Join(Names(hops) + Split(base))
  {
    if hops == [] {
      JoinSplit(base);
      assert Names(hops) + Split(base) == Split(base);
    } else {
      var p, c, rest := hops[0].name.port, hops[0].name.channel, Names(hops[1..]) + Split(base);
      RenderItems(hops[1..], base);
      assert Names(hops) + Split(base) == [p] + ([c] + rest);
      JoinCons(p, [c] + rest);
      JoinCons(c, rest);
      Regroup2(p, c, Join(rest));
    }
  }

  lemma JoinCons(item: string, rest: seq<string>)
    requires rest != []
    ensures Join([item] + rest) == item + "/" + Join(rest)
  {
    assert ([item] + rest)[1..] == rest;
  }

  lemma {:induction false} NamesHaveNoSlash(hops: seq<ChannelEnd>)
    requires Wired(hops)
    ensures forall i :: 0 <= i < |Names(hops)| ==> NoSlash(Names(hops)[i])
  {
    if hops != [] {
      ChannelHasNoSlash(hops[0].name.channel);
      NamesHaveNoSlash(hops[1..]);
    }
  }

  lemma RenderSplits(hops: seq<ChannelEnd>, base: string)
    requires Wired(hops)
    ensures Split(Render(hops, base)) == Names(hops) + Split(base)
  {
    RenderItems(hops, base);
    NamesHaveNoSlash(hops);
    ItemsHaveNoSlash(base);
    SplitJoin(Names(hops) + Split(base));
  }

  /** The parser takes exactly the pairs of the hops for the path. */
  lemma {:induction false} PathIsNames(hops: seq<ChannelEnd>, base: string, j: nat)
    requires Wired(hops) && Plain(base) && j <= |hops| == |Names(hops)| / 2
    ensures PathItems(Names(hops) + Split(base), 2 * j) == 2 * |hops| == |Names(hops)|
    decreases |hops| - j
  {
    var items := Names(hops) + Split(base);
    if hops != [] {
      NamesAt(hops, 0);
    }
    if j < |hops| {
      NamesAt(hops, j);
      assert items[2 * j + 1] == hops[j].name.channel;
      PathIsNames(hops, base, j + 1);
    } else if 2 * j + 1 < |items| {
      assert items[2 * j + 1] == Split(base)[1];
    }
  }

  lemma NamesLength(hops: seq<ChannelEnd>)
    ensures |Names(hops)| == 2 * |hops|
  {
    if hops != [] {
      NamesAt(hops, 0);
    }
  }

  /** A rendered trace is parsed into its hops and its base. */
  lemma ParseRender(hops: seq<ChannelEnd>, base: string)
    requires Wired(hops) && Plain(base)
    ensures ParseDenomTrace(Render(hops, base)) == Trace(Join(Names(hops)), base)
    ensures !AllPath(Render(hops, base)) && (Join(Names(hops)) == "" <==> hops == [])
  {
    var items := Names(hops) + Split(base);
    NamesLength(hops);
    RenderSplits(hops, base);
    PathIsNames(hops, base, 0);
    JoinSplit(base);
    assert items[..|Names(hops)|] == Names(hops) && items[|Names(hops)|..] == Split(base);
    if hops == [] {
      assert items == Split(base);
    } else {
      PathHasSlash(Names(hops));
      if items[0] == Render(hops, base) {
        OneItem(Render(hops, base));
        assert false;
      }
    }
  }

  /** The coin reported as sent: the hash of the full denomination, or the base where it is native. */
  lemma SentCoinIs(hash: Hash, hops: seq<ChannelEnd>, base: string, amount: int)
    requires Wired(hops) && Plain(base)
    ensures GetSentCoin(hash, Render(hops, base), amount)
         == Coin(if hops == [] then base else "ibc/" + hash(Render(hops, base)), amount)
  {
    ParseRender(hops, base);
    ParsePrint(Render(hops, base));
  }

  /** All channel identifiers of the network are valid. */
  ghost predicate WiredNet(net: map<ChannelEnd, ChannelEnd>) {
    forall e :: e in net ==> IsValidChannelID(e.name.channel)
  }

  lemma {:induction false} ChainedIsWired(net: map<ChannelEnd, ChannelEnd>, c: nat, hops: seq<ChannelEnd>)
    requires Network(net) && WiredNet(net) && Chained(net, c, hops)
    ensures Wired(hops)
    decreases |hops|
  {
    if hops != [] {
      ChainedIsWired(net, net[hops[0]].chain, hops[1..]);
    }
  }

  /**
    Along any route from a native denomination: the coin that arrives over the next end is named
    by the hash of the reduced hops, and by the base once it is home again.
   */
  lemma ReceivedCoinIs(hash: Hash, net: map<ChannelEnd, ChannelEnd>, c: nat, base: string, route: seq<ChannelEnd>, e: ChannelEnd,
                       amount: int)
    requires Network(net) && WiredNet(net) && Native(net, base) && Plain(base) && Route(net, c, route)
    requires e in net && e.chain == Arrival(net, c, route)
    ensures var hops := Hop(net, e, Hops(net, c, [], route));
            GetReceivedCoin(hash, e.name, net[e].name, Travel(net, c, base, route), amount)
            == Coin(if hops == [] then base else "ibc/" + hash(Render(hops, base)), amount)
  {
    var hops := Hops(net, c, [], route);
    TravelIsReduction(net, c, [], base, route);
    TransferIsHop(net, Arrival(net, c, route), hops, base, e);
    ChainedIsWired(net, net[e].chain, Hop(net, e, hops));
    ReceivedIsSendable(hash, e.name, net[e].name, Render(hops, base), amount);
    SentCoinIs(hash, Hop(net, e, hops), base, amount);
  }
}
