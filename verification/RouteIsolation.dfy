/**
 The route-isolation check of scripts/nomotion_private_wifi_rollback.py.
 The script compares tokens printed by `ip route`; the lemmas at the end say what a view that
 passes means for the addresses the host can reach.  Text parsing by the ipaddress library
 arrives as data: every line carries the network its destination denotes.
 */
module RouteIsolation {

  datatype Option<+T> = None | Some(value: T)
  datatype Reason =
    | UnsafeDocker | UnsafeRulesOrListing4 | UnsafeRulesOrListing6
    | DefaultRoute | ForeignTable | GatewayRoute | UnexpectedType | UnexpectedLinkLocal
    | OutsidePrivateNetwork | WiredRoute | OverlappingRoute | UnboundRoute | PhysicalEgress | NonPrivateBridgeRoute
    | UnexpectedIpv6Route | DuplicateIpv6Route
    | DirectRouteCount | DuplicateLinkLocal | IncompleteIpv6Baseline

  datatype Verdict = Isolated | Refused(reason: Reason)

  // ----- Networks -----

  function Pow2(n: nat): (r: nat)
    ensures 0 < r
  {
    if n == 0 then 1 else 2 * Pow2(n - 1)
  }

  /** An IPv4 or IPv6 network; the address is the network address. */
  datatype Net = Net(family: nat, address: nat, prefixLen: nat) {
    predicate Valid() {
      (family == 4 && prefixLen <= 32) || (family == 6 && prefixLen <= 128)
    }

    function Last(): (last: nat)
      requires Valid()
      ensures address <= last
    {
      address + Pow2((if family == 4 then 32 else 128) - prefixLen) - 1
    }

    predicate Contains(a: nat)
      requires Valid()
    {
      address <= a <= Last()
    }

    /** The library's test: one of the four end points lies in the other network. */
    predicate Overlaps(other: Net)
      requires Valid() && other.Valid()
    {
      other.Contains(address) || other.Contains(Last()) || Contains(other.address) || Contains(other.Last())
    }
  }

  function V4(a: nat, b: nat, c: nat, d: nat): nat {
    ((a * 256 + b) * 256 + c) * 256 + d
  }

  const HOST_IP: nat := V4(192, 168, 123, 99)
  const PRIVATE_NETWORK: Net := Net(4, V4(192, 168, 123, 0), 24)
  const PRIVATE_BROADCAST: nat := V4(192, 168, 123, 255)
  const IPV4LL_NETWORK: Net := Net(4, V4(169, 254, 0, 0), 16)
  const IPV6_LINK_LOCAL: Net := Net(6, 0xfe80_0000_0000_0000_0000_0000_0000_0000, 64)

  /** The blocks and the exceptions that the library's is_private consults for IPv4. */
  const PRIVATE_BLOCKS: seq<Net> := [
    Net(4, V4(0, 0, 0, 0), 8), Net(4, V4(10, 0, 0, 0), 8), Net(4, V4(127, 0, 0, 0), 8),
    Net(4, V4(169, 254, 0, 0), 16), Net(4, V4(172, 16, 0, 0), 12), Net(4, V4(192, 0, 0, 0), 24),
    Net(4, V4(192, 0, 0, 170), 31), Net(4, V4(192, 0, 2, 0), 24), Net(4, V4(192, 168, 0, 0), 16),
    Net(4, V4(198, 18, 0, 0), 15), Net(4, V4(198, 51, 100, 0), 24), Net(4, V4(203, 0, 113, 0), 24),
    Net(4, V4(240, 0, 0, 0), 4), Net(4, V4(255, 255, 255, 255), 32)]
  const EXCEPTIONS: seq<nat> := [V4(192, 0, 0, 9), V4(192, 0, 0, 10)]

  /** One of the blocks holds the whole range. */
  predicate SomeBlockHolds(blocks: seq<Net>, low: nat, high: nat) {
    blocks != []
    && ((blocks[0].Valid() && blocks[0].Contains(low) && blocks[0].Contains(high)) || SomeBlockHolds(blocks[1..], low, high))
  }

  predicate InPrivateBlock(a: nat) {
    SomeBlockHolds(PRIVATE_BLOCKS, a, a)
  }

  predicate AddressIsPrivate(a: nat) {
    InPrivateBlock(a) && a !in EXCEPTIONS
  }

  /** Both ends in one block and neither of them an exception. */
  predicate NetIsPrivate(n: Net)
    requires n.Valid()
  {
    SomeBlockHolds(PRIVATE_BLOCKS, n.address, n.Last()) && n.address !in EXCEPTIONS && n.Last() !in EXCEPTIONS
  }

  lemma {:induction false} BlockHolds(blocks: seq<Net>, i: nat, low: nat, high: nat)
    requires i < |blocks| && blocks[i].Valid() && blocks[i].Contains(low) && blocks[i].Contains(high)
    ensures SomeBlockHolds(blocks, low, high)
  {
    if i > 0 { BlockHolds(blocks[1..], i - 1, low, high); }
  }

  lemma {:induction false} BlockIsConvex(blocks: seq<Net>, low: nat, a: nat, high: nat)
    requires SomeBlockHolds(blocks, low, high) && low <= a <= high
    ensures SomeBlockHolds(blocks, a, a)
  {
    if !(blocks[0].Valid() && blocks[0].Contains(low) && blocks[0].Contains(high)) {
      BlockIsConvex(blocks[1..], low, a, high);
    }
  }

  // ----- Parsed routes -----

  /**
   The blank-separated words of `ip route`.  Every word the script compares with has a
   constructor of its own; the rest keep their text.
   */
  datatype Token =
    | Anycast | Blackhole | Broadcast | Local | Multicast | Nat | Prohibit | Throw | Unreachable | Unicast
    | Dev | Via | Nexthop | Table | Scope | Src | Proto | Metric | Pref
    | Kernel | Link | Medium | Linkdown | Main | N0 | N254 | N255 | N256 | N1000
    | Wlo1 | Enp108s0 | Docker0 | Lo
    | HostAddress   // 192.168.123.99
    | LinkLocal4    // 169.254.0.0/16
    | Loopback6     // ::1
    | LinkLocal6    // fe80::/64
    | Multicast6    // ff00::/8
    | Text(text: string)


  const ROUTE_TYPES: set<Token> := {
    Anycast, Blackhole, Broadcast, Local, Multicast, Nat, Prohibit, Throw, Unreachable}

  /**
   One non-blank output line: its tokens, the network that the library makes of the destination
   token (None when it refuses it), and the library's text for the network address.
   */
  datatype Line = Line(tokens: seq<Token>, network: Option<Net>, addressText: Token)

  datatype Route = Route(routeType: Token, network: Net, interface: Option<Token>, table: Token,
                         hasGateway: bool, tokens: seq<Token>, addressText: Token)

  function IndexOf(tokens: seq<Token>, name: Token): (i: nat)
    ensures i <= |tokens|
    ensures i < |tokens| ==> tokens[i] == name
    ensures i == |tokens| <==> name !in tokens
    ensures forall j :: 0 <= j < i ==> tokens[j] != name
  {
    if tokens == [] then 0
    else if tokens[0] == name then 0
    else
      assert tokens == [tokens[0]] + tokens[1..];
      1 + IndexOf(tokens[1..], name)
  }

  /** The token after the first occurrence of a name; None when the name does not occur. */
  function ValueAfter(tokens: seq<Token>, name: Token): Option<Token> {
    var i := IndexOf(tokens, name);
    if i + 1 < |tokens| then Some(tokens[i + 1]) else None
  }

  /** A name in last position makes the whole line unreadable. */
  predicate Dangling(tokens: seq<Token>, name: Token) {
    IndexOf(tokens, name) + 1 == |tokens|
  }

  /** The destination follows the route type, when there is one. */
  function Destination(tokens: seq<Token>): Option<Token> {
    if tokens == [] then None
    else if tokens[0] !in ROUTE_TYPES then Some(tokens[0])
    else if |tokens| == 1 then None
    else Some(tokens[1])
  }

  function ParseRoute(line: Line, family: nat): Option<Route> {
    var tokens := line.tokens;
    if Destination(tokens).None? || line.network.None?
       || line.network.value.family != family || !line.network.value.Valid()
       || Dangling(tokens, Table) || Dangling(tokens, Dev)
    then None
    else
      var table := ValueAfter(tokens, Table);
      Some(Route(
        if tokens[0] in ROUTE_TYPES then tokens[0] else Unicast,
        line.network.value,
        ValueAfter(tokens, Dev),
        if table.Some? then table.value else Main,
        Via in tokens || Nexthop in tokens,
        tokens, line.addressText))
  }

  /** What the library guarantees about the texts it reads and writes. */
  ghost predicate Faithful(line: Line) {
    && (line.network.Some? ==> line.network.value.Valid())
    && (Destination(line.tokens) == Some(LinkLocal4) ==> line.network == Some(IPV4LL_NETWORK))
  }

  // ----- The state that the check reads -----

  /** A policy rule with its blanks normalised, split at the first colon. */
  datatype Rule = Rule(priority: string, body: string)

  /** docker0's IPv6 link-local address with its text. */
  datatype Docker = Docker(address: nat, text: Token)

  ghost predicate DockerText(line: Line, docker: Docker) {
    line.network.Some? && line.network.value.address == docker.address ==> line.addressText == docker.text
  }

  datatype View = View(
    docker: Option<Docker>, dockerReadable: bool, bridges: set<Token>,
    rules4: seq<Rule>, rules6: seq<Rule>, lines4: seq<Line>, lines6: seq<Line>)
  {
    ghost predicate Valid() {
      && (forall i :: 0 <= i < |lines4| ==> Faithful(lines4[i]))
      && (forall i :: 0 <= i < |lines6| ==> Faithful(lines6[i]))
      && (docker.Some? ==> forall i :: 0 <= i < |lines6| ==> DockerText(lines6[i], docker.value))
    }
  }

  // ----- Policy rules -----

  const ALLOWED_RULES: set<Rule> := {
    Rule("0", LOOKUP_LOCAL), Rule("0", " from all lookup 255"),
    Rule("32766", LOOKUP_MAIN), Rule("32766", " from all lookup 254"),
    Rule("32767", LOOKUP_DEFAULT), Rule("32767", " from all lookup 253")}
  const LOOKUP_LOCAL := " from all lookup local"
  const LOOKUP_MAIN := " from all lookup main"
  const LOOKUP_DEFAULT := " from all lookup default"

  const FULL_PRIORITIES: set<string> := {"0", "32766", "32767"}
  const SHORT_PRIORITIES: set<string> := {"0", "32766"}

  function Priorities(rules: seq<Rule>): (p: seq<string>)
    ensures |p| == |rules| && forall i :: 0 <= i < |rules| ==> p[i] == rules[i].priority
  {
    seq(|rules|, i requires 0 <= i < |rules| => rules[i].priority)
  }

  predicate Distinct<T(==)>(values: seq<T>) {
    forall i, j :: 0 <= i < j < |values| ==> values[i] != values[j]
  }

  function Elements<T(==)>(values: seq<T>): set<T> {
    set i | 0 <= i < |values| :: values[i]
  }

  /** Only allowed rules, no priority twice, and the required priorities. */
  predicate PolicyBaseline(rules: seq<Rule>, family: nat) {
    && (forall i :: 0 <= i < |rules| ==> rules[i] in ALLOWED_RULES)
    && Distinct(Priorities(rules))
    && (Elements(Priorities(rules)) == FULL_PRIORITIES
        || (family == 6 && Elements(Priorities(rules)) == SHORT_PRIORITIES))
  }

  lemma {:induction false} DistinctSize<T>(values: seq<T>)
    ensures |Elements(values)| <= |values|
    ensures |Elements(values)| == |values| <==> Distinct(values)
  {
    if values == [] {
      assert Elements(values) == {};
    } else {
      var init, last := values[..|values| - 1], values[|values| - 1];
      DistinctSize(init);
      ElementsAppend(init, last);
      assert init + [last] == values;
      if last in Elements(init) {
        var i :| 0 <= i < |init| && init[i] == last;
        assert values[i] == values[|values| - 1];
      } else if !Distinct(values) {
        var i, j :| 0 <= i < j < |values| && values[i] == values[j];
        assert values[i] == init[i];
        assert j < |init|;
      }
    }
  }

  lemma ElementsAppend<T>(init: seq<T>, last: T)
    ensures Elements(init + [last]) == Elements(init) + {last}
  {
    var values := init + [last];
    forall x | x in Elements(init) + {last} ensures x in Elements(values) {
      if x in Elements(init) {
        var i :| 0 <= i < |init| && init[i] == x;
        assert values[i] == x;
      } else {
        assert values[|init|] == x;
      }
    }
  }

  /** The rule check for given sets of allowed rules and required priorities. */
  method CheckRules(rules: seq<Rule>, allowed: set<Rule>, full: set<string>, short: set<string>, shortAllowed: bool)
    returns (ok: bool)
    requires |full| == 3 && |short| == 2
    ensures ok <==>
      && (forall i :: 0 <= i < |rules| ==> rules[i] in allowed)
      && Distinct(Priorities(rules))
      && (Elements(Priorities(rules)) == full || (shortAllowed && Elements(Priorities(rules)) == short))
  {
    ghost var priorities := Priorities(rules);
    DistinctSize(priorities);
    var seen: set<string> := {};
    for k := 0 to |rules|
      invariant forall i :: 0 <= i < k ==> rules[i] in allowed
      invariant seen == Elements(priorities[..k])
    {
      if rules[k] !in allowed {
        return false;
      }
      ElementsAppend(priorities[..k], priorities[k]);
      assert priorities[..k + 1] == priorities[..k] + [priorities[k]];
      seen := seen + {rules[k].priority};
    }
    assert priorities[..|rules|] == priorities;
    if (|rules| != 3 && !(shortAllowed && |rules| == 2)) || |seen| != |rules| {
      return false;
    }
    return seen == full || (shortAllowed && seen == short);
  }

  method ValidatePolicyRules(rules: seq<Rule>, family: nat) returns (ok: bool)
    requires family == 4 || family == 6
    ensures ok <==> PolicyBaseline(rules, family)
  {
    ok := CheckRules(rules, ALLOWED_RULES, FULL_PRIORITIES, SHORT_PRIORITIES, family == 6);
  }

  // ----- Routes -----

  const WIFI_IPV4LL_TOKENS: seq<Token> := [LinkLocal4, Dev, Wlo1, Scope, Link, Metric, N1000]

  /** The one route through which 192.168.123.0/24 is meant to be reached. */
  predicate Direct(r: Route) {
    && r.routeType == Unicast && r.network == PRIVATE_NETWORK && r.table in {Main, N254}
    && ValueAfter(r.tokens, Scope) == Some(Link)
    && ValueAfter(r.tokens, Src) == Some(HostAddress)
    && ValueAfter(r.tokens, Proto) == Some(Kernel)
  }

  predicate WifiLinkLocal(r: Route) {
    r.routeType == Unicast && r.table == Main && r.tokens == WIFI_IPV4LL_TOKENS
  }

  predicate WifiLocal(r: Route) {
    && r.routeType in {Local, Broadcast} && r.table in {Local, N255}
    && r.network.address in {PRIVATE_NETWORK.address, HOST_IP, PRIVATE_BROADCAST}
  }

  predicate OnWifi(r: Route) { r.interface == Some(Wlo1) }

  /** The refusals shared by both families. */
  predicate Baseline(r: Route) {
    && !(r.routeType == Unicast && r.network.prefixLen <= 7)
    && r.table in {Main, N254, Local, N255}
    && !r.hasGateway
  }

  predicate Acceptable4(r: Route, bridges: set<Token>)
    requires r.network.Valid()
  {
    && Baseline(r)
    && r.routeType in {Unicast, Local, Broadcast}
    && (r.network.Overlaps(IPV4LL_NETWORK) ==> WifiLinkLocal(r))
    && (if OnWifi(r) then Direct(r) || WifiLinkLocal(r) || WifiLocal(r)
        else r.interface != Some(Enp108s0)
             && (r.routeType == Unicast ==>
                   !r.network.Overlaps(PRIVATE_NETWORK) && r.interface.Some?
                   && r.interface.value in bridges && NetIsPrivate(r.network)))
  }

  datatype Key = LoopbackMain | LoopbackLocal | BridgeMain | BridgeLocal | BridgeMulticast

  /** The exact words of each permitted IPv6 route. */
  function KeyTokens(key: Key, addressText: Token): seq<Token> {
    match key
    case LoopbackMain => [Loopback6, Dev, Lo, Proto, Kernel, Metric, N256, Pref, Medium]
    case LoopbackLocal => [Local, Loopback6, Dev, Lo, Table, Local, Proto, Kernel, Metric, N0, Pref, Medium]
    case BridgeMain => [LinkLocal6, Dev, Docker0, Proto, Kernel, Metric, N256, Linkdown, Pref, Medium]
    case BridgeLocal => [Local, addressText, Dev, Docker0, Table, Local, Proto, Kernel, Metric, N0, Pref, Medium]
    case BridgeMulticast =>
      [Multicast, Multicast6, Dev, Docker0, Table, Local, Proto, Kernel, Metric, N256, Linkdown, Pref, Medium]
  }

  predicate DockerAddress(n: Net, docker: Docker)
    requires n.Valid()
  {
    && n.prefixLen == 128
    && IPV6_LINK_LOCAL.address <= n.address && n.Last() <= IPV6_LINK_LOCAL.Last()
    && n.address == docker.address
  }

  /** Which permitted IPv6 route this is, if any; the tests run in the script's order. */
  function RouteKey6(r: Route, docker: Option<Docker>, bridges: set<Token>): (key: Option<Key>)
    requires r.network.Valid()
    ensures key.Some? ==> r.tokens == KeyTokens(key.value, r.addressText)
    ensures key == Some(BridgeLocal) ==> docker.Some? && r.network.address == docker.value.address
  {
    if r.tokens == KeyTokens(LoopbackMain, r.addressText) then Some(LoopbackMain)
    else if r.tokens == KeyTokens(LoopbackLocal, r.addressText) then Some(LoopbackLocal)
    else if docker.None? || r.interface != Some(Docker0) || Docker0 !in bridges then None
    else if r.tokens == KeyTokens(BridgeMain, r.addressText) then Some(BridgeMain)
    else if r.routeType == Local && DockerAddress(r.network, docker.value)
            && r.tokens == KeyTokens(BridgeLocal, r.addressText) then Some(BridgeLocal)
    else if r.tokens == KeyTokens(BridgeMulticast, r.addressText) then Some(BridgeMulticast)
    else None
  }

  function RequiredKeys(docker: Option<Docker>): set<Key> {
    {LoopbackMain, LoopbackLocal} + if docker.Some? then {BridgeMain, BridgeLocal, BridgeMulticast} else {}
  }

  /** All the values, or None as soon as one is missing. */
  function Collect<T>(items: seq<Option<T>>): (r: Option<seq<T>>)
    ensures r.Some? <==> None !in items
    ensures r.Some? ==> |r.value| == |items| && forall i :: 0 <= i < |items| ==> items[i] == Some(r.value[i])
  {
    if items == [] then Some([])
    else
      var init, last := Collect(items[..|items| - 1]), items[|items| - 1];
      assert items == items[..|items| - 1] + [last];
      if init.None? || last.None? then None else Some(init.value + [last.value])
  }

  /** The listing as records; None as soon as one line is unreadable. */
  function ParseAll(lines: seq<Line>, family: nat): (r: Option<seq<Route>>)
    ensures r.Some? ==> |r.value| == |lines|
    ensures r.Some? ==> forall i :: 0 <= i < |lines| ==> ParseRoute(lines[i], family) == Some(r.value[i])
  {
    Collect(seq(|lines|, i requires 0 <= i < |lines| => ParseRoute(lines[i], family)))
  }

  function DirectRoutes(routes: seq<Route>): nat {
    if routes == [] then 0
    else
      var last := routes[|routes| - 1];
      DirectRoutes(routes[..|routes| - 1]) + if OnWifi(last) && Direct(last) then 1 else 0
  }

  function LinkLocalRoutes(routes: seq<Route>): nat {
    if routes == [] then 0
    else
      var last := routes[|routes| - 1];
      LinkLocalRoutes(routes[..|routes| - 1]) + if OnWifi(last) && !Direct(last) && WifiLinkLocal(last) then 1 else 0
  }

  predicate AllAcceptable4(routes: seq<Route>, bridges: set<Token>) {
    routes == [] || (AllAcceptable4(routes[..|routes| - 1], bridges)
                     && routes[|routes| - 1].network.Valid() && Acceptable4(routes[|routes| - 1], bridges))
  }

  lemma {:induction false} AcceptableAt(routes: seq<Route>, bridges: set<Token>, i: nat)
    requires AllAcceptable4(routes, bridges) && i < |routes|
    ensures routes[i].network.Valid() && Acceptable4(routes[i], bridges)
  {
    if i < |routes| - 1 { AcceptableAt(routes[..|routes| - 1], bridges, i); }
  }

  lemma {:induction false} AcceptablePrefix(routes: seq<Route>, bridges: set<Token>, k: nat)
    requires AllAcceptable4(routes, bridges) && k <= |routes|
    ensures AllAcceptable4(routes[..k], bridges)
  {
    if k < |routes| {
      AcceptablePrefix(routes[..|routes| - 1], bridges, k);
      assert routes[..|routes| - 1][..k] == routes[..k];
    } else {
      assert routes[..k] == routes;
    }
  }

  /** Every route is acceptable, one is the direct route and at most one is link-local. */
  predicate Isolated4(routes: seq<Route>, bridges: set<Token>) {
    AllAcceptable4(routes, bridges) && DirectRoutes(routes) == 1 && LinkLocalRoutes(routes) <= 1
  }

  function Keys6(routes: seq<Route>, docker: Option<Docker>, bridges: set<Token>): (keys: seq<Option<Key>>)
    requires forall i :: 0 <= i < |routes| ==> routes[i].network.Valid()
    ensures |keys| == |routes|
    ensures forall i :: 0 <= i < |routes| ==> keys[i] == RouteKey6(routes[i], docker, bridges)
  {
    seq(|routes|, i requires 0 <= i < |routes| => RouteKey6(routes[i], docker, bridges))
  }

  predicate AllBaseline(routes: seq<Route>) {
    forall i :: 0 <= i < |routes| ==> routes[i].network.Valid() && Baseline(routes[i])
  }

  /** The keys are all there is required, each of them once. */
  predicate Exactly(keys: seq<Option<Key>>, required: set<Key>) {
    && Distinct(keys)
    && (forall i :: 0 <= i < |keys| ==> keys[i].Some? && keys[i].value in required)
    && (forall key :: key in required ==> Some(key) in keys)
  }

  predicate Isolated6(routes: seq<Route>, docker: Option<Docker>, bridges: set<Token>) {
    AllBaseline(routes) && Exactly(Keys6(routes, docker, bridges), RequiredKeys(docker))
  }

  predicate IsolatedView(view: View) {
    && view.dockerReadable
    && PolicyBaseline(view.rules4, 4) && PolicyBaseline(view.rules6, 6)
    && var r4, r6 := ParseAll(view.lines4, 4), ParseAll(view.lines6, 6);
       r4.Some? && r6.Some?
       && Isolated4(r4.value, view.bridges) && Isolated6(r6.value, view.docker, view.bridges)
  }

  /** The tests that both families share. */
  method RefuseCommon(route: Route) returns (refusal: Option<Reason>)
    ensures refusal.None? <==> Baseline(route)
  {
    if route.routeType == Unicast && route.network.prefixLen <= 7 {
      return Some(DefaultRoute);
    }
    if route.table !in {Main, N254, Local, N255} {
      return Some(ForeignTable);
    }
    if route.hasGateway {
      return Some(GatewayRoute);
    }
    refusal := None;
  }

  /** One IPv4 route against the script's tests, in their order; None lets it pass. */
  method RefuseRoute4(route: Route, bridges: set<Token>) returns (refusal: Option<Reason>)
    requires route.network.Valid()
    ensures refusal.None? <==> Acceptable4(route, bridges)
  {
    refusal := RefuseCommon(route);
    if refusal.Some? {
      return;
    }
    if route.routeType !in {Unicast, Local, Broadcast} {
      return Some(UnexpectedType);
    }
    if route.network.Overlaps(IPV4LL_NETWORK) && !WifiLinkLocal(route) {
      return Some(UnexpectedLinkLocal);
    }
    if OnWifi(route) {
      return if Direct(route) || WifiLinkLocal(route) || WifiLocal(route) then None
             else Some(OutsidePrivateNetwork);
    }
    if route.interface == Some(Enp108s0) {
      return Some(WiredRoute);
    }
    if route.routeType == Unicast {
      if route.network.Overlaps(PRIVATE_NETWORK) {
        return Some(OverlappingRoute);
      }
      if route.interface.None? {
        return Some(UnboundRoute);
      }
      if route.interface.value !in bridges {
        return Some(PhysicalEgress);
      }
      if !NetIsPrivate(route.network) {
        return Some(NonPrivateBridgeRoute);
      }
    }
    refusal := None;
  }

  lemma RoutesGrow(routes: seq<Route>, bridges: set<Token>, k: nat)
    requires k < |routes| && routes[k].network.Valid()
    ensures AllAcceptable4(routes[..k + 1], bridges) <==> AllAcceptable4(routes[..k], bridges) && Acceptable4(routes[k], bridges)
    ensures DirectRoutes(routes[..k + 1])
         == DirectRoutes(routes[..k]) + if OnWifi(routes[k]) && Direct(routes[k]) then 1 else 0
    ensures LinkLocalRoutes(routes[..k + 1])
         == LinkLocalRoutes(routes[..k]) + if OnWifi(routes[k]) && !Direct(routes[k]) && WifiLinkLocal(routes[k]) then 1 else 0
  {
    assert routes[..k + 1][..k] == routes[..k];
  }

  method CheckRoutes4(routes: seq<Route>, bridges: set<Token>)
    returns (refusal: Option<Reason>, direct: nat, linkLocal: nat)
    requires forall i :: 0 <= i < |routes| ==> routes[i].network.Valid()
    ensures refusal.None? <==> AllAcceptable4(routes, bridges)
    ensures refusal.None? ==> direct == DirectRoutes(routes) && linkLocal == LinkLocalRoutes(routes)
  {
    direct, linkLocal := 0, 0;
    for k := 0 to |routes|
      invariant AllAcceptable4(routes[..k], bridges)
      invariant direct == DirectRoutes(routes[..k]) && linkLocal == LinkLocalRoutes(routes[..k])
    {
      RoutesGrow(routes, bridges, k);
      refusal := RefuseRoute4(routes[k], bridges);
      if refusal.Some? {
        if AllAcceptable4(routes, bridges) { AcceptablePrefix(routes, bridges, k + 1); }
        return;
      }
      if OnWifi(routes[k]) {
        if Direct(routes[k]) {
          direct := direct + 1;
        } else if WifiLinkLocal(routes[k]) {
          linkLocal := linkLocal + 1;
        }
      }
    }
    assert routes[..|routes|] == routes;
    refusal := None;
  }

  lemma KeysGrow(keys: seq<Option<Key>>, k: nat, seen: set<Key>)
    requires k < |keys| && Distinct(keys[..k]) && None !in keys[..k]
    requires forall key :: key in seen <==> Some(key) in keys[..k]
    ensures keys[k].Some? && keys[k].value in seen ==> !Distinct(keys)
    ensures keys[k].Some? && keys[k].value !in seen ==>
              (Distinct(keys[..k + 1]) && None !in keys[..k + 1]
               && forall key :: key in seen + {keys[k].value} <==> Some(key) in keys[..k + 1])
  {
    assert keys[..k + 1] == keys[..k] + [keys[k]];
    if keys[k].Some? && keys[k].value in seen {
      assert keys[k] in keys[..k];
      var i :| 0 <= i < k && keys[..k][i] == keys[k];
      assert keys[i] == keys[k];
    }
    if keys[k].Some? && keys[k].value !in seen {
      assert Some(keys[k].value) !in keys[..k];
    }
  }

  method CheckRoutes6(routes: seq<Route>, keys: seq<Option<Key>>) returns (refusal: Option<Reason>, seen: set<Key>)
    requires |keys| == |routes| && forall i :: 0 <= i < |routes| ==> routes[i].network.Valid()
    ensures refusal.None? <==> AllBaseline(routes) && Distinct(keys) && None !in keys
    ensures refusal.None? ==> forall key :: key in seen <==> Some(key) in keys
  {
    seen := {};
    for k := 0 to |routes|
      invariant AllBaseline(routes[..k]) && Distinct(keys[..k]) && None !in keys[..k]
      invariant forall key :: key in seen <==> Some(key) in keys[..k]
    {
      refusal := RefuseCommon(routes[k]);
      if refusal.Some? {
        return;
      }
      KeysGrow(keys, k, seen);
      if keys[k].None? {
        return Some(UnexpectedIpv6Route), seen;
      }
      if keys[k].value in seen {
        return Some(DuplicateIpv6Route), seen;
      }
      seen := seen + {keys[k].value};
    }
    assert routes[..|routes|] == routes && keys[..|routes|] == keys;
    refusal := None;
  }

  lemma SeenIsExact(keys: seq<Option<Key>>, seen: set<Key>, required: set<Key>)
    requires Distinct(keys) && None !in keys
    requires forall key :: key in seen <==> Some(key) in keys
    ensures seen == required <==> Exactly(keys, required)
  {
    if seen == required {
      forall i | 0 <= i < |keys| ensures keys[i].Some? && keys[i].value in required {
        assert keys[i] in keys && Some(keys[i].value) in keys;
      }
    }
    if Exactly(keys, required) {
      assert forall key :: key in seen <==> key in required;
    }
  }

  method CheckFamily4(view: View) returns (refusal: Option<Reason>, counted: Option<Reason>)
    ensures refusal.None? && counted.None? <==>
      PolicyBaseline(view.rules4, 4) && ParseAll(view.lines4, 4).Some?
      && Isolated4(ParseAll(view.lines4, 4).value, view.bridges)
  {
    counted := None;
    var rulesOk := ValidatePolicyRules(view.rules4, 4);
    var routes := ParseAll(view.lines4, 4);
    if !rulesOk || routes.None? {
      return Some(UnsafeRulesOrListing4), counted;
    }
    var direct, linkLocal;
    refusal, direct, linkLocal := CheckRoutes4(routes.value, view.bridges);
    counted := if direct != 1 then Some(DirectRouteCount)
               else if linkLocal > 1 then Some(DuplicateLinkLocal) else None;
  }

  method CheckFamily6(view: View) returns (refusal: Option<Reason>, counted: Option<Reason>)
    ensures refusal.None? && counted.None? <==>
      PolicyBaseline(view.rules6, 6) && ParseAll(view.lines6, 6).Some?
      && Isolated6(ParseAll(view.lines6, 6).value, view.docker, view.bridges)
  {
    counted := None;
    var rulesOk := ValidatePolicyRules(view.rules6, 6);
    var routes := ParseAll(view.lines6, 6);
    if !rulesOk || routes.None? {
      return Some(UnsafeRulesOrListing6), counted;
    }
    var keys, seen := Keys6(routes.value, view.docker, view.bridges), {};
    refusal, seen := CheckRoutes6(routes.value, keys);
    if refusal.None? {
      SeenIsExact(keys, seen, RequiredKeys(view.docker));
      counted := if seen != RequiredKeys(view.docker) then Some(IncompleteIpv6Baseline) else None;
    }
  }

  /** The whole check: docker0, then each family's rules, listing and routes, then the counts. */
  method ValidateRouteIsolation(view: View) returns (v: Verdict)
    ensures v.Isolated? <==> IsolatedView(view)
  {
    if !view.dockerReadable {
      return Refused(UnsafeDocker);
    }
    var refusal4, counted4 := CheckFamily4(view);
    if refusal4.Some? {
      return Refused(refusal4.value);
    }
    var refusal6, counted6 := CheckFamily6(view);
    if refusal6.Some? {
      return Refused(refusal6.value);
    }
    if counted4.Some? {
      return Refused(counted4.value);
    }
    if counted6.Some? {
      return Refused(counted6.value);
    }
    v := Verdict.Isolated;
  }

  // ----- What isolation means -----

  /** Longest-prefix selection among the unicast routes that contain an address. */
  ghost predicate Matches(r: Route, a: nat) {
    r.routeType == Unicast && r.network.Valid() && r.network.Contains(a)
  }

  ghost predicate Selected(routes: seq<Route>, a: nat, i: nat) {
    && i < |routes| && Matches(routes[i], a)
    && forall j :: 0 <= j < |routes| && Matches(routes[j], a) ==> routes[j].network.prefixLen <= routes[i].network.prefixLen
  }

  lemma SizeOf24()
    ensures PRIVATE_NETWORK.Last() == PRIVATE_BROADCAST
    ensures IPV4LL_NETWORK.Last() == V4(169, 254, 255, 255)
  {
    assert Pow2(8) == 256 by { assert Pow2(4) == 16; }
    assert Pow2(16) == 65536 by { assert Pow2(12) == 4096 by { assert Pow2(8) == 256; } }
  }

  lemma CommonAddressOverlaps(m: Net, n: Net, a: nat)
    requires m.Valid() && n.Valid() && m.Contains(a) && n.Contains(a)
    ensures m.Overlaps(n)
  {
  }

  lemma DirectRouteExists(routes: seq<Route>) returns (d: nat)
    requires DirectRoutes(routes) > 0
    ensures d < |routes| && OnWifi(routes[d]) && Direct(routes[d])
  {
    var last := |routes| - 1;
    if OnWifi(routes[last]) && Direct(routes[last]) {
      d := last;
    } else {
      d := DirectRouteExists(routes[..last]);
    }
  }

  lemma {:induction false} TwoDirectRoutes(routes: seq<Route>, i: nat, j: nat)
    requires i < j < |routes|
    requires OnWifi(routes[i]) && Direct(routes[i]) && OnWifi(routes[j]) && Direct(routes[j])
    ensures 2 <= DirectRoutes(routes)
  {
    var init := routes[..|routes| - 1];
    if j == |routes| - 1 {
      OneDirectRoute(init, i);
    } else {
      TwoDirectRoutes(init, i, j);
    }
  }

  lemma {:induction false} OneDirectRoute(routes: seq<Route>, i: nat)
    requires i < |routes| && OnWifi(routes[i]) && Direct(routes[i])
    ensures 1 <= DirectRoutes(routes)
  {
    if i < |routes| - 1 {
      OneDirectRoute(routes[..|routes| - 1], i);
    }
  }

  /** A readable, faithful, accepted route that contains a private-network address is the direct one. */
  lemma OnlyDirectMatches(line: Line, r: Route, bridges: set<Token>, a: nat)
    requires Faithful(line) && ParseRoute(line, 4) == Some(r)
    requires r.network.Valid() && Acceptable4(r, bridges) && Matches(r, a)
    requires PRIVATE_NETWORK.Contains(a)
    ensures OnWifi(r) && Direct(r)
  {
    SizeOf24();
    CommonAddressOverlaps(r.network, PRIVATE_NETWORK, a);
    if WifiLinkLocal(r) {
      LinkLocalNetwork(line, r);
      assert false;
    }
  }

  lemma LinkLocalTokens()
    ensures Destination(WIFI_IPV4LL_TOKENS) == Some(LinkLocal4)
    ensures ValueAfter(WIFI_IPV4LL_TOKENS, Dev) == Some(Wlo1)
  {
    assert IndexOf(WIFI_IPV4LL_TOKENS, Dev) == 1;
  }

  lemma LinkLocalNetwork(line: Line, r: Route)
    requires Faithful(line) && ParseRoute(line, 4) == Some(r) && WifiLinkLocal(r)
    ensures r.network == IPV4LL_NETWORK && OnWifi(r)
  {
    LinkLocalTokens();
  }

  /** The direct route is the one unicast route that contains the address, so it is selected. */
  ghost predicate OnlyDirect(routes: seq<Route>, a: nat, d: nat) {
    && Selected(routes, a, d) && OnWifi(routes[d]) && routes[d].network == PRIVATE_NETWORK && !routes[d].hasGateway
    && forall j :: 0 <= j < |routes| && Matches(routes[j], a) ==> j == d
  }

  ghost predicate ReadFrom(routes: seq<Route>, lines: seq<Line>) {
    |lines| == |routes| && forall i :: 0 <= i < |lines| ==> Faithful(lines[i]) && ParseRoute(lines[i], 4) == Some(routes[i])
  }

  lemma SingleMatch(lines: seq<Line>, routes: seq<Route>, bridges: set<Token>, a: nat) returns (d: nat)
    requires ReadFrom(routes, lines) && Isolated4(routes, bridges) && PRIVATE_NETWORK.Contains(a)
    ensures OnlyDirect(routes, a, d)
  {
    d := DirectRouteExists(routes);
    AcceptableAt(routes, bridges, d);
    forall j | 0 <= j < |routes| && Matches(routes[j], a) ensures j == d {
      AcceptableAt(routes, bridges, j);
      OnlyDirectMatches(lines[j], routes[j], bridges, a);
      if j < d { TwoDirectRoutes(routes, j, d); }
      if d < j { TwoDirectRoutes(routes, d, j); }
    }
  }

  /** Every address of 192.168.123.0/24 leaves through the single direct wlo1 route, without a gateway. */
  lemma PrivateNetworkGoesDirect(view: View, a: nat) returns (d: nat)
    requires view.Valid() && IsolatedView(view) && PRIVATE_NETWORK.Contains(a)
    ensures OnlyDirect(ParseAll(view.lines4, 4).value, a, d)
  {
    d := SingleMatch(view.lines4, ParseAll(view.lines4, 4).value, view.bridges, a);
  }

  lemma LinkLocalIsPrivate(a: nat)
    requires IPV4LL_NETWORK.Contains(a)
    ensures InPrivateBlock(a) && a !in EXCEPTIONS
  {
    SizeOf24();
    assert PRIVATE_BLOCKS[3] == IPV4LL_NETWORK;
    BlockHolds(PRIVATE_BLOCKS, 3, a, a);
  }

  lemma PrivateNetworkIsPrivate(a: nat)
    requires PRIVATE_NETWORK.Contains(a)
    ensures InPrivateBlock(a) && a !in EXCEPTIONS
  {
    SizeOf24();
    var block := Net(4, V4(192, 168, 0, 0), 16);
    assert PRIVATE_BLOCKS[8] == block;
    assert block.Last() == V4(192, 168, 255, 255);
    BlockHolds(PRIVATE_BLOCKS, 8, a, a);
  }

  lemma PrivateNetHolds(n: Net, a: nat)
    requires n.Valid() && NetIsPrivate(n) && n.Contains(a)
    ensures InPrivateBlock(a)
  {
    BlockIsConvex(PRIVATE_BLOCKS, n.address, a, n.Last());
  }

  lemma UnicastStaysPrivate(line: Line, r: Route, bridges: set<Token>, a: nat)
    requires Faithful(line) && ParseRoute(line, 4) == Some(r)
    requires r.network.Valid() && Acceptable4(r, bridges) && Matches(r, a)
    ensures InPrivateBlock(a)
    ensures a in EXCEPTIONS ==> !OnWifi(r)
  {
    if WifiLinkLocal(r) {
      LinkLocalNetwork(line, r);
      LinkLocalIsPrivate(a);
    } else if OnWifi(r) {
      PrivateNetworkIsPrivate(a);
    } else {
      PrivateNetHolds(r.network, a);
    }
  }

  /** No unicast route leads to an address outside the private blocks. */
  lemma NothingPublicIsRouted(view: View, a: nat, i: nat)
    requires view.Valid() && IsolatedView(view) && i < |view.lines4| && !InPrivateBlock(a)
    ensures !Matches(ParseAll(view.lines4, 4).value[i], a)
  {
    var routes := ParseAll(view.lines4, 4).value;
    if Matches(routes[i], a) {
      AcceptableAt(routes, view.bridges, i);
      UnicastStaysPrivate(view.lines4[i], routes[i], view.bridges, a);
    }
  }

  ghost predicate RoutesNothingPublic(routes: seq<Route>) {
    forall a: nat, i: nat :: i < |routes| && Matches(routes[i], a) ==> AddressIsPrivate(a)
  }

  /**
   By the library's own notion of a private address the promise can fail, and only for its two
   exceptions: it holds exactly when no bridge route covers one of them.
   */
  lemma PublicRoutedOnlyThroughExceptions(view: View)
    requires view.Valid() && IsolatedView(view)
    ensures var routes := ParseAll(view.lines4, 4).value;
      RoutesNothingPublic(routes) <==>
        forall i: nat, e :: i < |routes| && routes[i].interface != Some(Wlo1) && e in EXCEPTIONS ==> !Matches(routes[i], e)
  {
    var routes := ParseAll(view.lines4, 4).value;
    if forall i: nat, e :: i < |routes| && routes[i].interface != Some(Wlo1) && e in EXCEPTIONS ==> !Matches(routes[i], e) {
      forall a: nat, i: nat | i < |routes| && Matches(routes[i], a) ensures AddressIsPrivate(a) {
        AcceptableAt(routes, view.bridges, i);
        UnicastStaysPrivate(view.lines4[i], routes[i], view.bridges, a);
      }
    }
    if RoutesNothingPublic(routes) {
      forall i: nat, e | i < |routes| && routes[i].interface != Some(Wlo1) && e in EXCEPTIONS ensures !Matches(routes[i], e) {
        assert !AddressIsPrivate(e);
      }
    }
  }

  function BridgeLine(): Line {
    Line([Text("192.0.0.0/24"), Dev, Text("br0")], Some(Net(4, V4(192, 0, 0, 0), 24)), Text("192.0.0.0"))
  }

  lemma IndexIs(tokens: seq<Token>, name: Token, i: nat)
    requires i < |tokens| && tokens[i] == name && forall j :: 0 <= j < i ==> tokens[j] != name
    ensures IndexOf(tokens, name) == i
  {
  }

  lemma BridgeTokens(t: seq<Token>)
    requires t == BridgeLine().tokens
    ensures Destination(t) == Some(t[0]) && t[0] !in ROUTE_TYPES
    ensures ValueAfter(t, Dev) == Some(Text("br0")) && !Dangling(t, Dev)
    ensures Table !in t && Via !in t && Nexthop !in t
  {
    IndexIs(t, Dev, 1);
  }

  lemma BridgeNetwork(n: Net)
    requires n == Net(4, V4(192, 0, 0, 0), 24)
    ensures NetIsPrivate(n) && !n.Overlaps(IPV4LL_NETWORK) && !n.Overlaps(PRIVATE_NETWORK)
    ensures n.Contains(V4(192, 0, 0, 9)) && !AddressIsPrivate(V4(192, 0, 0, 9))
  {
    SizeOf24();
    assert n.Last() - n.address == PRIVATE_NETWORK.Last() - PRIVATE_NETWORK.address;
    assert PRIVATE_BLOCKS[5] == n;
    BlockHolds(PRIVATE_BLOCKS, 5, n.address, n.Last());
  }

  lemma BridgeLineAccepted() returns (r: Route)
    ensures Faithful(BridgeLine()) && ParseRoute(BridgeLine(), 4) == Some(r)
    ensures r.network.Valid() && !OnWifi(r) && Acceptable4(r, {Text("br0")})
    ensures Matches(r, V4(192, 0, 0, 9))
  {
    var t := BridgeLine().tokens;
    BridgeTokens(t);
    r := Route(Unicast, Net(4, V4(192, 0, 0, 0), 24), Some(Text("br0")), Main, false, t, BridgeLine().addressText);
    BridgeNetwork(r.network);
  }

  lemma PairCounts(d: Route, b: Route)
    requires OnWifi(d) && Direct(d) && !OnWifi(b)
    ensures DirectRoutes([d, b]) == 1 && LinkLocalRoutes([d, b]) == 0
  {
    assert [d, b][..1] == [d] && [d][..0] == [];
    assert DirectRoutes([d]) == 1 && LinkLocalRoutes([d]) == 0;
  }

  lemma PairAcceptable(d: Route, b: Route, bridges: set<Token>)
    requires d.network.Valid() && Acceptable4(d, bridges) && b.network.Valid() && Acceptable4(b, bridges)
    ensures AllAcceptable4([d, b], bridges)
  {
    assert [d, b][..1] == [d] && [d][..0] == [];
    assert AllAcceptable4([d], bridges);
  }

  lemma PairRead(line0: Line, r0: Route, line1: Line, r1: Route)
    requires Faithful(line0) && ParseRoute(line0, 4) == Some(r0) && Faithful(line1) && ParseRoute(line1, 4) == Some(r1)
    ensures ReadFrom([r0, r1], [line0, line1])
  {
  }

  lemma PairFails(line0: Line, r0: Route, line1: Line, r1: Route, bridges: set<Token>)
    requires Faithful(line0) && ParseRoute(line0, 4) == Some(r0) && Faithful(line1) && ParseRoute(line1, 4) == Some(r1)
    requires r0.network.Valid() && OnWifi(r0) && Direct(r0) && Acceptable4(r0, bridges)
    requires r1.network.Valid() && !OnWifi(r1) && Acceptable4(r1, bridges) && Matches(r1, V4(192, 0, 0, 9))
    ensures ReadFrom([r0, r1], [line0, line1])
    ensures Isolated4([r0, r1], bridges) && !RoutesNothingPublic([r0, r1])
  {
    PairRead(line0, r0, line1, r1);
    PairCounts(r0, r1);
    PairAcceptable(r0, r1, bridges);
    PublicWitness([r0, r1], 1, V4(192, 0, 0, 9));
  }

  function DirectLine(): Line {
    Line([Text("192.168.123.0/24"), Dev, Wlo1, Proto, Kernel, Scope, Link, Src, HostAddress],
         Some(PRIVATE_NETWORK), Text("192.168.123.0"))
  }

  lemma ValueIs(t: seq<Token>, name: Token, i: nat)
    requires i + 1 < |t| && t[i] == name && forall j :: 0 <= j < i ==> t[j] != name
    ensures ValueAfter(t, name) == Some(t[i + 1]) && !Dangling(t, name)
  {
    IndexIs(t, name, i);
  }

  lemma NameAbsent(t: seq<Token>, name: Token)
    requires name !in t
    ensures ValueAfter(t, name) == None && !Dangling(t, name)
  {
    var i := IndexOf(t, name);
  }

  /** A unicast line in the main table, without a gateway. */
  lemma PlainLine(line: Line, family: nat, interface: Token)
    requires line.tokens != [] && line.tokens[0] !in ROUTE_TYPES && line.network.Some?
    requires line.network.value.family == family && line.network.value.Valid()
    requires ValueAfter(line.tokens, Dev) == Some(interface) && !Dangling(line.tokens, Dev)
    requires Table !in line.tokens && Via !in line.tokens && Nexthop !in line.tokens
    ensures ParseRoute(line, family)
         == Some(Route(Unicast, line.network.value, Some(interface), Main, false, line.tokens, line.addressText))
  {
    NameAbsent(line.tokens, Table);
  }

  predicate DirectWords(t: seq<Token>) {
    && |t| == 9 && t[0].Text? && t[1] == Dev && t[2] == Wlo1 && t[3] == Proto && t[4] == Kernel
    && t[5] == Scope && t[6] == Link && t[7] == Src && t[8] == HostAddress
  }

  lemma DirectAbsent(t: seq<Token>)
    requires DirectWords(t)
    ensures Table !in t && Via !in t && Nexthop !in t
  {
  }

  lemma DirectParses(line: Line) returns (r: Route)
    requires DirectWords(line.tokens) && line.network == Some(PRIVATE_NETWORK)
    ensures Faithful(line) && ParseRoute(line, 4) == Some(r)
    ensures r == Route(Unicast, PRIVATE_NETWORK, Some(Wlo1), Main, false, line.tokens, line.addressText)
  {
    DirectAbsent(line.tokens);
    ValueIs(line.tokens, Dev, 1);
    PlainLine(line, 4, Wlo1);
    r := ParseRoute(line, 4).value;
  }

  lemma DirectAccepted(r: Route, bridges: set<Token>)
    requires DirectWords(r.tokens) && r.routeType == Unicast && r.network == PRIVATE_NETWORK
    requires r.interface == Some(Wlo1) && r.table == Main && !r.hasGateway
    ensures r.network.Valid() && OnWifi(r) && Direct(r) && Acceptable4(r, bridges)
  {
    ValueIs(r.tokens, Proto, 3);
    ValueIs(r.tokens, Scope, 5);
    ValueIs(r.tokens, Src, 7);
    SizeOf24();
  }

  function LoopbackLine(key: Key): Line {
    Line(KeyTokens(key, Text("")), Some(Net(6, 1, 128)), Loopback6)
  }

  lemma LoopbackMainParses(line: Line, t: seq<Token>) returns (r: Route)
    requires line.tokens == t && line.network == Some(Net(6, 1, 128))
    requires |t| == 9 && t[0] == Loopback6 && t[1] == Dev && t[2] == Lo && t[3] == Proto && t[4] == Kernel
    requires t[5] == Metric && t[6] == N256 && t[7] == Pref && t[8] == Medium
    ensures Faithful(line) && ParseRoute(line, 6) == Some(r)
    ensures r == Route(Unicast, line.network.value, Some(Lo), Main, false, t, line.addressText)
  {
    ValueIs(t, Dev, 1);
    PlainLine(line, 6, Lo);
    r := ParseRoute(line, 6).value;
  }

  lemma LoopbackAbsent(t: seq<Token>)
    requires |t| == 12 && t[0] == Local && t[1] == Loopback6 && t[2] == Dev && t[3] == Lo && t[4] == Table && t[5] == Local
    requires t[6] == Proto && t[7] == Kernel && t[8] == Metric && t[9] == N0 && t[10] == Pref && t[11] == Medium
    ensures Via !in t && Nexthop !in t
  {
  }

  lemma LoopbackLocalParses(line: Line, t: seq<Token>) returns (r: Route)
    requires line.tokens == t && line.network == Some(Net(6, 1, 128))
    requires |t| == 12 && t[0] == Local && t[1] == Loopback6 && t[2] == Dev && t[3] == Lo && t[4] == Table && t[5] == Local
    requires t[6] == Proto && t[7] == Kernel && t[8] == Metric && t[9] == N0 && t[10] == Pref && t[11] == Medium
    ensures Faithful(line) && ParseRoute(line, 6) == Some(r)
    ensures r == Route(Local, line.network.value, Some(Lo), Local, false, t, line.addressText)
  {
    ValueIs(t, Dev, 2);
    ValueIs(t, Table, 4);
    LoopbackAbsent(t);
    r := ParseRoute(line, 6).value;
  }

  /** A listing of two readable lines. */
  lemma ListingOfTwo(line0: Line, r0: Route, line1: Line, r1: Route, family: nat)
    requires ParseRoute(line0, family) == Some(r0) && ParseRoute(line1, family) == Some(r1)
    ensures ParseAll([line0, line1], family) == Some([r0, r1])
  {
    var parsed := ParseAll([line0, line1], family);
    assert parsed.Some? ==> parsed.value == [r0, r1];
  }

  lemma LoopbacksSuffice(r0: Route, r1: Route, bridges: set<Token>)
    requires r0.network.Valid() && Baseline(r0) && r0.tokens == KeyTokens(LoopbackMain, r0.addressText)
    requires r1.network.Valid() && Baseline(r1) && r1.tokens == KeyTokens(LoopbackLocal, r1.addressText)
    ensures Isolated6([r0, r1], None, bridges)
  {
    assert r1.tokens[0] == Local && r0.tokens[0] == Loopback6;
    var keys := Keys6([r0, r1], None, bridges);
    assert keys == [Some(LoopbackMain), Some(LoopbackLocal)];
    assert keys[0] in keys && keys[1] in keys;
  }

  function StandardRules(): seq<Rule> {
    [Rule("0", LOOKUP_LOCAL), Rule("32766", LOOKUP_MAIN), Rule("32767", LOOKUP_DEFAULT)]
  }

  lemma StandardRulesPass(family: nat)
    ensures PolicyBaseline(StandardRules(), family)
  {
    var p := Priorities(StandardRules());
    assert p == ["0", "32766", "32767"];
    assert p[0] in Elements(p) && p[1] in Elements(p) && p[2] in Elements(p);
  }

  /** A host without docker0: its own direct route, the two loopback routes and one bridge route. */
  function ExceptionView(): View {
    View(None, true, {Text("br0")}, StandardRules(), StandardRules(),
         [DirectLine(), BridgeLine()], [LoopbackLine(LoopbackMain), LoopbackLine(LoopbackLocal)])
  }

  /** The IPv4 half of the failing case. */
  ghost predicate Listing4Fails(lines: seq<Line>, bridges: set<Token>) {
    && (forall i :: 0 <= i < |lines| ==> Faithful(lines[i]))
    && ParseAll(lines, 4).Some?
    && Isolated4(ParseAll(lines, 4).value, bridges) && !RoutesNothingPublic(ParseAll(lines, 4).value)
  }

  ghost predicate Listing6Passes(lines: seq<Line>, bridges: set<Token>) {
    && (forall i :: 0 <= i < |lines| ==> Faithful(lines[i]))
    && ParseAll(lines, 6).Some?
    && Isolated6(ParseAll(lines, 6).value, None, bridges)
  }

  lemma Exception4(direct: Line, bridge: Line, bridges: set<Token>)
    requires DirectWords(direct.tokens) && direct.network == Some(PRIVATE_NETWORK)
    requires bridge == BridgeLine() && bridges == {Text("br0")}
    ensures Listing4Fails([direct, bridge], bridges)
  {
    var r0 := DirectParses(direct);
    DirectAccepted(r0, bridges);
    var r1 := BridgeLineAccepted();
    PairFails(direct, r0, bridge, r1, bridges);
    ListingOfTwo(direct, r0, bridge, r1, 4);
  }

  lemma Exception6(line0: Line, r0: Route, line1: Line, r1: Route, bridges: set<Token>)
    requires Faithful(line0) && ParseRoute(line0, 6) == Some(r0) && Faithful(line1) && ParseRoute(line1, 6) == Some(r1)
    requires Isolated6([r0, r1], None, bridges)
    ensures Listing6Passes([line0, line1], bridges)
  {
    ListingOfTwo(line0, r0, line1, r1, 6);
  }

  lemma LoopbackMainAccepted(line: Line) returns (r: Route)
    requires line == LoopbackLine(LoopbackMain)
    ensures Faithful(line) && ParseRoute(line, 6) == Some(r)
    ensures r.network.Valid() && Baseline(r) && r.tokens == KeyTokens(LoopbackMain, r.addressText)
  {
    r := LoopbackMainParses(line, line.tokens);
  }

  lemma LoopbackLocalAccepted(line: Line) returns (r: Route)
    requires line == LoopbackLine(LoopbackLocal)
    ensures Faithful(line) && ParseRoute(line, 6) == Some(r)
    ensures r.network.Valid() && Baseline(r) && r.tokens == KeyTokens(LoopbackLocal, r.addressText)
  {
    r := LoopbackLocalParses(line, line.tokens);
  }

  lemma LoopbacksPass(line0: Line, line1: Line, bridges: set<Token>)
    requires line0 == LoopbackLine(LoopbackMain) && line1 == LoopbackLine(LoopbackLocal)
    ensures Listing6Passes([line0, line1], bridges)
  {
    var r0 := LoopbackMainAccepted(line0);
    var r1 := LoopbackLocalAccepted(line1);
    LoopbacksSuffice(r0, r1, bridges);
    Exception6(line0, r0, line1, r1, bridges);
  }

  lemma ViewFails(view: View)
    requires view.docker == None && view.dockerReadable
    requires PolicyBaseline(view.rules4, 4) && PolicyBaseline(view.rules6, 6)
    requires Listing4Fails(view.lines4, view.bridges) && Listing6Passes(view.lines6, view.bridges)
    ensures view.Valid() && IsolatedView(view) && !RoutesNothingPublic(ParseAll(view.lines4, 4).value)
  {
  }

  /**
   The failing case: in this view a bridge route to 192.0.0.0/24 stands beside the direct route.
   The check accepts the view, and by the bridge route the non-private address 192.0.0.9 is reachable.
   */
  lemma ExceptionIsRouted(view: View)
    requires view == ExceptionView()
    ensures view.Valid() && IsolatedView(view) && !RoutesNothingPublic(ParseAll(view.lines4, 4).value)
  {
    Exception4(DirectLine(), BridgeLine(), view.bridges);
    LoopbacksPass(LoopbackLine(LoopbackMain), LoopbackLine(LoopbackLocal), view.bridges);
    StandardRulesPass(4);
    StandardRulesPass(6);
    ViewFails(view);
  }

  lemma PublicWitness(routes: seq<Route>, i: nat, a: nat)
    requires i < |routes| && Matches(routes[i], a) && a == V4(192, 0, 0, 9)
    ensures !RoutesNothingPublic(routes)
  {
    assert !AddressIsPrivate(a);
  }

  /** docker0's address text where it is needed; irrelevant for the other routes. */
  function DockerToken(docker: Option<Docker>): Token {
    if docker.Some? then docker.value.text else Text("")
  }

  lemma KeyFixesTokens(line: Line, r: Route, docker: Option<Docker>, bridges: set<Token>)
    requires ParseRoute(line, 6) == Some(r) && r.network.Valid() && RouteKey6(r, docker, bridges).Some?
    requires docker.Some? ==> DockerText(line, docker.value)
    ensures line.tokens == KeyTokens(RouteKey6(r, docker, bridges).value, DockerToken(docker))
  {
    var key := RouteKey6(r, docker, bridges).value;
    if !key.BridgeLocal? {
      assert KeyTokens(key, r.addressText) == KeyTokens(key, DockerToken(docker));
    }
  }

  /** Line i, and no other line, is the given required route. */
  ghost predicate ListedOnce(lines: seq<Line>, keys: seq<Option<Key>>, key: Key, tokens: seq<Token>, i: nat) {
    && i < |lines| == |keys| && lines[i].tokens == tokens
    && forall j :: 0 <= j < |keys| ==> (keys[j] == Some(key) <==> j == i)
  }

  lemma OnceByKeys(keys: seq<Option<Key>>, required: set<Key>, key: Key) returns (i: nat)
    requires Exactly(keys, required) && key in required
    ensures i < |keys| && forall j :: 0 <= j < |keys| ==> (keys[j] == Some(key) <==> j == i)
  {
    i :| i < |keys| && keys[i] == Some(key);
  }

  /** The IPv6 listing is the required baseline: each required route on exactly one line, no further line. */
  lemma Ipv6ListingIsBaseline(view: View, key: Key) returns (i: nat)
    requires view.Valid() && IsolatedView(view) && key in RequiredKeys(view.docker)
    ensures |view.lines6| == |RequiredKeys(view.docker)|
    ensures ListedOnce(view.lines6, Keys6(ParseAll(view.lines6, 6).value, view.docker, view.bridges),
                       key, KeyTokens(key, DockerToken(view.docker)), i)
  {
    var routes := ParseAll(view.lines6, 6).value;
    var keys := Keys6(routes, view.docker, view.bridges);
    ExactSize(keys, RequiredKeys(view.docker));
    i := OnceByKeys(keys, RequiredKeys(view.docker), key);
    KeyFixesTokens(view.lines6[i], routes[i], view.docker, view.bridges);
  }

  lemma {:induction false} ExactSize(keys: seq<Option<Key>>, required: set<Key>)
    requires Exactly(keys, required)
    ensures |keys| == |required|
  {
    if keys == [] {
      assert required == {};
    } else {
      var init, last := keys[..|keys| - 1], keys[|keys| - 1];
      forall key | key in required - {last.value} ensures Some(key) in init {
        assert Some(key) in keys;
      }
      ExactSize(init, required - {last.value});
    }
  }
}
