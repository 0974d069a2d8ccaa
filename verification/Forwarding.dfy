/** Bridge-to-bridge forwarding: one node's decision, and the journey of a request over a network of nodes
    whose next-hop tables may be arbitrary, even cyclic. */
module Forwarding {
  import opened Text

  datatype NodeConfig = NodeConfig(endpoint: string, role: string, zone: string, capabilities: seq<string>)

  datatype RouterConfig = RouterConfig(local: string, hopLimit: int, nodes: map<string, NodeConfig>, routes: map<string, string>)

  // The forwarding headers of a request.
  datatype Envelope = Envelope(forwarded: string, target: string, hop: string)

  datatype ForwardError = PeerUnknown(peer: string) | HopLimitExceeded(limit: int) | EndpointMissing(peer: string) | Undeliverable(endpoint: string)

  datatype Decision = HandleLocally | Fail(error: ForwardError) | ForwardTo(target: string, nextHop: string, endpoint: string)

  // ---- hop counting, in 64-bit integers ----

  // Adding one wraps around at the largest 64-bit integer.
  function Increment(hop: int): int {
    if hop == MAX_INT64 then MIN_INT64 else hop + 1
  }

  // strconv.Atoi of the trimmed header; anything unreadable or negative counts as no hop so far.
  function HopOf(header: string): (hop: int)
    ensures 0 <= hop <= MAX_INT64
  {
    var parsed := ParseInt(Trim(header));
    if parsed.None? || parsed.value < 0 then 0 else parsed.value
  }

  // What the next node reads after this one wrote the incremented count.
  function NextCount(hop: int): int {
    if hop == MAX_INT64 then 0 else hop + 1
  }

  lemma {:induction false} HopHeaderRoundTrip(hop: int)
    requires 0 <= hop <= MAX_INT64
    ensures HopOf(FormatInt(Increment(hop))) == NextCount(hop)
  {
    ParseFormatInt(Increment(hop));
  }

  // ---- one node's decision ----

  function NextHopFor(config: RouterConfig, target: string): string {
    if target in config.routes && Trim(config.routes[target]) != "" then Trim(config.routes[target]) else target
  }

  function DecisionForTarget(config: RouterConfig, rawTarget: string, hopHeader: string): Decision {
    var target := Trim(rawTarget);
    var nextHop := NextHopFor(config, target);
    if nextHop == "" || EqualFold(nextHop, config.local) then HandleLocally
    else if nextHop !in config.nodes then Fail(PeerUnknown(nextHop))
    else if Increment(HopOf(hopHeader)) > config.hopLimit then Fail(HopLimitExceeded(config.hopLimit))
    else
      var endpoint := Trim(config.nodes[nextHop].endpoint);
      if endpoint == "" then Fail(EndpointMissing(nextHop)) else ForwardTo(target, nextHop, endpoint)
  }

  /** What one node does with a request for a target, by its next hop: the configured one, or the target
      itself. It is handled here exactly when that is this node; refused when it is no known peer, when the
      count of hops so far is at the limit, or when the peer has no endpoint; and else forwarded there. */
  lemma {:induction false} NextHopDecides(config: RouterConfig, rawTarget: string, hopHeader: string, nextHop: string)
    requires 0 <= config.hopLimit
    requires var target := Trim(rawTarget);
      if target in config.routes && Trim(config.routes[target]) != "" then nextHop == Trim(config.routes[target]) else nextHop == target
    ensures var decision := DecisionForTarget(config, rawTarget, hopHeader);
      var here := nextHop == "" || EqualFold(nextHop, config.local);
      var spent := HopOf(hopHeader) >= config.hopLimit && HopOf(hopHeader) != MAX_INT64;
      && (decision == HandleLocally <==> here)
      && (decision == Fail(PeerUnknown(nextHop)) <==> !here && nextHop !in config.nodes)
      && (decision == Fail(HopLimitExceeded(config.hopLimit)) <==> !here && nextHop in config.nodes && spent)
      && (decision == Fail(EndpointMissing(nextHop)) <==> !here && nextHop in config.nodes && !spent && Trim(config.nodes[nextHop].endpoint) == "")
      && (!here && nextHop in config.nodes && !spent && Trim(config.nodes[nextHop].endpoint) != "" ==>
            decision == ForwardTo(Trim(rawTarget), nextHop, Trim(config.nodes[nextHop].endpoint)))
  {
    hide Trim, EqualFold, HopOf;
  }

  /** A request without the header has no hop behind it; the header a node writes says one more. */
  lemma {:induction false} FirstHeaders(target: string, nextHop: string, endpoint: string)
    ensures HopOf("") == 0
    ensures ForwardedHeaders(Envelope("", "", ""), ForwardTo(target, nextHop, endpoint)) == Envelope("1", target, "1")
  {
    TrimmedStays("");
    assert FormatInt(1) == "1";
  }

  // A request that another node forwarded: the headers decide.
  function RelayDecision(config: RouterConfig, env: Envelope): Decision {
    var target := Trim(env.target);
    if target == "" || EqualFold(target, config.local) then HandleLocally
    else DecisionForTarget(config, target, env.hop)
  }

  function ForwardedHeaders(env: Envelope, decision: Decision): Envelope
    requires decision.ForwardTo?
  {
    Envelope("1", decision.target, FormatInt(Increment(HopOf(env.hop))))
  }

  // ---- a network ----

  // A node at an address either has a router or handles every request itself.
  datatype Site = Unrouted | Routed(config: RouterConfig)

  type Network = map<string, Site>

  datatype Outcome = ExecutedAt(address: string) | Refused(address: string, error: ForwardError)

  // The nodes visited, the headers each received, and how it ended.
  datatype Journey = Journey(path: seq<string>, headers: seq<Envelope>, outcome: Outcome)

  predicate LimitsWithin(net: Network, limit: int) {
    0 <= limit < MAX_INT64 && forall a :: a in net && net[a].Routed? ==> net[a].config.hopLimit <= limit
  }

  // How many more forwards a hop count allows.
  function Allowance(hop: int, limit: int): nat {
    if hop == MAX_INT64 then (if limit < 0 then 0 else limit + 1) else if hop < limit then limit - hop else 0
  }

  function DecisionAt(site: Site, env: Envelope): Decision {
    match site
    case Unrouted => HandleLocally
    case Routed(config) => RelayDecision(config, env)
  }

  // One more forward is only decided while the allowance is positive, and uses some of it up.
  lemma {:induction false} ForwardUsesAllowance(config: RouterConfig, target: string, hopHeader: string, limit: int)
    requires config.hopLimit <= limit && 0 <= limit < MAX_INT64
    requires DecisionForTarget(config, target, hopHeader).ForwardTo?
    ensures Allowance(NextCount(HopOf(hopHeader)), limit) < Allowance(HopOf(hopHeader), limit)
  {
  }

  function Travel(net: Network, at: string, env: Envelope, limit: int): Journey
    requires LimitsWithin(net, limit) && at in net
    decreases Allowance(HopOf(env.hop), limit)
  {
    match DecisionAt(net[at], env)
    case HandleLocally => Journey([at], [env], ExecutedAt(at))
    case Fail(e) => Journey([at], [env], Refused(at, e))
    case ForwardTo(target, nextHop, endpoint) =>
      if endpoint !in net then Journey([at], [env], Refused(at, Undeliverable(endpoint)))
      else
        var onward := ForwardedHeaders(env, DecisionAt(net[at], env));
        assert Allowance(HopOf(onward.hop), limit) < Allowance(HopOf(env.hop), limit) by {
          ForwardUsesAllowance(net[at].config, Trim(env.target), env.hop, limit);
          HopHeaderRoundTrip(HopOf(env.hop));
        }
        var rest := Travel(net, endpoint, onward, limit);
        Journey([at] + rest.path, [env] + rest.headers, rest.outcome)
  }

  function Forwards(journey: Journey): int {
    |journey.path| - 1
  }

  // Every node of the journey but the last forwarded to the next with the headers shown.
  predicate IsChain(net: Network, j: Journey) {
    && j.path != [] && |j.headers| == |j.path| && j.outcome.address == j.path[|j.path| - 1]
    && (forall k :: 0 <= k < |j.path| ==> j.path[k] in net)
    && (forall k :: 0 <= k < |j.path| - 1 ==>
          && DecisionAt(net[j.path[k]], j.headers[k]).ForwardTo?
          && DecisionAt(net[j.path[k]], j.headers[k]).endpoint == j.path[k + 1])
  }

  // From the second node on, the request is marked as forwarded and names this target.
  predicate Names(j: Journey, target: string) {
    |j.headers| == |j.path| && forall k :: 1 <= k < |j.path| ==> j.headers[k].target == target && j.headers[k].forwarded == "1"
  }

  // A site without a router executes what it gets; one with a router, what its own decision leaves here.
  predicate HandledAt(net: Network, at: string, env: Envelope) {
    at in net && (net[at].Unrouted? || RelayDecision(net[at].config, env) == HandleLocally)
  }

  function Prepend(at: string, env: Envelope, rest: Journey): Journey {
    Journey([at] + rest.path, [env] + rest.headers, rest.outcome)
  }

  lemma {:induction false} PrependIsChain(net: Network, at: string, env: Envelope, rest: Journey)
    requires IsChain(net, rest) && at in net
    requires DecisionAt(net[at], env).ForwardTo? && DecisionAt(net[at], env).endpoint == rest.path[0]
    ensures IsChain(net, Prepend(at, env, rest))
  {
    hide DecisionAt;
  }

  lemma {:induction false} PrependNames(at: string, env: Envelope, rest: Journey, target: string)
    requires Names(rest, target) && rest.path != [] && rest.headers[0].target == target && rest.headers[0].forwarded == "1"
    ensures Names(Prepend(at, env, rest), target)
  {
    var j := Prepend(at, env, rest);
    assert forall k :: 1 <= k < |j.path| ==> j.headers[k] == rest.headers[k - 1];
  }

  /** A request travels a single chain of nodes: all but the last forwarded it to the next and executed
      nothing; the outcome is the last node's; it is forwarded at most as often as its hop count allows;
      and after the first forward it always names the same target. */
  lemma {:induction false} JourneyIsChain(net: Network, at: string, env: Envelope, limit: int)
    requires LimitsWithin(net, limit) && at in net
    ensures var j := Travel(net, at, env, limit);
      && IsChain(net, j) && j.path[0] == at && j.headers[0] == env
      && Forwards(j) <= Allowance(HopOf(env.hop), limit)
      && Names(j, Trim(env.target))
      && (j.outcome.ExecutedAt? <==> HandledAt(net, j.path[|j.path| - 1], j.headers[|j.path| - 1]))
    decreases Allowance(HopOf(env.hop), limit)
  {
    hide IsChain, Names, Trim, HopOf;
    var d := DecisionAt(net[at], env);
    TrimTwice(env.target);
    if d.ForwardTo? && d.endpoint in net {
      hide LimitsWithin;
      var onward := ForwardedHeaders(env, d);
      assert net[at].config.hopLimit <= limit && 0 <= limit < MAX_INT64 by { LimitOf(net, at, limit); }
      ForwardUsesAllowance(net[at].config, Trim(env.target), env.hop, limit);
      HopHeaderRoundTrip(HopOf(env.hop));
      JourneyIsChain(net, d.endpoint, onward, limit);
      var rest := Travel(net, d.endpoint, onward, limit);
      assert rest.path != [] && |rest.headers| == |rest.path| by { ChainShape(net, rest); }
      assert Travel(net, at, env, limit) == Prepend(at, env, rest);
      assert onward.target == Trim(env.target);
      PrependIsChain(net, at, env, rest);
      PrependNames(at, env, rest, Trim(env.target));
    } else {
      LoneJourney(net, at, env, Travel(net, at, env, limit));
    }
  }

  lemma {:induction false} LimitOf(net: Network, at: string, limit: int)
    requires LimitsWithin(net, limit) && at in net && net[at].Routed?
    ensures net[at].config.hopLimit <= limit && 0 <= limit < MAX_INT64
  {
  }

  lemma {:induction false} ChainShape(net: Network, j: Journey)
    requires IsChain(net, j)
    ensures j.path != [] && |j.headers| == |j.path|
  {
  }

  lemma {:induction false} LoneJourney(net: Network, at: string, env: Envelope, j: Journey)
    requires at in net && j.path == [at] && j.headers == [env] && j.outcome.address == at
    ensures forall target :: Names(j, target)
    ensures IsChain(net, j)
  {
  }

  // ---- the hop limit, exactly ----

  // Whatever the network and the target, a request that arrives with this count is forwarded at most limit times.
  ghost predicate AlwaysWithin(hopHeader: string, limit: int) {
    forall net, at, target :: LimitsWithin(net, limit) && at in net
      ==> Forwards(Travel(net, at, Envelope("1", target, hopHeader), limit)) <= limit
  }

  function RingConfig(local: string, peer: string, limit: int): RouterConfig {
    RouterConfig(local, limit, map[peer := NodeConfig(peer, "", "", [])], map["t" := peer])
  }

  // Two nodes that each believe the other leads to t.
  function Ring(limit: int): Network {
    map["a" := Routed(RingConfig("a", "b", limit)), "b" := Routed(RingConfig("b", "a", limit))]
  }

  lemma {:induction false} RingDecides(limit: int, at: string, hopHeader: string)
    requires at == "a" || at == "b"
    ensures var d := DecisionAt(Ring(limit)[at], Envelope("1", "t", hopHeader));
      if Increment(HopOf(hopHeader)) > limit then d == Fail(HopLimitExceeded(limit))
      else d == ForwardTo("t", if at == "a" then "b" else "a", if at == "a" then "b" else "a")
  {
    TrimmedStays("t");
    TrimmedStays("a");
    TrimmedStays("b");
    assert Lower("t")[0] != Lower("a")[0] && Lower("t")[0] != Lower("b")[0] && Lower("a")[0] != Lower("b")[0];
    assert "t"[0] != "a"[0] && "t"[0] != "b"[0];
  }

  lemma {:induction false} RingLimits(limit: int)
    requires 0 <= limit < MAX_INT64
    ensures LimitsWithin(Ring(limit), limit) && "a" in Ring(limit) && "b" in Ring(limit)
  {
  }

  lemma {:induction false} RingGoesRound(limit: int, at: string, hopHeader: string)
    requires at == "a" || at == "b"
    requires 0 <= limit < MAX_INT64
    ensures LimitsWithin(Ring(limit), limit)
    ensures Forwards(Travel(Ring(limit), at, Envelope("1", "t", hopHeader), limit)) == Allowance(HopOf(hopHeader), limit)
    decreases Allowance(HopOf(hopHeader), limit)
  {
    hide RelayDecision, DecisionForTarget, Ring, ParseInt, FormatInt, Trim, HopOf;
    var env := Envelope("1", "t", hopHeader);
    RingLimits(limit);
    RingDecides(limit, at, hopHeader);
    var d := DecisionAt(Ring(limit)[at], env);
    if d.ForwardTo? {
      var onward := ForwardedHeaders(env, d);
      HopHeaderRoundTrip(HopOf(hopHeader));
      assert onward == Envelope("1", "t", onward.hop);
      JourneyIsChain(Ring(limit), d.endpoint, onward, limit);
      RingGoesRound(limit, d.endpoint, onward.hop);
    }
  }

  /** The limit holds for every network exactly when the incoming hop header does not read as the largest
      64-bit integer: that one wraps around, passes the test, and restarts the count. */
  lemma {:induction false} HopLimitHoldsExactly(hopHeader: string, limit: int)
    requires 0 <= limit < MAX_INT64
    ensures AlwaysWithin(hopHeader, limit) <==> HopOf(hopHeader) != MAX_INT64
  {
    if HopOf(hopHeader) == MAX_INT64 {
      RingGoesRound(limit, "a", hopHeader);
      var net, at, target := Ring(limit), "a", "t";
      assert LimitsWithin(net, limit) && at in net && Forwards(Travel(net, at, Envelope("1", target, hopHeader), limit)) > limit;
    } else {
      forall net, at, target | LimitsWithin(net, limit) && at in net
        ensures Forwards(Travel(net, at, Envelope("1", target, hopHeader), limit)) <= limit
      {
        JourneyIsChain(net, at, Envelope("1", target, hopHeader), limit);
      }
    }
  }

  /** The largest 64-bit integer as a hop header, on a ring of two nodes with limit 8: the request is
      forwarded nine times. */
  lemma {:induction false} LargestHeaderExceeds()
    ensures HopOf(FormatInt(MAX_INT64)) == MAX_INT64
    ensures LimitsWithin(Ring(8), 8) && "a" in Ring(8)
    ensures Forwards(Travel(Ring(8), "a", Envelope("1", "t", FormatInt(MAX_INT64)), 8)) == 9
  {
    hide Travel, Ring, ParseInt, FormatInt;
    ParseFormatInt(MAX_INT64);
    RingLimits(8);
    RingGoesRound(8, "a", FormatInt(MAX_INT64));
  }

  // ---- reaching the target ----

  // Every node has a router whose next hop for t is a known, reachable node strictly nearer to t.
  predicate LeadsTo(net: Network, t: string, distance: map<string, nat>) {
    && t != "" && IsTrimmed(t)
    && (forall a :: a in net ==> a in distance && net[a].Routed?)
    && (forall a :: a in net && !EqualFold(t, net[a].config.local) ==>
          var config := net[a].config; var nextHop := NextHopFor(config, t);
          && nextHop != "" && !EqualFold(nextHop, config.local) && nextHop in config.nodes
          && Trim(config.nodes[nextHop].endpoint) != "" && Trim(config.nodes[nextHop].endpoint) in net
          && distance[Trim(config.nodes[nextHop].endpoint)] < distance[a])
  }

  /** If next hops lead to t within every node's limit, the request is executed, and by the target. */
  lemma {:induction false} ReachesTarget(net: Network, at: string, t: string, hopHeader: string, limit: int, distance: map<string, nat>)
    requires LimitsWithin(net, limit) && at in net && LeadsTo(net, t, distance)
    requires forall a :: a in net ==> HopOf(hopHeader) + distance[at] <= net[a].config.hopLimit
    ensures var j := Travel(net, at, Envelope("1", t, hopHeader), limit);
      j.outcome.ExecutedAt? && j.outcome.address in net && EqualFold(t, net[j.outcome.address].config.local)
      && Forwards(j) <= distance[at]
    decreases distance[at]
  {
    var env := Envelope("1", t, hopHeader);
    TrimmedStays(t);
    if !EqualFold(t, net[at].config.local) {
      var d := DecisionAt(net[at], env);
      assert HopOf(hopHeader) + 1 <= net[at].config.hopLimit;
      assert d.ForwardTo? && d.endpoint in net && d.target == t;
      var onward := ForwardedHeaders(env, d);
      HopHeaderRoundTrip(HopOf(hopHeader));
      assert onward == Envelope("1", t, onward.hop) && HopOf(onward.hop) == HopOf(hopHeader) + 1;
      JourneyIsChain(net, d.endpoint, onward, limit);
      ReachesTarget(net, d.endpoint, t, onward.hop, limit, distance);
    }
  }
}
