/** The entry decision of a routing node: sticky session routes, rules, and round robin.

    The node catalog is kept as a list sorted by id, so filtering it gives what the source gets by sorting
    the filtered map. The clock is a parameter. */
module TaskRouter {
  import opened Text
  import opened Forwarding

  datatype Selector = Selector(role: string, zone: string, capability: string)

  datatype Target = Target(nodeId: string, selector: Selector, strategy: string)

  datatype Rule = Rule(methods: seq<string>, target: Target)

  datatype Settings = Settings(config: RouterConfig, catalog: seq<(string, NodeConfig)>, rules: seq<Rule>, ttl: nat)

  datatype Route = Route(target: string, expiresAt: int)

  // What decisions change: the session routes and the round-robin counters.
  datatype State = State(routes: map<string, Route>, counters: map<string, nat>)

  // runIds: some of runId, taskId, openclawSessionKey and appThreadKey is given.
  datatype Request = Request(rpcMethod: string, sessionId: string, threadId: string, runIds: bool, headers: Envelope)

  // ---- selecting a node ----

  predicate HasCapability(node: NodeConfig, capability: string) {
    exists k :: 0 <= k < |node.capabilities| && EqualFold(Trim(node.capabilities[k]), capability)
  }

  predicate Matches(node: NodeConfig, selector: Selector) {
    var role, zone, capability := Trim(selector.role), Trim(selector.zone), Trim(selector.capability);
    && (role != "" ==> EqualFold(Trim(node.role), role))
    && (zone != "" ==> EqualFold(Trim(node.zone), zone))
    && (capability != "" ==> HasCapability(node, capability))
  }

  function Candidates(catalog: seq<(string, NodeConfig)>, local: string, selector: Selector): seq<string> {
    if catalog == [] then []
    else
      var before := Candidates(catalog[..|catalog| - 1], local, selector);
      var (id, node) := catalog[|catalog| - 1];
      if id != local && Matches(node, selector) then before + [id] else before
  }

  function SelectorKey(selector: Selector): string {
    Join([Trim(selector.role), Trim(selector.zone), Trim(selector.capability)], '|')
  }

  predicate RoundRobin(strategy: string) {
    EqualFold(Trim(strategy), "round_robin")
  }

  function Counter(counters: map<string, nat>, key: string): nat {
    if key in counters then counters[key] else 0
  }

  // The chosen node id ("" when there is none) and the counters afterwards.
  function SelectNode(s: Settings, counters: map<string, nat>, target: Target): (string, map<string, nat>) {
    var candidates := Candidates(s.catalog, s.config.local, target.selector);
    if candidates == [] then ("", counters)
    else if RoundRobin(target.strategy) then
      var key := SelectorKey(target.selector);
      (candidates[Counter(counters, key) % |candidates|], counters[key := Counter(counters, key) + 1])
    else (candidates[0], counters)
  }

  predicate RuleMatches(rule: Rule, rpcMethod: string) {
    exists k :: 0 <= k < |rule.methods| && (Trim(rule.methods[k]) == "*" || Trim(rule.methods[k]) == rpcMethod)
  }

  function TargetForRequest(s: Settings, rules: seq<Rule>, counters: map<string, nat>, rpcMethod: string): (string, map<string, nat>) {
    if rules == [] then ("", counters)
    else if !RuleMatches(rules[0], rpcMethod) then TargetForRequest(s, rules[1..], counters, rpcMethod)
    else if Trim(rules[0].target.nodeId) != "" then (Trim(rules[0].target.nodeId), counters)
    else SelectNode(s, counters, rules[0].target)
  }

  // ---- what rules and selectors choose ----

  /** The first rule wins that lists the method or a star, white space aside; without one nothing is chosen. */
  lemma {:induction false} FirstRuleWins(s: Settings, rules: seq<Rule>, counters: map<string, nat>, rpcMethod: string, k: nat)
    requires k <= |rules|
    requires forall j :: 0 <= j < k ==> forall m :: 0 <= m < |rules[j].methods| ==> Trim(rules[j].methods[m]) != "*" && Trim(rules[j].methods[m]) != rpcMethod
    requires k < |rules| ==> exists m :: 0 <= m < |rules[k].methods| && (Trim(rules[k].methods[m]) == "*" || Trim(rules[k].methods[m]) == rpcMethod)
    ensures var placed := TargetForRequest(s, rules, counters, rpcMethod);
      if k == |rules| then placed == ("", counters)
      else if Trim(rules[k].target.nodeId) != "" then placed == (Trim(rules[k].target.nodeId), counters)
      else placed == SelectNode(s, counters, rules[k].target)
  {
    hide Trim, SelectNode;
    if k > 0 {
      assert forall j :: 0 <= j < k - 1 ==> rules[1..][j] == rules[j + 1];
      FirstRuleWins(s, rules[1..], counters, rpcMethod, k - 1);
    }
  }

  // The node fits what the selector asks for; blank fields ask for nothing.
  predicate Fits(node: NodeConfig, selector: Selector) {
    && (Trim(selector.role) == "" || EqualFold(Trim(node.role), Trim(selector.role)))
    && (Trim(selector.zone) == "" || EqualFold(Trim(node.zone), Trim(selector.zone)))
    && (Trim(selector.capability) == "" || exists k :: 0 <= k < |node.capabilities| && EqualFold(Trim(node.capabilities[k]), Trim(selector.capability)))
  }

  /** The candidates of a selector are exactly the other nodes of the catalog that fit it. */
  lemma {:induction false} CandidatesAre(catalog: seq<(string, NodeConfig)>, local: string, selector: Selector, id: string)
    ensures id in Candidates(catalog, local, selector) <==> exists k :: 0 <= k < |catalog| && catalog[k].0 == id && id != local && Fits(catalog[k].1, selector)
  {
    MatchesFit(selector);
    hide Matches, Fits;
    if catalog != [] {
      var front := catalog[..|catalog| - 1];
      CandidatesAre(front, local, selector, id);
      assert forall k :: 0 <= k < |front| ==> front[k] == catalog[k];
    }
  }

  /** They come in the order of the catalog: the first that fits is the first candidate. */
  lemma {:induction false} FirstFitIsFirst(catalog: seq<(string, NodeConfig)>, local: string, selector: Selector, k: nat)
    requires k < |catalog| && catalog[k].0 != local && Fits(catalog[k].1, selector)
    requires forall j :: 0 <= j < k ==> catalog[j].0 == local || !Fits(catalog[j].1, selector)
    ensures var candidates := Candidates(catalog, local, selector); candidates != [] && candidates[0] == catalog[k].0
  {
    MatchesFit(selector);
    hide Matches, Fits;
    var n := |catalog| - 1;
    var front := catalog[..n];
    assert forall j :: 0 <= j < n ==> front[j] == catalog[j];
    if k < n {
      FirstFitIsFirst(front, local, selector, k);
    } else {
      NoFitNoCandidate(front, local, selector);
    }
  }

  lemma {:induction false} NoFitNoCandidate(catalog: seq<(string, NodeConfig)>, local: string, selector: Selector)
    requires forall j :: 0 <= j < |catalog| ==> catalog[j].0 == local || !Fits(catalog[j].1, selector)
    ensures Candidates(catalog, local, selector) == []
  {
    MatchesFit(selector);
    hide Matches, Fits;
    if catalog != [] {
      var front := catalog[..|catalog| - 1];
      assert forall j :: 0 <= j < |front| ==> front[j] == catalog[j];
      NoFitNoCandidate(front, local, selector);
    }
  }

  lemma {:induction false} MatchesFit(selector: Selector)
    ensures forall node :: Matches(node, selector) <==> Fits(node, selector)
  {
    hide Trim, EqualFold;
  }

  /** Without round robin the first candidate is chosen; without candidates none; no counter moves. */
  lemma {:induction false} FirstCandidateIsChosen(s: Settings, counters: map<string, nat>, target: Target)
    requires !EqualFold(Trim(target.strategy), "round_robin") || Candidates(s.catalog, s.config.local, target.selector) == []
    ensures var candidates := Candidates(s.catalog, s.config.local, target.selector);
      SelectNode(s, counters, target) == (if candidates == [] then "" else candidates[0], counters)
  {
  }

  // ---- session routes ----

  function RouteKey(req: Request): string {
    if Trim(req.sessionId) != "" then "session:" + Trim(req.sessionId)
    else if Trim(req.threadId) != "" then "thread:" + Trim(req.threadId)
    else ""
  }

  predicate IsFollowUp(req: Request) {
    var rpcMethod := Trim(req.rpcMethod);
    rpcMethod == "session.cancel" || (rpcMethod == "xworkmate.tasks.get" && !req.runIds)
  }

  predicate IsForwardable(rpcMethod: string) {
    rpcMethod == "session.start" || rpcMethod == "session.message"
  }

  predicate HasLiveRoute(routes: map<string, Route>, key: string, now: int) {
    key in routes && now <= routes[key].expiresAt
  }

  // Looking a key up deletes it once it has expired.
  function Swept(routes: map<string, Route>, key: string, now: int): map<string, Route> {
    if Trim(key) != "" && key in routes && now > routes[key].expiresAt then routes - {key} else routes
  }

  // Remembering a target for a key; a blank key or target is not remembered.
  function Stored(routes: map<string, Route>, key: string, target: string, now: int, ttl: nat): map<string, Route> {
    if Trim(key) == "" || Trim(target) == "" then routes else routes[key := Route(Trim(target), now + ttl)]
  }

  // forwardDecision as a function of the settings, the state, the request and the time.
  function Decide(s: Settings, st: State, req: Request, now: int): (Decision, State) {
    var target := Trim(req.headers.target);
    if Trim(req.headers.forwarded) != "" && target == "" then (HandleLocally, st)
    else if target != "" then (RelayDecision(s.config, req.headers), st)
    else
      var key := RouteKey(req);
      var swept := st.(routes := Swept(st.routes, key, now));
      if IsFollowUp(req) then
        if key != "" && HasLiveRoute(st.routes, key, now) && !EqualFold(st.routes[key].target, s.config.local) then
          (DecisionForTarget(s.config, st.routes[key].target, req.headers.hop), swept)
        else (HandleLocally, if key != "" then swept else st)
      else if !IsForwardable(Trim(req.rpcMethod)) then (HandleLocally, st)
      else if key != "" && HasLiveRoute(st.routes, key, now) then
        (DecisionForTarget(s.config, st.routes[key].target, req.headers.hop), swept)
      else
        var (chosen, counters) := TargetForRequest(s, s.rules, st.counters, Trim(req.rpcMethod));
        var picked := swept.(counters := counters);
        if chosen == "" || EqualFold(chosen, s.config.local) then (HandleLocally, picked)
        else
          var routed := if key == "" || Trim(chosen) == "" then picked
                        else picked.(routes := picked.routes[key := Route(Trim(chosen), now + s.ttl)]);
          (DecisionForTarget(s.config, chosen, req.headers.hop), routed)
  }

  // ---- the objects ----

  class SessionRouteStore {
    var routes: map<string, Route>
    const ttl: nat

    constructor (ttl: nat)
      ensures routes == map[] && this.ttl == ttl
    {
      routes := map[];
      this.ttl := ttl;
    }

    method Get(key: string, now: int) returns (target: string, ok: bool)
      modifies this`routes
      ensures routes == Swept(old(routes), key, now)
      ensures ok <==> Trim(key) != "" && HasLiveRoute(old(routes), key, now)
      ensures ok ==> target == old(routes)[key].target
    {
      target, ok := "", false;
      if Trim(key) == "" || key !in routes {
        return;
      }
      var route := routes[key];
      if now > route.expiresAt {
        routes := routes - {key};
        return;
      }
      return route.target, true;
    }

    method Set(key: string, target: string, now: int)
      modifies this`routes
      ensures routes == Stored(old(routes), key, target, now, ttl)
    {
      if Trim(key) == "" || Trim(target) == "" {
        return;
      }
      routes := routes[key := Route(Trim(target), now + ttl)];
    }
  }

  class DistributedTaskRouter {
    const settings: Settings
    const routeStore: SessionRouteStore
    var counters: map<string, nat>

    constructor (settings: Settings)
      ensures this.settings == settings && counters == map[]
      ensures fresh(routeStore) && routeStore.routes == map[] && routeStore.ttl == settings.ttl
    {
      this.settings := settings;
      routeStore := new SessionRouteStore(settings.ttl);
      counters := map[];
    }

    function Now(): State
      reads this, routeStore
    {
      State(routeStore.routes, counters)
    }

    method PickNode(target: Target) returns (chosen: string)
      modifies this`counters
      ensures (chosen, counters) == SelectNode(settings, old(counters), target)
    {
      var catalog, candidates := settings.catalog, [];
      var k := 0;
      while k < |catalog|
        invariant 0 <= k <= |catalog|
        invariant candidates == Candidates(catalog[..k], settings.config.local, target.selector)
      {
        var (id, node) := catalog[k];
        if id != settings.config.local && Matches(node, target.selector) {
          candidates := candidates + [id];
        }
        assert catalog[..k + 1][..k] == catalog[..k];
        k := k + 1;
      }
      assert catalog[..k] == catalog;
      if candidates == [] {
        return "";
      }
      if RoundRobin(target.strategy) {
        var key := SelectorKey(target.selector);
        var index := Counter(counters, key) % |candidates|;
        counters := counters[key := Counter(counters, key) + 1];
        return candidates[index];
      }
      chosen := candidates[0];
    }

    method TargetFor(rpcMethod: string) returns (chosen: string)
      modifies this`counters
      ensures (chosen, counters) == TargetForRequest(settings, settings.rules, old(counters), rpcMethod)
    {
      var rules := settings.rules;
      var k := 0;
      while k < |rules|
        invariant 0 <= k <= |rules| && counters == old(counters)
        invariant TargetForRequest(settings, rules, counters, rpcMethod) == TargetForRequest(settings, rules[k..], counters, rpcMethod)
      {
        if RuleMatches(rules[k], rpcMethod) {
          if Trim(rules[k].target.nodeId) != "" {
            return Trim(rules[k].target.nodeId);
          }
          chosen := PickNode(rules[k].target);
          return;
        }
        k := k + 1;
      }
      chosen := "";
    }

    method ForwardDecision(req: Request, now: int) returns (decision: Decision)
      requires routeStore.ttl == settings.ttl
      modifies this`counters, routeStore`routes
      ensures (decision, Now()) == Decide(settings, old(Now()), req, now)
    {
      hide DecisionForTarget, RelayDecision, SelectNode, TargetForRequest;
      KeyIsTrimmed(req);
      var target := Trim(req.headers.target);
      if Trim(req.headers.forwarded) != "" && target == "" {
        return HandleLocally;
      }
      if target != "" {
        return RelayDecision(settings.config, req.headers);
      }
      var key := RouteKey(req);
      if IsFollowUp(req) {
        if key != "" {
          var routed, ok := routeStore.Get(key, now);
          if ok && !EqualFold(routed, settings.config.local) {
            return DecisionForTarget(settings.config, routed, req.headers.hop);
          }
        }
        return HandleLocally;
      }
      if !IsForwardable(Trim(req.rpcMethod)) {
        return HandleLocally;
      }
      if key != "" {
        var routed, ok := routeStore.Get(key, now);
        if ok {
          return DecisionForTarget(settings.config, routed, req.headers.hop);
        }
      }
      var chosen := TargetFor(Trim(req.rpcMethod));
      if chosen == "" || EqualFold(chosen, settings.config.local) {
        return HandleLocally;
      }
      if key != "" {
        routeStore.Set(key, chosen, now);
      }
      decision := DecisionForTarget(settings.config, chosen, req.headers.hop);
    }
  }

  // A route key is either empty or not blank.
  lemma {:induction false} KeyIsTrimmed(req: Request)
    ensures RouteKey(req) != "" ==> Trim(RouteKey(req)) != ""
    ensures RouteKey(req) == "" ==> Trim(RouteKey(req)) == ""
  {
    hide TrimLeft, TrimRight;
    TrimTwice(req.sessionId);
    TrimTwice(req.threadId);
    var key := RouteKey(req);
    TrimTrims(req.sessionId);
    TrimTrims(req.threadId);
    if key == "" {
      TrimmedStays(key);
    } else {
      TrimmedStays(key);
      assert key[0] == 's' || key[0] == 't';
      assert !IsSpace(key[|key| - 1]);
    }
  }

  /** A stored route is found, with its target, up to and including its expiry and not after; every other key
      is found as before, and blank keys and targets leave no trace. */
  lemma {:induction false} StoredRouteIsFound(routes: map<string, Route>, key: string, target: string, now: int, ttl: nat, other: string, later: int)
    ensures var after := Stored(routes, key, target, now, ttl);
      && (Trim(key) != "" && Trim(target) != "" ==>
            && key in after && (HasLiveRoute(after, key, later) <==> later <= now + ttl)
            && after[key].target == Trim(target) && Trim(after[key].target) != "")
      && (other != key || Trim(key) == "" || Trim(target) == "" ==>
            (HasLiveRoute(after, other, later) <==> HasLiveRoute(routes, other, later)) && (other in routes ==> other in after && after[other] == routes[other]))
  {
    TrimTwice(target);
    hide Trim;
  }

  // ---- stickiness ----

  // A request that comes from a client: no forwarding headers.
  predicate FromClient(req: Request) {
    Trim(req.headers.forwarded) == "" && Trim(req.headers.target) == ""
  }

  // The key a request names: its session, else its thread.
  predicate HasKey(req: Request, key: string) {
    || (Trim(req.sessionId) != "" && key == "session:" + Trim(req.sessionId))
    || (Trim(req.sessionId) == "" && Trim(req.threadId) != "" && key == "thread:" + Trim(req.threadId))
  }

  predicate HasNoKey(req: Request) {
    Trim(req.sessionId) == "" && Trim(req.threadId) == ""
  }

  // The methods that place a session, and those that only follow it.
  predicate Places(req: Request) {
    Trim(req.rpcMethod) == "session.start" || Trim(req.rpcMethod) == "session.message"
  }

  predicate Follows(req: Request) {
    Trim(req.rpcMethod) == "session.cancel" || (Trim(req.rpcMethod) == "xworkmate.tasks.get" && !req.runIds)
  }

  lemma {:induction false} KeyIs(req: Request, key: string)
    ensures HasKey(req, key) ==> RouteKey(req) == key && key != ""
    ensures HasNoKey(req) ==> RouteKey(req) == ""
  {
    hide Trim;
  }

  lemma {:induction false} MethodsAre(req: Request)
    ensures IsFollowUp(req) <==> Follows(req)
    ensures IsForwardable(Trim(req.rpcMethod)) <==> Places(req)
    ensures !(Places(req) && Follows(req))
  {
    hide Trim;
    assert |"session.cancel"| == 14 && |"session.start"| == 13 && |"session.message"| == 15 && |"xworkmate.tasks.get"| == 19;
  }

  /** A start or message of a client whose session has no live route: handled here when the rules choose no
      other node, and then no route is set; else it goes to the chosen node, which becomes the session's route
      for ttl, if the session has a key. Either way a round-robin pick counts. */
  lemma {:induction false} FirstPlacement(s: Settings, st: State, req: Request, now: int, key: string)
    requires FromClient(req) && Places(req) && (HasKey(req, key) || HasNoKey(req))
    requires HasKey(req, key) && key in st.routes ==> now > st.routes[key].expiresAt
    ensures var (chosen, counters) := TargetForRequest(s, s.rules, st.counters, Trim(req.rpcMethod));
      var (decision, after) := Decide(s, st, req, now);
      && after.counters == counters
      && (chosen == "" || EqualFold(chosen, s.config.local) ==> decision == HandleLocally)
      && (chosen != "" && !EqualFold(chosen, s.config.local) ==> decision == DecisionForTarget(s.config, chosen, req.headers.hop))
      && (HasKey(req, key) ==>
            && (key in after.routes <==> chosen != "" && !EqualFold(chosen, s.config.local) && Trim(chosen) != "")
            && (key in after.routes ==> after.routes[key] == Route(Trim(chosen), now + s.ttl))
            && forall other :: other != key ==> (other in after.routes <==> other in st.routes) && (other in st.routes ==> after.routes[other] == st.routes[other]))
      && (HasNoKey(req) ==> after.routes == st.routes)
  {
    hide DecisionForTarget, TargetForRequest, Trim, EqualFold;
    KeyIs(req, key);
    MethodsAre(req);
    KeyIsTrimmed(req);
    hide RouteKey, IsFollowUp, IsForwardable, Places, Follows;
  }

  /** Until the route expires no request, of this session or another, changes it; and every start, message,
      cancel and lookup without run ids that a client sends for the session goes to the first target. */
  lemma {:induction false} RouteIsSticky(s: Settings, st: State, req: Request, now: int, key: string)
    requires key != "" && key in st.routes && now <= st.routes[key].expiresAt
    ensures var (decision, after) := Decide(s, st, req, now);
      && key in after.routes && after.routes[key] == st.routes[key]
      && (FromClient(req) && HasKey(req, key) && (Places(req) || Follows(req)) && !EqualFold(st.routes[key].target, s.config.local)
          ==> decision == DecisionForTarget(s.config, st.routes[key].target, req.headers.hop))
  {
    KeyIs(req, key);
    MethodsAre(req);
    hide DecisionForTarget, RelayDecision, TargetForRequest, Trim, EqualFold, RouteKey, IsFollowUp, IsForwardable, HasKey, Places, Follows;
  }

  /** What a client sends besides is handled here and changes nothing: every other method, and lookups that
      carry run ids. A cancel or lookup without a live route to another node is handled here too. */
  lemma {:induction false} RestStaysHere(s: Settings, st: State, req: Request, now: int, key: string)
    requires FromClient(req)
    ensures !Places(req) && !Follows(req) ==> Decide(s, st, req, now) == (HandleLocally, st)
    ensures Follows(req) && HasNoKey(req) ==> Decide(s, st, req, now) == (HandleLocally, st)
    ensures Follows(req) && HasKey(req, key) && !(key in st.routes && now <= st.routes[key].expiresAt && !EqualFold(st.routes[key].target, s.config.local)) ==>
      Decide(s, st, req, now).0 == HandleLocally
  {
    KeyIs(req, key);
    MethodsAre(req);
    hide DecisionForTarget, RelayDecision, TargetForRequest, Trim, EqualFold, RouteKey, IsFollowUp, IsForwardable, HasKey, HasNoKey, Places, Follows;
  }

  /** A request another node forwarded goes where its headers say, and changes nothing: without a target, or
      with this node as target, it is handled here. */
  lemma {:induction false} ForwardedIsRelayed(s: Settings, st: State, req: Request, now: int)
    requires !FromClient(req)
    ensures var target := Trim(req.headers.target);
      Decide(s, st, req, now)
      == (if target == "" || EqualFold(target, s.config.local) then HandleLocally else DecisionForTarget(s.config, target, req.headers.hop), st)
  {
    hide DecisionForTarget, TargetForRequest, Trim, EqualFold;
  }

  // The state after a sequence of requests, each with its time.
  function DecideAll(s: Settings, st: State, requests: seq<(Request, int)>): State {
    if requests == [] then st
    else
      var before := DecideAll(s, st, requests[..|requests| - 1]);
      Decide(s, before, requests[|requests| - 1].0, requests[|requests| - 1].1).1
  }

  /** Over any sequence of requests decided within the route's life, a session placed on a node stays
      there: the next start, message or follow-up is sent to that same target. */
  lemma {:induction false} SessionStaysPlaced(s: Settings, st: State, requests: seq<(Request, int)>, key: string, next: Request, now: int)
    requires key != "" && key in st.routes && now <= st.routes[key].expiresAt
    requires forall k :: 0 <= k < |requests| ==> requests[k].1 <= st.routes[key].expiresAt
    requires FromClient(next) && HasKey(next, key) && (Places(next) || Follows(next)) && !EqualFold(st.routes[key].target, s.config.local)
    ensures var after := DecideAll(s, st, requests);
      && key in after.routes && after.routes[key] == st.routes[key]
      && Decide(s, after, next, now).0 == DecisionForTarget(s.config, st.routes[key].target, next.headers.hop)
  {
    hide Decide, DecisionForTarget, FromClient, HasKey, Places, Follows, EqualFold;
    if requests != [] {
      var front, last := requests[..|requests| - 1], requests[|requests| - 1];
      SessionStaysPlaced(s, st, front, key, next, now);
      RouteIsSticky(s, DecideAll(s, st, front), last.0, last.1, key);
    }
    RouteIsSticky(s, DecideAll(s, st, requests), next, now, key);
  }

  /** Follow-ups never create or change a route; at most they drop an expired one. */
  lemma {:induction false} FollowUpsCreateNothing(s: Settings, st: State, req: Request, now: int)
    requires Follows(req)
    ensures var after := Decide(s, st, req, now).1;
      after.counters == st.counters
      && forall key :: key in after.routes ==> key in st.routes && after.routes[key] == st.routes[key]
    ensures forall key :: key in st.routes && now <= st.routes[key].expiresAt ==> key in Decide(s, st, req, now).1.routes
  {
    MethodsAre(req);
    hide DecisionForTarget, RelayDecision, TargetForRequest, Trim, EqualFold, Places, Follows, IsFollowUp, IsForwardable;
  }

  /** A target chosen here travels on as if another node had sent it: the entry decision is the relay
      decision for that target, so the network results apply from the first hop. */
  lemma {:induction false} EntryIsRelay(config: RouterConfig, target: string, hopHeader: string)
    requires Trim(target) != "" && !EqualFold(Trim(target), config.local)
    ensures DecisionForTarget(config, target, hopHeader) == RelayDecision(config, Envelope("", target, hopHeader))
  {
    TrimTwice(target);
  }

  // ---- fairness ----

  // The target of the first rule that matches.
  function FirstTarget(rules: seq<Rule>, rpcMethod: string): Option<Target> {
    if rules == [] then None
    else if RuleMatches(rules[0], rpcMethod) then Some(rules[0].target)
    else FirstTarget(rules[1..], rpcMethod)
  }

  lemma {:induction false} FirstTargetDecides(s: Settings, rules: seq<Rule>, counters: map<string, nat>, rpcMethod: string)
    ensures TargetForRequest(s, rules, counters, rpcMethod)
         == match FirstTarget(rules, rpcMethod)
            case None => ("", counters)
            case Some(target) => if Trim(target.nodeId) != "" then (Trim(target.nodeId), counters) else SelectNode(s, counters, target)
  {
    hide SelectNode, Trim, RuleMatches;
    if rules != [] && !RuleMatches(rules[0], rpcMethod) {
      FirstTargetDecides(s, rules[1..], counters, rpcMethod);
    }
  }

  function CandidatesOf(s: Settings, target: Target): seq<string> {
    Candidates(s.catalog, s.config.local, target.selector)
  }

  // The requests of this method are placed by the round-robin counter of key.
  predicate UsesCounter(s: Settings, rpcMethod: string, key: string) {
    var first := FirstTarget(s.rules, rpcMethod);
    first.Some? && Trim(first.value.nodeId) == "" && RoundRobin(first.value.strategy)
    && SelectorKey(first.value.selector) == key && CandidatesOf(s, first.value) != []
  }

  // They share target's counter, and choose among the same candidates, or among others.
  predicate PicksLike(s: Settings, rpcMethod: string, target: Target) {
    UsesCounter(s, rpcMethod, SelectorKey(target.selector)) && CandidatesOf(s, FirstTarget(s.rules, rpcMethod).value) == CandidatesOf(s, target)
  }

  predicate Collides(s: Settings, rpcMethod: string, target: Target) {
    UsesCounter(s, rpcMethod, SelectorKey(target.selector)) && CandidatesOf(s, FirstTarget(s.rules, rpcMethod).value) != CandidatesOf(s, target)
  }

  // New sessions placed one after the other, by their methods: the nodes chosen among target's candidates,
  // in order, and the counters.
  function PlaceAll(s: Settings, counters: map<string, nat>, methods: seq<string>, target: Target): (seq<string>, map<string, nat>) {
    if methods == [] then ([], counters)
    else
      var (before, middle) := PlaceAll(s, counters, methods[..|methods| - 1], target);
      var last := methods[|methods| - 1];
      var (chosen, after) := TargetForRequest(s, s.rules, middle, last);
      (if PicksLike(s, last, target) then before + [chosen] else before, after)
  }

  function Rotation(candidates: seq<string>, start: nat, n: nat): seq<string>
    requires candidates != []
  {
    seq(n, i requires 0 <= i < n => candidates[(start + i) % |candidates|])
  }

  predicate NoBar(s: string) {
    '|' !in s
  }

  predicate PlainSelector(selector: Selector) {
    NoBar(Trim(selector.role)) && NoBar(Trim(selector.zone)) && NoBar(Trim(selector.capability))
  }

  // Three fields make two bars; any more come from the fields.
  lemma {:induction false} PlainKey(p: Selector)
    ensures PlainSelector(p) <==> Tally(SelectorKey(p), '|') == 2
  {
    hide Trim, SelectorKey;
    var a, b, c := Trim(p.role), Trim(p.zone), Trim(p.capability);
    KeyShape(p);
    TallyAdds(a + ['|'], b + ['|'] + c, '|');
    TallyAdds(a, ['|'], '|');
    TallyAdds(b + ['|'], c, '|');
    TallyAdds(b, ['|'], '|');
    assert Tally(['|'], '|') == 1;
    TallyOfNone(a, '|');
    TallyOfNone(b, '|');
    TallyOfNone(c, '|');
  }

  // When one of them has no bar in its fields, selectors with one key are one selector.
  lemma {:induction false} KeyDeterminesSelector(p: Selector, q: Selector)
    requires PlainSelector(p) && SelectorKey(p) == SelectorKey(q)
    ensures Trim(p.role) == Trim(q.role) && Trim(p.zone) == Trim(q.zone) && Trim(p.capability) == Trim(q.capability)
  {
    hide Trim;
    PlainKey(p);
    PlainKey(q);
    KeyShape(p);
    KeyShape(q);
    SplitUnique(Trim(p.role), Trim(q.role), Trim(p.zone) + ['|'] + Trim(p.capability), Trim(q.zone) + ['|'] + Trim(q.capability), '|');
    SplitUnique(Trim(p.zone), Trim(q.zone), Trim(p.capability), Trim(q.capability), '|');
  }

  lemma {:induction false} KeyShape(p: Selector)
    ensures SelectorKey(p) == Trim(p.role) + ['|'] + (Trim(p.zone) + ['|'] + Trim(p.capability))
  {
    hide Trim;
    var a, b, c := Trim(p.role), Trim(p.zone), Trim(p.capability);
    assert Join([c], '|') == c;
    assert [b, c][1..] == [c] && [a, b, c][1..] == [b, c];
    assert Join([b, c], '|') == b + ['|'] + c;
  }

  lemma {:induction false} SameKeySameCandidates(catalog: seq<(string, NodeConfig)>, local: string, p: Selector, q: Selector)
    requires PlainSelector(p) && SelectorKey(p) == SelectorKey(q)
    ensures Candidates(catalog, local, p) == Candidates(catalog, local, q)
  {
    KeyDeterminesSelector(p, q);
    hide Trim, SelectorKey, PlainSelector, EqualFold;
    if catalog != [] {
      var node := catalog[|catalog| - 1].1;
      assert Matches(node, p) == Matches(node, q);
      SameKeySameCandidates(catalog[..|catalog| - 1], local, p, q);
    }
  }

  lemma {:induction false} OnePlacement(s: Settings, counters: map<string, nat>, rpcMethod: string, target: Target)
    ensures var key := SelectorKey(target.selector);
      var (chosen, after) := TargetForRequest(s, s.rules, counters, rpcMethod);
      && (UsesCounter(s, rpcMethod, key) ==>
            var candidates := CandidatesOf(s, FirstTarget(s.rules, rpcMethod).value);
            chosen == candidates[Counter(counters, key) % |candidates|] && Counter(after, key) == Counter(counters, key) + 1)
      && (!UsesCounter(s, rpcMethod, key) ==> Counter(after, key) == Counter(counters, key))
  {
    FirstTargetDecides(s, s.rules, counters, rpcMethod);
    hide Candidates, SelectorKey, RoundRobin, Trim, FirstTarget, TargetForRequest;
  }

  /** While no request in between chooses among other candidates by the same counter, the nodes chosen for a
      target go round its candidates. */
  lemma {:induction false} PicksRotate(s: Settings, counters: map<string, nat>, methods: seq<string>, target: Target)
    requires CandidatesOf(s, target) != [] && forall k :: 0 <= k < |methods| ==> !Collides(s, methods[k], target)
    ensures var key := SelectorKey(target.selector);
      var (picks, after) := PlaceAll(s, counters, methods, target);
      && Counter(after, key) == Counter(counters, key) + |picks|
      && picks == Rotation(CandidatesOf(s, target), Counter(counters, key), |picks|)
  {
    hide CandidatesOf, SelectorKey, UsesCounter, TargetForRequest, Counter;
    if methods != [] {
      var front, last := methods[..|methods| - 1], methods[|methods| - 1];
      PicksRotate(s, counters, front, target);
      OnePlacement(s, PlaceAll(s, counters, front, target).1, last, target);
      assert !Collides(s, last, target);
    }
  }

  function Count(picks: seq<string>, id: string): nat {
    if picks == [] then 0 else Count(picks[..|picks| - 1], id) + if picks[|picks| - 1] == id then 1 else 0
  }

  // How often index k comes up among the counter values 0 .. m-1.
  function Turns(m: nat, n: nat, k: nat): nat
    requires n > 0
  {
    m / n + if k < m % n then 1 else 0
  }

  lemma {:induction false} OneMoreTurn(m: nat, n: nat, k: nat)
    requires k < n
    ensures Turns(m + 1, n, k) == Turns(m, n, k) + if m % n == k then 1 else 0
  {
    var q, r := m / n, m % n;
    if r + 1 < n {
      DivModIs(m + 1, n, q, r + 1);
    } else {
      DivModIs(m + 1, n, q + 1, 0);
    }
  }

  lemma {:induction false} DivModIs(m: nat, n: nat, q: nat, r: nat)
    requires n > 0 && r < n && m == q * n + r
    ensures m / n == q && m % n == r
  {
    var d := m / n - q;
    assert d * n == (m / n) * n - q * n;
    NoMultipleBetween(d, n, r - m % n);
  }

  lemma {:induction false} NoMultipleBetween(d: int, n: nat, e: int)
    requires d * n == e && e < n && 0 < e + n
    ensures d == 0
  {
    MultipleBounds(d, n);
  }

  lemma {:induction false} MultipleBounds(d: int, n: nat)
    ensures d >= 1 ==> d * n >= n
    ensures d <= -1 ==> d * n + n <= 0
    decreases if d < 0 then -d else d
  {
    if d > 1 {
      MultipleBounds(d - 1, n);
      assert d * n == (d - 1) * n + n;
    } else if d < -1 {
      MultipleBounds(d + 1, n);
      assert d * n == (d + 1) * n - n;
    }
  }

  lemma {:induction false} RotationCounts(candidates: seq<string>, start: nat, n: nat, k: nat)
    requires k < |candidates| && forall i, j :: 0 <= i < j < |candidates| ==> candidates[i] != candidates[j]
    ensures Count(Rotation(candidates, start, n), candidates[k])
         == Turns(start + n, |candidates|, k) - Turns(start, |candidates|, k)
  {
    hide Turns;
    if n > 0 {
      RotationCounts(candidates, start, n - 1, k);
      var picks := Rotation(candidates, start, n);
      assert picks[..n - 1] == Rotation(candidates, start, n - 1);
      OneMoreTurn(start + n - 1, |candidates|, k);
      var at := (start + n - 1) % |candidates|;
      assert picks[n - 1] == candidates[at];
      assert candidates[at] == candidates[k] <==> at == k;
    }
  }

  lemma {:induction false} TurnsDifferByOne(start: nat, n: nat, size: nat, j: nat, k: nat)
    requires j < size && k < size
    ensures var first := Turns(start + n, size, j) - Turns(start, size, j);
      var second := Turns(start + n, size, k) - Turns(start, size, k);
      first <= second + 1
  {
  }

  predicate DistinctIds(catalog: seq<(string, NodeConfig)>) {
    forall i, j :: 0 <= i < j < |catalog| ==> catalog[i].0 != catalog[j].0
  }

  predicate NoRepeats(ids: seq<string>) {
    forall i, j :: 0 <= i < j < |ids| ==> ids[i] != ids[j]
  }

  lemma {:induction false} CandidatesAreDistinct(catalog: seq<(string, NodeConfig)>, local: string, selector: Selector)
    requires DistinctIds(catalog)
    ensures NoRepeats(Candidates(catalog, local, selector))
    ensures forall id :: id in Candidates(catalog, local, selector) ==> exists k :: 0 <= k < |catalog| && catalog[k].0 == id
  {
    hide Matches;
    if catalog != [] {
      var front := catalog[..|catalog| - 1];
      CandidatesAreDistinct(front, local, selector);
      var before := Candidates(front, local, selector);
      assert forall i :: 0 <= i < |before| ==> before[i] in before;
      assert forall k :: 0 <= k < |front| ==> front[k] == catalog[k];
      assert catalog[|catalog| - 1].0 !in before;
    }
  }

  // No candidate was chosen two times more often than another.
  predicate IsEven(picks: seq<string>, candidates: seq<string>) {
    forall j, k :: 0 <= j < |candidates| && 0 <= k < |candidates| ==> Count(picks, candidates[j]) <= Count(picks, candidates[k]) + 1
  }

  lemma {:induction false} RotationIsEven(candidates: seq<string>, start: nat, n: nat)
    requires candidates != [] && NoRepeats(candidates)
    ensures IsEven(Rotation(candidates, start, n), candidates)
  {
    hide Rotation, Turns, Count;
    forall j, k | 0 <= j < |candidates| && 0 <= k < |candidates|
      ensures Count(Rotation(candidates, start, n), candidates[j]) <= Count(Rotation(candidates, start, n), candidates[k]) + 1
    {
      RotationCounts(candidates, start, n, j);
      RotationCounts(candidates, start, n, k);
      TurnsDifferByOne(start, n, |candidates|, j, k);
    }
  }

  function Repeat(item: string, n: nat): seq<string> {
    seq(n, _ => item)
  }

  // A request of one method, then enough of another to bring the counter round, and so on.
  function Rounds(first: string, other: string, others: nat, n: nat): seq<string> {
    if n == 0 then [] else Rounds(first, other, others, n - 1) + ([first] + Repeat(other, others))
  }

  lemma {:induction false} PlaceTwice(s: Settings, counters: map<string, nat>, a: seq<string>, b: seq<string>, target: Target)
    ensures var (before, middle) := PlaceAll(s, counters, a, target);
      var (rest, after) := PlaceAll(s, middle, b, target);
      PlaceAll(s, counters, a + b, target) == (before + rest, after)
  {
    hide TargetForRequest, PicksLike;
    if b == [] {
      var before := PlaceAll(s, counters, a, target).0;
      assert a + b == a && before + [] == before;
    } else {
      var front, last := b[..|b| - 1], b[|b| - 1];
      PlaceTwice(s, counters, a, front, target);
      assert a + b != [] && (a + b)[..|a + b| - 1] == a + front && (a + b)[|a + b| - 1] == last;
      var (before, middle) := PlaceAll(s, counters, a, target);
      var (rest, after) := PlaceAll(s, middle, front, target);
      assert PlaceAll(s, counters, a + front, target) == (before + rest, after);
      var (chosen, final) := TargetForRequest(s, s.rules, after, last);
      var more := if PicksLike(s, last, target) then [chosen] else [];
      assert rest + [] == rest && (before + rest) + [] == before + rest;
      assert PlaceAll(s, middle, b, target) == (rest + more, final);
      assert PlaceAll(s, counters, a + b, target) == ((before + rest) + more, final);
      assert (before + rest) + more == before + (rest + more);
    }
  }

  lemma {:induction false} OthersAdvance(s: Settings, counters: map<string, nat>, other: string, n: nat, target: Target)
    requires Collides(s, other, target)
    ensures var key := SelectorKey(target.selector);
      var (picks, after) := PlaceAll(s, counters, Repeat(other, n), target);
      picks == [] && Counter(after, key) == Counter(counters, key) + n
  {
    hide CandidatesOf, SelectorKey, UsesCounter, TargetForRequest, Counter;
    if n > 0 {
      OthersAdvance(s, counters, other, n - 1, target);
      assert Repeat(other, n)[..n - 1] == Repeat(other, n - 1);
      OnePlacement(s, PlaceAll(s, counters, Repeat(other, n - 1), target).1, other, target);
    }
  }

  lemma {:induction false} OneRound(s: Settings, counters: map<string, nat>, first: string, other: string, target: Target)
    requires PicksLike(s, first, target) && Collides(s, other, target)
    ensures var key, candidates := SelectorKey(target.selector), CandidatesOf(s, target);
      var (picks, after) := PlaceAll(s, counters, [first] + Repeat(other, |candidates| - 1), target);
      candidates != [] && picks == [candidates[Counter(counters, key) % |candidates|]] && Counter(after, key) == Counter(counters, key) + |candidates|
  {
    hide CandidatesOf, SelectorKey, UsesCounter, TargetForRequest, Counter;
    var candidates := CandidatesOf(s, target);
    OnePlacement(s, counters, first, target);
    assert candidates != [] by { CounterHasCandidates(s, first, target); }
    assert [first][..0] == [];
    OthersAdvance(s, PlaceAll(s, counters, [first], target).1, other, |candidates| - 1, target);
    PlaceTwice(s, counters, [first], Repeat(other, |candidates| - 1), target);
  }

  lemma {:induction false} CounterHasCandidates(s: Settings, rpcMethod: string, target: Target)
    requires PicksLike(s, rpcMethod, target)
    ensures CandidatesOf(s, target) != []
  {
    hide CandidatesOf, SelectorKey, RoundRobin;
  }

  /** When requests in between choose among other candidates by the same counter, a target can be starved:
      in every round the same candidate is chosen, for any number of rounds. */
  lemma {:induction false} RoundsStarve(s: Settings, counters: map<string, nat>, first: string, other: string, n: nat, target: Target)
    requires PicksLike(s, first, target) && Collides(s, other, target)
    ensures var key, candidates := SelectorKey(target.selector), CandidatesOf(s, target);
      candidates != [] &&
      var (picks, after) := PlaceAll(s, counters, Rounds(first, other, |candidates| - 1, n), target);
      && picks == Repeat(candidates[Counter(counters, key) % |candidates|], n)
      && Counter(after, key) % |candidates| == Counter(counters, key) % |candidates|
  {
    hide CandidatesOf, SelectorKey, PicksLike, Collides, PlaceAll, Counter;
    CounterHasCandidates(s, first, target);
    var size := |CandidatesOf(s, target)|;
    if n == 0 {
      assert PlaceAll(s, counters, [], target) == ([], counters) by { NoPlacement(s, counters, target); }
    } else {
      RoundsStarve(s, counters, first, other, n - 1, target);
      var middle := PlaceAll(s, counters, Rounds(first, other, size - 1, n - 1), target).1;
      OneRound(s, middle, first, other, target);
      PlaceTwice(s, counters, Rounds(first, other, size - 1, n - 1), [first] + Repeat(other, size - 1), target);
      FullTurn(Counter(middle, SelectorKey(target.selector)), size);
    }
  }

  lemma {:induction false} NoPlacement(s: Settings, counters: map<string, nat>, target: Target)
    ensures PlaceAll(s, counters, [], target) == ([], counters)
  {
  }

  lemma {:induction false} FullTurn(m: nat, n: nat)
    requires n > 0
    ensures (m + n) % n == m % n
  {
    DivModIs(m + n, n, m / n + 1, m % n);
  }

  lemma {:induction false} RepeatCounts(item: string, n: nat, id: string)
    ensures Count(Repeat(item, n), id) == if item == id then n else 0
  {
    if n > 0 {
      RepeatCounts(item, n - 1, id);
      assert Repeat(item, n)[..n - 1] == Repeat(item, n - 1);
    }
  }

  lemma {:induction false} StarvedIsUneven(candidates: seq<string>, at: nat, n: nat)
    requires at < |candidates| && |candidates| >= 2 && NoRepeats(candidates) && n >= 2
    ensures !IsEven(Repeat(candidates[at], n), candidates)
  {
    hide Repeat, Count;
    var k := if at == 0 then 1 else 0;
    RepeatCounts(candidates[at], n, candidates[at]);
    RepeatCounts(candidates[at], n, candidates[k]);
  }

  lemma {:induction false} RoundsUse(first: string, other: string, others: nat, n: nat)
    ensures forall k :: 0 <= k < |Rounds(first, other, others, n)| ==> Rounds(first, other, others, n)[k] == first || Rounds(first, other, others, n)[k] == other
  {
    if n > 0 {
      RoundsUse(first, other, others, n - 1);
    }
  }

  predicate Uses(methods: seq<string>, inUse: set<string>) {
    forall k :: 0 <= k < |methods| ==> methods[k] in inUse
  }

  ghost predicate AlwaysEven(s: Settings, counters: map<string, nat>, inUse: set<string>, target: Target) {
    forall methods :: Uses(methods, inUse) ==> IsEven(PlaceAll(s, counters, methods, target).0, CandidatesOf(s, target))
  }

  /** Fairness, exactly. Take the methods in use and one of them whose first rule chooses by round robin among
      two or more nodes. Over every sequence of placements the numbers of times two of these nodes are chosen
      differ by at most one, if and only if no method in use chooses among other nodes by the same counter. */
  lemma {:induction false} RoundRobinIsFairExactly(s: Settings, counters: map<string, nat>, inUse: set<string>, first: string, target: Target)
    requires DistinctIds(s.catalog) && first in inUse && PicksLike(s, first, target) && |CandidatesOf(s, target)| >= 2
    ensures AlwaysEven(s, counters, inUse, target) <==> forall m :: m in inUse ==> !Collides(s, m, target)
  {
    hide PicksLike, Collides, PlaceAll, Candidates, SelectorKey, Rotation, Counter, Repeat, Count, IsEven;
    var candidates := CandidatesOf(s, target);
    CandidatesAreDistinct(s.catalog, s.config.local, target.selector);
    if other :| other in inUse && Collides(s, other, target) {
      RoundsStarve(s, counters, first, other, 2, target);
      var methods := Rounds(first, other, |candidates| - 1, 2);
      RoundsUse(first, other, |candidates| - 1, 2);
      StarvedIsUneven(candidates, Counter(counters, SelectorKey(target.selector)) % |candidates|, 2);
      assert Uses(methods, inUse);
    } else {
      forall methods | Uses(methods, inUse) ensures IsEven(PlaceAll(s, counters, methods, target).0, candidates) {
        PlacedEvenly(s, counters, methods, target);
      }
    }
  }

  lemma {:induction false} PlacedEvenly(s: Settings, counters: map<string, nat>, methods: seq<string>, target: Target)
    requires DistinctIds(s.catalog) && CandidatesOf(s, target) != [] && forall k :: 0 <= k < |methods| ==> !Collides(s, methods[k], target)
    ensures IsEven(PlaceAll(s, counters, methods, target).0, CandidatesOf(s, target))
  {
    hide Collides, PlaceAll, Candidates, SelectorKey, Rotation, Counter, IsEven;
    CandidatesAreDistinct(s.catalog, s.config.local, target.selector);
    PicksRotate(s, counters, methods, target);
    RotationIsEven(CandidatesOf(s, target), Counter(counters, SelectorKey(target.selector)), |PlaceAll(s, counters, methods, target).0|);
  }

  /** In particular a selector without a bar in its fields is always served fairly. */
  lemma {:induction false} RoundRobinIsFair(s: Settings, counters: map<string, nat>, methods: seq<string>, target: Target)
    requires DistinctIds(s.catalog) && PlainSelector(target.selector) && CandidatesOf(s, target) != []
    ensures IsEven(PlaceAll(s, counters, methods, target).0, CandidatesOf(s, target))
  {
    hide PlainSelector, PlaceAll, Candidates, SelectorKey, RoundRobin, IsEven, Trim, FirstTarget;
    forall k | 0 <= k < |methods| ensures !Collides(s, methods[k], target) {
      var first := FirstTarget(s.rules, methods[k]);
      if first.Some? && SelectorKey(first.value.selector) == SelectorKey(target.selector) {
        SameKeySameCandidates(s.catalog, s.config.local, target.selector, first.value.selector);
      }
    }
    PlacedEvenly(s, counters, methods, target);
  }

  // ---- selectors that share a counter ----

  const BAR_IN_ROLE := Target("", Selector("a|b", "", ""), "round_robin")
  const BAR_IN_ZONE := Target("", Selector("a", "b|", ""), "round_robin")
  const SHARED := Settings(RouterConfig("x", 1, map[], map[]),
                           [("n1", NodeConfig("e", "a|b", "", [])), ("n2", NodeConfig("e", "a|b", "", [])), ("n3", NodeConfig("e", "a", "b|", []))],
                           [Rule(["session.start"], BAR_IN_ROLE), Rule(["session.message"], BAR_IN_ZONE)], 0)

  lemma {:induction false} SharedTrims()
    ensures Trim("") == "" && Trim("a") == "a" && Trim("a|b") == "a|b" && Trim("b|") == "b|" && Trim("round_robin") == "round_robin"
  {
    TrimmedStays("");
    TrimmedStays("a");
    TrimmedStays("a|b");
    TrimmedStays("b|");
    TrimmedStays("round_robin");
  }

  lemma {:induction false} SharedCandidates()
    ensures SelectorKey(BAR_IN_ROLE.selector) == SelectorKey(BAR_IN_ZONE.selector)
    ensures Candidates(SHARED.catalog, "x", BAR_IN_ROLE.selector) == ["n1", "n2"]
    ensures Candidates(SHARED.catalog, "x", BAR_IN_ZONE.selector) == ["n3"]
  {
    SharedTrims();
    hide Trim, EqualFold;
    assert EqualFold("a|b", "a|b") && EqualFold("a", "a") && EqualFold("b|", "b|") && !EqualFold("a", "a|b") && !EqualFold("a|b", "a") by {
      FoldFacts();
    }
    KeyShape(BAR_IN_ROLE.selector);
    KeyShape(BAR_IN_ZONE.selector);
    var c := SHARED.catalog;
    assert c[..2][..1] == c[..1] && c[..1][..0] == [] && c[..2] == [c[0], c[1]];
    assert Candidates(c[..1], "x", BAR_IN_ROLE.selector) == ["n1"] && Candidates(c[..1], "x", BAR_IN_ZONE.selector) == [];
    assert Candidates(c[..2], "x", BAR_IN_ROLE.selector) == ["n1", "n2"] && Candidates(c[..2], "x", BAR_IN_ZONE.selector) == [];
  }

  lemma {:induction false} FoldFacts()
    ensures EqualFold("a|b", "a|b") && EqualFold("a", "a") && EqualFold("b|", "b|") && !EqualFold("a", "a|b") && !EqualFold("a|b", "a")
  {
    assert |Lower("a")| == 1 && |Lower("a|b")| == 3;
  }

  lemma {:induction false} SharedRules()
    ensures FirstTarget(SHARED.rules, "session.start") == Some(BAR_IN_ROLE)
    ensures FirstTarget(SHARED.rules, "session.message") == Some(BAR_IN_ZONE)
  {
    TrimmedStays("session.start");
    TrimmedStays("session.message");
    hide Trim;
    var start, message := SHARED.rules[0], SHARED.rules[1];
    assert "session.start" != "session.message" by { assert |"session.start"| != |"session.message"|; }
    assert "session.start"[0] == 's' && "session.message"[0] == 's';
    assert Trim(start.methods[0]) == "session.start" && Trim(message.methods[0]) == "session.message";
    assert RuleMatches(start, "session.start") && !RuleMatches(start, "session.message") && RuleMatches(message, "session.message");
    assert SHARED.rules[1..] == [message];
  }

  /** Two selectors with a bar that share a counter: when starts and messages come in turn, the starts go to
      the same one of their two nodes for any number of rounds. */
  lemma {:induction false} SharedCounterIsUnfair(counters: map<string, nat>, n: nat)
    ensures CandidatesOf(SHARED, BAR_IN_ROLE) == ["n1", "n2"]
    ensures PlaceAll(SHARED, counters, Rounds("session.start", "session.message", 1, n), BAR_IN_ROLE).0
         == Repeat(["n1", "n2"][Counter(counters, SelectorKey(BAR_IN_ROLE.selector)) % 2], n)
  {
    SharedCandidates();
    SharedTrims();
    SharedRules();
    hide Trim, Candidates, SelectorKey, EqualFold, FirstTarget, PlaceAll, Rounds, Repeat;
    assert EqualFold("round_robin", "round_robin") by { SelfFold("round_robin"); }
    assert PicksLike(SHARED, "session.start", BAR_IN_ROLE) && Collides(SHARED, "session.message", BAR_IN_ROLE);
    RoundsStarve(SHARED, counters, "session.start", "session.message", n, BAR_IN_ROLE);
  }

  lemma {:induction false} SelfFold(s: string)
    ensures EqualFold(s, s)
  {
  }
}
