/** Which agent acts for a mailbox: a search over deployments and bindings with an order of precedence. */
module ExecutionTarget {
  import opened Text

  datatype Agent = Agent(tenant: nat, defaultVersion: Option<nat>)

  /** A deployment whose target is the mailbox; `versionKnown` is the join with the agent's versions. */
  datatype DeploymentRow = DeploymentRow(
    id: nat, tenant: nat, agent: nat, version: nat, active: bool, versionKnown: bool)

  /** A binding of an agent to the mailbox. */
  datatype BindingRow = BindingRow(agent: nat, tenant: nat, role: nat, active: bool)

  /** Deployments are ordered newest first and bindings oldest first, as the queries order them. `owner` is the
      tenant of the mailbox. */
  datatype Db = Db(owner: nat, agents: map<nat, Agent>, deployments: seq<DeploymentRow>, bindings: seq<BindingRow>)

  datatype Target = Target(agent: nat, version: Option<nat>, deployment: Option<nat>)

  // ----- queries -----

  predicate OfTenant(db: Db, agent: nat, tenant: nat) {
    agent in db.agents && db.agents[agent].tenant == tenant
  }

  /** Active deployments of the mailbox's tenant, of `requested` if given. */
  predicate Eligible(db: Db, requested: Option<nat>, d: DeploymentRow) {
    d.active && d.tenant == db.owner && d.versionKnown && OfTenant(db, d.agent, d.tenant)
    && (requested.Some? ==> d.agent == requested.value)
  }

  predicate ActiveBinding(db: Db, b: BindingRow) {
    b.active && b.tenant == db.owner && OfTenant(db, b.agent, b.tenant)
  }

  /** `roles` empty stands for any role. */
  predicate Matches(db: Db, roles: set<nat>, b: BindingRow) {
    ActiveBinding(db, b) && (roles == {} || b.role in roles)
  }

  predicate Bound(db: Db, agent: nat, roles: set<nat>) {
    exists i | 0 <= i < |db.bindings| :: db.bindings[i].agent == agent && Matches(db, roles, db.bindings[i])
  }

  // ----- the choice -----

  /** The first element with a property. */
  function First<T>(s: seq<T>, wanted: T -> bool): (r: Option<T>)
    ensures r.None? <==> forall i :: 0 <= i < |s| ==> !wanted(s[i])
    ensures r.Some? ==>
              exists i :: 0 <= i < |s| && s[i] == r.value && wanted(s[i]) && forall j :: 0 <= j < i ==> !wanted(s[j])
  {
    if s == [] then None
    else if wanted(s[0]) then
      assert s[0] == s[0];
      Some(s[0])
    else
      var r := First(s[1..], wanted);
      assert r.Some? ==>
               exists i :: 0 <= i < |s| && s[i] == r.value && wanted(s[i]) && forall j :: 0 <= j < i ==> !wanted(s[j])
      by {
        if r.Some? {
          var i :| 0 <= i < |s| - 1 && s[1..][i] == r.value && wanted(s[1..][i])
                   && forall j :: 0 <= j < i ==> !wanted(s[1..][j]);
          assert s[i + 1] == r.value;
          assert forall j :: 0 < j < i + 1 ==> s[j] == s[1..][j - 1];
        }
      }
      r
  }

  function Deployed(db: Db, requested: Option<nat>): DeploymentRow -> bool {
    (d: DeploymentRow) => Eligible(db, requested, d)
  }

  function DeployedWithRole(db: Db, requested: Option<nat>, roles: set<nat>): DeploymentRow -> bool {
    (d: DeploymentRow) => Eligible(db, requested, d) && Bound(db, d.agent, roles)
  }

  function DeployedUnbound(db: Db, requested: Option<nat>): DeploymentRow -> bool {
    (d: DeploymentRow) => Eligible(db, requested, d) && !Bound(db, d.agent, {})
  }

  function Matching(db: Db, roles: set<nat>): BindingRow -> bool {
    (b: BindingRow) => Matches(db, roles, b)
  }

  function AsTarget(d: DeploymentRow): Target {
    Target(d.agent, Some(d.version), Some(d.id))
  }

  /** Without a requested agent. With roles: the newest deployment whose agent has a binding in one of them, else
      the oldest such binding, else the newest deployment whose agent is not bound at all. Without roles: the
      newest deployment, else the oldest binding. */
  function OpenChoice(db: Db, roles: set<nat>): Option<Target> {
    var wanted := if roles == {} then Deployed(db, None) else DeployedWithRole(db, None, roles);
    var deployed := First(db.deployments, wanted);
    var bound := First(db.bindings, Matching(db, roles));
    var spare := First(db.deployments, DeployedUnbound(db, None));
    if deployed.Some? then Some(AsTarget(deployed.value))
    else if bound.Some? then Some(Target(bound.value.agent, None, None))
    else if roles != {} && spare.Some? then Some(AsTarget(spare.value))
    else None
  }

  /** A requested agent is refused when it is of another tenant, or bound but in none of the roles; otherwise its
      newest deployment, and without one the agent itself if it needs no role or has it. */
  function RequestedChoice(db: Db, agent: nat, roles: set<nat>): Option<Target> {
    if !OfTenant(db, agent, db.owner) || (roles != {} && !Bound(db, agent, roles) && Bound(db, agent, {})) then None
    else
      var deployed := First(db.deployments, Deployed(db, Some(agent)));
      if deployed.Some? then Some(AsTarget(deployed.value))
      else if roles == {} || Bound(db, agent, roles) then Some(Target(agent, db.agents[agent].defaultVersion, None))
      else None
  }

  function Choice(db: Db, requested: Option<nat>, roles: set<nat>): Option<Target> {
    if requested.Some? then RequestedChoice(db, requested.value, roles) else OpenChoice(db, roles)
  }

  /** The agent that is named is of the mailbox's tenant, is the requested one if there is one, and is never an
      agent whose active bindings to the mailbox all lack the roles asked for. */
  lemma NeverNamesAnAgentWithoutTheRoles(db: Db, requested: Option<nat>, roles: set<nat>)
    requires Choice(db, requested, roles).Some?
    ensures var agent := Choice(db, requested, roles).value.agent;
            OfTenant(db, agent, db.owner) && (requested.Some? ==> agent == requested.value)
            && (roles != {} ==> Bound(db, agent, roles) || !Bound(db, agent, {}))
  {
    if requested.None? {
      var bound := First(db.bindings, Matching(db, roles));
      if bound.Some? {
        var i :| 0 <= i < |db.bindings| && db.bindings[i] == bound.value && Matches(db, roles, db.bindings[i]);
        assert Bound(db, bound.value.agent, roles);
      }
    }
  }

  // ----- what the choice is, row by row -----

  /** Row `i` is an active deployment of the mailbox's tenant with a known version, of the requested agent if any. */
  predicate Candidate(db: Db, requested: Option<nat>, i: nat) {
    && i < |db.deployments| && db.deployments[i].active && db.deployments[i].versionKnown
    && db.deployments[i].tenant == db.owner
    && db.deployments[i].agent in db.agents && db.agents[db.deployments[i].agent].tenant == db.owner
    && (requested.Some? ==> db.deployments[i].agent == requested.value)
  }

  /** Row `j` is an active binding of an agent of the mailbox's tenant, in one of the roles if any. */
  predicate Binds(db: Db, roles: set<nat>, j: nat) {
    && j < |db.bindings| && db.bindings[j].active && db.bindings[j].tenant == db.owner
    && db.bindings[j].agent in db.agents && db.agents[db.bindings[j].agent].tenant == db.owner
    && (roles == {} || db.bindings[j].role in roles)
  }

  ghost predicate BoundIn(db: Db, agent: nat, roles: set<nat>) {
    exists j: nat :: Binds(db, roles, j) && db.bindings[j].agent == agent
  }

  /** A candidate whose agent is bound in one of the roles; without roles every candidate is one. */
  ghost predicate Suits(db: Db, requested: Option<nat>, roles: set<nat>, i: nat) {
    Candidate(db, requested, i) && (roles == {} || BoundIn(db, db.deployments[i].agent, roles))
  }

  /** A candidate whose agent has no binding at all, which only counts when roles are asked for. */
  ghost predicate Spare(db: Db, requested: Option<nat>, roles: set<nat>, i: nat) {
    roles != {} && Candidate(db, requested, i) && !BoundIn(db, db.deployments[i].agent, {})
  }

  /** Row `i` names its own agent, version and id. */
  predicate Names(db: Db, i: nat, r: Target) {
    i < |db.deployments| && r.agent == db.deployments[i].agent && r.version == Some(db.deployments[i].version)
    && r.deployment == Some(db.deployments[i].id)
  }

  /** Without a requested agent: the first deployment that suits; only if there is none, the first binding in the
      roles; only if there is neither, the first spare deployment; and nobody only if there is none of these. */
  ghost predicate BestOpen(db: Db, roles: set<nat>, r: Option<Target>) {
    if exists i :: Suits(db, None, roles, i) then
      r.Some? && exists i :: Suits(db, None, roles, i) && Names(db, i, r.value)
                             && forall k: nat :: k < i ==> !Suits(db, None, roles, k)
    else if exists j :: Binds(db, roles, j) then
      r.Some? && r.value.version == None && r.value.deployment == None
      && exists j: nat :: Binds(db, roles, j) && r.value.agent == db.bindings[j].agent
                     && forall k: nat :: k < j ==> !Binds(db, roles, k)
    else if exists i :: Spare(db, None, roles, i) then
      r.Some? && exists i :: Spare(db, None, roles, i) && Names(db, i, r.value)
                             && forall k: nat :: k < i ==> !Spare(db, None, roles, k)
    else r == None
  }

  /** With a requested agent: nobody if it is of another tenant or bound only in other roles; else its first
      deployment; only if there is none, the agent with its default version, if it needs no role or has one. */
  ghost predicate BestRequested(db: Db, agent: nat, roles: set<nat>, r: Option<Target>) {
    if agent !in db.agents || db.agents[agent].tenant != db.owner then r == None
    else if roles != {} && !BoundIn(db, agent, roles) && BoundIn(db, agent, {}) then r == None
    else if exists i :: Candidate(db, Some(agent), i) then
      r.Some? && exists i :: Candidate(db, Some(agent), i) && Names(db, i, r.value)
                             && forall k: nat :: k < i ==> !Candidate(db, Some(agent), k)
    else if roles == {} || BoundIn(db, agent, roles) then
      r.Some? && r.value.agent == agent && r.value.version == db.agents[agent].defaultVersion
      && r.value.deployment == None
    else r == None
  }

  ghost predicate Best(db: Db, requested: Option<nat>, roles: set<nat>, r: Option<Target>) {
    if requested.Some? then BestRequested(db, requested.value, roles, r) else BestOpen(db, roles, r)
  }

  lemma BoundIsBoundIn(db: Db, agent: nat, roles: set<nat>)
    ensures Bound(db, agent, roles) <==> BoundIn(db, agent, roles)
  {
    if j: nat :| Binds(db, roles, j) && db.bindings[j].agent == agent {
      assert Matches(db, roles, db.bindings[j]);
    }
    if j :| 0 <= j < |db.bindings| && db.bindings[j].agent == agent && Matches(db, roles, db.bindings[j]) {
      assert Binds(db, roles, j);
    }
  }

  /** The first row with a property, by its index. */
  lemma FirstAt<T>(s: seq<T>, wanted: T -> bool) returns (i: nat)
    ensures First(s, wanted).None? ==> forall k :: 0 <= k < |s| ==> !wanted(s[k])
    ensures First(s, wanted).Some? ==>
              (i < |s| && s[i] == First(s, wanted).value && wanted(s[i]) && forall k :: 0 <= k < i ==> !wanted(s[k]))
  {
    i := 0;
    if First(s, wanted).Some? {
      i :| i < |s| && s[i] == First(s, wanted).value && wanted(s[i]) && forall k :: 0 <= k < i ==> !wanted(s[k]);
    }
  }

  lemma SuitsIsWanted(db: Db, requested: Option<nat>, roles: set<nat>, i: nat)
    requires i < |db.deployments|
    ensures Candidate(db, requested, i) <==> Deployed(db, requested)(db.deployments[i])
    ensures Suits(db, requested, roles, i) <==>
            if roles == {} then Deployed(db, requested)(db.deployments[i])
            else DeployedWithRole(db, requested, roles)(db.deployments[i])
    ensures roles != {} ==>
              (Spare(db, requested, roles, i) <==> DeployedUnbound(db, requested)(db.deployments[i]))
  {
    BoundIsBoundIn(db, db.deployments[i].agent, roles);
    BoundIsBoundIn(db, db.deployments[i].agent, {});
    hide Bound, BoundIn;
  }

  lemma BindsIsWanted(db: Db, roles: set<nat>, j: nat)
    requires j < |db.bindings|
    ensures Binds(db, roles, j) <==> Matching(db, roles)(db.bindings[j])
  {
  }

  lemma OpenChoiceIsBest(db: Db, roles: set<nat>)
    ensures BestOpen(db, roles, OpenChoice(db, roles))
  {
    hide First;
    var wanted := if roles == {} then Deployed(db, None) else DeployedWithRole(db, None, roles);
    var i := FirstAt(db.deployments, wanted);
    var j := FirstAt(db.bindings, Matching(db, roles));
    var k := FirstAt(db.deployments, DeployedUnbound(db, None));
    forall n: nat | n < |db.deployments|
      ensures Suits(db, None, roles, n) <==> wanted(db.deployments[n])
      ensures roles != {} ==> (Spare(db, None, roles, n) <==> DeployedUnbound(db, None)(db.deployments[n]))
    {
      SuitsIsWanted(db, None, roles, n);
    }
    forall n: nat | n < |db.bindings| ensures Binds(db, roles, n) <==> Matching(db, roles)(db.bindings[n]) {
      BindsIsWanted(db, roles, n);
    }
    hide Bound, BoundIn, Candidate, Matches, Eligible;
  }

  lemma RequestedChoiceIsBest(db: Db, agent: nat, roles: set<nat>)
    ensures BestRequested(db, agent, roles, RequestedChoice(db, agent, roles))
  {
    hide First;
    BoundIsBoundIn(db, agent, roles);
    BoundIsBoundIn(db, agent, {});
    var i := FirstAt(db.deployments, Deployed(db, Some(agent)));
    forall n: nat | n < |db.deployments|
      ensures Candidate(db, Some(agent), n) <==> Deployed(db, Some(agent))(db.deployments[n])
    {
      SuitsIsWanted(db, Some(agent), roles, n);
    }
    hide Bound, BoundIn, Matches, Eligible;
  }

  /** The choice is the best one, said by the rows themselves. */
  lemma ChoiceIsBest(db: Db, requested: Option<nat>, roles: set<nat>)
    ensures Best(db, requested, roles, Choice(db, requested, roles))
  {
    if requested.Some? {
      RequestedChoiceIsBest(db, requested.value, roles);
    } else {
      OpenChoiceIsBest(db, roles);
    }
  }

  /** And there is only one best one. */
  lemma OneBest(db: Db, requested: Option<nat>, roles: set<nat>, r: Option<Target>, t: Option<Target>)
    requires Best(db, requested, roles, r) && Best(db, requested, roles, t)
    ensures r == t
  {
    hide BoundIn, Candidate, Binds;
    if requested.Some? {
      OneBestRequested(db, requested.value, roles, r, t);
    } else {
      OneBestOpen(db, roles, r, t);
    }
  }

  lemma OneBestRequested(db: Db, agent: nat, roles: set<nat>, r: Option<Target>, t: Option<Target>)
    requires BestRequested(db, agent, roles, r) && BestRequested(db, agent, roles, t)
    ensures r == t
  {
    hide BoundIn;
    if i :| Candidate(db, Some(agent), i) && r.Some? {
      var m :| Candidate(db, Some(agent), m) && Names(db, m, r.value)
               && forall k: nat :: k < m ==> !Candidate(db, Some(agent), k);
      var n :| Candidate(db, Some(agent), n) && Names(db, n, t.value)
               && forall k: nat :: k < n ==> !Candidate(db, Some(agent), k);
      assert m == n;
    }
  }

  lemma OneBestOpen(db: Db, roles: set<nat>, r: Option<Target>, t: Option<Target>)
    requires BestOpen(db, roles, r) && BestOpen(db, roles, t)
    ensures r == t
  {
    hide BoundIn, Candidate;
    if i :| Suits(db, None, roles, i) {
      var m :| Suits(db, None, roles, m) && Names(db, m, r.value)
               && forall k: nat :: k < m ==> !Suits(db, None, roles, k);
      var n :| Suits(db, None, roles, n) && Names(db, n, t.value)
               && forall k: nat :: k < n ==> !Suits(db, None, roles, k);
      assert m == n;
    } else if j :| Binds(db, roles, j) {
      var m: nat :| Binds(db, roles, m) && r.value.agent == db.bindings[m].agent
               && forall k: nat :: k < m ==> !Binds(db, roles, k);
      var n: nat :| Binds(db, roles, n) && t.value.agent == db.bindings[n].agent
               && forall k: nat :: k < n ==> !Binds(db, roles, k);
      assert m == n;
    } else if i :| Spare(db, None, roles, i) {
      var m :| Spare(db, None, roles, m) && Names(db, m, r.value)
               && forall k: nat :: k < m ==> !Spare(db, None, roles, k);
      var n :| Spare(db, None, roles, n) && Names(db, n, t.value)
               && forall k: nat :: k < n ==> !Spare(db, None, roles, k);
      assert m == n;
    }
  }

  // ----- the search -----

  function Filter<T>(s: seq<T>, p: T -> bool): seq<T> {
    if s == [] then [] else (if p(s[0]) then [s[0]] else []) + Filter(s[1..], p)
  }

  lemma {:induction false} FirstOfFilter<T>(s: seq<T>, p: T -> bool, q: T -> bool)
    requires forall i :: 0 <= i < |s| && q(s[i]) ==> p(s[i])
    ensures First(Filter(s, p), q) == First(s, q)
    ensures forall x :: x in Filter(s, p) ==> p(x) && x in s
  {
    if s != [] {
      FirstOfFilter(s[1..], p, q);
      var head := if p(s[0]) then [s[0]] else [];
      assert Filter(s, p) == head + Filter(s[1..], p);
      forall x | x in Filter(s, p) ensures p(x) && x in s {
        assert x in head || x in Filter(s[1..], p);
      }
      if p(s[0]) {
        assert Filter(s, p)[0] == s[0] && Filter(s, p)[1..] == Filter(s[1..], p);
      } else {
        assert Filter(s, p) == Filter(s[1..], p) && !q(s[0]);
      }
    }
  }

  /** `agentMatchesMailboxTenant` with its cache. */
  method AgentMatchesMailboxTenant(db: Db, cache: map<nat, bool>, agent: nat)
    returns (matches: bool, known: map<nat, bool>)
    requires forall a :: a in cache ==> cache[a] == OfTenant(db, a, db.owner)
    ensures matches == OfTenant(db, agent, db.owner)
    ensures forall a :: a in known ==> known[a] == OfTenant(db, a, db.owner)
  {
    known := cache;
    if agent in cache {
      return cache[agent], known;
    }
    matches := agent in db.agents && db.agents[agent].tenant == db.owner;
    known := known[agent := matches];
  }

  method HasActiveMailboxBinding(db: Db, agent: nat, roles: set<nat>) returns (bound: bool)
    ensures bound == Bound(db, agent, roles)
  {
    var i := 0;
    while i < |db.bindings| && !(db.bindings[i].agent == agent && Matches(db, roles, db.bindings[i]))
      invariant 0 <= i <= |db.bindings|
      invariant forall j :: 0 <= j < i ==> !(db.bindings[j].agent == agent && Matches(db, roles, db.bindings[j]))
    {
      i := i + 1;
    }
    bound := i < |db.bindings|;
  }

  /** The loop over deployments when roles are asked for: the first whose agent has a role ends the search, the
      first whose agent is not bound is kept for later. */
  method SearchDeployments(db: Db, requested: Option<nat>, roles: set<nat>, cache: map<nat, bool>)
    returns (found: Option<Target>, spare: Option<DeploymentRow>, known: map<nat, bool>)
    requires forall a :: a in cache ==> cache[a] == OfTenant(db, a, db.owner)
    ensures forall a :: a in known ==> known[a] == OfTenant(db, a, db.owner)
    ensures var d := First(db.deployments, DeployedWithRole(db, requested, roles));
            found == if d.Some? then Some(AsTarget(d.value)) else None
    ensures found.None? ==> spare == First(db.deployments, DeployedUnbound(db, requested))
  {
    var rows := Filter(db.deployments, Deployed(db, requested));
    FirstOfFilter(db.deployments, Deployed(db, requested), DeployedWithRole(db, requested, roles));
    FirstOfFilter(db.deployments, Deployed(db, requested), DeployedUnbound(db, requested));
    found, spare, known := None, None, cache;
    for i := 0 to |rows|
      invariant forall a :: a in known ==> known[a] == OfTenant(db, a, db.owner)
      invariant First(rows[i..], DeployedWithRole(db, requested, roles))
                == First(rows, DeployedWithRole(db, requested, roles))
      invariant (spare.None? ==>
                   First(rows[i..], DeployedUnbound(db, requested)) == First(rows, DeployedUnbound(db, requested)))
      invariant spare.Some? ==> spare == First(rows, DeployedUnbound(db, requested))
    {
      assert rows[i] in rows && rows[i..][0] == rows[i] && rows[i..][1..] == rows[i + 1..];
      var matches;
      matches, known := AgentMatchesMailboxTenant(db, known, rows[i].agent);
      if matches {
        var bound := HasActiveMailboxBinding(db, rows[i].agent, roles);
        if bound {
          return Some(AsTarget(rows[i])), spare, known;
        }
        var any := HasActiveMailboxBinding(db, rows[i].agent, {});
        if !any && spare.None? {
          spare := Some(rows[i]);
        }
      }
    }
    assert rows[|rows|..] == [];
  }

  /** The loop over bindings. */
  method SearchBindings(db: Db, roles: set<nat>, cache: map<nat, bool>) returns (found: Option<Target>)
    requires forall a :: a in cache ==> cache[a] == OfTenant(db, a, db.owner)
    ensures var b := First(db.bindings, Matching(db, roles));
            found == if b.Some? then Some(Target(b.value.agent, None, None)) else None
  {
    var rows := Filter(db.bindings, Matching(db, roles));
    FirstOfFilter(db.bindings, Matching(db, roles), Matching(db, roles));
    var known := cache;
    for i := 0 to |rows|
      invariant forall a :: a in known ==> known[a] == OfTenant(db, a, db.owner)
      invariant First(rows[i..], Matching(db, roles)) == First(rows, Matching(db, roles))
    {
      assert rows[i] in rows && rows[i..][0] == rows[i] && rows[i..][1..] == rows[i + 1..];
      var matches;
      matches, known := AgentMatchesMailboxTenant(db, known, rows[i].agent);
      if matches {
        return Some(Target(rows[i].agent, None, None));
      }
    }
    assert rows[|rows|..] == [];
    return None;
  }

  method ResolveAgentExecutionTarget(db: Db, requested: Option<nat>, roles: set<nat>) returns (r: Option<Target>)
    ensures r == Choice(db, requested, roles) && Best(db, requested, roles, r)
  {
    ChoiceIsBest(db, requested, roles);
    hide Best;
    var cache: map<nat, bool> := map[];
    if requested.Some? {
      var matches;
      matches, cache := AgentMatchesMailboxTenant(db, cache, requested.value);
      if !matches {
        return None;
      }
    }
    var requestedHasRole := false;
    if roles != {} && requested.Some? {
      requestedHasRole := HasActiveMailboxBinding(db, requested.value, roles);
      if !requestedHasRole {
        var any := HasActiveMailboxBinding(db, requested.value, {});
        if any {
          return None;
        }
      }
    }
    if roles != {} {
      var found, spare;
      found, spare, cache := SearchDeployments(db, requested, roles, cache);
      if requested.Some? {
        DeploymentsOfOneAgent(db, requested.value, roles);
      }
      if found.Some? {
        return found;
      }
      if requested.None? {
        found := SearchBindings(db, roles, cache);
        if found.Some? {
          return found;
        }
      }
      if spare.Some? {
        return Some(AsTarget(spare.value));
      }
    } else {
      var newest := First(db.deployments, Deployed(db, requested));
      if newest.Some? {
        var matches;
        matches, cache := AgentMatchesMailboxTenant(db, cache, newest.value.agent);
        if matches {
          return Some(AsTarget(newest.value));
        }
      }
    }
    if requested.Some? {
      if roles != {} && !requestedHasRole {
        return None;
      }
      return Some(Target(requested.value, db.agents[requested.value].defaultVersion, None));
    }
    r := SearchBindings(db, roles, cache);
  }

  lemma {:induction false} FirstsAgree<T>(s: seq<T>, p: T -> bool, q: T -> bool)
    requires forall i :: 0 <= i < |s| ==> p(s[i]) == q(s[i])
    ensures First(s, p) == First(s, q)
  {
    if s != [] {
      FirstsAgree(s[1..], p, q);
    }
  }

  /** For one agent, either all of its deployments have the role or none has, and likewise for being unbound. */
  lemma DeploymentsOfOneAgent(db: Db, agent: nat, roles: set<nat>)
    ensures Bound(db, agent, roles) ==>
              First(db.deployments, DeployedWithRole(db, Some(agent), roles))
              == First(db.deployments, Deployed(db, Some(agent)))
    ensures !Bound(db, agent, roles) ==> First(db.deployments, DeployedWithRole(db, Some(agent), roles)) == None
    ensures !Bound(db, agent, {}) ==>
              First(db.deployments, DeployedUnbound(db, Some(agent)))
              == First(db.deployments, Deployed(db, Some(agent)))
  {
    if Bound(db, agent, roles) {
      FirstsAgree(db.deployments, DeployedWithRole(db, Some(agent), roles), Deployed(db, Some(agent)));
    }
    if !Bound(db, agent, {}) {
      FirstsAgree(db.deployments, DeployedUnbound(db, Some(agent)), Deployed(db, Some(agent)));
    }
  }
}
