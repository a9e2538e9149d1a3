/** The provider's `GetOptValues`: discovers, for a bearer token, the sites it can reach and
    each site's projects and issue types, as the nested option values a configuration form
    offers. */
module Discovery {
  import opened Results
  import opened Domain
  import opened Remote

  /** An `{id, name}` option entry. */
  datatype Pair = Pair(id: string, name: string)

  /** The options that depend on one site: its project keys and its issue types. */
  datatype SiteOptions = SiteOptions(projectKey: seq<Pair>, issueType: seq<Pair>)

  /** `{"cloud_id": cloudId, "_rel": {"cloud_id": rel}}`, with `rel` keyed by site id. */
  datatype OptValues = OptValues(cloudId: seq<Pair>, rel: map<string, SiteOptions>)

  /** The result of one discovery together with the remote calls it made. */
  datatype Discovered = Discovered(result: Result<OptValues, Error>, calls: seq<Call>)

  /** Issue types as option entries, identified by their id, in order. */
  function IssueTypePairs(its: seq<IssueTypeInfo>): (r: seq<Pair>)
    ensures |r| == |its|
    ensures forall k :: 0 <= k < |its| ==> r[k] == Pair(its[k].id, its[k].name)
  {
    if its == [] then [] else [Pair(its[0].id, its[0].name)] + IssueTypePairs(its[1..])
  }

  /** Projects as option entries, identified by their project KEY, in order: the entry's id
      is what the options' project key expects. */
  function ProjectPairs(ps: seq<ProjectInfo>): (r: seq<Pair>)
    ensures |r| == |ps|
    ensures forall k :: 0 <= k < |ps| ==> r[k] == Pair(ps[k].key, ps[k].name)
  {
    if ps == [] then [] else [Pair(ps[0].key, ps[0].name)] + ProjectPairs(ps[1..])
  }

  function IssueTypesCall(token: string, site: Site): Call
  {
    GetIssueTypes(GetIssueTypesRequest(token, site.id))
  }

  function ProjectsCall(token: string, site: Site): Call
  {
    GetProjects(GetProjectsRequest(token, site.id))
  }

  /** The calls a discovery over `sites` makes when nothing fails: the site listing, then
      issue types and projects for each site in turn. */
  function PlannedCalls(token: string, sites: seq<Site>): (r: seq<Call>)
    ensures |r| == 1 + 2 * |sites|
    ensures r[0] == GetAccessibleResources(AccessibleResourcesRequest(token))
    ensures forall k :: 0 <= k < |sites| ==>
              r[1 + 2 * k] == IssueTypesCall(token, sites[k]) && r[2 + 2 * k] == ProjectsCall(token, sites[k])
    decreases |sites|
  {
    if sites == [] then [GetAccessibleResources(AccessibleResourcesRequest(token))]
    else
      var last := sites[|sites| - 1];
      var r := PlannedCalls(token, sites[..|sites| - 1]) + [IssueTypesCall(token, last), ProjectsCall(token, last)];
      assert forall k :: 0 <= k < |sites| - 1 ==> sites[..|sites| - 1][k] == sites[k];
      r
  }

  /** Both per-site calls of site `k`, made as calls 1 + 2k and 2 + 2k, were answered. */
  predicate SiteAnswered(c: Client, token: string, sites: seq<Site>, k: nat)
    requires k < |sites|
  {
    && c.issueTypes(1 + 2 * k, GetIssueTypesRequest(token, sites[k].id)).Ok?
    && c.projects(2 + 2 * k, GetProjectsRequest(token, sites[k].id)).Ok?
  }

  /** The options recorded for site `k` from the answers to its two calls. */
  function SiteEntry(c: Client, token: string, sites: seq<Site>, k: nat): SiteOptions
    requires k < |sites| && SiteAnswered(c, token, sites, k)
  {
    SiteOptions(
      ProjectPairs(c.projects(2 + 2 * k, GetProjectsRequest(token, sites[k].id)).value.values),
      IssueTypePairs(c.issueTypes(1 + 2 * k, GetIssueTypesRequest(token, sites[k].id)).value))
  }

  /** No site after `k` and before `i` shares site `k`'s id, so site `k`'s entry is the one
      left under that id. */
  predicate LatestWithId(sites: seq<Site>, k: nat, i: nat)
    requires k < i <= |sites|
  {
    forall m :: k < m < i ==> sites[m].id != sites[k].id
  }

  function SiteIds(sites: seq<Site>, i: nat): set<string>
    requires i <= |sites|
  {
    set k | 0 <= k < i :: sites[k].id
  }

  /** The calls made for the first `i` sites are the plan's first 1 + 2i calls, all answered. */
  predicate CallsSoFar(c: Client, token: string, sites: seq<Site>, i: nat, calls: seq<Call>)
  {
    && i <= |sites|
    && calls == PlannedCalls(token, sites)[..1 + 2 * i]
    && AllSucceed(c, calls)
  }

  /** One entry per site among the first `i`, in order. */
  predicate FoundSoFar(sites: seq<Site>, i: nat, found: seq<Pair>)
  {
    && i <= |sites|
    && |found| == i
    && (forall k :: 0 <= k < i ==> found[k] == Pair(sites[k].id, sites[k].name))
  }

  /** Keyed by the ids of the first `i` sites, each holding the entry of the latest site
      with that id. */
  predicate RelSoFar(c: Client, token: string, sites: seq<Site>, i: nat, rel: map<string, SiteOptions>)
  {
    && i <= |sites|
    && rel.Keys == SiteIds(sites, i)
    && (forall k :: 0 <= k < i && LatestWithId(sites, k, i) ==>
          SiteAnswered(c, token, sites, k) && rel[sites[k].id] == SiteEntry(c, token, sites, k))
  }

  /** What the loop has built after the first `i` sites. */
  predicate Accumulated(c: Client, token: string, sites: seq<Site>, i: nat,
                        found: seq<Pair>, rel: map<string, SiteOptions>, calls: seq<Call>)
  {
    CallsSoFar(c, token, sites, i, calls) && FoundSoFar(sites, i, found) && RelSoFar(c, token, sites, i, rel)
  }

  /** The loop over the sites, from site `i` on, with what has been built so far. The
      ordinal of each call is the number of calls made before it. */
  function Loop(c: Client, token: string, sites: seq<Site>, i: nat,
                found: seq<Pair>, rel: map<string, SiteOptions>, calls: seq<Call>): Discovered
    requires i <= |sites|
    decreases |sites| - i
  {
    if i == |sites| then Discovered(Ok(OptValues(found, rel)), calls)
    else
      var site := sites[i];
      var found' := found + [Pair(site.id, site.name)];
      var issueTypesReq := GetIssueTypesRequest(token, site.id);
      var calls' := calls + [GetIssueTypes(issueTypesReq)];
      match c.issueTypes(|calls|, issueTypesReq)
      case Err(e) => Discovered(Err(e), calls')
      case Ok(issueTypes) =>
        var projectsReq := GetProjectsRequest(token, site.id);
        var calls'' := calls' + [GetProjects(projectsReq)];
        match c.projects(|calls'|, projectsReq)
        case Err(e) => Discovered(Err(e), calls'')
        case Ok(page) =>
          var entry := SiteOptions(ProjectPairs(page.values), IssueTypePairs(issueTypes));
          Loop(c, token, sites, i + 1, found', rel[site.id := entry], calls'')
  }

  /** Discovers the option values reachable with `secret`: list the sites, then for each
      site its issue types and its projects. The first failing call ends the discovery with
      that call's error and nothing else. */
  function GetOptValues(c: Client, secret: Secret): Discovered
  {
    var req := AccessibleResourcesRequest(secret.token);
    match c.accessibleResources(0, req)
    case Err(e) => Discovered(Err(e), [GetAccessibleResources(req)])
    case Ok(sites) => Loop(c, secret.token, sites, 0, [], map[], [GetAccessibleResources(req)])
  }

  /** The next two planned calls after the first 1 + 2i are site `i`'s. */
  lemma PlanStep(token: string, sites: seq<Site>, i: nat)
    requires i < |sites|
    ensures PlannedCalls(token, sites)[..1 + 2 * i] + [IssueTypesCall(token, sites[i])]
              == PlannedCalls(token, sites)[..2 + 2 * i]
    ensures PlannedCalls(token, sites)[..2 + 2 * i] + [ProjectsCall(token, sites[i])]
              == PlannedCalls(token, sites)[..3 + 2 * i]
  {
    var plan := PlannedCalls(token, sites);
    assert plan[1 + 2 * i] == IssueTypesCall(token, sites[i]);
    assert plan[2 + 2 * i] == ProjectsCall(token, sites[i]);
  }

  lemma FoundStep(sites: seq<Site>, i: nat, found: seq<Pair>)
    requires i < |sites| && FoundSoFar(sites, i, found)
    ensures FoundSoFar(sites, i + 1, found + [Pair(sites[i].id, sites[i].name)])
  {
  }

  lemma SiteIdsStep(sites: seq<Site>, i: nat)
    requires i < |sites|
    ensures SiteIds(sites, i + 1) == SiteIds(sites, i) + {sites[i].id}
  {
    forall id | id in SiteIds(sites, i + 1)
      ensures id in SiteIds(sites, i) + {sites[i].id}
    {
      var k :| 0 <= k < i + 1 && sites[k].id == id;
      if k < i {
        assert id in SiteIds(sites, i);
      }
    }
  }

  /** Recording site `i`'s entry under its id keeps `RelSoFar`; an earlier site with the
      same id is overwritten. */
  lemma {:induction false} RelStep(c: Client, token: string, sites: seq<Site>, i: nat, rel: map<string, SiteOptions>)
    requires i < |sites| && RelSoFar(c, token, sites, i, rel)
    requires SiteAnswered(c, token, sites, i)
    ensures RelSoFar(c, token, sites, i + 1, rel[sites[i].id := SiteEntry(c, token, sites, i)])
  {
    var rel' := rel[sites[i].id := SiteEntry(c, token, sites, i)];
    SiteIdsStep(sites, i);
    forall k | 0 <= k < i + 1 && LatestWithId(sites, k, i + 1)
      ensures SiteAnswered(c, token, sites, k) && rel'[sites[k].id] == SiteEntry(c, token, sites, k)
    {
      if k < i {
        assert sites[i].id != sites[k].id;
        assert LatestWithId(sites, k, i);
      }
    }
  }

  /** The loop's next step after the first `i` sites, when both calls for site `i` are
      answered: the same loop from site `i + 1` on, with site `i` recorded. */
  lemma LoopUnfold(c: Client, token: string, sites: seq<Site>, i: nat,
                   found: seq<Pair>, rel: map<string, SiteOptions>, calls: seq<Call>)
    requires i < |sites| && |calls| == 1 + 2 * i
    requires SiteAnswered(c, token, sites, i)
    ensures Loop(c, token, sites, i, found, rel, calls)
         == Loop(c, token, sites, i + 1, found + [Pair(sites[i].id, sites[i].name)],
                 rel[sites[i].id := SiteEntry(c, token, sites, i)],
                 calls + [IssueTypesCall(token, sites[i]), ProjectsCall(token, sites[i])])
  {
    assert calls + [IssueTypesCall(token, sites[i])] + [ProjectsCall(token, sites[i])]
        == calls + [IssueTypesCall(token, sites[i]), ProjectsCall(token, sites[i])];
  }

  /** A call for site `i` left unanswered: the loop fails. */
  lemma LoopFailsUnanswered(c: Client, token: string, sites: seq<Site>, i: nat,
                            found: seq<Pair>, rel: map<string, SiteOptions>, calls: seq<Call>)
    requires i < |sites| && |calls| == 1 + 2 * i
    requires !SiteAnswered(c, token, sites, i)
    ensures Loop(c, token, sites, i, found, rel, calls).result.Err?
  {
  }

  /** Both calls for site `i` answered: the trace covers the plan for the first i + 1 sites. */
  lemma CallsStep(c: Client, token: string, sites: seq<Site>, i: nat, calls: seq<Call>)
    requires i < |sites| && CallsSoFar(c, token, sites, i, calls)
    requires SiteAnswered(c, token, sites, i)
    ensures CallsSoFar(c, token, sites, i + 1, calls + [IssueTypesCall(token, sites[i]), ProjectsCall(token, sites[i])])
  {
    var calls' := calls + [IssueTypesCall(token, sites[i])];
    PlanStep(token, sites, i);
    AllSucceedAppend(c, calls, IssueTypesCall(token, sites[i]));
    AllSucceedAppend(c, calls', ProjectsCall(token, sites[i]));
    assert calls' + [ProjectsCall(token, sites[i])] == calls + [IssueTypesCall(token, sites[i]), ProjectsCall(token, sites[i])];
  }

  /** A loop that succeeds has made and had answered every planned call. */
  lemma {:induction false} LoopCompletesPlan(c: Client, token: string, sites: seq<Site>, i: nat,
                                             found: seq<Pair>, rel: map<string, SiteOptions>, calls: seq<Call>)
    requires CallsSoFar(c, token, sites, i, calls)
    ensures var r := Loop(c, token, sites, i, found, rel, calls);
      r.result.Ok? ==> CallsSoFar(c, token, sites, |sites|, r.calls)
    decreases |sites| - i
  {
    if i < |sites| && SiteAnswered(c, token, sites, i) {
      CallsStep(c, token, sites, i, calls);
      LoopUnfold(c, token, sites, i, found, rel, calls);
      LoopCompletesPlan(c, token, sites, i + 1, found + [Pair(sites[i].id, sites[i].name)],
                        rel[sites[i].id := SiteEntry(c, token, sites, i)],
                        calls + [IssueTypesCall(token, sites[i]), ProjectsCall(token, sites[i])]);
    } else if i < |sites| {
      LoopFailsUnanswered(c, token, sites, i, found, rel, calls);
    }
  }

  /** A loop that succeeds has one entry per site, in order. */
  lemma {:induction false} LoopListsSites(c: Client, token: string, sites: seq<Site>, i: nat,
                                          found: seq<Pair>, rel: map<string, SiteOptions>, calls: seq<Call>)
    requires FoundSoFar(sites, i, found) && |calls| == 1 + 2 * i
    ensures var r := Loop(c, token, sites, i, found, rel, calls);
      r.result.Ok? ==> FoundSoFar(sites, |sites|, r.result.value.cloudId)
    decreases |sites| - i
  {
    if i < |sites| && SiteAnswered(c, token, sites, i) {
      LoopUnfold(c, token, sites, i, found, rel, calls);
      FoundStep(sites, i, found);
      LoopListsSites(c, token, sites, i + 1, found + [Pair(sites[i].id, sites[i].name)],
                     rel[sites[i].id := SiteEntry(c, token, sites, i)],
                     calls + [IssueTypesCall(token, sites[i]), ProjectsCall(token, sites[i])]);
    } else if i < |sites| {
      LoopFailsUnanswered(c, token, sites, i, found, rel, calls);
    }
  }

  /** A loop that succeeds has recorded, under each site id, the latest such site's entry. */
  lemma {:induction false} LoopRelatesSites(c: Client, token: string, sites: seq<Site>, i: nat,
                                            found: seq<Pair>, rel: map<string, SiteOptions>, calls: seq<Call>)
    requires RelSoFar(c, token, sites, i, rel) && |calls| == 1 + 2 * i
    ensures var r := Loop(c, token, sites, i, found, rel, calls);
      r.result.Ok? ==> RelSoFar(c, token, sites, |sites|, r.result.value.rel)
    decreases |sites| - i
  {
    if i < |sites| && SiteAnswered(c, token, sites, i) {
      LoopUnfold(c, token, sites, i, found, rel, calls);
      RelStep(c, token, sites, i, rel);
      LoopRelatesSites(c, token, sites, i + 1, found + [Pair(sites[i].id, sites[i].name)],
                       rel[sites[i].id := SiteEntry(c, token, sites, i)],
                       calls + [IssueTypesCall(token, sites[i]), ProjectsCall(token, sites[i])]);
    } else if i < |sites| {
      LoopFailsUnanswered(c, token, sites, i, found, rel, calls);
    }
  }

  /** The issue-type call for site `i` fails: the loop stops right there. */
  lemma IssueTypesFailureStops(c: Client, token: string, sites: seq<Site>, i: nat,
                               found: seq<Pair>, rel: map<string, SiteOptions>, calls: seq<Call>)
    requires CallsSoFar(c, token, sites, i, calls) && i < |sites|
    requires c.issueTypes(|calls|, GetIssueTypesRequest(token, sites[i].id)).Err?
    ensures var r := Loop(c, token, sites, i, found, rel, calls);
      && r.result.Err?
      && |calls| < |r.calls| <= 1 + 2 * |sites|
      && r.calls == PlannedCalls(token, sites)[..|r.calls|]
      && StoppedAt(c, r.calls, r.result.error)
  {
    var e := c.issueTypes(|calls|, GetIssueTypesRequest(token, sites[i].id)).error;
    var calls' := calls + [IssueTypesCall(token, sites[i])];
    assert Loop(c, token, sites, i, found, rel, calls) == Discovered(Err(e), calls');
    PlanStep(token, sites, i);
    StoppedAtAppend(c, calls, IssueTypesCall(token, sites[i]), e);
  }

  /** The project call for site `i` fails after its issue-type call succeeded: the loop
      stops right there. */
  lemma ProjectsFailureStops(c: Client, token: string, sites: seq<Site>, i: nat,
                             found: seq<Pair>, rel: map<string, SiteOptions>, calls: seq<Call>)
    requires CallsSoFar(c, token, sites, i, calls) && i < |sites|
    requires c.issueTypes(|calls|, GetIssueTypesRequest(token, sites[i].id)).Ok?
    requires c.projects(|calls| + 1, GetProjectsRequest(token, sites[i].id)).Err?
    ensures var r := Loop(c, token, sites, i, found, rel, calls);
      && r.result.Err?
      && |calls| < |r.calls| <= 1 + 2 * |sites|
      && r.calls == PlannedCalls(token, sites)[..|r.calls|]
      && StoppedAt(c, r.calls, r.result.error)
  {
    var e := c.projects(|calls| + 1, GetProjectsRequest(token, sites[i].id)).error;
    var calls' := calls + [IssueTypesCall(token, sites[i])];
    var calls'' := calls' + [ProjectsCall(token, sites[i])];
    assert Loop(c, token, sites, i, found, rel, calls) == Discovered(Err(e), calls'');
    PlanStep(token, sites, i);
    AllSucceedAppend(c, calls, IssueTypesCall(token, sites[i]));
    StoppedAtAppend(c, calls', ProjectsCall(token, sites[i]), e);
  }

  /** A loop that fails has stopped at the first failing call of the plan, with that call's
      error, having made at least one call of its own. */
  lemma {:induction false} LoopStops(c: Client, token: string, sites: seq<Site>, i: nat,
                                     found: seq<Pair>, rel: map<string, SiteOptions>, calls: seq<Call>)
    requires CallsSoFar(c, token, sites, i, calls)
    ensures var r := Loop(c, token, sites, i, found, rel, calls);
      r.result.Err? ==>
        && |calls| < |r.calls| <= 1 + 2 * |sites|
        && r.calls == PlannedCalls(token, sites)[..|r.calls|]
        && StoppedAt(c, r.calls, r.result.error)
    decreases |sites| - i
  {
    if i < |sites| {
      assert |calls| == 1 + 2 * i;
      if SiteAnswered(c, token, sites, i) {
        CallsStep(c, token, sites, i, calls);
        LoopUnfold(c, token, sites, i, found, rel, calls);
        LoopStops(c, token, sites, i + 1, found + [Pair(sites[i].id, sites[i].name)],
                  rel[sites[i].id := SiteEntry(c, token, sites, i)],
                  calls + [IssueTypesCall(token, sites[i]), ProjectsCall(token, sites[i])]);
      } else if c.issueTypes(|calls|, GetIssueTypesRequest(token, sites[i].id)).Err? {
        IssueTypesFailureStops(c, token, sites, i, found, rel, calls);
      } else {
        ProjectsFailureStops(c, token, sites, i, found, rel, calls);
      }
    }
  }

  /** Facts about the loop started on the listed sites. */
  lemma LoopFromStart(c: Client, token: string, sites: seq<Site>)
    requires c.accessibleResources(0, AccessibleResourcesRequest(token)).Ok?
    ensures var first := [GetAccessibleResources(AccessibleResourcesRequest(token))];
            var r := Loop(c, token, sites, 0, [], map[], first);
      && (r.result.Ok? ==> Accumulated(c, token, sites, |sites|, r.result.value.cloudId, r.result.value.rel, r.calls))
      && (r.result.Err? ==>
            && 1 < |r.calls| <= 1 + 2 * |sites|
            && r.calls == PlannedCalls(token, sites)[..|r.calls|]
            && StoppedAt(c, r.calls, r.result.error))
  {
    var first := [GetAccessibleResources(AccessibleResourcesRequest(token))];
    assert first == PlannedCalls(token, sites)[..1];
    assert SiteIds(sites, 0) == {};
    LoopCompletesPlan(c, token, sites, 0, [], map[], first);
    LoopListsSites(c, token, sites, 0, [], map[], first);
    LoopRelatesSites(c, token, sites, 0, [], map[], first);
    LoopStops(c, token, sites, 0, [], map[], first);
  }

  /** The site listing as the client answered it, if it did. */
  function SitesReply(c: Client, secret: Secret): Result<seq<Site>, Error>
  {
    c.accessibleResources(0, AccessibleResourcesRequest(secret.token))
  }

  /** Discovery is fail-fast: it succeeds only when every call it made succeeded, and
      otherwise returns, unchanged, the error of its last call, every earlier call having
      succeeded. No partial result is returned. */
  lemma DiscoveryFailFast(c: Client, secret: Secret)
    ensures var r := GetOptValues(c, secret);
      && (r.result.Ok? ==> AllSucceed(c, r.calls))
      && (r.result.Err? ==> StoppedAt(c, r.calls, r.result.error))
  {
    var r := GetOptValues(c, secret);
    var token := secret.token;
    if SitesReply(c, secret).Ok? {
      var sites := SitesReply(c, secret).value;
      LoopFromStart(c, token, sites);
    } else {
      assert r.calls[..|r.calls| - 1] == [];
    }
  }

  /** Calls follow the plan: the site listing first, then issue types and projects per site
      in the order the sites were listed; a successful discovery makes exactly 1 + 2n calls
      for n sites. */
  lemma DiscoveryFollowsPlan(c: Client, secret: Secret)
    ensures var r := GetOptValues(c, secret);
      && (SitesReply(c, secret).Err? ==>
            r == Discovered(Err(SitesReply(c, secret).error), [GetAccessibleResources(AccessibleResourcesRequest(secret.token))]))
      && (SitesReply(c, secret).Ok? ==>
            var sites := SitesReply(c, secret).value;
            && 1 <= |r.calls| <= 1 + 2 * |sites|
            && r.calls == PlannedCalls(secret.token, sites)[..|r.calls|]
            && (r.result.Ok? ==> r.calls == PlannedCalls(secret.token, sites) && |r.calls| == 1 + 2 * |sites|))
  {
    var token := secret.token;
    if SitesReply(c, secret).Ok? {
      var sites := SitesReply(c, secret).value;
      LoopFromStart(c, token, sites);
    }
  }

  /** Discovery succeeds exactly when the site listing and every planned per-site call
      succeed. */
  lemma DiscoverySucceedsIff(c: Client, secret: Secret)
    ensures GetOptValues(c, secret).result.Ok? <==>
              SitesReply(c, secret).Ok? && AllSucceed(c, PlannedCalls(secret.token, SitesReply(c, secret).value))
  {
    DiscoveryFailFast(c, secret);
    DiscoveryFollowsPlan(c, secret);
  }

  /** The shape of a successful discovery: one `{id, name}` entry per listed site in the
      listed order; `_rel` keyed by exactly the site ids; and under each id, the project
      keys and issue types answered for the latest site with that id, in the order the
      client gave them. */
  lemma DiscoveryShape(c: Client, secret: Secret)
    ensures var r := GetOptValues(c, secret);
      r.result.Ok? ==>
        && SitesReply(c, secret).Ok?
        && var sites := SitesReply(c, secret).value;
           var v := r.result.value;
           && |v.cloudId| == |sites|
           && (forall k :: 0 <= k < |sites| ==> v.cloudId[k] == Pair(sites[k].id, sites[k].name))
           && v.rel.Keys == (set k | 0 <= k < |sites| :: sites[k].id)
           && (forall k :: 0 <= k < |sites| && LatestWithId(sites, k, |sites|) ==>
                 && SiteAnswered(c, secret.token, sites, k)
                 && v.rel[sites[k].id] == SiteEntry(c, secret.token, sites, k))
  {
    var token := secret.token;
    if SitesReply(c, secret).Ok? {
      var sites := SitesReply(c, secret).value;
      LoopFromStart(c, token, sites);
    }
  }

  /** No accessible site: an empty site list and an empty `_rel`, after exactly one call. */
  lemma DiscoveryOfNoSites(c: Client, secret: Secret)
    requires SitesReply(c, secret) == Ok([])
    ensures GetOptValues(c, secret) ==
              Discovered(Ok(OptValues([], map[])), [GetAccessibleResources(AccessibleResourcesRequest(secret.token))])
  {
  }

  /** When the second site's project lookup fails, that error is returned after five calls,
      and nothing gathered for the first site is returned. */
  lemma DiscoverySecondProjectsFailure(c: Client, secret: Secret, e: Error)
    requires SitesReply(c, secret).Ok? && |SitesReply(c, secret).value| >= 2
    requires var sites := SitesReply(c, secret).value;
      && SiteAnswered(c, secret.token, sites, 0)
      && c.issueTypes(3, GetIssueTypesRequest(secret.token, sites[1].id)).Ok?
      && c.projects(4, GetProjectsRequest(secret.token, sites[1].id)) == Err(e)
    ensures GetOptValues(c, secret).result == Err(e)
    ensures |GetOptValues(c, secret).calls| == 5
  {
    var token := secret.token;
    var sites := SitesReply(c, secret).value;
    var first := [GetAccessibleResources(AccessibleResourcesRequest(token))];
    var afterFirst := first + [IssueTypesCall(token, sites[0]), ProjectsCall(token, sites[0])];
    assert GetOptValues(c, secret) == Loop(c, token, sites, 0, [], map[], first);
    assert Loop(c, token, sites, 0, [], map[], first)
        == Loop(c, token, sites, 1, [Pair(sites[0].id, sites[0].name)],
                map[sites[0].id := SiteEntry(c, token, sites, 0)], afterFirst);
  }
}
