/** The issue tracker's client as the provider sees it: the requests it builds, the replies
    it reads, and the sequence of calls an operation makes. The client's own transport is
    not modelled; a `Client` is any answering function for each of its four operations. */
module Remote {
  import opened Results
  import opened Json
  import opened Domain

  datatype Project = Project(key: string)
  datatype IssueType = IssueType(name: string)
  datatype Fields = Fields(project: Project, issueType: IssueType, summary: string, description: Option<Document>)
  datatype CreateIssueRequest = CreateIssueRequest(fields: Fields, cloudId: string, bearerToken: string)

  datatype AccessibleResourcesRequest = AccessibleResourcesRequest(bearerToken: string)
  datatype GetIssueTypesRequest = GetIssueTypesRequest(bearerToken: string, cloudId: string)
  datatype GetProjectsRequest = GetProjectsRequest(bearerToken: string, cloudId: string)

  /** An accessible site (cloud instance) of the bearer token. */
  datatype Site = Site(id: string, name: string)
  datatype IssueTypeInfo = IssueTypeInfo(id: string, name: string)
  /** A project: `id` is the tracker's internal identifier, `key` the short project key. */
  datatype ProjectInfo = ProjectInfo(id: string, key: string, name: string)
  /** One page of the project search; the provider reads only `values`. */
  datatype ProjectsPage = ProjectsPage(values: seq<ProjectInfo>)

  /** One remote call, with the request it carried. */
  datatype Call =
    | CreateIssue(createReq: CreateIssueRequest)
    | GetAccessibleResources(resourcesReq: AccessibleResourcesRequest)
    | GetIssueTypes(issueTypesReq: GetIssueTypesRequest)
    | GetProjects(projectsReq: GetProjectsRequest)

  /** How the remote side answers. Each operation's reply may depend on the request and on
      the call's ordinal within the current provider operation (0 for its first call), so
      two identical requests need not get the same answer. */
  datatype Client = Client(
    createIssue: (nat, CreateIssueRequest) -> Result<JsonValue, Error>,
    accessibleResources: (nat, AccessibleResourcesRequest) -> Result<seq<Site>, Error>,
    issueTypes: (nat, GetIssueTypesRequest) -> Result<seq<IssueTypeInfo>, Error>,
    projects: (nat, GetProjectsRequest) -> Result<ProjectsPage, Error>)

  /** The error the client answers `call` with when it is call number `n`, if any. */
  function ErrorOf(c: Client, n: nat, call: Call): Option<Error>
  {
    match call
    case CreateIssue(q) =>
      var reply := c.createIssue(n, q); if reply.Err? then Some(reply.error) else None
    case GetAccessibleResources(q) =>
      var reply := c.accessibleResources(n, q); if reply.Err? then Some(reply.error) else None
    case GetIssueTypes(q) =>
      var reply := c.issueTypes(n, q); if reply.Err? then Some(reply.error) else None
    case GetProjects(q) =>
      var reply := c.projects(n, q); if reply.Err? then Some(reply.error) else None
  }

  predicate Succeeds(c: Client, n: nat, call: Call)
  {
    ErrorOf(c, n, call).None?
  }

  /** Every call of the trace, made in this order, was answered successfully. */
  predicate AllSucceed(c: Client, calls: seq<Call>)
  {
    forall n :: 0 <= n < |calls| ==> Succeeds(c, n, calls[n])
  }

  /** The trace stopped at its first failure: every call but the last succeeded, and the
      last one was answered with `e`. */
  predicate StoppedAt(c: Client, calls: seq<Call>, e: Error)
  {
    && |calls| > 0
    && AllSucceed(c, calls[..|calls| - 1])
    && ErrorOf(c, |calls| - 1, calls[|calls| - 1]) == Some(e)
  }

  /** A trace of answered calls followed by one answered with `e` stopped at `e`. */
  lemma StoppedAtAppend(c: Client, calls: seq<Call>, call: Call, e: Error)
    requires AllSucceed(c, calls) && ErrorOf(c, |calls|, call) == Some(e)
    ensures StoppedAt(c, calls + [call], e)
  {
    assert (calls + [call])[..|calls|] == calls;
  }

  /** A trace stays answered when the next call is answered. */
  lemma AllSucceedAppend(c: Client, calls: seq<Call>, call: Call)
    requires AllSucceed(c, calls) && Succeeds(c, |calls|, call)
    ensures AllSucceed(c, calls + [call])
  {
    forall n | 0 <= n < |calls| + 1
      ensures Succeeds(c, n, (calls + [call])[n])
    {
      if n < |calls| {
        assert (calls + [call])[n] == calls[n];
      }
    }
  }
}
