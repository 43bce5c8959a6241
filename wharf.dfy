/**
 * The Wharf API as the importer uses it (`wharfapi.Client`): records, the
 * registry's state as a value, and one function per API call that gives the
 * reply and the next state. The class `WharfClient.Client` performs the same
 * calls on an object and is proved to agree with these functions.
 *
 * Every call has an index (`calls`); `faults` injects a failure at chosen
 * indices. `Unreachable` is a transport error: the call returns an error and
 * stores nothing. `Blank` is a reply that decodes to the zero value: no error,
 * nothing stored. A lookup of an unknown ID also answers the zero value, which
 * is how the Wharf API signals "not found".
 */
module Wharf {
  import opened Wrappers
  import Base64

  datatype Token = Token(id: nat, token: string, userName: string)

  datatype Provider = Provider(id: nat, name: string, url: string, uploadURL: string, tokenID: nat)

  datatype Project = Project(
    id: nat,
    name: string,
    groupName: string,
    description: string,
    avatarURL: string,
    tokenID: nat,
    providerID: nat,
    buildDefinition: seq<Base64.Byte>,
    gitURL: string,
    remoteProjectID: string)

  /** `request.Project`: the payload of CreateProject. */
  datatype ProjectRequest = ProjectRequest(
    name: string,
    tokenID: nat,
    groupName: string,
    buildDefinition: seq<Base64.Byte>,
    description: string,
    avatarURL: string,
    providerID: nat,
    gitURL: string,
    remoteProjectID: string)

  /** `request.ProjectUpdate`: the payload of UpdateProject (no remote ID). */
  datatype ProjectUpdate = ProjectUpdate(
    name: string,
    tokenID: nat,
    groupName: string,
    buildDefinition: seq<Base64.Byte>,
    description: string,
    avatarURL: string,
    providerID: nat,
    gitURL: string)

  /** `request.Branch`: the payload of CreateProjectBranch. */
  datatype BranchRequest = BranchRequest(name: string, isDefault: bool)

  /** One write the registry accepted, in the order it happened. */
  datatype Write =
    | TokenCreated(token: Token)
    | ProviderCreated(provider: Provider)
    | ProjectCreated(projectID: nat, project: ProjectRequest)
    | ProjectUpdated(projectID: nat, update: ProjectUpdate)
    | BranchCreated(projectID: nat, branch: BranchRequest)

  datatype Fault = Unreachable | Blank

  /** Every way the importer's work can fail, from github.go's error returns. */
  datatype Error =
    | RegistryError        // a Wharf API call failed
    | GitHubError          // a GitHub API call failed
    | ConnectionError      // the GitHub client could not be built
    | TokenNotFound
    | ProviderNotFound
    | ProviderURLMismatch
    | ProjectNotFound
    | MissingProjectID     // refresh without a project ID
    | ProjectIDNotZero     // import with a project ID
    | RepoNameMismatch
    | RepoOwnerMismatch
    | ProjectNotCreated    // CreateProject answered project ID 0
    | NilDereference       // a nil pointer github.go dereferences

  datatype State = State(
    tokens: map<nat, Token>,
    providers: map<nat, Provider>,
    projects: map<nat, Project>,
    log: seq<Write>,
    lastID: nat,
    calls: nat,
    faults: map<nat, Fault>)

  /** The reply to one call and the state after it. */
  datatype Reply<T> = Reply(st: State, res: Result<T, Error>)

  const ZeroToken := Token(0, "", "")
  const ZeroProvider := Provider(0, "", "", "", 0)
  const ZeroProject := Project(0, "", "", "", "", 0, 0, [], "", "")

  function FaultOf(st: State): Option<Fault>
  {
    if st.calls in st.faults then Some(st.faults[st.calls]) else None
  }

  function Tick(st: State): State
  {
    st.(calls := st.calls + 1)
  }

  function GetToken(st: State, id: nat): (r: Reply<Token>)
    ensures r.st == Tick(st)
    ensures r.res.Ok? ==> r.res.value.id == 0 || (FaultOf(st).None? && id in st.tokens && r.res.value == st.tokens[id])
  {
    match FaultOf(st)
    case Some(Unreachable) => Reply(Tick(st), Err(RegistryError))
    case Some(Blank) => Reply(Tick(st), Ok(ZeroToken))
    case None => Reply(Tick(st), Ok(if id in st.tokens then st.tokens[id] else ZeroToken))
  }

  function CreateToken(st: State, token: string, user: string): (r: Reply<Token>)
    ensures r.st.calls == st.calls + 1 && r.st.faults == st.faults
    ensures r.res.Err? || r.res.value.id == 0 ==> r.st == Tick(st)
    ensures r.res.Ok? && r.res.value.id != 0 ==>
      && r.res.value == Token(st.lastID + 1, token, user)
      && r.st.tokens == st.tokens[r.res.value.id := r.res.value]
      && r.st.log == st.log + [TokenCreated(r.res.value)]
  {
    match FaultOf(st)
    case Some(Unreachable) => Reply(Tick(st), Err(RegistryError))
    case Some(Blank) => Reply(Tick(st), Ok(ZeroToken))
    case None =>
      var t := Token(st.lastID + 1, token, user);
      Reply(Tick(st).(tokens := st.tokens[t.id := t], log := st.log + [TokenCreated(t)], lastID := t.id), Ok(t))
  }

  function GetProvider(st: State, id: nat): (r: Reply<Provider>)
    ensures r.st == Tick(st)
    ensures r.res.Ok? ==> r.res.value.id == 0 || (FaultOf(st).None? && id in st.providers && r.res.value == st.providers[id])
  {
    match FaultOf(st)
    case Some(Unreachable) => Reply(Tick(st), Err(RegistryError))
    case Some(Blank) => Reply(Tick(st), Ok(ZeroProvider))
    case None => Reply(Tick(st), Ok(if id in st.providers then st.providers[id] else ZeroProvider))
  }

  /** `CreateProvider`: the request carries a name, a URL and a token ID, and no upload URL. */
  function CreateProvider(st: State, name: string, url: string, tokenID: nat): (r: Reply<Provider>)
    ensures r.st.calls == st.calls + 1 && r.st.faults == st.faults
    ensures r.res.Err? || r.res.value.id == 0 ==> r.st == Tick(st)
    ensures r.res.Ok? && r.res.value.id != 0 ==>
      && r.res.value == Provider(st.lastID + 1, name, url, "", tokenID)
      && r.st.providers == st.providers[r.res.value.id := r.res.value]
      && r.st.log == st.log + [ProviderCreated(r.res.value)]
  {
    match FaultOf(st)
    case Some(Unreachable) => Reply(Tick(st), Err(RegistryError))
    case Some(Blank) => Reply(Tick(st), Ok(ZeroProvider))
    case None =>
      var p := Provider(st.lastID + 1, name, url, "", tokenID);
      Reply(Tick(st).(providers := st.providers[p.id := p], log := st.log + [ProviderCreated(p)], lastID := p.id), Ok(p))
  }

  function GetProject(st: State, id: nat): (r: Reply<Project>)
    ensures r.st == Tick(st)
    ensures r.res.Ok? ==> r.res.value.id == 0 || (FaultOf(st).None? && id in st.projects && r.res.value == st.projects[id])
  {
    match FaultOf(st)
    case Some(Unreachable) => Reply(Tick(st), Err(RegistryError))
    case Some(Blank) => Reply(Tick(st), Ok(ZeroProject))
    case None => Reply(Tick(st), Ok(if id in st.projects then st.projects[id] else ZeroProject))
  }

  function Updated(p: Project, u: ProjectUpdate): Project
  {
    p.(name := u.name, tokenID := u.tokenID, groupName := u.groupName, buildDefinition := u.buildDefinition,
       description := u.description, avatarURL := u.avatarURL, providerID := u.providerID, gitURL := u.gitURL)
  }

  /** `UpdateProject`: an unknown project ID is an error reply (HTTP 404). */
  function UpdateProject(st: State, id: nat, u: ProjectUpdate): (r: Reply<Project>)
    ensures r.st.calls == st.calls + 1 && r.st.faults == st.faults
    ensures r.st.log == st.log <==> r.st == Tick(st)
    ensures r.st.log != st.log ==>
      && FaultOf(st).None? && id in st.projects && r.res == Ok(Updated(st.projects[id], u))
      && r.st.projects == st.projects[id := Updated(st.projects[id], u)]
      && r.st.log == st.log + [ProjectUpdated(id, u)]
    ensures FaultOf(st).None? ==> (r.res.Ok? <==> id in st.projects)
  {
    match FaultOf(st)
    case Some(Unreachable) => Reply(Tick(st), Err(RegistryError))
    case Some(Blank) => Reply(Tick(st), Ok(ZeroProject))
    case None =>
      if id !in st.projects then Reply(Tick(st), Err(RegistryError))
      else
        var p := Updated(st.projects[id], u);
        Reply(Tick(st).(projects := st.projects[id := p], log := st.log + [ProjectUpdated(id, u)]), Ok(p))
  }

  function Created(id: nat, q: ProjectRequest): Project
  {
    Project(id, q.name, q.groupName, q.description, q.avatarURL, q.tokenID, q.providerID,
            q.buildDefinition, q.gitURL, q.remoteProjectID)
  }

  function CreateProject(st: State, q: ProjectRequest): (r: Reply<Project>)
    ensures r.st.calls == st.calls + 1 && r.st.faults == st.faults
    ensures r.res.Err? || r.res.value.id == 0 ==> r.st == Tick(st)
    ensures r.res.Ok? && r.res.value.id != 0 ==>
      && r.res.value == Created(st.lastID + 1, q)
      && r.st.projects == st.projects[st.lastID + 1 := r.res.value]
      && r.st.log == st.log + [ProjectCreated(st.lastID + 1, q)]
  {
    match FaultOf(st)
    case Some(Unreachable) => Reply(Tick(st), Err(RegistryError))
    case Some(Blank) => Reply(Tick(st), Ok(ZeroProject))
    case None =>
      var p := Created(st.lastID + 1, q);
      Reply(Tick(st).(projects := st.projects[p.id := p], log := st.log + [ProjectCreated(p.id, q)], lastID := p.id), Ok(p))
  }

  /** `CreateProjectBranch`; branches are kept only in the write log. */
  function CreateProjectBranch(st: State, projectID: nat, b: BranchRequest): (r: Reply<BranchRequest>)
    ensures r.st.calls == st.calls + 1 && r.st.faults == st.faults
    ensures r.st.log == st.log + [BranchCreated(projectID, b)] <==> FaultOf(st).None?
    ensures FaultOf(st).Some? ==> r.st == Tick(st)
  {
    match FaultOf(st)
    case Some(Unreachable) => Reply(Tick(st), Err(RegistryError))
    case Some(Blank) => Reply(Tick(st), Ok(BranchRequest("", false)))
    case None => Reply(Tick(st).(log := st.log + [BranchCreated(projectID, b)]), Ok(b))
  }
}
