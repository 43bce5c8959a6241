/**
 * What each function of github.go does, as pure functions over the GitHub
 * service (an immutable value) and the registry state (threaded through).
 * The methods of GitHubImporter.Importer are proved to behave exactly so;
 * ImportProperties proves what the importer promises about them.
 */
module Import {
  import opened Wrappers
  import opened Wharf
  import opened GitHub
  import Base64
  import Decimal

  /** The build definition's path in every repository (main.go:36). */
  const BuildDefinitionFileName: string := ".wharf-ci.yml"

  /** The GitHub provider kind the importer registers (github.go:165). */
  const ProviderName: string := "github"

  /** `importBody`, the parsed request (main.go:19-34); a zero ID means "not given". */
  datatype ImportBody = ImportBody(
    tokenID: nat,
    token: string,
    user: string,
    url: string,
    uploadURL: string,
    providerID: nat,
    provider: string,
    projectID: nat,
    project: string,
    group: string)

  /** What the handler writes to the HTTP response, in order. */
  datatype Response =
    | ReadProblem(error: Error)    // ginutil.WriteAPIClientReadError
    | WriteProblem(error: Error)   // ginutil.WriteAPIClientWriteError
    | Panicked                     // a nil dereference, answered by the recovery middleware
    | Status(code: nat)            // c.Status: 200 after a refresh, 201 after an import

  /** The importer once its token, provider and GitHub client are resolved. */
  datatype Session = Session(client: Service, token: Token, provider: Provider)

  /** The registry state after a step, and the error it returned, if any. */
  datatype Done = Done(st: State, err: Option<Error>)

  datatype TokenOutcome = TokenOutcome(st: State, token: Token, ok: bool, problems: seq<Response>)

  datatype Handled = Handled(st: State, responses: seq<Response>)

  /**
   * `getTokenWritesProblem`: a given token ID is looked up, otherwise a token
   * is created. A lookup that answers token ID 0 writes a "not found" problem
   * and still reports success.
   */
  function GetTokenWritesProblem(st: State, body: ImportBody): (r: TokenOutcome)
    ensures r.st.calls == st.calls + 1 && r.st.faults == st.faults && st.log <= r.st.log
    ensures |r.problems| <= 1
    ensures !r.ok ==> r.token == ZeroToken && r.st.log == st.log
  {
    if body.tokenID != 0 then
      var g := GetToken(st, body.tokenID);
      if g.res.Err? then TokenOutcome(g.st, ZeroToken, false, [ReadProblem(g.res.error)])
      else if g.res.value.id == 0 then TokenOutcome(g.st, g.res.value, true, [ReadProblem(TokenNotFound)])
      else TokenOutcome(g.st, g.res.value, true, [])
    else
      var c := CreateToken(st, body.token, body.user);
      if c.res.Err? then TokenOutcome(c.st, ZeroToken, false, [WriteProblem(c.res.error)])
      else TokenOutcome(c.st, c.res.value, true, [])
  }

  /**
   * `getProvider`: a given provider ID is looked up and must exist and have
   * the request's URL (the upload URL is not compared); otherwise a provider
   * named "github" is created with the request's URL and the token's ID.
   */
  function GetProvider(st: State, body: ImportBody, token: Token): (r: Reply<Provider>)
    ensures r.st.calls == st.calls + 1 && r.st.faults == st.faults && st.log <= r.st.log
    ensures body.providerID != 0 ==> r.st.log == st.log
    ensures body.providerID != 0 && r.res.Ok? ==> r.res.value.id != 0 && r.res.value.url == body.url
  {
    if body.providerID != 0 then
      var g := Wharf.GetProvider(st, body.providerID);
      if g.res.Err? then g
      else if g.res.value.id == 0 then Reply(g.st, Err(ProviderNotFound))
      else if g.res.value.url != body.url then Reply(g.st, Err(ProviderURLMismatch))
      else g
    else Wharf.CreateProvider(st, ProviderName, body.url, token.id)
  }

  /** `initGithubConnection`: fails only when the provider's URL cannot be parsed. */
  function InitGithubConnection(gh: Service, provider: Provider): (r: Result<Service, Error>)
    ensures r.Ok? <==> provider.url !in gh.badURLs
    ensures r.Ok? ==> r.value == gh
  {
    if provider.url in gh.badURLs then Err(ConnectionError) else Ok(gh)
  }

  /**
   * `getBuildDefinition`: the decoded `.wharf-ci.yml`, or empty when the file
   * cannot be fetched or its content is not valid base64. Never an error.
   */
  function BuildDefinition(gh: Service, owner: string, name: string): (r: seq<Base64.Byte>)
    ensures r != [] ==>
      (owner, name, BuildDefinitionFileName) in gh.contents
      && Base64.Decode(gh.contents[(owner, name, BuildDefinitionFileName)]) == Some(r)
    ensures (owner, name, BuildDefinitionFileName) in gh.contents
            && Base64.Decode(gh.contents[(owner, name, BuildDefinitionFileName)]).Some? ==>
      r == Base64.Decode(gh.contents[(owner, name, BuildDefinitionFileName)]).value
  {
    var key := (owner, name, BuildDefinitionFileName);
    if key !in gh.contents then []
    else match Base64.Decode(gh.contents[key])
      case None => []
      case Some(text) => text
  }

  /**
   * `getRepo`: the repository GitHub returns for (group, project), accepted
   * only if its name and its owner's login are exactly the requested ones.
   */
  function GetRepo(gh: Service, group: string, project: string): (r: Result<Repo, Error>)
    ensures r.Ok? <==>
      (group, project) in gh.repos
      && gh.repos[(group, project)].name == project
      && Login(gh.repos[(group, project)]) == group
    ensures r.Ok? ==> r.value == gh.repos[(group, project)] && r.value.name == project && Login(r.value) == group
  {
    if (group, project) !in gh.repos then Err(GitHubError)
    else
      var repo := gh.repos[(group, project)];
      if repo.name != project then Err(RepoNameMismatch)
      else if Login(repo) != group then Err(RepoOwnerMismatch)
      else Ok(repo)
  }

  /** The index of the first repository named `name`, or |repos| when there is none. */
  function FirstNamed(repos: seq<Repo>, name: string): (k: nat)
    ensures k <= |repos|
    ensures k < |repos| ==> repos[k].name == name
    ensures forall j :: 0 <= j < k ==> repos[j].name != name
  {
    if repos == [] then 0
    else if repos[0].name == name then 0
    else 1 + FirstNamed(repos[1..], name)
  }

  /** Whether `importGroup` imports `repo`: every repository when the group is "". */
  predicate Selected(group: string, repo: Repo)
    ensures group == "" ==> Selected(group, repo)
    ensures Selected(group, repo) && group != "" ==> Login(repo) == group
  {
    group == "" || Login(repo) == group
  }

  /**
   * The request `createProject` sends, or None where github.go dereferences a
   * nil pointer (no owner, no owner avatar URL, no SSH URL).
   */
  function ProjectPayload(s: Session, repo: Repo, buildDefinition: seq<Base64.Byte>): (r: Option<ProjectRequest>)
    ensures r.Some? ==> r.value.name == repo.name && r.value.groupName == Login(repo)
    ensures r.Some? ==> Decimal.Parse(r.value.remoteProjectID) == Some(repo.id)
  {
    Decimal.ParseFormat(repo.id);
    if repo.owner.None? || repo.owner.value.avatarURL.None? || repo.sshURL.None? then None
    else Some(ProjectRequest(
      repo.name, s.token.id, Login(repo), buildDefinition, repo.description,
      repo.owner.value.avatarURL.value, s.provider.id, repo.sshURL.value, Decimal.Format(repo.id)))
  }

  /** The update `refreshProject` sends, or None at a nil dereference. */
  function UpdatePayload(s: Session, repo: Repo, buildDefinition: seq<Base64.Byte>): (r: Option<ProjectUpdate>)
    ensures r.Some? <==> ProjectPayload(s, repo, buildDefinition).Some?
    ensures r.Some? ==>
      var q := ProjectPayload(s, repo, buildDefinition).value;
      r.value == ProjectUpdate(q.name, q.tokenID, q.groupName, q.buildDefinition, q.description,
                               q.avatarURL, q.providerID, q.gitURL)
  {
    if repo.owner.None? || repo.owner.value.avatarURL.None? || repo.sshURL.None? then None
    else Some(ProjectUpdate(
      repo.name, s.token.id, Login(repo), buildDefinition, repo.description,
      repo.owner.value.avatarURL.value, s.provider.id, repo.sshURL.value))
  }

  /**
   * The branch loop of `createProject`: one branch per name, in order, default
   * exactly when named like the repository's default branch; the first failed
   * call ends the loop.
   */
  function CreateBranches(st: State, projectID: nat, names: seq<string>, defaultBranch: string): (r: State)
    ensures st.calls <= r.calls && r.faults == st.faults && st.log <= r.log
    decreases |names|
  {
    if names == [] then st
    else
      var c := CreateProjectBranch(st, projectID, BranchRequest(names[0], names[0] == defaultBranch));
      if c.res.Err? then c.st else CreateBranches(c.st, projectID, names[1..], defaultBranch)
  }

  /**
   * `createProject`. A nil repository (no match in `importProject`) or nil
   * pointer inside it fails before the registry is called. The branch loop's
   * error never reaches the caller: the loop declares its own `err`.
   */
  function CreateProject(s: Session, st: State, repo: Option<Repo>): (d: Done)
    ensures st.calls <= d.st.calls && d.st.faults == st.faults && st.log <= d.st.log
    ensures d.st.log != st.log ==> d.st.log[|st.log|].ProjectCreated?
  {
    match repo
    case None => Done(st, Some(NilDereference))
    case Some(r) =>
      match ProjectPayload(s, r, BuildDefinition(s.client, Login(r), r.name))
      case None => Done(st, Some(NilDereference))
      case Some(q) =>
        var c := Wharf.CreateProject(st, q);
        if c.res.Err? then Done(c.st, Some(c.res.error))
        else if c.res.value.id == 0 then Done(c.st, Some(ProjectNotCreated))
        else
          var p := c.res.value;
          if (p.groupName, p.name) !in s.client.branches then Done(c.st, Some(GitHubError))
          else Done(CreateBranches(c.st, p.id, s.client.branches[(p.groupName, p.name)], r.defaultBranch), None)
  }

  /** The loop of `importGroup` over the listed repositories. */
  function ImportRepos(s: Session, st: State, group: string, repos: seq<Repo>): (d: Done)
    ensures st.calls <= d.st.calls && d.st.faults == st.faults && st.log <= d.st.log
    ensures (forall i :: 0 <= i < |repos| ==> !Selected(group, repos[i])) ==> d == Done(st, None)
    decreases |repos|
  {
    if repos == [] then Done(st, None)
    else if Selected(group, repos[0]) then
      var d := CreateProject(s, st, Some(repos[0]));
      if d.err.Some? then d else ImportRepos(s, d.st, group, repos[1..])
    else ImportRepos(s, st, group, repos[1..])
  }

  /** `importGroup`: list the group's (or, for "", the user's) repositories and import each selected one. */
  function ImportGroup(s: Session, st: State, group: string): (d: Done)
    ensures st.calls <= d.st.calls && d.st.faults == st.faults && st.log <= d.st.log
    ensures group !in s.client.listings ==> d == Done(st, Some(GitHubError))
  {
    if group !in s.client.listings then Done(st, Some(GitHubError))
    else ImportRepos(s, st, group, s.client.listings[group])
  }

  /**
   * `importProject`: with a group, the repository `getRepo` accepts; without
   * one, the first of the user's listed repositories with that exact name.
   */
  function ImportProject(s: Session, st: State, body: ImportBody): (d: Done)
    ensures st.calls <= d.st.calls && d.st.faults == st.faults && st.log <= d.st.log
    ensures d.st.log != st.log ==> body.projectID == 0 && d.st.log[|st.log|].ProjectCreated?
  {
    if body.projectID != 0 then Done(st, Some(ProjectIDNotZero))
    else if body.group != "" then
      match GetRepo(s.client, body.group, body.project)
      case Err(e) => Done(st, Some(e))
      case Ok(r) => CreateProject(s, st, Some(r))
    else if "" !in s.client.listings then Done(st, Some(GitHubError))
    else
      var repos := s.client.listings[""];
      var k := FirstNamed(repos, body.project);
      CreateProject(s, st, if k < |repos| then Some(repos[k]) else None)
  }

  /**
   * `refreshProject`: the stored project's name and the request's group are
   * resolved through `getRepo`, then the project is updated in place; no
   * branch is touched.
   */
  function RefreshProject(s: Session, st: State, body: ImportBody): (d: Done)
    ensures st.calls <= d.st.calls <= st.calls + 2 && d.st.faults == st.faults && st.log <= d.st.log
    ensures d.st.log != st.log ==>
      && |d.st.log| == |st.log| + 1
      && d.st.log[|st.log|].ProjectUpdated? && d.st.log[|st.log|].projectID == body.projectID
    ensures d.err.Some? ==> d.st.log == st.log
  {
    if body.projectID == 0 then Done(st, Some(MissingProjectID))
    else
      var g := Wharf.GetProject(st, body.projectID);
      if g.res.Err? then Done(g.st, Some(g.res.error))
      else if g.res.value.id == 0 then Done(g.st, Some(ProjectNotFound))
      else match GetRepo(s.client, body.group, g.res.value.name)
        case Err(e) => Done(g.st, Some(e))
        case Ok(r) =>
          match UpdatePayload(s, r, BuildDefinition(s.client, Login(r), r.name))
          case None => Done(g.st, Some(NilDereference))
          case Some(u) =>
            var p := Wharf.UpdateProject(g.st, body.projectID, u);
            Done(p.st, if p.res.Err? then Some(p.res.error) else None)
  }

  /** How a failed refresh or import is answered. */
  function WriteFailure(e: Error): (r: Response)
    ensures !r.Status? && !r.ReadProblem?
    ensures r.Panicked? <==> e == NilDereference
    ensures r.WriteProblem? ==> r.error == e
  {
    if e == NilDereference then Panicked else WriteProblem(e)
  }

  /** `runGitHubHandler` from the parsed body on: the registry's final state and every response written. */
  function RunGitHubHandler(gh: Service, st: State, body: ImportBody): (h: Handled)
    ensures st.log <= h.st.log && h.st.faults == st.faults
    ensures 1 <= |h.responses| <= 2
  {
    var t := GetTokenWritesProblem(st, body);
    if !t.ok then Handled(t.st, t.problems)
    else
      var p := GetProvider(t.st, body, t.token);
      if p.res.Err? then Handled(p.st, t.problems + [ReadProblem(p.res.error)])
      else match InitGithubConnection(gh, p.res.value)
        case Err(e) => Handled(p.st, t.problems + [ReadProblem(e)])
        case Ok(client) =>
          var s := Session(client, t.token, p.res.value);
          if body.projectID != 0 then
            var d := RefreshProject(s, p.st, body);
            Handled(d.st, t.problems + [if d.err.Some? then WriteFailure(d.err.value) else Status(200)])
          else
            var d := if body.project != "" then ImportProject(s, p.st, body) else ImportGroup(s, p.st, body.group);
            Handled(d.st, t.problems + [if d.err.Some? then WriteFailure(d.err.value) else Status(201)])
  }
}
