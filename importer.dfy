/**
 * `githubImporter` and `runGitHubHandler` as they run: the importer's fields
 * are assigned step by step, the loops write to the registry one call at a
 * time. Every method is proved to leave the registry in the state, and to
 * return what, the matching function of module Import gives.
 */
module GitHubImporter {
  import opened Wrappers
  import opened Wharf
  import opened GitHub
  import opened Import
  import WharfClient

  class Importer {
    var githubClient: Option<Service>
    const wharfClient: WharfClient.Client
    var provider: Provider
    var token: Token

    constructor (wharfClient: WharfClient.Client)
      ensures this.wharfClient == wharfClient
      ensures githubClient.None? && provider == ZeroProvider && token == ZeroToken
    {
      this.wharfClient := wharfClient;
      githubClient := None;
      provider := ZeroProvider;
      token := ZeroToken;
    }

    /** The resolved fields, once the GitHub client is set. */
    function Session(): Session
      reads this
      requires githubClient.Some?
    {
      Import.Session(githubClient.value, token, provider)
    }

    method GetTokenWritesProblem(body: ImportBody) returns (t: Token, ok: bool, problems: seq<Response>)
      modifies wharfClient
      ensures var x := Import.GetTokenWritesProblem(old(wharfClient.State()), body);
        wharfClient.State() == x.st && t == x.token && ok == x.ok && problems == x.problems
    {
      problems := [];
      if body.tokenID != 0 {
        var r := wharfClient.GetToken(body.tokenID);
        if r.Err? {
          return ZeroToken, false, [ReadProblem(r.error)];
        } else if r.value.id == 0 {
          problems := [ReadProblem(TokenNotFound)];
        }
        t := r.value;
      } else {
        var r := wharfClient.CreateToken(body.token, body.user);
        if r.Err? {
          return ZeroToken, false, [WriteProblem(r.error)];
        }
        t := r.value;
      }
      ok := true;
    }

    method GetProvider(body: ImportBody) returns (r: Result<Provider, Error>)
      modifies wharfClient
      ensures var x := Import.GetProvider(old(wharfClient.State()), body, token);
        wharfClient.State() == x.st && r == x.res
    {
      if body.providerID != 0 {
        r := wharfClient.GetProvider(body.providerID);
        if r.Err? {
          return;
        } else if r.value.id == 0 {
          r := Err(ProviderNotFound);
        } else if r.value.url != body.url {
          r := Err(ProviderURLMismatch);
        }
      } else {
        r := wharfClient.CreateProvider(ProviderName, body.url, token.id);
      }
    }

    method RefreshProject(body: ImportBody) returns (err: Option<Error>)
      requires githubClient.Some?
      modifies wharfClient
      ensures var d := Import.RefreshProject(Session(), old(wharfClient.State()), body);
        wharfClient.State() == d.st && err == d.err
    {
      if body.projectID == 0 {
        return Some(MissingProjectID);
      }
      var project := wharfClient.GetProject(body.projectID);
      if project.Err? {
        return Some(project.error);
      } else if project.value.id == 0 {
        return Some(ProjectNotFound);
      }
      var repo := GetRepo(githubClient.value, body.group, project.value.name);
      if repo.Err? {
        return Some(repo.error);
      }
      var r := repo.value;
      var update := UpdatePayload(Session(), r, BuildDefinition(githubClient.value, Login(r), r.name));
      if update.None? {
        return Some(NilDereference);
      }
      var updated := wharfClient.UpdateProject(body.projectID, update.value);
      err := if updated.Err? then Some(updated.error) else None;
    }

    method ImportProject(body: ImportBody) returns (err: Option<Error>)
      requires githubClient.Some?
      modifies wharfClient
      ensures var d := Import.ImportProject(Session(), old(wharfClient.State()), body);
        wharfClient.State() == d.st && err == d.err
    {
      if body.projectID != 0 {
        return Some(ProjectIDNotZero);
      }
      var repo: Option<Repo> := None;
      if body.group != "" {
        var got := GetRepo(githubClient.value, body.group, body.project);
        if got.Err? {
          return Some(got.error);
        }
        repo := Some(got.value);
      } else {
        if "" !in githubClient.value.listings {
          return Some(GitHubError);
        }
        var repos := githubClient.value.listings[""];
        var k := 0;
        while k < |repos|
          invariant 0 <= k <= |repos|
          invariant repo.None?
          invariant forall j :: 0 <= j < k ==> repos[j].name != body.project
        {
          if repos[k].name == body.project {
            repo := Some(repos[k]);
            break;
          }
          k := k + 1;
        }
        assert repo == if FirstNamed(repos, body.project) < |repos| then Some(repos[FirstNamed(repos, body.project)]) else None;
      }
      err := CreateProject(repo);
    }

    method CreateProject(repo: Option<Repo>) returns (err: Option<Error>)
      requires githubClient.Some?
      modifies wharfClient
      ensures var d := Import.CreateProject(Session(), old(wharfClient.State()), repo);
        wharfClient.State() == d.st && err == d.err
    {
      if repo.None? {
        return Some(NilDereference);
      }
      var r := repo.value;
      var gh := githubClient.value;
      var request := ProjectPayload(Session(), r, BuildDefinition(gh, Login(r), r.name));
      if request.None? {
        return Some(NilDereference);
      }
      var created := wharfClient.CreateProject(request.value);
      if created.Err? {
        return Some(created.error);
      } else if created.value.id == 0 {
        return Some(ProjectNotCreated);
      }
      var p := created.value;
      if (p.groupName, p.name) !in gh.branches {
        return Some(GitHubError);
      }
      var branches := gh.branches[(p.groupName, p.name)];
      ghost var start := wharfClient.State();
      var i := 0;
      while i < |branches|
        invariant 0 <= i <= |branches|
        invariant CreateBranches(start, p.id, branches, r.defaultBranch)
               == CreateBranches(wharfClient.State(), p.id, branches[i..], r.defaultBranch)
      {
        ghost var before := wharfClient.State();
        assert branches[i..][1..] == branches[i + 1..];
        var b := wharfClient.CreateProjectBranch(p.id, BranchRequest(branches[i], branches[i] == r.defaultBranch));
        if b.Err? {
          assert CreateBranches(before, p.id, branches[i..], r.defaultBranch) == wharfClient.State();
          break;
        }
        i := i + 1;
      }
      err := None;
    }

    method ImportGroup(group: string) returns (err: Option<Error>)
      requires githubClient.Some?
      modifies wharfClient
      ensures var d := Import.ImportGroup(Session(), old(wharfClient.State()), group);
        wharfClient.State() == d.st && err == d.err
    {
      var gh := githubClient.value;
      if group !in gh.listings {
        return Some(GitHubError);
      }
      var repos := gh.listings[group];
      ghost var start := wharfClient.State();
      var i := 0;
      while i < |repos|
        invariant 0 <= i <= |repos|
        invariant ImportRepos(Session(), start, group, repos)
               == ImportRepos(Session(), wharfClient.State(), group, repos[i..])
      {
        assert repos[i..][1..] == repos[i + 1..];
        if Selected(group, repos[i]) {
          err := CreateProject(Some(repos[i]));
          if err.Some? {
            return;
          }
        }
        i := i + 1;
      }
      err := None;
    }
  }

  /**
   * `runGitHubHandler` after the body is bound: resolve the token, then the
   * provider, then the GitHub client, then refresh or import. Returns every
   * response written, in order.
   */
  method RunGitHubHandler(wharfClient: WharfClient.Client, gh: Service, body: ImportBody)
    returns (responses: seq<Response>)
    modifies wharfClient
    ensures var h := Import.RunGitHubHandler(gh, old(wharfClient.State()), body);
      wharfClient.State() == h.st && responses == h.responses
  {
    ghost var st := wharfClient.State();
    ghost var h := Import.RunGitHubHandler(gh, st, body);
    var importer := new Importer(wharfClient);
    var t, ok, problems := importer.GetTokenWritesProblem(body);
    ghost var tt := Import.GetTokenWritesProblem(st, body);
    importer.token := t;
    responses := problems;
    if !ok {
      return;
    }
    var provider := importer.GetProvider(body);
    ghost var p := Import.GetProvider(tt.st, body, tt.token);
    assert wharfClient.State() == p.st && provider == p.res;
    if provider.Err? {
      assert h == Handled(p.st, tt.problems + [ReadProblem(p.res.error)]);
      return responses + [ReadProblem(provider.error)];
    }
    importer.provider := provider.value;
    var client := InitGithubConnection(gh, importer.provider);
    if client.Err? {
      return responses + [ReadProblem(client.error)];
    }
    importer.githubClient := Some(client.value);
    assert importer.Session() == Session(gh, tt.token, p.res.value);

    if body.projectID != 0 {
      var err := importer.RefreshProject(body);
      if err.Some? {
        return responses + [WriteFailure(err.value)];
      }
      return responses + [Status(200)];
    }

    var err: Option<Error>;
    if body.project != "" {
      err := importer.ImportProject(body);
    } else {
      err := importer.ImportGroup(body.group);
    }
    if err.Some? {
      return responses + [WriteFailure(err.value)];
    }
    responses := responses + [Status(201)];
  }
}
