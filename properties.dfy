/**
 * What the importer promises, proved about the functions of module Import
 * (and so, through the methods' postconditions, about GitHubImporter).
 */
module ImportProperties {
  import opened Wrappers
  import opened Wharf
  import opened GitHub
  import opened Import
  import Base64
  import Decimal

  /** No call with an index in [st.calls, st.calls + n) is faulted. */
  predicate Clear(st: State, n: nat)
  {
    forall i :: st.calls <= i < st.calls + n ==> i !in st.faults
  }

  /** No call from st.calls on is faulted. */
  predicate Healthy(st: State)
  {
    forall i :: i in st.faults ==> i < st.calls
  }

  /** The branch records the loop writes for `names` when every call succeeds. */
  function BranchRecords(projectID: nat, names: seq<string>, defaultBranch: string): seq<Write>
  {
    seq(|names|, i requires 0 <= i < |names| => BranchCreated(projectID, BranchRequest(names[i], names[i] == defaultBranch)))
  }

  /** A write is a branch of `projectID` whose default flag is set exactly for `defaultBranch`. */
  predicate IsBranchOf(w: Write, projectID: nat, names: seq<string>, defaultBranch: string)
  {
    w.BranchCreated? && w.projectID == projectID && w.branch.name in names
    && (w.branch.isDefault <==> w.branch.name == defaultBranch)
  }

  // ---------------------------------------------------------------------------
  // Branch loop of createProject (github.go:290-306)

  lemma BranchRecordsCons(projectID: nat, names: seq<string>, defaultBranch: string)
    requires names != []
    ensures BranchRecords(projectID, names, defaultBranch)
         == [BranchCreated(projectID, BranchRequest(names[0], names[0] == defaultBranch))]
            + BranchRecords(projectID, names[1..], defaultBranch)
  {
  }

  /** With no fault on the way, the loop creates every listed branch, in order. */
  lemma {:induction false} BranchesAllCreated(st: State, projectID: nat, names: seq<string>, defaultBranch: string)
    requires Clear(st, |names|)
    ensures CreateBranches(st, projectID, names, defaultBranch)
         == st.(log := st.log + BranchRecords(projectID, names, defaultBranch), calls := st.calls + |names|)
    decreases |names|
  {
    if names != [] {
      var c := CreateProjectBranch(st, projectID, BranchRequest(names[0], names[0] == defaultBranch));
      BranchesAllCreated(c.st, projectID, names[1..], defaultBranch);
      BranchRecordsCons(projectID, names, defaultBranch);
    }
  }

  /** The number of branch records marked default in `ws`. */
  function DefaultCount(ws: seq<Write>): nat
  {
    if ws == [] then 0
    else (if ws[0].BranchCreated? && ws[0].branch.isDefault then 1 else 0) + DefaultCount(ws[1..])
  }

  /**
   * For distinct branch names, the records mark exactly one branch default
   * when the default branch is listed, and none when it is not (for example
   * when it is missing from the first page of branches).
   */
  lemma {:induction false} OneDefault(projectID: nat, names: seq<string>, defaultBranch: string)
    requires forall i, j :: 0 <= i < j < |names| ==> names[i] != names[j]
    ensures DefaultCount(BranchRecords(projectID, names, defaultBranch)) == if defaultBranch in names then 1 else 0
    decreases |names|
  {
    if names != [] {
      var w := BranchCreated(projectID, BranchRequest(names[0], names[0] == defaultBranch));
      var rest := BranchRecords(projectID, names[1..], defaultBranch);
      BranchRecordsCons(projectID, names, defaultBranch);
      assert ([w] + rest)[1..] == rest;
      OneDefault(projectID, names[1..], defaultBranch);
      assert defaultBranch in names <==> names[0] == defaultBranch || defaultBranch in names[1..];
      if names[0] == defaultBranch {
        assert defaultBranch !in names[1..] by {
          forall j | 0 <= j < |names[1..]| ensures names[1..][j] != defaultBranch {
            assert names[1..][j] == names[j + 1];
          }
        }
      }
    }
  }

  /**
   * The first failing branch call ends the loop: the branches before it are
   * created, it and those after it are not, and no further call is made.
   */
  lemma {:induction false} BranchesStopAtFailure(st: State, projectID: nat, names: seq<string>, defaultBranch: string, k: nat)
    requires k < |names| && Clear(st, k)
    requires st.calls + k in st.faults && st.faults[st.calls + k] == Unreachable
    ensures CreateBranches(st, projectID, names, defaultBranch)
         == st.(log := st.log + BranchRecords(projectID, names[..k], defaultBranch), calls := st.calls + k + 1)
    decreases k
  {
    var w := BranchCreated(projectID, BranchRequest(names[0], names[0] == defaultBranch));
    var c := CreateProjectBranch(st, projectID, BranchRequest(names[0], names[0] == defaultBranch));
    if k > 0 {
      assert st.calls !in st.faults;
      assert c.st == st.(log := st.log + [w], calls := st.calls + 1);
      assert Clear(c.st, k - 1);
      BranchesStopAtFailure(c.st, projectID, names[1..], defaultBranch, k - 1);
      assert names[1..][..k - 1] == names[..k][1..];
      assert names[..k][0] == names[0];
      BranchRecordsCons(projectID, names[..k], defaultBranch);
      assert (st.log + [w]) + BranchRecords(projectID, names[..k][1..], defaultBranch)
          == st.log + BranchRecords(projectID, names[..k], defaultBranch);
    } else {
      assert BranchRecords(projectID, names[..0], defaultBranch) == [];
    }
  }

  /**
   * Whatever the faults, the loop only appends branches of the project, named
   * as listed, each marked default exactly when named like the default branch.
   */
  lemma {:induction false} BranchesWellMarked(st: State, projectID: nat, names: seq<string>, defaultBranch: string)
    ensures var r := CreateBranches(st, projectID, names, defaultBranch);
      st.log <= r.log && r.faults == st.faults && st.calls <= r.calls
      && forall i :: |st.log| <= i < |r.log| ==> IsBranchOf(r.log[i], projectID, names, defaultBranch)
    decreases |names|
  {
    if names != [] {
      var c := CreateProjectBranch(st, projectID, BranchRequest(names[0], names[0] == defaultBranch));
      if c.res.Ok? {
        BranchesWellMarked(c.st, projectID, names[1..], defaultBranch);
        var r := CreateBranches(c.st, projectID, names[1..], defaultBranch);
        forall i | |st.log| <= i < |r.log| ensures IsBranchOf(r.log[i], projectID, names, defaultBranch) {
          if i >= |c.st.log| {
            assert IsBranchOf(r.log[i], projectID, names[1..], defaultBranch);
          }
        }
      }
    }
  }

  // ---------------------------------------------------------------------------
  // createProject (github.go:269-307)

  /** The pointers github.go dereferences are set. */
  predicate HasPointers(r: Repo)
  {
    r.owner.Some? && r.owner.value.avatarURL.Some? && r.sshURL.Some?
  }

  /** The repository can be created in full: its pointers are set and GitHub lists its branches. */
  predicate WellFormed(s: Session, r: Repo)
  {
    HasPointers(r) && (Login(r), r.name) in s.client.branches
  }

  /** The project record `createProject` asks the registry for, field by field. */
  predicate DescribesRepo(q: ProjectRequest, s: Session, r: Repo)
    requires HasPointers(r)
  {
    && q.name == r.name
    && q.groupName == Login(r)
    && q.remoteProjectID == Decimal.Format(r.id)
    && q.tokenID == s.token.id
    && q.providerID == s.provider.id
    && q.buildDefinition == BuildDefinition(s.client, Login(r), r.name)
    && q.description == r.description
    && q.avatarURL == r.owner.value.avatarURL.value
    && q.gitURL == r.sshURL.value
  }

  /**
   * What createProject leaves behind. A nil pointer fails before any call.
   * Otherwise, unless the create call fails or answers ID 0 (then nothing is
   * written), the first write is the new project, describing the repository,
   * and every later write is one of its branches, correctly marked; a failed
   * branch listing leaves the project without branches.
   */
  lemma CreateProjectWrites(s: Session, st: State, r: Repo)
    ensures var d := Import.CreateProject(s, st, Some(r));
      && st.log <= d.st.log && d.st.faults == st.faults && st.calls <= d.st.calls
      && (d.err == Some(NilDereference) <==> !HasPointers(r))
      && (d.err == Some(NilDereference) ==> d.st == st)
      && (d.err.None? || d.err == Some(GitHubError) ==>
            HasPointers(r) && |d.st.log| > |st.log|
            && d.st.log[|st.log|].ProjectCreated?
            && d.st.log[|st.log|].projectID == st.lastID + 1
            && DescribesRepo(d.st.log[|st.log|].project, s, r)
            && forall i :: |st.log| < i < |d.st.log| ==>
                 IsBranchOf(d.st.log[i], st.lastID + 1, s.client.branches[(Login(r), r.name)], r.defaultBranch))
      && (d.err == Some(GitHubError) ==> d.st.log == st.log + [d.st.log[|st.log|]])
      && (d.err.Some? && d.err != Some(GitHubError) ==> d.st.log == st.log)
  {
    var bd := BuildDefinition(s.client, Login(r), r.name);
    var q := ProjectPayload(s, r, bd);
    if q.Some? {
      var c := Wharf.CreateProject(st, q.value);
      if c.res.Ok? && c.res.value.id != 0 && (Login(r), r.name) in s.client.branches {
        var names := s.client.branches[(Login(r), r.name)];
        BranchesWellMarked(c.st, c.res.value.id, names, r.defaultBranch);
      }
    }
  }

  /** A create call that answers project ID 0 is an error, and no branch is created. */
  lemma ZeroProjectIDCreatesNoBranch(s: Session, st: State, r: Repo)
    requires HasPointers(r) && FaultOf(st) == Some(Blank)
    ensures Import.CreateProject(s, st, Some(r)) == Done(Tick(st), Some(ProjectNotCreated))
  {
  }

  /**
   * Once the project is created and its branches are listed, createProject
   * reports success whatever happens to the branch calls.
   */
  lemma BranchErrorsSwallowed(s: Session, st: State, r: Repo)
    requires WellFormed(s, r) && FaultOf(st).None?
    ensures Import.CreateProject(s, st, Some(r)).err.None?
  {
  }

  // ---------------------------------------------------------------------------
  // importGroup (github.go:309-325)

  /** The remote IDs of the projects created by a run of writes, in order. */
  function CreatedIDs(ws: seq<Write>): seq<string>
  {
    if ws == [] then []
    else (if ws[0].ProjectCreated? then [ws[0].project.remoteProjectID] else []) + CreatedIDs(ws[1..])
  }

  /** The remote IDs of the repositories `importGroup` selects, in listing order. */
  function SelectedIDs(group: string, repos: seq<Repo>): seq<string>
  {
    if repos == [] then []
    else (if Selected(group, repos[0]) then [Decimal.Format(repos[0].id)] else []) + SelectedIDs(group, repos[1..])
  }

  /** What `z` adds to `x` is what `y` adds, then what `z` adds to `y`. */
  lemma SuffixSplit(x: seq<Write>, y: seq<Write>, z: seq<Write>)
    requires x <= y && y <= z
    ensures z[|x|..] == y[|x|..] + z[|y|..]
  {
  }

  lemma {:induction false} CreatedIDsAppend(a: seq<Write>, b: seq<Write>)
    ensures CreatedIDs(a + b) == CreatedIDs(a) + CreatedIDs(b)
  {
    if a != [] {
      assert (a + b)[1..] == a[1..] + b;
      CreatedIDsAppend(a[1..], b);
    } else {
      assert a + b == b;
    }
  }

  lemma {:induction false} CreatedIDsOfBranches(ws: seq<Write>)
    requires forall i :: 0 <= i < |ws| ==> ws[i].BranchCreated?
    ensures CreatedIDs(ws) == []
  {
    if ws != [] {
      CreatedIDsOfBranches(ws[1..]);
    }
  }

  lemma HealthyClear(st: State, n: nat)
    requires Healthy(st)
    ensures Clear(st, n)
  {
  }

  /** With no fault ahead, a well-formed repository is created in full: one project, then its branches. */
  lemma CreateProjectHealthy(s: Session, st: State, r: Repo)
    requires Healthy(st) && WellFormed(s, r)
    ensures var d := Import.CreateProject(s, st, Some(r));
      var q := ProjectPayload(s, r, BuildDefinition(s.client, Login(r), r.name)).value;
      && d.err.None? && Healthy(d.st)
      && d.st.log == st.log + [ProjectCreated(st.lastID + 1, q)]
                     + BranchRecords(st.lastID + 1, s.client.branches[(Login(r), r.name)], r.defaultBranch)
  {
    var q := ProjectPayload(s, r, BuildDefinition(s.client, Login(r), r.name)).value;
    var c := Wharf.CreateProject(st, q);
    var names := s.client.branches[(Login(r), r.name)];
    HealthyClear(c.st, |names|);
    BranchesAllCreated(c.st, st.lastID + 1, names, r.defaultBranch);
  }

  /** The remote IDs created by a healthy createProject: the repository's, once. */
  lemma CreateProjectCreatesOne(s: Session, st: State, r: Repo)
    requires Healthy(st) && WellFormed(s, r)
    ensures var d := Import.CreateProject(s, st, Some(r));
      && d.err.None? && Healthy(d.st) && st.log <= d.st.log
      && CreatedIDs(d.st.log[|st.log|..]) == [Decimal.Format(r.id)]
  {
    CreateProjectHealthy(s, st, r);
    var q := ProjectPayload(s, r, BuildDefinition(s.client, Login(r), r.name)).value;
    var bs := BranchRecords(st.lastID + 1, s.client.branches[(Login(r), r.name)], r.defaultBranch);
    var d := Import.CreateProject(s, st, Some(r));
    assert d.st.log[|st.log|..] == [ProjectCreated(st.lastID + 1, q)] + bs;
    CreatedIDsOfBranches(bs);
    CreatedIDsAppend([ProjectCreated(st.lastID + 1, q)], bs);
  }

  /**
   * With no fault ahead and well-formed repositories, a group import succeeds
   * and creates one project per selected repository, in listing order.
   */
  lemma {:induction false} ImportReposCreatesSelected(s: Session, st: State, group: string, repos: seq<Repo>)
    requires Healthy(st)
    requires forall i :: 0 <= i < |repos| && Selected(group, repos[i]) ==> WellFormed(s, repos[i])
    ensures var d := ImportRepos(s, st, group, repos);
      d.err.None? && st.log <= d.st.log && CreatedIDs(d.st.log[|st.log|..]) == SelectedIDs(group, repos)
    decreases |repos|
  {
    if repos != [] {
      var d := ImportRepos(s, st, group, repos);
      if Selected(group, repos[0]) {
        CreateProjectCreatesOne(s, st, repos[0]);
        var d0 := Import.CreateProject(s, st, Some(repos[0]));
        ImportReposCreatesSelected(s, d0.st, group, repos[1..]);
        SuffixSplit(st.log, d0.st.log, d.st.log);
        CreatedIDsAppend(d0.st.log[|st.log|..], d.st.log[|d0.st.log|..]);
      } else {
        ImportReposCreatesSelected(s, st, group, repos[1..]);
      }
    }
  }

  /**
   * Partial failure of a group import: if the k-th repository is selected and
   * its createProject fails after the first k went through, the result is
   * exactly that failure, reached from the state the first k left: earlier
   * projects stay created and no later repository is attempted.
   */
  lemma {:induction false} ImportReposStopsAtFailure(s: Session, st: State, group: string, repos: seq<Repo>, k: nat)
    requires k < |repos| && Selected(group, repos[k])
    requires ImportRepos(s, st, group, repos[..k]).err.None?
    requires Import.CreateProject(s, ImportRepos(s, st, group, repos[..k]).st, Some(repos[k])).err.Some?
    ensures ImportRepos(s, st, group, repos)
         == Import.CreateProject(s, ImportRepos(s, st, group, repos[..k]).st, Some(repos[k]))
    decreases k
  {
    if k > 0 {
      assert repos[..k][1..] == repos[1..][..k - 1];
      if Selected(group, repos[0]) {
        var d0 := Import.CreateProject(s, st, Some(repos[0]));
        ImportReposStopsAtFailure(s, d0.st, group, repos[1..], k - 1);
      } else {
        ImportReposStopsAtFailure(s, st, group, repos[1..], k - 1);
      }
    }
  }

  /**
   * Whatever fails, a group import only appends to the registry's log, and
   * when a group is named every project it creates belongs to that group.
   */
  lemma {:induction false} ImportReposStaysInGroup(s: Session, st: State, group: string, repos: seq<Repo>)
    ensures var d := ImportRepos(s, st, group, repos);
      st.log <= d.st.log && d.st.faults == st.faults && st.calls <= d.st.calls
      && forall i :: |st.log| <= i < |d.st.log| && d.st.log[i].ProjectCreated? && group != "" ==>
           d.st.log[i].project.groupName == group
    decreases |repos|
  {
    if repos != [] {
      if Selected(group, repos[0]) {
        var r := repos[0];
        CreateProjectWrites(s, st, r);
        var d0 := Import.CreateProject(s, st, Some(r));
        if d0.err.None? {
          ImportReposStaysInGroup(s, d0.st, group, repos[1..]);
        }
      } else {
        ImportReposStaysInGroup(s, st, group, repos[1..]);
      }
    }
  }

  /** The remote IDs of all repositories, in listing order. */
  function AllIDs(repos: seq<Repo>): seq<string>
  {
    seq(|repos|, i requires 0 <= i < |repos| => Decimal.Format(repos[i].id))
  }

  /**
   * A request without a group imports every repository the user's listing
   * shows: with no fault ahead and well-formed repositories, one project each,
   * in listing order.
   */
  lemma ImportGroupWithoutGroupImportsAll(s: Session, st: State)
    requires Healthy(st) && "" in s.client.listings
    requires var repos := s.client.listings[""]; forall i :: 0 <= i < |repos| ==> WellFormed(s, repos[i])
    ensures var d := ImportGroup(s, st, "");
      d.err.None? && st.log <= d.st.log && CreatedIDs(d.st.log[|st.log|..]) == AllIDs(s.client.listings[""])
  {
    var repos := s.client.listings[""];
    ImportReposCreatesSelected(s, st, "", repos);
    SelectedIDsWithoutGroup(repos);
  }

  lemma {:induction false} SelectedIDsWithoutGroup(repos: seq<Repo>)
    ensures SelectedIDs("", repos) == AllIDs(repos)
  {
    if repos != [] {
      SelectedIDsWithoutGroup(repos[1..]);
      assert AllIDs(repos) == [Decimal.Format(repos[0].id)] + AllIDs(repos[1..]);
    }
  }

  // ---------------------------------------------------------------------------
  // getBuildDefinition (github.go:181-193)

  /**
   * A build definition stored as the base64 of some text, split over lines in
   * any way, is read back as that text.
   */
  lemma BuildDefinitionOfEncoded(gh: Service, owner: string, name: string, text: seq<Base64.Byte>)
    requires (owner, name, BuildDefinitionFileName) in gh.contents
    requires Base64.StripNewlines(gh.contents[(owner, name, BuildDefinitionFileName)]) == Base64.Encode(text)
    ensures BuildDefinition(gh, owner, name) == text
  {
    Base64.DecodeWrapped(gh.contents[(owner, name, BuildDefinitionFileName)], text);
  }

  /** A missing file or content that is not base64 gives the empty build definition, not an error. */
  lemma BuildDefinitionFallback(gh: Service, owner: string, name: string)
    requires (owner, name, BuildDefinitionFileName) !in gh.contents
          || Base64.Decode(gh.contents[(owner, name, BuildDefinitionFileName)]).None?
    ensures BuildDefinition(gh, owner, name) == []
  {
  }

  // ---------------------------------------------------------------------------
  // getTokenWritesProblem (github.go:119-149) and getProvider (github.go:151-172)

  /**
   * Token resolution makes exactly one call. It fails only on a transport
   * error, writing a read problem (lookup) or a write problem (creation). A
   * lookup never writes; a lookup answering ID 0 writes "not found" and still
   * succeeds. A creation without fault registers the request's token and user.
   */
  lemma TokenResolution(st: State, body: ImportBody)
    ensures var t := GetTokenWritesProblem(st, body);
      && t.st.calls == st.calls + 1 && t.st.faults == st.faults && st.log <= t.st.log
      && (t.ok <==> FaultOf(st) != Some(Unreachable))
      && (!t.ok ==>
            t.st.log == st.log
            && t.problems == [if body.tokenID != 0 then ReadProblem(RegistryError) else WriteProblem(RegistryError)])
      && (body.tokenID != 0 ==> t.st.log == st.log)
      && (body.tokenID != 0 && t.ok ==> (t.problems == [ReadProblem(TokenNotFound)] <==> t.token.id == 0))
      && (body.tokenID != 0 && t.ok ==> (t.problems == [] <==> t.token.id != 0))
      && (body.tokenID != 0 && FaultOf(st).None? && body.tokenID !in st.tokens ==>
            t.ok && t.problems == [ReadProblem(TokenNotFound)])
      && (body.tokenID != 0 && FaultOf(st).None? && body.tokenID in st.tokens ==>
            t.ok && t.token == st.tokens[body.tokenID])
      && (body.tokenID == 0 && FaultOf(st).None? ==>
            t.ok && t.problems == [] && t.token == Token(st.lastID + 1, body.token, body.user)
            && t.st.log == st.log + [TokenCreated(t.token)])
  {
  }

  /**
   * Provider resolution makes exactly one call. A given ID succeeds exactly
   * when the stored provider exists and has the request's URL; its upload URL
   * plays no part. Without an ID a provider named "github" is created with the
   * request's URL and the resolved token's ID.
   */
  lemma ProviderResolution(st: State, body: ImportBody, token: Token)
    ensures var p := Import.GetProvider(st, body, token);
      && p.st.calls == st.calls + 1 && p.st.faults == st.faults && st.log <= p.st.log
      && (body.providerID != 0 ==>
            p.st.log == st.log
            && (p.res.Ok? <==>
                  FaultOf(st).None? && body.providerID in st.providers
                  && st.providers[body.providerID].id != 0 && st.providers[body.providerID].url == body.url)
            && (p.res.Ok? ==> p.res.value == st.providers[body.providerID]))
      && (body.providerID != 0 && FaultOf(st).None? && body.providerID in st.providers
          && st.providers[body.providerID].id != 0 && st.providers[body.providerID].url != body.url ==>
            p.res == Err(ProviderURLMismatch))
      && (body.providerID == 0 && FaultOf(st).None? ==>
            p.res == Ok(Provider(st.lastID + 1, ProviderName, body.url, "", token.id))
            && p.st.log == st.log + [ProviderCreated(p.res.value)])
  {
  }

  // ---------------------------------------------------------------------------
  // refreshProject (github.go:195-225)

  /** The checks refreshProject makes before it may update: an ID, a stored project, an exactly matching repository. */
  predicate RefreshChecksPass(s: Session, st: State, body: ImportBody)
  {
    && body.projectID != 0
    && FaultOf(st).None?
    && body.projectID in st.projects
    && st.projects[body.projectID].id != 0
    && GetRepo(s.client, body.group, st.projects[body.projectID].name).Ok?
  }

  /** The repository a refresh takes its fields from. */
  function RefreshedRepo(s: Session, st: State, body: ImportBody): Repo
    requires RefreshChecksPass(s, st, body)
  {
    s.client.repos[(body.group, st.projects[body.projectID].name)]
  }

  /** The update `refreshProject` sends, field by field. */
  predicate UpdateDescribesRepo(u: ProjectUpdate, s: Session, r: Repo)
    requires HasPointers(r)
  {
    && u.name == r.name
    && u.groupName == Login(r)
    && u.tokenID == s.token.id
    && u.providerID == s.provider.id
    && u.buildDefinition == BuildDefinition(s.client, Login(r), r.name)
    && u.description == r.description
    && u.avatarURL == r.owner.value.avatarURL.value
    && u.gitURL == r.sshURL.value
  }

  /**
   * A refresh writes at most one record, an update of the requested project
   * describing the repository found under the request's group and the stored
   * name; it succeeds or writes only when every check passed, and a failure
   * writes nothing.
   */
  lemma RefreshWrites(s: Session, st: State, body: ImportBody)
    ensures var d := RefreshProject(s, st, body);
      && st.log <= d.st.log && |d.st.log| <= |st.log| + 1
      && d.st.faults == st.faults && st.calls <= d.st.calls
      && (d.err.None? || |d.st.log| > |st.log| ==> RefreshChecksPass(s, st, body))
      && (d.err.Some? ==> d.st.log == st.log && d.st.projects == st.projects
                          && d.st.tokens == st.tokens && d.st.providers == st.providers)
      && (|d.st.log| > |st.log| ==>
            var w := d.st.log[|st.log|];
            var name := st.projects[body.projectID].name;
            var r := s.client.repos[(body.group, name)];
            && w.ProjectUpdated? && w.projectID == body.projectID
            && w.update.name == name && w.update.groupName == body.group
            && HasPointers(r) && UpdateDescribesRepo(w.update, s, r))
  {
  }

  /**
   * When a refresh succeeds: exactly when the checks pass, the repository's
   * pointers are set and the update call is not lost in transport. With a
   * fault-free update call it writes that one update, describing the
   * repository, and the stored project takes its fields.
   */
  lemma RefreshOutcome(s: Session, st: State, body: ImportBody)
    ensures var d := RefreshProject(s, st, body);
      && (d.err.None? <==>
            RefreshChecksPass(s, st, body) && HasPointers(RefreshedRepo(s, st, body))
            && FaultOf(Tick(st)) != Some(Unreachable))
      && (RefreshChecksPass(s, st, body) && HasPointers(RefreshedRepo(s, st, body)) && FaultOf(Tick(st)).None? ==>
            var r := RefreshedRepo(s, st, body);
            var u := UpdatePayload(s, r, BuildDefinition(s.client, Login(r), r.name)).value;
            && UpdateDescribesRepo(u, s, r)
            && d.st.log == st.log + [ProjectUpdated(body.projectID, u)]
            && d.st.projects == st.projects[body.projectID := Updated(st.projects[body.projectID], u)]
            && d.st.tokens == st.tokens && d.st.providers == st.providers && d.st.lastID == st.lastID)
  {
  }

  // ---------------------------------------------------------------------------
  // importProject (github.go:227-254)

  /**
   * A single-project import with a group writes only when getRepo accepts the
   * repository, and then creates that repository; a rejected lookup returns
   * its error before anything is written.
   */
  lemma ImportProjectWithGroup(s: Session, st: State, body: ImportBody)
    requires body.projectID == 0 && body.group != ""
    ensures var d := ImportProject(s, st, body);
      && st.log <= d.st.log
      && (GetRepo(s.client, body.group, body.project).Err? ==>
            d == Done(st, Some(GetRepo(s.client, body.group, body.project).error)))
      && (|d.st.log| > |st.log| ==>
            var r := s.client.repos[(body.group, body.project)];
            && r.name == body.project && Login(r) == body.group && HasPointers(r)
            && d.st.log[|st.log|].ProjectCreated? && DescribesRepo(d.st.log[|st.log|].project, s, r))
      && (Healthy(st) && GetRepo(s.client, body.group, body.project).Ok?
          && WellFormed(s, GetRepo(s.client, body.group, body.project).value) ==>
            d.err.None?
            && CreatedIDs(d.st.log[|st.log|..]) == [Decimal.Format(GetRepo(s.client, body.group, body.project).value.id)])
  {
    var g := GetRepo(s.client, body.group, body.project);
    if g.Ok? {
      CreateProjectWrites(s, st, g.value);
      if Healthy(st) && WellFormed(s, g.value) {
        CreateProjectCreatesOne(s, st, g.value);
      }
    }
  }

  /**
   * Without a group, a failed listing is returned before anything is
   * written; a name no listed repository has fails as a nil dereference with
   * nothing written; otherwise what is created is the first listed repository
   * with exactly that name.
   */
  lemma ImportProjectWithoutGroup(s: Session, st: State, body: ImportBody)
    requires body.projectID == 0 && body.group == ""
    ensures var d := ImportProject(s, st, body);
      && st.log <= d.st.log
      && ("" !in s.client.listings ==> d == Done(st, Some(GitHubError)))
      && ("" in s.client.listings ==>
            var repos := s.client.listings[""];
            && ((forall j :: 0 <= j < |repos| ==> repos[j].name != body.project) ==>
                  d == Done(st, Some(NilDereference)))
            && (|d.st.log| > |st.log| ==>
                  var k := FirstNamed(repos, body.project);
                  && k < |repos| && repos[k].name == body.project
                  && (forall j :: 0 <= j < k ==> repos[j].name != body.project)
                  && HasPointers(repos[k])
                  && d.st.log[|st.log|].ProjectCreated? && DescribesRepo(d.st.log[|st.log|].project, s, repos[k]))
            && (var k := FirstNamed(repos, body.project);
                Healthy(st) && k < |repos| && WellFormed(s, repos[k]) ==>
                  d.err.None? && CreatedIDs(d.st.log[|st.log|..]) == [Decimal.Format(repos[k].id)]))
  {
    if "" in s.client.listings {
      var repos := s.client.listings[""];
      var k := FirstNamed(repos, body.project);
      if k < |repos| {
        CreateProjectWrites(s, st, repos[k]);
        if Healthy(st) && WellFormed(s, repos[k]) {
          CreateProjectCreatesOne(s, st, repos[k]);
        }
      }
    }
  }

  /** An import request that carries a project ID is refused before anything happens. */
  lemma ImportProjectRejectsID(s: Session, st: State, body: ImportBody)
    requires body.projectID != 0
    ensures ImportProject(s, st, body) == Done(st, Some(ProjectIDNotZero))
  {
  }

  // ---------------------------------------------------------------------------
  // runGitHubHandler (github.go:49-117)

  /**
   * Dispatch: the handler always writes a response. A project ID means
   * refresh, which answers 200 exactly on success; without one, the import of
   * the named project or of the group answers 201 exactly on success. A
   * failed token step ends the request after its single call.
   */
  lemma HandlerDispatch(gh: Service, st: State, body: ImportBody)
    ensures var h := RunGitHubHandler(gh, st, body);
      && |h.responses| >= 1
      && (h.responses[|h.responses| - 1] == Status(200) ==> body.projectID != 0)
      && (h.responses[|h.responses| - 1] == Status(201) ==> body.projectID == 0)
      && (!GetTokenWritesProblem(st, body).ok ==> h.st == Tick(st) && |h.responses| == 1)
    ensures Connected(gh, st, body) && body.projectID != 0 ==>
      var h := RunGitHubHandler(gh, st, body);
      var ok := RefreshProject(ConnectedSession(gh, st, body), ConnectedState(st, body), body).err.None?;
      (h.responses[|h.responses| - 1] == Status(200) <==> ok)
    ensures Connected(gh, st, body) && body.projectID == 0 && body.project != "" ==>
      var h := RunGitHubHandler(gh, st, body);
      var ok := ImportProject(ConnectedSession(gh, st, body), ConnectedState(st, body), body).err.None?;
      (h.responses[|h.responses| - 1] == Status(201) <==> ok)
    ensures Connected(gh, st, body) && body.projectID == 0 && body.project == "" ==>
      var h := RunGitHubHandler(gh, st, body);
      var ok := ImportGroup(ConnectedSession(gh, st, body), ConnectedState(st, body), body.group).err.None?;
      (h.responses[|h.responses| - 1] == Status(201) <==> ok)
  {
    var t := GetTokenWritesProblem(st, body);
    assert |t.problems| <= 1;
    if Connected(gh, st, body) {
      if body.projectID != 0 {
        HandlerRefreshes(gh, st, body);
      } else if body.project != "" {
        HandlerImportsProject(gh, st, body);
      } else {
        HandlerImportsGroup(gh, st, body);
      }
    }
  }

  /** Token, provider and GitHub client are all resolved. */
  predicate Connected(gh: Service, st: State, body: ImportBody)
  {
    var t := GetTokenWritesProblem(st, body);
    var p := Import.GetProvider(t.st, body, t.token);
    t.ok && p.res.Ok? && InitGithubConnection(gh, p.res.value).Ok?
  }

  /** The importer's session once it is connected. */
  function ConnectedSession(gh: Service, st: State, body: ImportBody): Session
    requires Connected(gh, st, body)
  {
    var t := GetTokenWritesProblem(st, body);
    Session(gh, t.token, Import.GetProvider(t.st, body, t.token).res.value)
  }

  /** The registry's state once the importer is connected. */
  function ConnectedState(st: State, body: ImportBody): State
  {
    var t := GetTokenWritesProblem(st, body);
    Import.GetProvider(t.st, body, t.token).st
  }

  /**
   * Refresh mode: once connected, a request with a project ID runs
   * refreshProject and nothing else, and its one response after the token
   * problems is 200 exactly when the refresh returns no error.
   */
  lemma HandlerRefreshes(gh: Service, st: State, body: ImportBody)
    requires body.projectID != 0 && Connected(gh, st, body)
    ensures var h := RunGitHubHandler(gh, st, body);
      var t := GetTokenWritesProblem(st, body);
      var d := RefreshProject(ConnectedSession(gh, st, body), ConnectedState(st, body), body);
      && h.st == d.st && |h.responses| == |t.problems| + 1 && h.responses[..|t.problems|] == t.problems
      && (h.responses[|t.problems|] == Status(200) <==> d.err.None?)
      && (d.err.Some? ==> h.responses[|t.problems|] == WriteFailure(d.err.value))
  {
  }

  /**
   * Single-project mode: once connected, a request without a project ID but
   * with a project name runs importProject, and answers 201 exactly when it
   * returns no error.
   */
  lemma HandlerImportsProject(gh: Service, st: State, body: ImportBody)
    requires body.projectID == 0 && body.project != "" && Connected(gh, st, body)
    ensures var h := RunGitHubHandler(gh, st, body);
      var t := GetTokenWritesProblem(st, body);
      var d := ImportProject(ConnectedSession(gh, st, body), ConnectedState(st, body), body);
      && h.st == d.st && |h.responses| == |t.problems| + 1 && h.responses[..|t.problems|] == t.problems
      && (h.responses[|t.problems|] == Status(201) <==> d.err.None?)
      && (d.err.Some? ==> h.responses[|t.problems|] == WriteFailure(d.err.value))
  {
  }

  /**
   * Group mode: once connected, a request with neither a project ID nor a
   * project name runs importGroup for the request's group, also when that
   * group is empty, and answers 201 exactly when it returns no error.
   */
  lemma HandlerImportsGroup(gh: Service, st: State, body: ImportBody)
    requires body.projectID == 0 && body.project == "" && Connected(gh, st, body)
    ensures var h := RunGitHubHandler(gh, st, body);
      var t := GetTokenWritesProblem(st, body);
      var d := ImportGroup(ConnectedSession(gh, st, body), ConnectedState(st, body), body.group);
      && h.st == d.st && |h.responses| == |t.problems| + 1 && h.responses[..|t.problems|] == t.problems
      && (h.responses[|t.problems|] == Status(201) <==> d.err.None?)
      && (d.err.Some? ==> h.responses[|t.problems|] == WriteFailure(d.err.value))
  {
  }

  /**
   * Any failure of the provider step (lookup lost in transport, unknown ID,
   * URL mismatch, failed creation) ends the request with a read problem after
   * that one call, which stored nothing.
   */
  lemma ProviderFailureStops(gh: Service, st: State, body: ImportBody)
    requires GetTokenWritesProblem(st, body).ok
    requires var t := GetTokenWritesProblem(st, body);
      Import.GetProvider(t.st, body, t.token).res.Err?
    ensures var t := GetTokenWritesProblem(st, body);
      var p := Import.GetProvider(t.st, body, t.token);
      && p.st == Tick(t.st)
      && RunGitHubHandler(gh, st, body) == Handled(p.st, t.problems + [ReadProblem(p.res.error)])
  {
  }

  /** `b` extends `a` by writes that create neither a project nor a branch. */
  predicate NoImportWrites(a: seq<Write>, b: seq<Write>)
  {
    a <= b && forall i :: |a| <= i < |b| ==> !b[i].ProjectCreated? && !b[i].BranchCreated?
  }

  lemma NoImportWritesTrans(a: seq<Write>, b: seq<Write>, c: seq<Write>)
    requires NoImportWrites(a, b) && NoImportWrites(b, c)
    ensures NoImportWrites(a, c)
  {
    forall i | |a| <= i < |c| ensures !c[i].ProjectCreated? && !c[i].BranchCreated? {
      if i < |b| {
        assert b[i] == c[i];
      }
    }
  }

  /** A request with a project ID creates neither a project nor a branch. */
  lemma RefreshNeverImports(gh: Service, st: State, body: ImportBody)
    requires body.projectID != 0
    ensures NoImportWrites(st.log, RunGitHubHandler(gh, st, body).st.log)
  {
    var t := GetTokenWritesProblem(st, body);
    TokenStepNoImport(st, body);
    if !t.ok {
      assert RunGitHubHandler(gh, st, body).st == t.st;
    } else {
      var p := Import.GetProvider(t.st, body, t.token);
      ProviderStepNoImport(t.st, body, t.token);
      NoImportWritesTrans(st.log, t.st.log, p.st.log);
      if p.res.Err? || InitGithubConnection(gh, p.res.value).Err? {
        assert RunGitHubHandler(gh, st, body).st == p.st;
      } else {
        var sess := Session(gh, t.token, p.res.value);
        RefreshWrites(sess, p.st, body);
        var d := RefreshProject(sess, p.st, body);
        assert NoImportWrites(p.st.log, d.st.log);
        NoImportWritesTrans(st.log, p.st.log, d.st.log);
        assert RunGitHubHandler(gh, st, body).st == d.st;
      }
    }
  }

  lemma TokenStepNoImport(st: State, body: ImportBody)
    ensures NoImportWrites(st.log, GetTokenWritesProblem(st, body).st.log)
  {
    TokenResolution(st, body);
  }

  lemma ProviderStepNoImport(st: State, body: ImportBody, token: Token)
    ensures NoImportWrites(st.log, Import.GetProvider(st, body, token).st.log)
  {
    ProviderResolution(st, body, token);
  }

  /**
   * A token ID the registry does not know writes a "not found" problem, yet
   * the request goes on and ends with a second response of its own.
   */
  lemma TokenNotFoundContinues(gh: Service, st: State, body: ImportBody)
    requires body.tokenID != 0 && FaultOf(st).None? && body.tokenID !in st.tokens
    ensures var h := RunGitHubHandler(gh, st, body);
      |h.responses| == 2 && h.responses[0] == ReadProblem(TokenNotFound)
  {
  }

  /**
   * A stored provider whose URL differs from the request's stops the request
   * with a read problem right after the lookup: no GitHub client is built and
   * nothing more reaches the registry.
   */
  lemma ProviderMismatchStopsEarly(gh: Service, st: State, body: ImportBody)
    requires GetTokenWritesProblem(st, body).ok
    requires var t := GetTokenWritesProblem(st, body);
      && body.providerID != 0 && FaultOf(t.st).None? && body.providerID in t.st.providers
      && t.st.providers[body.providerID].id != 0 && t.st.providers[body.providerID].url != body.url
    ensures var t := GetTokenWritesProblem(st, body);
      RunGitHubHandler(gh, st, body) == Handled(Tick(t.st), t.problems + [ReadProblem(ProviderURLMismatch)])
  {
  }

  /** A GitHub client that cannot be built stops the request with a read problem after the provider step. */
  lemma ConnectionFailureStops(gh: Service, st: State, body: ImportBody)
    requires GetTokenWritesProblem(st, body).ok
    requires var t := GetTokenWritesProblem(st, body);
      var p := Import.GetProvider(t.st, body, t.token);
      p.res.Ok? && p.res.value.url in gh.badURLs
    ensures var t := GetTokenWritesProblem(st, body);
      var p := Import.GetProvider(t.st, body, t.token);
      RunGitHubHandler(gh, st, body) == Handled(p.st, t.problems + [ReadProblem(ConnectionError)])
  {
  }

  /** The request's upload URL and provider kind change nothing: only the URL is used and compared. */
  lemma UploadURLAndKindIgnored(gh: Service, st: State, body: ImportBody, uploadURL: string, kind: string)
    ensures RunGitHubHandler(gh, st, body) == RunGitHubHandler(gh, st, body.(uploadURL := uploadURL, provider := kind))
  {
    var other := body.(uploadURL := uploadURL, provider := kind);
    var t := GetTokenWritesProblem(st, body);
    TokenStepIgnoresKind(st, body, other);
    if t.ok {
      var p := Import.GetProvider(t.st, body, t.token);
      ProviderStepIgnoresKind(t.st, body, other, t.token);
      if p.res.Ok? && InitGithubConnection(gh, p.res.value).Ok? {
        var sess := Session(gh, t.token, p.res.value);
        ImportStepsIgnoreKind(sess, p.st, body, other);
      }
    }
  }

  lemma TokenStepIgnoresKind(st: State, body: ImportBody, other: ImportBody)
    requires other == body.(uploadURL := other.uploadURL, provider := other.provider)
    ensures GetTokenWritesProblem(st, body) == GetTokenWritesProblem(st, other)
  {
  }

  lemma ProviderStepIgnoresKind(st: State, body: ImportBody, other: ImportBody, token: Token)
    requires other == body.(uploadURL := other.uploadURL, provider := other.provider)
    ensures Import.GetProvider(st, body, token) == Import.GetProvider(st, other, token)
  {
  }

  lemma ImportStepsIgnoreKind(s: Session, st: State, body: ImportBody, other: ImportBody)
    requires other == body.(uploadURL := other.uploadURL, provider := other.provider)
    ensures RefreshProject(s, st, body) == RefreshProject(s, st, other)
    ensures ImportProject(s, st, body) == ImportProject(s, st, other)
  {
  }


}
