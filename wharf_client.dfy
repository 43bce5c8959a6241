/**
 * The Wharf API client the importer holds (`wharfapi.Client`), modelled with the
 * registry behind it. Each method performs one API call and is proved to
 * reply and change state exactly as the matching function of module Wharf says.
 */
module WharfClient {
  import opened Wrappers
  import opened Wharf

  /** `wharfapi.Client` together with the registry behind it: maps, write log and counters. */
  class Client {
    var tokens: map<nat, Wharf.Token>
    var providers: map<nat, Wharf.Provider>
    var projects: map<nat, Wharf.Project>
    var log: seq<Wharf.Write>
    var lastID: nat
    var calls: nat
    const faults: map<nat, Wharf.Fault>

    function State(): Wharf.State
      reads this
    {
      Wharf.State(tokens, providers, projects, log, lastID, calls, faults)
    }

    constructor (faults: map<nat, Wharf.Fault>)
      ensures State() == Wharf.State(map[], map[], map[], [], 0, 0, faults)
    {
      tokens, providers, projects := map[], map[], map[];
      log, lastID, calls := [], 0, 0;
      this.faults := faults;
    }

    /** The fault injected at the current call index, and the index moves on. */
    method NextCall() returns (f: Option<Wharf.Fault>)
      modifies this
      ensures f == Wharf.FaultOf(old(State())) && State() == Wharf.Tick(old(State()))
    {
      f := if calls in faults then Some(faults[calls]) else None;
      calls := calls + 1;
    }

    method GetToken(id: nat) returns (r: Result<Wharf.Token, Wharf.Error>)
      modifies this
      ensures var x := Wharf.GetToken(old(State()), id); State() == x.st && r == x.res
    {
      var f := NextCall();
      match f
      case Some(Unreachable) => r := Err(Wharf.RegistryError);
      case Some(Blank) => r := Ok(Wharf.ZeroToken);
      case None => r := Ok(if id in tokens then tokens[id] else Wharf.ZeroToken);
    }

    method CreateToken(token: string, user: string) returns (r: Result<Wharf.Token, Wharf.Error>)
      modifies this
      ensures var x := Wharf.CreateToken(old(State()), token, user); State() == x.st && r == x.res
    {
      var f := NextCall();
      match f
      case Some(Unreachable) => r := Err(Wharf.RegistryError);
      case Some(Blank) => r := Ok(Wharf.ZeroToken);
      case None =>
        var t := Wharf.Token(lastID + 1, token, user);
        tokens := tokens[t.id := t];
        log := log + [Wharf.TokenCreated(t)];
        lastID := t.id;
        r := Ok(t);
    }

    method GetProvider(id: nat) returns (r: Result<Wharf.Provider, Wharf.Error>)
      modifies this
      ensures var x := Wharf.GetProvider(old(State()), id); State() == x.st && r == x.res
    {
      var f := NextCall();
      match f
      case Some(Unreachable) => r := Err(Wharf.RegistryError);
      case Some(Blank) => r := Ok(Wharf.ZeroProvider);
      case None => r := Ok(if id in providers then providers[id] else Wharf.ZeroProvider);
    }

    method CreateProvider(name: string, url: string, tokenID: nat) returns (r: Result<Wharf.Provider, Wharf.Error>)
      modifies this
      ensures var x := Wharf.CreateProvider(old(State()), name, url, tokenID); State() == x.st && r == x.res
    {
      var f := NextCall();
      match f
      case Some(Unreachable) => r := Err(Wharf.RegistryError);
      case Some(Blank) => r := Ok(Wharf.ZeroProvider);
      case None =>
        var p := Wharf.Provider(lastID + 1, name, url, "", tokenID);
        providers := providers[p.id := p];
        log := log + [Wharf.ProviderCreated(p)];
        lastID := p.id;
        r := Ok(p);
    }

    method GetProject(id: nat) returns (r: Result<Wharf.Project, Wharf.Error>)
      modifies this
      ensures var x := Wharf.GetProject(old(State()), id); State() == x.st && r == x.res
    {
      var f := NextCall();
      match f
      case Some(Unreachable) => r := Err(Wharf.RegistryError);
      case Some(Blank) => r := Ok(Wharf.ZeroProject);
      case None => r := Ok(if id in projects then projects[id] else Wharf.ZeroProject);
    }

    method UpdateProject(id: nat, u: Wharf.ProjectUpdate) returns (r: Result<Wharf.Project, Wharf.Error>)
      modifies this
      ensures var x := Wharf.UpdateProject(old(State()), id, u); State() == x.st && r == x.res
    {
      var f := NextCall();
      match f
      case Some(Unreachable) => r := Err(Wharf.RegistryError);
      case Some(Blank) => r := Ok(Wharf.ZeroProject);
      case None =>
        if id !in projects {
          r := Err(Wharf.RegistryError);
        } else {
          var p := Wharf.Updated(projects[id], u);
          projects := projects[id := p];
          log := log + [Wharf.ProjectUpdated(id, u)];
          r := Ok(p);
        }
    }

    method CreateProject(q: Wharf.ProjectRequest) returns (r: Result<Wharf.Project, Wharf.Error>)
      modifies this
      ensures var x := Wharf.CreateProject(old(State()), q); State() == x.st && r == x.res
    {
      var f := NextCall();
      match f
      case Some(Unreachable) => r := Err(Wharf.RegistryError);
      case Some(Blank) => r := Ok(Wharf.ZeroProject);
      case None =>
        var p := Wharf.Created(lastID + 1, q);
        projects := projects[p.id := p];
        log := log + [Wharf.ProjectCreated(p.id, q)];
        lastID := p.id;
        r := Ok(p);
    }

    method CreateProjectBranch(projectID: nat, b: Wharf.BranchRequest) returns (r: Result<Wharf.BranchRequest, Wharf.Error>)
      modifies this
      ensures var x := Wharf.CreateProjectBranch(old(State()), projectID, b); State() == x.st && r == x.res
    {
      var f := NextCall();
      match f
      case Some(Unreachable) => r := Err(Wharf.RegistryError);
      case Some(Blank) => r := Ok(Wharf.BranchRequest("", false));
      case None =>
        log := log + [Wharf.BranchCreated(projectID, b)];
        r := Ok(b);
    }
  }
}
