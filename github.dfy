/**
 * The GitHub side as the importer sees it through one authenticated client:
 * an immutable value answering the four REST calls that github.go makes. A key
 * missing from a map means that call returns an error (not found, forbidden,
 * transport failure: the importer treats them all alike).
 */
module GitHub {
  import opened Wrappers

  /** A repository owner (`github.User`); `avatarURL` is None when the pointer is nil. */
  datatype User = User(login: string, avatarURL: Option<string>)

  /**
   * A repository as returned by the API (`github.Repository`). Absent string
   * fields read as "" through the go-github getters, so only the two fields
   * github.go dereferences directly (owner avatar, SSH URL) are optional.
   */
  datatype Repo = Repo(
    id: int,
    name: string,
    owner: Option<User>,
    description: string,
    sshURL: Option<string>,
    defaultBranch: string)

  /** `repo.GetOwner().GetLogin()`: "" when the owner is nil. */
  function Login(r: Repo): string
  {
    match r.owner
    case None => ""
    case Some(u) => u.login
  }

  datatype Service = Service(
    /** Base URLs that `github.NewEnterpriseClient` cannot parse. */
    badURLs: set<string>,
    /** `Repositories.Get(owner, name)`; the answer may name a different repository. */
    repos: map<(string, string), Repo>,
    /** `Repositories.List(user)` without options: the single page it returns, in order. */
    listings: map<string, seq<Repo>>,
    /** `Repositories.GetContents(owner, name, path)`: the base64 `Content` field. */
    contents: map<(string, string, string), string>,
    /** `Repositories.ListBranches(owner, name)`: branch names, in listing order. */
    branches: map<(string, string), seq<string>>)
}
