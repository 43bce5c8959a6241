# wharf-provider-github: the GitHub import handler, modelled in Dafny

wharf-provider-github is the Wharf plugin that imports GitHub repositories as
Wharf projects. A single endpoint, `POST /import/github`, handles every request.
Its handler (`runGitHubHandler`) goes through these steps:

1. It resolves an access token. It looks up `tokenId`, or creates a token from `token` and `user` when no ID is given.
2. It resolves a provider. It looks up `providerId` and checks that the provider's URL equals the request's `url`. Without an ID it creates a provider named `github`.
3. It builds a GitHub client for the provider's URL.
4. It does one of three things:
   - With a `projectId`, it refreshes that project from the repository found under `group` and the stored project name.
   - With a `project` name, it imports that one repository.
   - Otherwise it imports every repository listed for `group`: the authenticated user's repositories when `group` is empty, and only those owned by `group` otherwise.

Importing a repository first reads the repository's `.wharf-ci.yml` from GitHub (base64-decoded, and empty if missing or undecodable). It then makes these calls to the Wharf registry:
- it creates a project whose `RemoteProjectID` is the repository ID in decimal;
- it creates one branch record per branch GitHub lists, marked default exactly for the repository's default branch.

The model has the following parts:

- `Wharf` (wharf.dfy) describes the Wharf registry as a value.
  - The registry holds tokens, providers and projects.
  - An append-only log records every write.
  - A call counter numbers the calls.
  - `faults` is a per-call fault plan. A call can fail in transport with nothing stored (`Unreachable`). It can also answer a zero-valued record with nothing stored (`Blank`).
  - Each client call the handler makes is a function from the old state to a reply and the new state.
- `WharfClient.Client` (wharf_client.dfy) is the same registry as an object. Its methods update its fields, and each one is proved to agree with its `Wharf` function.
- `GitHub` (github.dfy) describes the GitHub API as a value:
  - single repositories;
  - listings per group (`""` being the user's own);
  - file contents;
  - branch listings;
  - the provider URLs a client cannot be built for.

  A key that is missing means the call failed.
- `Import` (import.dfy) holds one function per function of github.go. Together they describe exactly which registry calls are made, which records are written and which responses the handler writes, in order. A nil-pointer dereference in the Go code is the error `NilDereference`. The process's recovery middleware (main.go:79-80) answers that error with a problem response (`Panicked`).
- `GitHubImporter` (importer.dfy) is the imperative form of github.go. The `Importer` class holds the GitHub client, token and provider, which the handler assigns step by step. Its methods contain the same loops as the Go code: the scan for a repository by name, the branch loop, and the group loop. Each method is proved to agree with its `Import` function.
- `ImportProperties` (properties.dfy) proves what the importer promises about those functions. The results carry over to the methods through their postconditions.
- `Base64` and `Decimal` model Go's `base64.StdEncoding.DecodeString` and `strconv.FormatInt(n, 10)`. Each comes with a round trip.

The model follows the code as written, which in particular behaves as follows:
- A stored provider is accepted when its URL matches. Its name and upload URL are not compared.
- The provider created without an ID carries no upload URL.
- A refresh finds the repository by the request's group and the stored project name, not by the remote project ID.
- Branch records carry no token ID.
- Only the first page of branches is read. When the repository's default branch is not on it, the project gets no default branch at all (`OneDefault`).
- A group import creates a project for every selected repository. There is no lookup of an existing project first.
- Inside the branch loop of `createProject`, the `err` of `CreateProjectBranch` is a new variable that shadows the outer one. A failing branch call therefore stops the loop, but `createProject` still returns the (nil) error of the branch listing. The model keeps that behaviour (`BranchErrorsSwallowed`).

## Model

| member | source | states |
|---|---|---|
| Import.BuildDefinition | github.go:181-193 | A `.wharf-ci.yml` that is present and decodes yields exactly its decoded text; conversely a non-empty build definition comes from such a file |
| ImportProperties.BuildDefinitionOfEncoded | github.go:181-193 | A `.wharf-ci.yml` whose content is the base64 of some text, broken over lines in any way (as GitHub serves it), is read back as that text |
| ImportProperties.BuildDefinitionFallback | github.go:182-190 | A missing `.wharf-ci.yml`, or one whose content is not valid base64, gives the empty build definition, not an error |
| Base64.DecodeEncode | github.go:187 | Decoding the standard base64 encoding of any byte string gives that byte string back |
| Base64.DecodeWrapped | github.go:187 | Content that is an encoding once its line breaks are removed decodes to the encoded bytes |
| Base64.DecodeQuantaEncode | github.go:187 | Decoding the quanta of an encoding, padding included, gives back the encoded bytes |
| Decimal.Format | github.go:280 | The rendering is non-empty and starts with '-' exactly for negative IDs |
| Decimal.ParseFormat | github.go:280 | Reading back the decimal rendering of any integer, negative ones included, gives the integer |
| Decimal.FormatInjective | github.go:280 | Two repository IDs have the same `RemoteProjectID` exactly when they are equal |
| Import.GetRepo | github.go:256-267 | `getRepo` succeeds exactly when GitHub has the repository, its name equals the requested name and its owner's login equals the group; it then answers that repository |
| Import.FirstNamed | github.go:245-250 | The scan stops at the first listed repository with the requested name, or past the end when none has it |
| ImportProperties.TokenResolution | github.go:119-149 | One registry call is made. The step fails only on a transport error: a read problem for a lookup, a write problem for a creation. A lookup writes nothing. A fault-free lookup of a stored ID resolves to the stored token; one answering ID 0 writes "not found" and still succeeds. A creation registers the request's token and user |
| ImportProperties.ProviderResolution | github.go:151-172 | One registry call is made. A given ID succeeds exactly when the stored provider exists and has the request's URL. Without an ID a provider named `github` is created with the request's URL and the resolved token's ID |
| ImportProperties.RefreshWrites | github.go:195-225 | A refresh writes at most one record: an update of the requested project whose name, group, token, provider, build definition, description, avatar URL and git URL are those of the repository found under the group and the stored name. It succeeds or writes only when the project exists and the repository matches exactly. A failure writes nothing and changes no stored project, token or provider |
| ImportProperties.RefreshOutcome | github.go:195-225 | A refresh succeeds exactly when the project exists, the repository matches, its pointers are set and the update call is not lost in transport. With a fault-free update it writes that one update, describing the repository; the stored project takes its fields, and every other project, token and provider and the last ID are unchanged |
| ImportProperties.ImportProjectWithGroup | github.go:227-238 | With a group, a project is created only when `getRepo` accepts the repository, and it is created from that repository. A rejected lookup returns its error with nothing written. With no fault ahead, an accepted well-formed repository is imported: no error, and exactly its remote ID is created |
| ImportProperties.ImportProjectWithoutGroup | github.go:239-253 | Without a group, a failed listing returns its error with nothing written. A name no listed repository has fails on the nil repository with nothing written. Whatever is created is the first listed repository with that name, and with no fault ahead a well-formed such repository is imported: no error, and exactly its remote ID is created |
| ImportProperties.ImportProjectRejectsID | github.go:228-230 | An import request carrying a project ID is refused before any call |
| ImportProperties.CreateProjectWrites | github.go:269-307 | A nil pointer fails before any call. A failed create, or one answering ID 0, writes nothing. Otherwise the first write is the new project, carrying the repository's name, owner, description, avatar, SSH URL, decimal ID, build definition, token and provider. Every later write is one of its branches, correctly marked |
| ImportProperties.ZeroProjectIDCreatesNoBranch | github.go:283-288 | A create call answering project ID 0 is the error `ProjectNotCreated`, after one call and with nothing written |
| ImportProperties.BranchErrorsSwallowed | github.go:290-306 | Once the project is created and its branches are listed, `createProject` reports success whatever the branch calls do |
| ImportProperties.CreateProjectHealthy | github.go:269-307 | With no fault ahead, a well-formed repository is created in full: the log gains exactly the project record describing it, then one record per listed branch, in order |
| ImportProperties.CreateProjectCreatesOne | github.go:269-307 | With no fault ahead, a well-formed repository's import creates exactly one project, with the repository's remote ID |
| ImportProperties.BranchesAllCreated | github.go:294-304 | With no fault on the way, the loop creates every listed branch, in order, marked default exactly for the default branch |
| ImportProperties.BranchesStopAtFailure | github.go:294-304 | The first failing branch call ends the loop: the branches before it are created, it is not, and no call is made for any later branch |
| ImportProperties.OneDefault | github.go:294-300 | For distinct branch names, the records mark exactly one branch default when the default branch is listed, and none when it is not |
| ImportProperties.BranchesWellMarked | github.go:294-304 | Whatever fails, the loop only appends branches of the new project, named as listed, each default exactly when named like the default branch |
| ImportProperties.ImportReposCreatesSelected | github.go:315-324 | With no fault ahead and well-formed repositories, a group import succeeds and creates one project per selected repository, in listing order |
| ImportProperties.ImportReposStopsAtFailure | github.go:315-321 | If a selected repository's creation fails, that error is the result. The projects created before it stay, and no later repository is attempted |
| ImportProperties.ImportReposStaysInGroup | github.go:315-321 | A group import only appends to the log. When a group is named, every project it creates has that group |
| ImportProperties.ImportGroupWithoutGroupImportsAll | github.go:309-324 | Without a group, every repository in the user's listing is imported, one project each, in listing order |
| ImportProperties.SelectedIDsWithoutGroup | github.go:316 | Without a group, the selection keeps every listed repository |
| ImportProperties.HandlerDispatch | github.go:49-117 | The handler always writes a response, and a failed token step ends the request after one call. A final 200 only follows a request with a project ID, a final 201 only one without. Once token, provider and client are resolved, the final response is 200 exactly when the refresh succeeds (with a project ID), and 201 exactly when the import of the named project or of the group succeeds (without one); `HandlerRefreshes`, `HandlerImportsProject` and `HandlerImportsGroup` give the full outcome of each mode |
| ImportProperties.HandlerRefreshes | github.go:88-98 | Once token, provider and client are resolved, a request with a project ID runs refreshProject and nothing else, and its last response is 200 exactly when the refresh succeeds, otherwise the refresh's failure |
| ImportProperties.HandlerImportsProject | github.go:100-116 | Once resolved, a request without a project ID but with a project name runs importProject, and answers 201 exactly when it succeeds |
| ImportProperties.HandlerImportsGroup | github.go:107-116 | Once resolved, a request with neither a project ID nor a name runs importGroup for the request's group, an empty one included, and answers 201 exactly when it succeeds |
| ImportProperties.ProviderFailureStops | github.go:73-78 | Any failure of the provider step (transport error, unknown ID, URL mismatch, failed creation) ends the request with a read problem after that single call, which stored nothing |
| ImportProperties.RefreshNeverImports | github.go:88-98 | A request with a project ID creates no project and no branch |
| ImportProperties.TokenNotFoundContinues | github.go:131-135 | An unknown token ID writes a "not found" problem, yet the request goes on to a second response of its own |
| ImportProperties.ProviderMismatchStopsEarly | github.go:73-78 | A stored provider with a different URL ends the request with a read problem right after the lookup. No GitHub client is built and nothing more reaches the registry |
| ImportProperties.ConnectionFailureStops | github.go:80-86 | A GitHub client that cannot be built for the provider's URL ends the request with a read problem after the provider step |
| ImportProperties.UploadURLAndKindIgnored | github.go:151-177 | The request's upload URL and provider kind do not change the handler's outcome |
| GitHubImporter.Importer.constructor | github.go:59-65 | A new importer has no GitHub client and the zero token and provider |
| GitHubImporter.Importer.GetTokenWritesProblem | github.go:119-149 | Resolves the token by a lookup or a creation, with the registry changed exactly as `Import.GetTokenWritesProblem` describes |
| GitHubImporter.Importer.GetProvider | github.go:151-172 | Resolves the provider, with the registry changed exactly as `Import.GetProvider` describes |
| GitHubImporter.Importer.RefreshProject | github.go:195-225 | Refreshes the project, with the result and registry exactly as `Import.RefreshProject` describes |
| GitHubImporter.Importer.ImportProject | github.go:227-254 | Scans the listing for the first repository with the name, then creates it. The result and registry are exactly as `Import.ImportProject` describes |
| GitHubImporter.Importer.CreateProject | github.go:269-307 | Runs the create call and the branch loop with its early break. The result and registry are exactly as `Import.CreateProject` describes |
| GitHubImporter.Importer.ImportGroup | github.go:309-325 | Runs the group loop with its early return. The result and registry are exactly as `Import.ImportGroup` describes |
| GitHubImporter.RunGitHubHandler | github.go:49-117 | Runs the handler step by step, assigning the importer's fields. The responses and registry are exactly as `Import.RunGitHubHandler` describes |
| Import.GetTokenWritesProblem | github.go:119-149 | One registry call, which only appends to the log; at most one problem is written; a failure resolves to the zero token with nothing written (see also `ImportProperties.TokenResolution`) |
| Import.GetProvider | github.go:151-172 | One registry call; a lookup writes nothing, and a looked-up provider is accepted only with a non-zero ID and the request's URL (see also `ImportProperties.ProviderResolution`) |
| Import.InitGithubConnection | github.go:174-179 | The client is built exactly when the provider's URL can be used, and then talks to that GitHub |
| Import.Selected | github.go:316 | An empty group selects every repository; a named group selects only repositories its login owns (used by `ImportReposStaysInGroup`, `SelectedIDsWithoutGroup`) |
| Import.WriteFailure | github.go:91 | A failed refresh or import is never answered with a status code or a read problem: a nil dereference becomes the recovery middleware's panic response (main.go:80), every other error a write problem carrying that error, as at github.go:91, 103 and 110 (used by the `Handler*` lemmas) |
| Import.ProjectPayload | github.go:270-281 | The create request carries the repository's name and owner login, and a remote ID that reads back as the repository's ID (field by field in `ImportProperties.DescribesRepo`, stated by `CreateProjectWrites`) |
| Import.UpdatePayload | github.go:213-222 | The refresh sends exactly the fields the create request would carry, without the remote ID, and fails on the same nil pointers |
| Import.CreateBranches | github.go:294-306 | The branch loop only appends to the log and leaves the fault plan alone (exact results in `BranchesAllCreated`, `BranchesStopAtFailure`, `BranchesWellMarked`) |
| Import.CreateProject | github.go:269-307 | createProject only appends, and its first write, if any, is the project record (exact contents in `CreateProjectWrites`, `CreateProjectHealthy`) |
| Import.ImportRepos | github.go:315-324 | The group loop only appends, and a listing with nothing selected does nothing and succeeds (see `ImportReposCreatesSelected`, `ImportReposStopsAtFailure`, `ImportReposStaysInGroup`) |
| Import.ImportGroup | github.go:309-325 | importGroup only appends, and a listing GitHub refuses is returned as an error before any write |
| Import.ImportProject | github.go:227-254 | importProject only appends, writes only when the request has no project ID, and its first write is a project record (see `ImportProjectWithGroup`, `ImportProjectWithoutGroup`) |
| Import.RefreshProject | github.go:195-225 | refreshProject makes at most two calls, writes at most one record, an update of the requested project, and writes nothing when it fails (see `RefreshWrites`, `RefreshOutcome`) |
| Import.RunGitHubHandler | github.go:49-117 | The handler only appends to the registry's log and writes one or two responses (see `HandlerDispatch` and the mode lemmas) |
| Wharf.GetToken | github.go:124 | A token lookup makes one call. A successful answer is either the zero token or, with no fault, the stored token |
| Wharf.CreateToken | github.go:137 | One call; a non-zero answer is the new token with the next ID, the request's token and user, stored and logged; otherwise nothing is stored |
| Wharf.GetProvider | github.go:156 | One call; a successful answer is the zero provider or, with no fault, the stored one |
| Wharf.CreateProvider | github.go:165 | One call; a non-zero answer is the new provider with the given name, URL and token ID and no upload URL, stored and logged; otherwise nothing is stored |
| Wharf.GetProject | github.go:200 | One call; a successful answer is the zero project or, with no fault, the stored one |
| Wharf.UpdateProject | github.go:223 | One call; without fault it succeeds exactly for a stored ID; a write replaces the stored project's fields by the update's and logs it; otherwise nothing changes |
| Wharf.CreateProject | github.go:283 | One call; a non-zero answer is the new project with the next ID and the request's fields, stored and logged; otherwise nothing is stored |
| Wharf.CreateProjectBranch | github.go:295-300 | One call; the branch is logged exactly when the call has no fault; otherwise nothing changes |
| WharfClient.Client.GetToken | github.go:124 | The token lookup changes the registry object exactly as `Wharf.GetToken` describes |
| WharfClient.Client.CreateToken | github.go:137 | The token creation changes the registry object exactly as `Wharf.CreateToken` describes |
| WharfClient.Client.GetProvider | github.go:156 | The provider lookup changes the registry object exactly as `Wharf.GetProvider` describes |
| WharfClient.Client.CreateProvider | github.go:165 | The provider creation changes the registry object exactly as `Wharf.CreateProvider` describes |
| WharfClient.Client.GetProject | github.go:200 | The project lookup changes the registry object exactly as `Wharf.GetProject` describes |
| WharfClient.Client.UpdateProject | github.go:223 | The project update changes the registry object exactly as `Wharf.UpdateProject` describes |
| WharfClient.Client.CreateProject | github.go:283 | The project creation changes the registry object exactly as `Wharf.CreateProject` describes |
| WharfClient.Client.CreateProjectBranch | github.go:295-300 | The branch creation changes the registry object exactly as `Wharf.CreateProjectBranch` describes |

## Left out

- Request binding, the JSON and problem rendering of responses, and logging. A response is modelled by its kind (read problem, write problem, recovered panic, status code) and its error. A body that fails to bind (github.go:50-56) is not modelled, because the model's request is already a typed value.
- The registry server (wharf-api) is not part of this repository. Its calls are modelled as a plain store. A create always makes a new record, and no call matches an existing project by remote ID, so the idempotence of repeated imports is not modelled.
- A transport error is assumed to store nothing. A request that reaches the server but loses its reply is not modelled.
- GitHub's API is modelled as fixed data. Pagination is left out: the code passes no list options, so only the first page of a listing or of branches is seen, and the model's listings stand for that first page.
- `initGithubConnection`: the OAuth token source and the URL parsing inside `github.NewEnterpriseClient` are left out. The provider URLs for which a client cannot be built are a parameter (`badURLs`).
- `getBuildDefinition`: a `.wharf-ci.yml` that is a directory, symlink or submodule (a nil file content or a nil `Content`) panics in the code; the model treats it as a missing file.
- Decimal.ParseFormat: repository IDs are unbounded integers, not 64-bit.
- GitHub reads are lookups in the fixed data and are not recorded as calls. For example, `createProject` with a nil repository reads `.wharf-ci.yml` from GitHub before it panics (github.go:270 and 277); the model records only that nothing reaches the registry.
- The context of each call, cancellation and timeouts are left out.
- Configuration loading (config.go), the HTTP client setup (internal/httputils/httpclient.go), the gin helpers (helpers/ginutilext/extension.go), the version endpoint and the ping handler are not part of this model.
