/**
 * The repository host that app/services/github_service.py drives through PyGithub,
 * reduced to the state its calls read and write. Each call appends the request it
 * makes to the host's log, may fail with a fault injected for its endpoint, and
 * otherwise answers from, and updates, the repositories of the authenticated user.
 */
module GitHubHost {
  import opened Results
  import opened Text

  type Sha = string

  /** The only branch the host models; the service always targets it by this name. */
  const MainBranch: string := "main"

  datatype FileEntry = FileEntry(content: string, sha: Sha)

  datatype Commit = Commit(sha: Sha, message: string, path: string)

  /** One repository: `commits` lists the newest commit first, as the commits API does. */
  datatype Repo = Repo(
    description: string,
    isPrivate: bool,
    hasBranch: bool,
    files: map<string, FileEntry>,
    commits: seq<Commit>,
    pagesEnabled: bool)

  /** What PyGithub's `Repository` object is used for: its name and its `html_url`. */
  datatype RepoHandle = RepoHandle(name: string, htmlUrl: string)

  /** The REST calls the service makes, as the host receives them. */
  datatype Request =
    | CreateRepoRequest(name: string, description: string, isPrivate: bool, autoInit: bool)
    | GetRepoRequest(name: string)
    | GetBranchesRequest(repo: string)
    | GetContentsRequest(repo: string, path: string, ref: string)
    | CreateFileRequest(repo: string, path: string, message: string, content: string, onBranch: Option<string>)
    | UpdateFileRequest(repo: string, path: string, message: string, content: string, sha: Sha, branch: string)
    | GetCommitsRequest(repo: string)
    | EnablePagesRequest(repo: string, branch: string, path: string)

  datatype Endpoint =
    | CreateRepoEndpoint | GetRepoEndpoint | BranchesEndpoint | ContentsEndpoint
    | CreateFileEndpoint | UpdateFileEndpoint | CommitsEndpoint | PagesEndpoint

  /**
   * The exceptions the service can see: `GithubException` (an HTTP error status
   * with its body), any other exception from the transport, and Python's
   * `IndexError` from indexing an empty list.
   */
  datatype Failure =
    | GithubException(status: int, data: string)
    | ConnectionError(reason: string)
    | IndexError

  /**
   * The host: the authenticated user's login, their repositories by name, a counter
   * from which new shas are drawn, faults that every call to an endpoint raises,
   * and the log of requests received so far.
   */
  datatype Host = Host(
    login: string,
    repos: map<string, Repo>,
    shaCounter: nat,
    faults: map<Endpoint, Failure>,
    log: seq<Request>)

  /** The host after a call, and what the call returned or raised. */
  datatype Reply<T> = Reply(host: Host, result: Result<T, Failure>)

  const NotFound: Failure := GithubException(404, "{\"message\": \"Not Found\"}")

  /** The phrase GitHub puts in the body of a 422 when the repository name is taken. */
  const NameTakenPhrase: string := "name already exists"

  const NameTakenData: string :=
    "{\"message\": \"Repository creation failed.\", \"errors\": [{\"field\": \"name\", \"message\": \""
    + NameTakenPhrase + " on this account\"}]}"

  const FileExistsData: string := "{\"message\": \"Invalid request. \\\"sha\\\" wasn't supplied.\"}"

  const ShaMismatchData: string := "{\"message\": \"sha does not match\"}"

  const EmptyRepoData: string := "{\"message\": \"Git Repository is empty.\"}"

  const PagesEnabledData: string := "{\"message\": \"GitHub Pages is already enabled.\"}"

  function ShaFor(n: nat): Sha {
    NatToString(n)
  }

  function Handle(login: string, name: string): RepoHandle {
    RepoHandle(name, "https://github.com/" + login + "/" + name)
  }

  function Receive(h: Host, req: Request): Host {
    h.(log := h.log + [req])
  }

  /** A repository after a commit with identifier `sha` that writes `content` at `path`. */
  function Written(repo: Repo, path: string, content: string, message: string, sha: Sha): Repo {
    repo.(
      hasBranch := true,
      files := repo.files[path := FileEntry(content, sha)],
      commits := [Commit(sha, message, path)] + repo.commits)
  }

  /** Records a new commit writing `content` at `path`; the first write creates the branch. */
  function Write(h: Host, name: string, path: string, content: string, message: string): Host
    requires name in h.repos
  {
    h.(repos := h.repos[name := Written(h.repos[name], path, content, message, ShaFor(h.shaCounter))],
       shaCounter := h.shaCounter + 1)
  }

  /** `user.create_repo(name, description, private, auto_init=False)`: an empty repository. */
  function CreateRepository(h: Host, name: string, description: string, isPrivate: bool): Reply<RepoHandle> {
    var h' := Receive(h, CreateRepoRequest(name, description, isPrivate, false));
    if CreateRepoEndpoint in h'.faults then Reply(h', Err(h'.faults[CreateRepoEndpoint]))
    else if name in h'.repos then Reply(h', Err(GithubException(422, NameTakenData)))
    else
      var repo := Repo(description, isPrivate, false, map[], [], false);
      Reply(h'.(repos := h'.repos[name := repo]), Ok(Handle(h'.login, name)))
  }

  /** `user.get_repo(name)`. */
  function GetRepository(h: Host, name: string): Reply<RepoHandle> {
    var h' := Receive(h, GetRepoRequest(name));
    if GetRepoEndpoint in h'.faults then Reply(h', Err(h'.faults[GetRepoEndpoint]))
    else if name !in h'.repos then Reply(h', Err(NotFound))
    else Reply(h', Ok(Handle(h'.login, name)))
  }

  /** `repo.get_branches()`: the single branch once the first file exists. */
  function GetBranches(h: Host, name: string): Reply<seq<string>> {
    var h' := Receive(h, GetBranchesRequest(name));
    if BranchesEndpoint in h'.faults then Reply(h', Err(h'.faults[BranchesEndpoint]))
    else if name !in h'.repos then Reply(h', Err(NotFound))
    else Reply(h', Ok(if h'.repos[name].hasBranch then [MainBranch] else []))
  }

  /** `repo.get_contents(path, ref=ref)`. */
  function GetContents(h: Host, name: string, path: string, ref: string): Reply<FileEntry> {
    var h' := Receive(h, GetContentsRequest(name, path, ref));
    if ContentsEndpoint in h'.faults then Reply(h', Err(h'.faults[ContentsEndpoint]))
    else if name !in h'.repos then Reply(h', Err(NotFound))
    else
      var repo := h'.repos[name];
      if !repo.hasBranch || ref != MainBranch || path !in repo.files then Reply(h', Err(NotFound))
      else Reply(h', Ok(repo.files[path]))
  }

  /**
   * `repo.create_file(path, message, content[, branch=...])`: without a branch it
   * writes to the default branch, creating it in an empty repository; an existing
   * path is refused because no sha was supplied.
   */
  function CreateFile(h: Host, name: string, path: string, message: string, content: string,
                      branch: Option<string>): Reply<()> {
    var h' := Receive(h, CreateFileRequest(name, path, message, content, branch));
    if CreateFileEndpoint in h'.faults then Reply(h', Err(h'.faults[CreateFileEndpoint]))
    else if name !in h'.repos then Reply(h', Err(NotFound))
    else
      var repo := h'.repos[name];
      if branch.Some? && (!repo.hasBranch || branch.value != MainBranch) then Reply(h', Err(NotFound))
      else if path in repo.files then Reply(h', Err(GithubException(422, FileExistsData)))
      else Reply(Write(h', name, path, content, message), Ok(()))
  }

  /** `repo.update_file(path, message, content, sha, branch=branch)`: needs the file's current sha. */
  function UpdateFile(h: Host, name: string, path: string, message: string, content: string,
                      sha: Sha, branch: string): Reply<()> {
    var h' := Receive(h, UpdateFileRequest(name, path, message, content, sha, branch));
    if UpdateFileEndpoint in h'.faults then Reply(h', Err(h'.faults[UpdateFileEndpoint]))
    else if name !in h'.repos then Reply(h', Err(NotFound))
    else
      var repo := h'.repos[name];
      if !repo.hasBranch || branch != MainBranch || path !in repo.files then Reply(h', Err(NotFound))
      else if repo.files[path].sha != sha then Reply(h', Err(GithubException(409, ShaMismatchData)))
      else Reply(Write(h', name, path, content, message), Ok(()))
  }

  /** `repo.get_commits()`, newest first; an empty repository answers 409. */
  function GetCommits(h: Host, name: string): Reply<seq<Commit>> {
    var h' := Receive(h, GetCommitsRequest(name));
    if CommitsEndpoint in h'.faults then Reply(h', Err(h'.faults[CommitsEndpoint]))
    else if name !in h'.repos then Reply(h', Err(NotFound))
    else if !h'.repos[name].hasBranch then Reply(h', Err(GithubException(409, EmptyRepoData)))
    else Reply(h', Ok(h'.repos[name].commits))
  }

  /** `POST {repo.url}/pages` with source branch `main` and path `/`. */
  function EnablePages(h: Host, name: string): Reply<()> {
    var h' := Receive(h, EnablePagesRequest(name, MainBranch, "/"));
    if PagesEndpoint in h'.faults then Reply(h', Err(h'.faults[PagesEndpoint]))
    else if name !in h'.repos then Reply(h', Err(NotFound))
    else
      var repo := h'.repos[name];
      if repo.pagesEnabled then Reply(h', Err(GithubException(409, PagesEnabledData)))
      else if !repo.hasBranch then Reply(h', Err(NotFound))
      else Reply(h'.(repos := h'.repos[name := repo.(pagesEnabled := true)]), Ok(()))
  }
}
