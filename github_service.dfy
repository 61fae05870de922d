/**
 * The repository publisher of app/services/github_service.py: `GitHubService` and
 * its five operations over the host of module `GitHubHost`. Each operation is
 * specified by a function from the host before the call to the host after it and
 * the value returned or exception raised; the lemmas below state what those
 * functions promise.
 */
module Publisher {
  import opened Results
  import opened Text
  import opened GitHubHost

  /** The repository a task publishes to. */
  function RepoName(taskId: string): string {
    "tds-" + taskId
  }

  function PagesUrl(login: string, repoName: string): string {
    "https://" + login + ".github.io/" + repoName + "/"
  }

  /** Python's `str(e)`; for a `GithubException`, its status followed by its body. */
  function Describe(e: Failure): string {
    match e
    case GithubException(status, data) => IntToString(status) + " " + data
    case ConnectionError(reason) => reason
    case IndexError => "list index out of range"
  }

  /** The test `create_repo` applies to a `GithubException` before falling back to a fetch. */
  predicate IsNameTaken(e: Failure) {
    e.GithubException? && Contains(Describe(e), NameTakenPhrase)
  }

  const MitLicense: string := @"MIT License

Copyright (c) 2025

Permission is hereby granted, free of charge, to any person obtaining a copy
of this software and associated documentation files (the ""Software""), to deal
in the Software without restriction, including without limitation the rights
to use, copy, modify, merge, publish, distribute, sublicense, and/or sell
copies of the Software, and to permit persons to whom the Software is
furnished to do so, subject to the following conditions:

The above copyright notice and this permission notice shall be included in all
copies or substantial portions of the Software.

THE SOFTWARE IS PROVIDED ""AS IS"", WITHOUT WARRANTY OF ANY KIND, EXPRESS OR
IMPLIED, INCLUDING BUT NOT LIMITED TO THE WARRANTIES OF MERCHANTABILITY,
FITNESS FOR A PARTICULAR PURPOSE AND NONINFRINGEMENT. IN NO EVENT SHALL THE
AUTHORS OR COPYRIGHT HOLDERS BE LIABLE FOR ANY CLAIM, DAMAGES OR OTHER
LIABILITY, WHETHER IN AN ACTION OF CONTRACT, TORT OR OTHERWISE, ARISING FROM,
OUT OF OR IN CONNECTION WITH THE SOFTWARE OR THE USE OR OTHER DEALINGS IN THE
SOFTWARE."

  /** What `git_workflow` returns: `repo_url`, `pages_url` and `commit_sha`. */
  datatype WorkflowResult = WorkflowResult(repoUrl: string, pagesUrl: string, commitSha: Sha)

  /** The message `enable_github_pages` would log for the reply to its request. */
  datatype PagesNotice = Enabled | AlreadyEnabled | PagesApiUnavailable | NotEnabled(status: int)

  // ---------------------------------------------------------------------------
  // Specification functions: host before, host after, and the outcome.
  // ---------------------------------------------------------------------------

  /** `create_repo`: create `tds-<id>`, or fetch it when the host says the name is taken. */
  function CreateRepoSpec(h: Host, taskId: string, description: string): Reply<RepoHandle> {
    var created := CreateRepository(h, RepoName(taskId), description, false);
    if created.result.Err? && IsNameTaken(created.result.error) then
      GetRepository(created.host, RepoName(taskId))
    else
      created
  }

  /** The pause `create_repo` takes: two seconds after a successful creation only. */
  function CreateRepoPause(h: Host, taskId: string, description: string): seq<nat> {
    if CreateRepository(h, RepoName(taskId), description, false).result.Ok? then [2] else []
  }

  /** `push_file`: the three-way decision between a first commit, an update and a create on `main`. */
  function PushFileSpec(h: Host, repo: RepoHandle, path: string, content: string, message: string): Reply<()> {
    var listed := GetBranches(h, repo.name);
    if listed.result.Err? then
      Reply(listed.host, Err(listed.result.error))
    else if listed.result.value == [] then
      CreateFile(listed.host, repo.name, path, message, content, None)
    else
      var probed := GetContents(listed.host, repo.name, path, MainBranch);
      if probed.result.Ok? then
        var updated := UpdateFile(probed.host, repo.name, path, message, content, probed.result.value.sha, MainBranch);
        if updated.result.Err? && updated.result.error.GithubException? then
          CreateFile(updated.host, repo.name, path, message, content, Some(MainBranch))
        else
          updated
      else if probed.result.error.GithubException? then
        CreateFile(probed.host, repo.name, path, message, content, Some(MainBranch))
      else
        Reply(probed.host, Err(probed.result.error))
  }

  /** `enable_github_pages`: every `GithubException` is absorbed and the predicted URL returned. */
  function EnablePagesSpec(h: Host, repo: RepoHandle): Reply<string> {
    var pagesUrl := PagesUrl(h.login, repo.name);
    var requested := EnablePages(h, repo.name);
    if requested.result.Err? && !requested.result.error.GithubException? then
      Reply(requested.host, Err(requested.result.error))
    else
      Reply(requested.host, Ok(pagesUrl))
  }

  function PagesNoticeFor(r: Result<(), Failure>): PagesNotice
    requires r.Ok? || r.error.GithubException?
  {
    if r.Ok? then Enabled
    else if r.error.status == 409 then AlreadyEnabled
    else if r.error.status == 404 then PagesApiUnavailable
    else NotEnabled(r.error.status)
  }

  /** `get_latest_commit_sha`: the sha of `commits[0]`. */
  function LatestCommitShaSpec(h: Host, repo: RepoHandle): Reply<Sha> {
    var listed := GetCommits(h, repo.name);
    if listed.result.Err? then Reply(listed.host, Err(listed.result.error))
    else if listed.result.value == [] then Reply(listed.host, Err(IndexError))
    else Reply(listed.host, Ok(listed.result.value[0].sha))
  }

  /** Steps 2 to 4 of `git_workflow`: push `index.html`, then `LICENSE`, then `README.md`. */
  function PushFilesSpec(h: Host, repo: RepoHandle, indexHtml: string, readmeMd: string): Reply<()> {
    var first := PushFileSpec(h, repo, "index.html", indexHtml, "Add application code");
    if first.result.Err? then first else
    var second := PushFileSpec(first.host, repo, "LICENSE", MitLicense, "Add MIT License");
    if second.result.Err? then second else
    PushFileSpec(second.host, repo, "README.md", readmeMd, "Add README")
  }

  /** A repository after the three writes of a workflow, the first with sha number `c`. */
  function Published(r: Repo, indexHtml: string, readmeMd: string, c: nat): Repo {
    Written(Written(Written(r,
      "index.html", indexHtml, "Add application code", ShaFor(c)),
      "LICENSE", MitLicense, "Add MIT License", ShaFor(c + 1)),
      "README.md", readmeMd, "Add README", ShaFor(c + 2))
  }

  /** `git_workflow`: create the repository, push the three files, enable Pages, read the sha. */
  function GitWorkflowSpec(h: Host, taskId: string, indexHtml: string, readmeMd: string): Reply<WorkflowResult> {
    var created := CreateRepoSpec(h, taskId, "TDS Project - " + taskId);
    if created.result.Err? then Reply(created.host, Err(created.result.error)) else
    var repo := created.result.value;
    var pushed := PushFilesSpec(created.host, repo, indexHtml, readmeMd);
    if pushed.result.Err? then Reply(pushed.host, Err(pushed.result.error)) else
    var pages := EnablePagesSpec(pushed.host, repo);
    if pages.result.Err? then Reply(pages.host, Err(pages.result.error)) else
    var latest := LatestCommitShaSpec(pages.host, repo);
    if latest.result.Err? then Reply(latest.host, Err(latest.result.error)) else
    Reply(latest.host, Ok(WorkflowResult(repo.htmlUrl, pages.result.value, latest.result.value)))
  }

  // ---------------------------------------------------------------------------
  // What the specification functions promise.
  // ---------------------------------------------------------------------------

  /** The host's answer to a second creation of a name is recognised as "name taken". */
  lemma NameTakenRecognised()
    ensures IsNameTaken(GithubException(422, NameTakenData))
  {
    var prefix := "{\"message\": \"Repository creation failed.\", \"errors\": [{\"field\": \"name\", \"message\": \"";
    var suffix := " on this account\"}]}";
    assert NameTakenData == prefix + (NameTakenPhrase + suffix);
    assert Contains(NameTakenPhrase + suffix, NameTakenPhrase);
    ContainsExtendLeft(prefix, NameTakenPhrase + suffix, NameTakenPhrase);
    ContainsExtendLeft(IntToString(422) + " ", NameTakenData, NameTakenPhrase);
  }

  /**
   * With a working host, `create_repo` always yields the handle of `tds-<id>`: a new,
   * empty repository when the name is free, and the untouched existing one otherwise.
   */
  lemma CreateRepoYieldsNamedRepo(h: Host, taskId: string, description: string)
    requires h.faults.Keys !! {CreateRepoEndpoint, GetRepoEndpoint}
    ensures var c := CreateRepoSpec(h, taskId, description);
      && c.result == Ok(Handle(h.login, "tds-" + taskId))
      && (RepoName(taskId) !in h.repos ==>
            c.host.repos == h.repos[RepoName(taskId) := Repo(description, false, false, map[], [], false)])
      && (RepoName(taskId) in h.repos ==> c.host.repos == h.repos)
  {
    if RepoName(taskId) in h.repos {
      NameTakenRecognised();
    }
  }

  /**
   * Idempotent creation: a second `create_repo` with the same id hits "name already
   * exists", fetches, and returns the same repository without changing any repository.
   */
  lemma CreateRepoTwiceSameRepo(h: Host, taskId: string, description: string)
    requires h.faults.Keys !! {CreateRepoEndpoint, GetRepoEndpoint}
    ensures var first := CreateRepoSpec(h, taskId, description);
      var second := CreateRepoSpec(first.host, taskId, description);
      && first.result.Ok?
      && second.result == first.result
      && second.host.repos == first.host.repos
      && second.host.log == first.host.log
           + [CreateRepoRequest(RepoName(taskId), description, false, false), GetRepoRequest(RepoName(taskId))]
  {
    CreateRepoYieldsNamedRepo(h, taskId, description);
    var first := CreateRepoSpec(h, taskId, description);
    NameTakenRecognised();
    assert CreateRepository(first.host, RepoName(taskId), description, false).result
        == Err(GithubException(422, NameTakenData));
  }

  /** A creation failure other than "name already exists" is raised again, with nothing fetched. */
  lemma CreateRepoOtherFailureRaised(h: Host, taskId: string, description: string)
    requires CreateRepoEndpoint in h.faults && !IsNameTaken(h.faults[CreateRepoEndpoint])
    ensures var c := CreateRepoSpec(h, taskId, description);
      && c.result == Err(h.faults[CreateRepoEndpoint])
      && c.host.repos == h.repos
      && c.host.log == h.log + [CreateRepoRequest(RepoName(taskId), description, false, false)]
  {
  }

  /**
   * No branch yet: the file is created without naming a branch, and afterwards the
   * repository has a branch holding that file as the newest commit.
   */
  lemma PushToEmptyRepo(h: Host, repo: RepoHandle, path: string, content: string, message: string)
    requires repo.name in h.repos && !h.repos[repo.name].hasBranch && path !in h.repos[repo.name].files
    requires h.faults.Keys !! {BranchesEndpoint, CreateFileEndpoint}
    ensures var p := PushFileSpec(h, repo, path, content, message);
      && p.result == Ok(())
      && p.host.log == h.log + [GetBranchesRequest(repo.name),
                                CreateFileRequest(repo.name, path, message, content, None)]
      && p.host.repos[repo.name].hasBranch
      && p.host.repos[repo.name].files == h.repos[repo.name].files[path := FileEntry(content, ShaFor(h.shaCounter))]
      && p.host == Write(h, repo.name, path, content, message).(log := p.host.log)
  {
  }

  /**
   * File present on `main`: it is updated with its prior sha; the set of paths stays
   * the same, only `path` gets the new content, every other path is untouched.
   */
  lemma PushUpdatesExisting(h: Host, repo: RepoHandle, path: string, content: string, message: string)
    requires repo.name in h.repos && h.repos[repo.name].hasBranch && path in h.repos[repo.name].files
    requires h.faults.Keys !! {BranchesEndpoint, ContentsEndpoint, UpdateFileEndpoint}
    ensures var p := PushFileSpec(h, repo, path, content, message);
      var before := h.repos[repo.name].files;
      && p.result == Ok(())
      && p.host.log == h.log + [GetBranchesRequest(repo.name),
                                GetContentsRequest(repo.name, path, MainBranch),
                                UpdateFileRequest(repo.name, path, message, content, before[path].sha, MainBranch)]
      && p.host.repos[repo.name].files.Keys == before.Keys
      && p.host.repos[repo.name].files[path].content == content
      && (forall q :: q in before && q != path ==> p.host.repos[repo.name].files[q] == before[q])
      && p.host == Write(h, repo.name, path, content, message).(log := p.host.log)
  {
  }

  /** File absent from an existing `main`: it is created on `main`. */
  lemma PushCreatesOnMain(h: Host, repo: RepoHandle, path: string, content: string, message: string)
    requires repo.name in h.repos && h.repos[repo.name].hasBranch && path !in h.repos[repo.name].files
    requires h.faults.Keys !! {BranchesEndpoint, ContentsEndpoint, CreateFileEndpoint}
    ensures var p := PushFileSpec(h, repo, path, content, message);
      && p.result == Ok(())
      && p.host.log == h.log + [GetBranchesRequest(repo.name),
                                GetContentsRequest(repo.name, path, MainBranch),
                                CreateFileRequest(repo.name, path, message, content, Some(MainBranch))]
      && p.host.repos[repo.name].files.Keys == h.repos[repo.name].files.Keys + {path}
      && p.host == Write(h, repo.name, path, content, message).(log := p.host.log)
  {
  }

  /**
   * A `GithubException` from `update_file` lands in the same handler as a missing
   * file, so the push retries as a create on `main`, which the host refuses.
   */
  lemma PushUpdateFailureTriesCreate(h: Host, repo: RepoHandle, path: string, content: string, message: string)
    requires repo.name in h.repos && h.repos[repo.name].hasBranch && path in h.repos[repo.name].files
    requires h.faults.Keys !! {BranchesEndpoint, ContentsEndpoint, CreateFileEndpoint}
    requires UpdateFileEndpoint in h.faults && h.faults[UpdateFileEndpoint].GithubException?
    ensures var p := PushFileSpec(h, repo, path, content, message);
      && p.result == Err(GithubException(422, FileExistsData))
      && p.host.repos == h.repos
      && p.host.log == h.log + [GetBranchesRequest(repo.name),
                                GetContentsRequest(repo.name, path, MainBranch),
                                UpdateFileRequest(repo.name, path, message, content,
                                                  h.repos[repo.name].files[path].sha, MainBranch),
                                CreateFileRequest(repo.name, path, message, content, Some(MainBranch))]
  {
  }

  /**
   * Whatever path a push takes, success is exactly one write of `content` at `path`:
   * the repository then has a branch whose newest commit is that write. So after the
   * first push of a workflow no later push can take the no-branch path.
   */
  lemma PushSuccessIsOneWrite(h: Host, repo: RepoHandle, path: string, content: string, message: string)
    ensures var p := PushFileSpec(h, repo, path, content, message);
      p.result.Ok? ==>
        && repo.name in h.repos
        && p.host.repos == h.repos[repo.name := Written(h.repos[repo.name], path, content, message, ShaFor(h.shaCounter))]
        && p.host.shaCounter == h.shaCounter + 1
        && p.host.login == h.login && p.host.faults == h.faults
  {
  }

  /** Any repository `create_repo` returns is `tds-<id>` on the host, at the user's URL. */
  lemma CreateRepoOkNamesRepo(h: Host, taskId: string, description: string)
    ensures var c := CreateRepoSpec(h, taskId, description);
      c.result.Ok? ==>
        && c.result.value == Handle(h.login, "tds-" + taskId)
        && RepoName(taskId) in c.host.repos
        && c.host.login == h.login && c.host.faults == h.faults && c.host.shaCounter == h.shaCounter
        && (RepoName(taskId) in h.repos ==> c.host.repos == h.repos)
  {
  }

  /**
   * `enable_github_pages` never raises a `GithubException`, whatever its status:
   * it returns the predicted URL; only an exception of another kind escapes.
   */
  lemma EnablePagesAbsorbsHostErrors(h: Host, repo: RepoHandle)
    ensures var p := EnablePagesSpec(h, repo);
      && (p.result.Ok? ==> p.result.value == "https://" + h.login + ".github.io/" + repo.name + "/")
      && (p.result.Err? ==> PagesEndpoint in h.faults && p.result.error == h.faults[PagesEndpoint]
                             && !p.result.error.GithubException?)
  {
  }

  /** Pages already enabled: the 409 conflict counts as success and changes nothing. */
  lemma EnablePagesConflictIsSuccess(h: Host, repo: RepoHandle)
    requires repo.name in h.repos && h.repos[repo.name].pagesEnabled && PagesEndpoint !in h.faults
    ensures var p := EnablePagesSpec(h, repo);
      && p.result == Ok(PagesUrl(h.login, repo.name))
      && PagesNoticeFor(EnablePages(h, repo.name).result) == AlreadyEnabled
      && p.host.repos == h.repos
  {
  }

  /** The sha read back is that of the newest commit, and reading changes no repository. */
  lemma LatestCommitShaIsNewest(h: Host, repo: RepoHandle)
    ensures var l := LatestCommitShaSpec(h, repo);
      && l.host.repos == h.repos
      && (l.result.Ok? ==>
            repo.name in h.repos && h.repos[repo.name].commits != []
            && l.result.value == h.repos[repo.name].commits[0].sha)
      && (CommitsEndpoint !in h.faults ==>
            (l.result == Err(IndexError) <==>
               repo.name in h.repos && h.repos[repo.name].hasBranch && h.repos[repo.name].commits == []))
  {
  }

  /**
   * When all three pushes succeed, they are three writes in the order `index.html`,
   * `LICENSE`, `README.md`: the three newest commits, newest first, are `README.md`,
   * `LICENSE`, `index.html`, and each file holds what was pushed.
   */
  lemma PushFilesInOrder(h: Host, repo: RepoHandle, indexHtml: string, readmeMd: string)
    ensures var p := PushFilesSpec(h, repo, indexHtml, readmeMd);
      p.result.Ok? ==>
        && repo.name in h.repos
        && p.host.login == h.login && p.host.faults == h.faults
        && p.host.shaCounter == h.shaCounter + 3
        && var c := h.shaCounter;
        && p.host.repos == h.repos[repo.name := Published(h.repos[repo.name], indexHtml, readmeMd, c)]
  {
    var first := PushFileSpec(h, repo, "index.html", indexHtml, "Add application code");
    PushSuccessIsOneWrite(h, repo, "index.html", indexHtml, "Add application code");
    if first.result.Ok? {
      var second := PushFileSpec(first.host, repo, "LICENSE", MitLicense, "Add MIT License");
      PushSuccessIsOneWrite(first.host, repo, "LICENSE", MitLicense, "Add MIT License");
      if second.result.Ok? {
        PushSuccessIsOneWrite(second.host, repo, "README.md", readmeMd, "Add README");
      }
    }
  }

  /** The three writes leave the three files with their contents and commits newest first. */
  lemma PublishedShape(r: Repo, indexHtml: string, readmeMd: string, c: nat)
    ensures var p := Published(r, indexHtml, readmeMd, c);
      && p.hasBranch
      && p.files.Keys == r.files.Keys + {"index.html", "LICENSE", "README.md"}
      && p.files["index.html"] == FileEntry(indexHtml, ShaFor(c))
      && p.files["LICENSE"] == FileEntry(MitLicense, ShaFor(c + 1))
      && p.files["README.md"] == FileEntry(readmeMd, ShaFor(c + 2))
      && p.commits == [Commit(ShaFor(c + 2), "Add README", "README.md"),
                       Commit(ShaFor(c + 1), "Add MIT License", "LICENSE"),
                       Commit(ShaFor(c), "Add application code", "index.html")] + r.commits
  {
    assert |"index.html"| == 10 && |"LICENSE"| == 7 && |"README.md"| == 9;
  }

  /**
   * The fixed step order of `git_workflow`, on any host: when it succeeds, the three
   * newest commits of `tds-<id>` are `README.md`, `LICENSE` and `index.html` (newest
   * first), each file holds what was pushed, and the result is exactly the repository
   * URL, the predicted Pages URL and the sha of the newest commit.
   */
  lemma WorkflowSuccessShape(h: Host, taskId: string, indexHtml: string, readmeMd: string)
    ensures var w := GitWorkflowSpec(h, taskId, indexHtml, readmeMd);
      var name := RepoName(taskId);
      w.result.Ok? ==>
        && name in w.host.repos
        && var commits := w.host.repos[name].commits;
        && |commits| >= 3
        && commits[0].path == "README.md" && commits[1].path == "LICENSE" && commits[2].path == "index.html"
        && var files := w.host.repos[name].files;
        && "index.html" in files && files["index.html"].content == indexHtml
        && "LICENSE" in files && files["LICENSE"].content == MitLicense
        && "README.md" in files && files["README.md"].content == readmeMd
        && w.result.value == WorkflowResult("https://github.com/" + h.login + "/" + name,
                                            PagesUrl(h.login, name), commits[0].sha)
  {
    var name := RepoName(taskId);
    var w := GitWorkflowSpec(h, taskId, indexHtml, readmeMd);
    var created := CreateRepoSpec(h, taskId, "TDS Project - " + taskId);
    if w.result.Ok? {
      CreateRepoOkNamesRepo(h, taskId, "TDS Project - " + taskId);
      var repo := created.result.value;
      var pushed := PushFilesSpec(created.host, repo, indexHtml, readmeMd);
      PushFilesInOrder(created.host, repo, indexHtml, readmeMd);
      var c := created.host.shaCounter;
      var written := Published(created.host.repos[name], indexHtml, readmeMd, c);
      PublishedShape(created.host.repos[name], indexHtml, readmeMd, c);
      assert pushed.host.repos[name] == written;
      var pages := EnablePagesSpec(pushed.host, repo);
      EnablePagesAbsorbsHostErrors(pushed.host, repo);
      assert pages.host.repos[name].commits == written.commits;
      assert pages.host.repos[name].files == written.files;
      var latest := LatestCommitShaSpec(pages.host, repo);
      LatestCommitShaIsNewest(pages.host, repo);
      assert w == Reply(latest.host, Ok(WorkflowResult(repo.htmlUrl, pages.result.value, latest.result.value)));
    }
  }

  /**
   * The whole workflow on a working host where `tds-<id>` does not exist yet: it
   * succeeds, Pages ends up enabled, and the returned sha is that of the `README.md`
   * commit.
   */
  lemma WorkflowOnFreshRepo(h: Host, taskId: string, indexHtml: string, readmeMd: string)
    requires RepoName(taskId) !in h.repos && h.faults == map[]
    ensures var w := GitWorkflowSpec(h, taskId, indexHtml, readmeMd);
      var name := RepoName(taskId);
      var c := h.shaCounter;
      && w.result == Ok(WorkflowResult("https://github.com/" + h.login + "/" + name,
                                       PagesUrl(h.login, name), ShaFor(c + 2)))
      && w.host.repos == h.repos[name := Repo(
           "TDS Project - " + taskId, false, true,
           map["index.html" := FileEntry(indexHtml, ShaFor(c)),
               "LICENSE" := FileEntry(MitLicense, ShaFor(c + 1)),
               "README.md" := FileEntry(readmeMd, ShaFor(c + 2))],
           [Commit(ShaFor(c + 2), "Add README", "README.md"),
            Commit(ShaFor(c + 1), "Add MIT License", "LICENSE"),
            Commit(ShaFor(c), "Add application code", "index.html")],
           true)]
  {
    var name := RepoName(taskId);
    var description := "TDS Project - " + taskId;
    var c := h.shaCounter;
    var empty := Repo(description, false, false, map[], [], false);
    var published := Published(empty, indexHtml, readmeMd, c);
    FreshRepoPublished(h, taskId, indexHtml, readmeMd);
    var created := CreateRepoSpec(h, taskId, description);
    var repo := created.result.value;
    var pushed := PushFilesSpec(created.host, repo, indexHtml, readmeMd);
    FinishOnPublished(pushed.host, repo, published);
    PublishedShape(empty, indexHtml, readmeMd, c);
    FreshPublishedLiteral(description, indexHtml, readmeMd, c);
  }

  /** Enabling Pages on a repository holding commits, then reading its newest sha, on a working host. */
  lemma FinishOnPublished(h: Host, repo: RepoHandle, p: Repo)
    requires repo.name in h.repos && h.repos[repo.name] == p && h.faults == map[]
    requires p.hasBranch && !p.pagesEnabled && p.commits != []
    ensures var pages := EnablePagesSpec(h, repo);
      && pages.result == Ok(PagesUrl(h.login, repo.name))
      && pages.host.repos == h.repos[repo.name := p.(pagesEnabled := true)]
      && var latest := LatestCommitShaSpec(pages.host, repo);
      && latest.result == Ok(p.commits[0].sha)
      && latest.host.repos == pages.host.repos
  {
  }

  lemma FreshPublishedLiteral(description: string, indexHtml: string, readmeMd: string, c: nat)
    ensures Published(Repo(description, false, false, map[], [], false), indexHtml, readmeMd, c).(pagesEnabled := true)
         == Repo(description, false, true,
              map["index.html" := FileEntry(indexHtml, ShaFor(c)),
                  "LICENSE" := FileEntry(MitLicense, ShaFor(c + 1)),
                  "README.md" := FileEntry(readmeMd, ShaFor(c + 2))],
              [Commit(ShaFor(c + 2), "Add README", "README.md"),
               Commit(ShaFor(c + 1), "Add MIT License", "LICENSE"),
               Commit(ShaFor(c), "Add application code", "index.html")],
              true)
  {
    PublishedShape(Repo(description, false, false, map[], [], false), indexHtml, readmeMd, c);
  }

  /** The first two stages of the workflow on a fresh name: an empty repository, then the three writes. */
  lemma FreshRepoPublished(h: Host, taskId: string, indexHtml: string, readmeMd: string)
    requires RepoName(taskId) !in h.repos && h.faults == map[]
    ensures var description := "TDS Project - " + taskId;
      var created := CreateRepoSpec(h, taskId, description);
      var empty := Repo(description, false, false, map[], [], false);
      && created.result == Ok(Handle(h.login, RepoName(taskId)))
      && var pushed := PushFilesSpec(created.host, created.result.value, indexHtml, readmeMd);
      && pushed.result.Ok?
      && pushed.host.repos == h.repos[RepoName(taskId) := Published(empty, indexHtml, readmeMd, h.shaCounter)]
      && pushed.host.faults == map[] && pushed.host.login == h.login
  {
    var description := "TDS Project - " + taskId;
    CreateRepoYieldsNamedRepo(h, taskId, description);
    CreateRepoOkNamesRepo(h, taskId, description);
    var created := CreateRepoSpec(h, taskId, description);
    PushFilesFresh(created.host, created.result.value, indexHtml, readmeMd);
    PushFilesInOrder(created.host, created.result.value, indexHtml, readmeMd);
  }

  /**
   * On an empty repository the three pushes take the paths the workflow is built
   * for: the first commit without naming a branch, then two creates on `main`.
   */
  lemma PushFilesFresh(h: Host, repo: RepoHandle, indexHtml: string, readmeMd: string)
    requires repo.name in h.repos && h.repos[repo.name] == Repo(h.repos[repo.name].description, false, false, map[], [], false)
    requires h.faults == map[]
    ensures var p := PushFilesSpec(h, repo, indexHtml, readmeMd);
      && p.result.Ok?
      && p.host.log == h.log + [
           GetBranchesRequest(repo.name),
           CreateFileRequest(repo.name, "index.html", "Add application code", indexHtml, None),
           GetBranchesRequest(repo.name),
           GetContentsRequest(repo.name, "LICENSE", MainBranch),
           CreateFileRequest(repo.name, "LICENSE", "Add MIT License", MitLicense, Some(MainBranch)),
           GetBranchesRequest(repo.name),
           GetContentsRequest(repo.name, "README.md", MainBranch),
           CreateFileRequest(repo.name, "README.md", "Add README", readmeMd, Some(MainBranch))]
  {
    PushToEmptyRepo(h, repo, "index.html", indexHtml, "Add application code");
    var first := PushFileSpec(h, repo, "index.html", indexHtml, "Add application code");
    PushCreatesOnMain(first.host, repo, "LICENSE", MitLicense, "Add MIT License");
    var second := PushFileSpec(first.host, repo, "LICENSE", MitLicense, "Add MIT License");
    PushCreatesOnMain(second.host, repo, "README.md", readmeMd, "Add README");
  }

  // ---------------------------------------------------------------------------
  // The service object.
  // ---------------------------------------------------------------------------

  /**
   * `GitHubService`: a client bound to the host of one authenticated user. The
   * host's state is the field `host`; `sleeps` logs the pauses the service takes.
   */
  class GitHubService {
    var host: Host
    ghost var sleeps: seq<nat>

    constructor (host: Host)
      ensures this.host == host && sleeps == []
    {
      this.host := host;
      sleeps := [];
    }

    method CreateRepo(taskId: string, description: string) returns (r: Result<RepoHandle, Failure>)
      modifies this
      ensures Reply(host, r) == CreateRepoSpec(old(host), taskId, description)
      ensures sleeps == old(sleeps) + CreateRepoPause(old(host), taskId, description)
    {
      var repoName := "tds-" + taskId;
      var created := CreateRepository(host, repoName, description, false);
      host := created.host;
      if created.result.Ok? {
        sleeps := sleeps + [2];
        return created.result;
      }
      var e := created.result.error;
      if e.GithubException? && Contains(Describe(e), NameTakenPhrase) {
        var fetched := GetRepository(host, repoName);
        host := fetched.host;
        return fetched.result;
      }
      return Err(e);
    }

    method PushFile(repo: RepoHandle, path: string, content: string, message: string) returns (r: Result<(), Failure>)
      modifies this
      ensures Reply(host, r) == PushFileSpec(old(host), repo, path, content, message)
      ensures sleeps == old(sleeps)
    {
      var listed := GetBranches(host, repo.name);
      host := listed.host;
      if listed.result.Err? {
        return Err(listed.result.error);
      }
      if listed.result.value == [] {
        var created := CreateFile(host, repo.name, path, message, content, None);
        host := created.host;
        return created.result;
      }
      var probed := GetContents(host, repo.name, path, MainBranch);
      host := probed.host;
      if probed.result.Ok? {
        var existing := probed.result.value;
        var updated := UpdateFile(host, repo.name, path, message, content, existing.sha, MainBranch);
        host := updated.host;
        if updated.result.Ok? || !updated.result.error.GithubException? {
          return updated.result;
        }
      } else if !probed.result.error.GithubException? {
        return Err(probed.result.error);
      }
      var created := CreateFile(host, repo.name, path, message, content, Some(MainBranch));
      host := created.host;
      return created.result;
    }

    method EnableGitHubPages(repo: RepoHandle) returns (r: Result<string, Failure>, ghost notice: PagesNotice)
      modifies this
      ensures Reply(host, r) == EnablePagesSpec(old(host), repo)
      ensures r.Ok? ==> sleeps == old(sleeps) + [5]
      ensures r.Err? ==> sleeps == old(sleeps)
      ensures r.Ok? ==> notice == PagesNoticeFor(EnablePages(old(host), repo.name).result)
    {
      var pagesUrl := "https://" + host.login + ".github.io/" + repo.name + "/";
      var requested := EnablePages(host, repo.name);
      host := requested.host;
      notice := Enabled;
      if requested.result.Err? {
        var e := requested.result.error;
        if !e.GithubException? {
          return Err(e), notice;
        }
        notice := PagesNoticeFor(requested.result);
      }
      sleeps := sleeps + [5];
      return Ok(pagesUrl), notice;
    }

    method GetLatestCommitSha(repo: RepoHandle) returns (r: Result<Sha, Failure>)
      modifies this
      ensures Reply(host, r) == LatestCommitShaSpec(old(host), repo)
      ensures sleeps == old(sleeps)
    {
      var listed := GetCommits(host, repo.name);
      host := listed.host;
      if listed.result.Err? {
        return Err(listed.result.error);
      }
      var commits := listed.result.value;
      if |commits| == 0 {
        return Err(IndexError);
      }
      return Ok(commits[0].sha);
    }

    method GitWorkflow(taskId: string, brief: string, indexHtml: string, readmeMd: string)
      returns (r: Result<WorkflowResult, Failure>)
      modifies this
      ensures Reply(host, r) == GitWorkflowSpec(old(host), taskId, indexHtml, readmeMd)
      ensures r.Ok? ==> sleeps == old(sleeps) + CreateRepoPause(old(host), taskId, "TDS Project - " + taskId) + [5]
    {
      var repo := CreateRepo(taskId, "TDS Project - " + taskId);
      if repo.Err? {
        return Err(repo.error);
      }
      var pushed := PushFile(repo.value, "index.html", indexHtml, "Add application code");
      if pushed.Err? {
        return Err(pushed.error);
      }
      pushed := PushFile(repo.value, "LICENSE", MitLicense, "Add MIT License");
      if pushed.Err? {
        return Err(pushed.error);
      }
      pushed := PushFile(repo.value, "README.md", readmeMd, "Add README");
      if pushed.Err? {
        return Err(pushed.error);
      }
      var pagesUrl, notice := EnableGitHubPages(repo.value);
      if pagesUrl.Err? {
        return Err(pagesUrl.error);
      }
      var commitSha := GetLatestCommitSha(repo.value);
      if commitSha.Err? {
        return Err(commitSha.error);
      }
      return Ok(WorkflowResult(repo.value.htmlUrl, pagesUrl.value, commitSha.value));
    }
  }
}
