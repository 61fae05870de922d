# AI agent coder: a Dafny model of its publishing, notification and LLM-selection core

The service receives a task over a webhook. It checks the shared secret, acknowledges the
task and processes it in the background:

1. It has an LLM generate a single-page application and a README.
2. It publishes both, with an MIT licence, to a new GitHub repository `tds-<task id>`.
3. It enables GitHub Pages on that repository.
4. It reports the repository URL, the Pages URL and the commit sha to an evaluation URL, retrying with exponential backoff.

This project models three parts of it:

- **Repository publisher** (`app/services/github_service.py`, files `github_host.dfy` and `github_service.dfy`).
  - GitHub is a value of type `GitHubHost.Host`:
    - the user's repositories, each with a branch flag, a path → (content, sha) map, a commit list (newest first) and a Pages flag;
    - a counter from which new shas are drawn;
    - faults injected per endpoint;
    - the log of the REST requests the host received.
  - `Publisher.GitHubService` is a class over that host. Each method changes `host` exactly as a specification function says (`CreateRepoSpec`, `PushFileSpec`, `EnablePagesSpec`, `LatestCommitShaSpec`, `GitWorkflowSpec`). A ghost log records the pauses the service takes.
  - The lemmas state what those functions promise:
    - idempotent creation;
    - the three-way push decision;
    - the non-fatal Pages step;
    - the workflow's fixed step order and its result.
- **Evaluation notifier and task pipeline** (`app/api/webhook.py`, file `webhook.dfy`).
  - The evaluation endpoint is a script of POST outcomes. `SubmitToEvaluation` is the bounded retry loop, with ghost logs of its POSTs and pauses.
  - `ReceiveTask` is the secret gate. It schedules the task on a `BackgroundTasks` object.
  - `ProcessTask` runs the four stages in order. It stops at the first failure and never raises. The two code-generator stages are given as their outcomes.
- **LLM backend layer** (`app/services/llm_service.py`, file `llm_service.dfy`):
  - the message reshaping of `AIPipeGemini._agenerate`, as a loop proved against `GeminiContents`;
  - the reading of the reply, over a model of Python subscripts on decoded JSON;
  - the synchronous stub;
  - the `models/` prefix rule;
  - provider and credential validation in `get_llm`;
  - the fallback list built by `get_llm_with_fallback`.

The settings (`app/config.py`) and the schema records (`app/schemas/models.py`) are plain
datatypes in `config.dfy` and `schemas.dfy`. `results.dfy` holds `Option` and `Result`: `Err`
stands for a raised exception. `text.dfy` holds three string helpers:

- `startswith`;
- Python's `in` on strings;
- `str(int)`.

Things the code does that are worth knowing, all captured by the model:

- `push_file` catches a `GithubException` from `update_file` in the same handler as a missing file. It then tries `create_file` on `main`, which the host refuses because the path exists (`PushUpdateFailureTriesCreate`).
- `enable_github_pages` swallows every `GithubException`, whatever its status, but not other exceptions.
- `submit_to_evaluation` pauses only between attempts. With five attempts there are four pauses (1, 2, 4 and 8 seconds), not the five that the comment at `app/api/webhook.py:135` suggests. The model follows the code.
- In `get_llm_with_fallback`, the fallback models are built differently from `get_llm`'s:
  - `ChatOpenAI` and `ChatGoogleGenerativeAI` get no API key and no token budget, so the libraries read their own defaults and environment;
  - `AIPipeGemini` keeps its default budget of 4096 tokens;
  - Ollama is always appended, so the list is never empty and the "No LLM providers configured" branch cannot be reached.
- No code in the repository strips code fences from generated HTML, so none is modelled.

## Model

| member | source | states |
|---|---|---|
| Text.ContainsIffOccurs | app/services/github_service.py:29 | the substring test used for "name already exists" holds exactly when the phrase occurs at some offset |
| Publisher.NameTakenRecognised | app/services/github_service.py:28-29 | the host's 422 answer for a taken name is recognised by the `"name already exists" in str(e)` test |
| Publisher.CreateRepoYieldsNamedRepo | app/services/github_service.py:17-31 | on a working host, creation yields the handle of `tds-<id>`: a new empty repository if the name is free, the untouched existing one otherwise |
| Publisher.CreateRepoTwiceSameRepo | app/services/github_service.py:17-31 | a second `create_repo` with the same id returns the same repository, leaves every repository unchanged, and its requests are a refused create followed by a fetch |
| Publisher.CreateRepoOtherFailureRaised | app/services/github_service.py:28-32 | a creation failure other than "name already exists" is raised again, nothing is fetched and no repository changes |
| Publisher.CreateRepoOkNamesRepo | app/services/github_service.py:17-31 | any repository returned is `tds-<id>` at `https://github.com/<login>/tds-<id>`, present on the host; login, faults and sha counter unchanged |
| Publisher.PushToEmptyRepo | app/services/github_service.py:47-53 | with no branch, the file is created without naming a branch; afterwards the repository has a branch and holds the file; requests are list-branches then create |
| Publisher.PushUpdatesExisting | app/services/github_service.py:56-62 | a path present on `main` is updated with its prior sha: same set of paths, new content at that path, every other path untouched |
| Publisher.PushCreatesOnMain | app/services/github_service.py:56-66 | a path absent from an existing `main` is probed and then created on `main`; the path set grows by exactly that path |
| Publisher.PushUpdateFailureTriesCreate | app/services/github_service.py:56-66 | a `GithubException` from `update_file` falls into the create branch, which the host refuses with 422; no repository changes |
| Publisher.PushSuccessIsOneWrite | app/services/github_service.py:45-70 | whichever path is taken, a successful push is exactly one commit writing the content at the path, so the repository has a branch afterwards |
| Publisher.EnablePagesAbsorbsHostErrors | app/services/github_service.py:78-104 | Pages setup never raises a `GithubException` of any status and always returns `https://<login>.github.io/<name>/`; only other exceptions escape |
| Publisher.EnablePagesConflictIsSuccess | app/services/github_service.py:88-90 | Pages already enabled: the 409 is classified as "already enabled", the URL is returned, no repository changes |
| Publisher.LatestCommitShaIsNewest | app/services/github_service.py:106-109 | the sha returned is that of the newest commit; on a working host an `IndexError` occurs exactly when the branch exists but the commit list is empty |
| Publisher.PushFilesInOrder | app/services/github_service.py:129-161 | when the three pushes succeed, they are three writes in the order index.html, LICENSE, README.md, with consecutive shas |
| Publisher.PublishedShape | app/services/github_service.py:129-161 | after the three writes, each file holds what was pushed and the newest commits are README.md, LICENSE, index.html |
| Publisher.PushFilesFresh | app/services/github_service.py:129-161 | on an empty repository only the first push takes the no-branch path; LICENSE and README.md are probed and created on `main` (exact request log) |
| Publisher.FreshRepoPublished | app/services/github_service.py:126-161 | on a free name and a working host, creation then the three pushes leave `tds-<id>` holding exactly the three written files |
| Publisher.FinishOnPublished | app/services/github_service.py:163-168 | on a repository with commits and Pages off, enabling Pages sets the Pages flag and returns the URL; the sha read back is the newest commit's |
| Publisher.WorkflowSuccessShape | app/services/github_service.py:111-179 | on any host, a successful workflow leaves README.md, LICENSE, index.html as the newest commits with the pushed contents, and returns exactly (repo URL, Pages URL, newest sha) |
| Publisher.WorkflowOnFreshRepo | app/services/github_service.py:111-179 | on a free name and a working host, the workflow succeeds, returns the README.md commit's sha, and the repository is exactly the three files, three commits, Pages enabled |
| Publisher.GitHubService.constructor | app/services/github_service.py:7-10 | the service is bound to the given host and has not paused yet |
| Publisher.GitHubService.CreateRepo | app/services/github_service.py:12-32 | the new host and the result are those of `CreateRepoSpec`; it pauses 2 s only after a successful creation |
| Publisher.GitHubService.PushFile | app/services/github_service.py:34-70 | the new host and the result are those of `PushFileSpec` (no branch / update with prior sha / create on main) |
| Publisher.GitHubService.EnableGitHubPages | app/services/github_service.py:72-104 | the new host and the result are those of `EnablePagesSpec`; it pauses 5 s whenever it returns; the logged notice follows the 409 / 404 / other classification |
| Publisher.GitHubService.GetLatestCommitSha | app/services/github_service.py:106-109 | the new host and the result are those of `LatestCommitShaSpec` (first commit's sha, `IndexError` on an empty list) |
| Publisher.GitHubService.GitWorkflow | app/services/github_service.py:111-179 | the new host and the result are those of `GitWorkflowSpec` (create, three pushes, Pages, sha); on success the pauses are creation's then 5 s |
| LlmService.ConvertStep | app/services/llm_service.py:28-43 | one message of the loop: a human message is appended as `user`, an AI message as `model`, a system message is inserted in front with "Instructions: ", others are dropped |
| LlmService.ConvertMessages | app/services/llm_service.py:27-43 | the loop of appends and `insert(0, …)` builds exactly the instructions (latest first) followed by the dialogue in order |
| LlmService.SystemMessagesInReverse | app/services/llm_service.py:31-39 | several system messages end up in front in reverse order: entry i is the instruction from message n-1-i |
| LlmService.DialogueKeepsOrder | app/services/llm_service.py:29-43 | human and AI messages keep their relative order: entry i is message i with role `user` or `model` |
| LlmService.Subscript | app/services/llm_service.py:67 | a subscript raises `KeyError` only on an object and `IndexError` only on a list or string |
| LlmService.WalkConcat | app/services/llm_service.py:67 | a chain of subscripts stops at the first that raises; walking p + q is walking p then q |
| LlmService.ExtractReadsReply | app/services/llm_service.py:66-71 | from any reply object carrying the string t at `candidates[0].content.parts[0].text`, whatever other fields, candidates and parts it carries, the extraction returns t |
| LlmService.MissingCandidatesIsValueError | app/services/llm_service.py:66-71 | a reply without `candidates`, or with an empty list of them, raises the `ValueError` carrying the reply |
| LlmService.NonObjectReplyEscapes | app/services/llm_service.py:66-71 | a reply that is a list or a string raises `TypeError`, which the `except (KeyError, IndexError)` does not convert |
| LlmService.FirstCandidateDecides | app/services/llm_service.py:67 | only the first candidate is read: appending further candidates changes neither success nor the text |
| LlmService.AGenerate | app/services/llm_service.py:24-76 | the request goes to `.../models/<model>:generateContent` with `Bearer <token>` and the converted contents; a transport error, a non-2xx status and an unparsable body each raise; otherwise the result is one AI message with the extracted text, or the extraction's error |
| LlmService.Generate | app/services/llm_service.py:20-22 | the synchronous path always raises `NotImplementedError("Use ainvoke() for async calls")` |
| LlmService.NormalizeGeminiModel | app/services/llm_service.py:101-104 | the result starts with `models/`; a name already carrying it is kept, any other gets it prepended |
| LlmService.NormalizeIdempotent | app/services/llm_service.py:153-155 | applying the prefix rule twice is applying it once |
| LlmService.GetLlm | app/services/llm_service.py:83-132 | a model is returned iff the provider is known and its credential (if it needs one) is non-empty; the model is of the configured provider; every refusal is a `ValueError` |
| LlmService.GetLlmUsesSettings | app/services/llm_service.py:88-129 | the model carries the configured model name (Gemini's normalised), credential and token budget |
| LlmService.FallbackMembers | app/services/llm_service.py:140-184 | OpenAI, Gemini and AIPipe are each included iff their credential is set; Ollama is always included, last and only there; the list is never empty |
| LlmService.FallbackRanked | app/services/llm_service.py:140-181 | the candidates come in the order OpenAI, Gemini, AIPipe, Ollama, each at most once |
| LlmService.GetLlmWithFallback | app/services/llm_service.py:135-190 | the conditional appends build exactly `FallbackCandidates`; the first is the primary and the rest its fallbacks, wrapped only when there is more than one |
| Webhook.BackoffAt | app/api/webhook.py:135-137 | the pause after failed attempt i lasts 2^i seconds |
| Webhook.BackoffTotal | app/api/webhook.py:135-137 | k pauses add up to 2^k - 1 seconds |
| Webhook.DefaultBudgetPauses | app/api/webhook.py:135-137 | with the default five attempts all failing there are four pauses, 1, 2, 4, 8: fifteen seconds |
| Webhook.SubmitToEvaluation | app/api/webhook.py:90-139 | every POST carries the field-for-field payload; it succeeds iff some attempt within the budget gets 200, stopping at the first; success at attempt k follows k pauses; total failure makes max(0, n) POSTs, max(0, n-1) pauses, and raises the fixed message |
| Webhook.FailureKindsAlike | app/api/webhook.py:124-133 | a non-200 status and a raised error are interchangeable: swapping one for the other never changes whether the report is delivered |
| Webhook.Acknowledge | app/api/webhook.py:24-28 | the acknowledgement has status "accepted", echoes the task, and its message starts "Task <task> round " |
| Webhook.ReceiveTask | app/api/webhook.py:14-33 | a wrong secret gives 401 "Invalid secret" and schedules nothing; the right secret schedules the request once and returns the acknowledgement |
| Webhook.StagesRunInOrder | app/api/webhook.py:40-87 | the stage log `ProcessTask` records is a non-empty prefix of application → readme → publish → submit, ending at the stage that raised, which appears in it once |
| Webhook.PublishAndSubmit | app/api/webhook.py:59-79 | the host changes as `GitWorkflowSpec` says; a failed workflow posts nothing; otherwise the report carries the published URLs and sha, and the outcome is completed if delivered within five attempts and a failure of the submit stage if not |
| Webhook.ProcessTask | app/api/webhook.py:36-87 | no exception escapes; a failing generator stage stops the pipeline with the host untouched and nothing posted; the log of stages started is exactly the prefix of the pipeline up to the stage that raised (all four on completion); a failed workflow is a publish-stage failure with nothing posted; after a successful workflow the outcome is completed iff the report is delivered within five attempts and a submit-stage failure otherwise |

## Left out

- Printing, tracebacks and the emoji progress messages throughout: they change no state the code reads.
- Real delays (`time.sleep`, `asyncio.sleep`): only their durations are recorded, in ghost logs.
- Asynchrony and FastAPI's background scheduling. `receive_task` appends to a modelled task list, and `process_task` is a sequential method.
- PyGithub, httpx and LangChain internals. The host is an abstract state with injected faults; the evaluation endpoint and the Gemini call are given outcomes; chat models are records of their constructor arguments.
- `AIPipeGemini._llm_type`, a constant label that no modelled code reads.
- Temperature and other float settings, the `generationConfig` envelope, headers and timeouts of the HTTP requests: these are transport shape only.
- Loading settings from the environment and `.env`, and pydantic/`EmailStr` validation: settings and schema records are plain datatypes.
- app/services/code_generator.py is not part of this model. It does not define the `CodeGenerator` class that `app/api/webhook.py` imports. Its two calls are the `application` and `readme` outcomes of `ProcessTask`.
- app/main.py (health and test endpoints, and the router is not mounted there) is not part of this model.
- The host models a single branch, `main`. A file's blob sha is the sha of the commit that wrote it.
- `git_workflow`'s `brief` argument is accepted and unused, as in the code.
- The text of the `ValueError` for an unexpected reply embeds Python's rendering of the reply. The model carries the reply itself instead of that rendering.
- LlmService.ExtractText: a `text` value that is not a string is treated as rejected by `AIMessage`. LangChain's list-valued message content is not modelled.
- Publisher.GitHubService.GitWorkflow: the pause log is stated only for a successful run.
