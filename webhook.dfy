/**
 * The task webhook of app/api/webhook.py: the secret gate that accepts a task and
 * schedules it, the background pipeline that turns a task into a published
 * repository, and the notifier that reports the result to the evaluation URL with
 * bounded retries and exponential backoff. The evaluation endpoint is a script of
 * outcomes, one per POST; the code generator's two stages are their outcomes.
 */
module Webhook {
  import opened Results
  import opened Text
  import opened Schemas
  import opened GitHubHost
  import opened Publisher

  // ---------------------------------------------------------------------------
  // The evaluation notifier
  // ---------------------------------------------------------------------------

  /** What one POST to the evaluation URL produced: a response with a status, or a raised error. */
  datatype PostOutcome = Responded(statusCode: int) | Raised(reason: string)

  /** A POST sent to the evaluation URL. */
  datatype Post = Post(url: string, payload: EvaluationPayload)

  /** The endpoint's answer to the POST numbered `i`; past the end of the script, every POST fails. */
  function ResponseTo(endpoint: seq<PostOutcome>, i: nat): PostOutcome {
    if i < |endpoint| then endpoint[i] else Raised("no response")
  }

  /** Only a 200 ends the retries; every other status and every raised error is a failed attempt. */
  predicate Accepted(outcome: PostOutcome) {
    outcome.Responded? && outcome.statusCode == 200
  }

  /** Some attempt within the budget is answered with 200. */
  predicate Delivers(endpoint: seq<PostOutcome>, maxRetries: int) {
    exists i: nat :: i < maxRetries && Accepted(ResponseTo(endpoint, i))
  }

  function Pow2(k: nat): nat {
    if k == 0 then 1 else 2 * Pow2(k - 1)
  }

  /** The pauses after failed attempts `0 .. k-1` when more attempts follow: 1, 2, 4, … seconds. */
  function Backoff(k: nat): seq<nat> {
    if k == 0 then [] else Backoff(k - 1) + [Pow2(k - 1)]
  }

  function Sum(s: seq<nat>): nat {
    if s == [] then 0 else Sum(s[..|s| - 1]) + s[|s| - 1]
  }

  /** Pause `i` lasts `2^i` seconds. */
  lemma {:induction false} BackoffAt(k: nat)
    ensures |Backoff(k)| == k
    ensures forall i :: 0 <= i < k ==> Backoff(k)[i] == Pow2(i)
  {
    if k > 0 {
      BackoffAt(k - 1);
    }
  }

  /** `k` pauses add up to `2^k - 1` seconds. */
  lemma {:induction false} BackoffTotal(k: nat)
    ensures Sum(Backoff(k)) == Pow2(k) - 1
  {
    if k > 0 {
      BackoffTotal(k - 1);
      var s := Backoff(k);
      assert s[..|s| - 1] == Backoff(k - 1);
    }
  }

  const FailureMessage := "Failed to submit to evaluation URL after all retries"

  /** The retry budget `process_task` leaves at its default. */
  const DefaultMaxRetries := 5

  function Max0(n: int): nat {
    if n < 0 then 0 else n
  }

  /**
   * `submit_to_evaluation`: POST the payload up to `maxRetries` times, stop at the
   * first 200, pause `2^attempt` seconds after every failed attempt but the last,
   * and raise once the budget is spent.
   */
  method SubmitToEvaluation(endpoint: seq<PostOutcome>, evaluationUrl: string, email: string,
                            task: string, round: int, nonce: string, repoUrl: string,
                            commitSha: string, pagesUrl: string, maxRetries: int)
    returns (r: Result<(), string>, ghost posts: seq<Post>, ghost sleeps: seq<nat>)
    ensures forall k :: 0 <= k < |posts| ==>
      posts[k] == Post(evaluationUrl, EvaluationPayload(email, task, round, nonce, repoUrl, commitSha, pagesUrl))
    ensures r.Ok? <==> Delivers(endpoint, maxRetries)
    ensures r.Ok? ==> 1 <= |posts| <= maxRetries && Accepted(ResponseTo(endpoint, |posts| - 1))
    ensures forall k :: 0 <= k < |posts| - 1 ==> !Accepted(ResponseTo(endpoint, k))
    ensures r.Ok? ==> sleeps == Backoff(|posts| - 1)
    ensures r.Err? ==> r.error == FailureMessage && |posts| == Max0(maxRetries)
    ensures r.Err? ==> sleeps == Backoff(Max0(maxRetries - 1))
  {
    var payload := EvaluationPayload(email, task, round, nonce, repoUrl, commitSha, pagesUrl);
    posts := [];
    sleeps := [];
    var attempt: nat := 0;
    while attempt < maxRetries
      invariant attempt <= Max0(maxRetries)
      invariant |posts| == attempt
      invariant forall k :: 0 <= k < |posts| ==> posts[k] == Post(evaluationUrl, payload)
      invariant forall k :: 0 <= k < attempt ==> !Accepted(ResponseTo(endpoint, k))
      invariant sleeps == Backoff(if 0 < attempt == maxRetries then attempt - 1 else attempt)
    {
      posts := posts + [Post(evaluationUrl, payload)];
      match ResponseTo(endpoint, attempt) {
        case Responded(statusCode) =>
          if statusCode == 200 {
            return Ok(()), posts, sleeps;
          }
        case Raised(_) =>
      }
      if attempt < maxRetries - 1 {
        sleeps := sleeps + [Pow2(attempt)];
      }
      attempt := attempt + 1;
    }
    r := Err(FailureMessage);
  }

  /**
   * A non-200 status and a raised error are interchangeable: replacing one failed
   * attempt by another kind of failure does not change whether the task is delivered.
   */
  lemma FailureKindsAlike(endpoint: seq<PostOutcome>, i: nat, other: PostOutcome, maxRetries: int)
    requires i < |endpoint| && !Accepted(endpoint[i]) && !Accepted(other)
    ensures Delivers(endpoint[i := other], maxRetries) <==> Delivers(endpoint, maxRetries)
  {
    var changed := endpoint[i := other];
    forall k: nat
      ensures Accepted(ResponseTo(changed, k)) <==> Accepted(ResponseTo(endpoint, k))
    {
    }
    if Delivers(changed, maxRetries) {
      var k: nat :| k < maxRetries && Accepted(ResponseTo(changed, k));
      assert Accepted(ResponseTo(endpoint, k));
    }
    if Delivers(endpoint, maxRetries) {
      var k: nat :| k < maxRetries && Accepted(ResponseTo(endpoint, k));
      assert Accepted(ResponseTo(changed, k));
    }
  }

  /** With the default budget of five attempts that all fail, there are four pauses, fifteen seconds in all. */
  lemma DefaultBudgetPauses()
    ensures Backoff(Max0(DefaultMaxRetries - 1)) == [1, 2, 4, 8]
    ensures Sum(Backoff(Max0(DefaultMaxRetries - 1))) == 15
  {
    BackoffAt(4);
    BackoffTotal(4);
  }

  // ---------------------------------------------------------------------------
  // Receiving a task
  // ---------------------------------------------------------------------------

  /** An `HTTPException`: the status and detail the framework answers with. */
  datatype HttpError = HttpError(statusCode: int, detail: string)

  /** The work the framework runs after the response has been sent. */
  class BackgroundTasks {
    var scheduled: seq<TaskRequest>

    constructor ()
      ensures scheduled == []
    {
      scheduled := [];
    }
  }

  /** The acknowledgement `receive_task` returns for an accepted task. */
  function Acknowledge(request: TaskRequest): (r: TaskResponse)
    ensures r.status == "accepted" && r.task == request.task
    ensures StartsWith(r.message, "Task " + request.task + " round ")
  {
    var head := "Task " + request.task + " round ";
    var message := head + IntToString(request.round) + " accepted for processing";
    assert message == head + (IntToString(request.round) + " accepted for processing");
    TaskResponse("accepted", message, request.task)
  }

  /**
   * `receive_task`: a request with the wrong secret is refused with 401 and nothing
   * is scheduled; otherwise the request is scheduled once and acknowledged.
   */
  method ReceiveTask(appSecret: string, request: TaskRequest, background: BackgroundTasks)
    returns (r: Result<TaskResponse, HttpError>)
    modifies background
    ensures request.secret != appSecret ==>
      r == Err(HttpError(401, "Invalid secret")) && background.scheduled == old(background.scheduled)
    ensures request.secret == appSecret ==>
      r == Ok(Acknowledge(request)) && background.scheduled == old(background.scheduled) + [request]
  {
    if request.secret != appSecret {
      return Err(HttpError(401, "Invalid secret"));
    }
    var response := TaskResponse("accepted",
      "Task " + request.task + " round " + IntToString(request.round) + " accepted for processing",
      request.task);
    background.scheduled := background.scheduled + [request];
    return Ok(response);
  }

  // ---------------------------------------------------------------------------
  // Processing a task
  // ---------------------------------------------------------------------------

  datatype Stage = GenerateApplication | GenerateReadme | PublishRepository | SubmitEvaluation

  const AllStages := [GenerateApplication, GenerateReadme, PublishRepository, SubmitEvaluation]

  /** How `process_task` ended: every exception is caught, so a failure names the stage that raised. */
  datatype TaskOutcome = Completed | Failed(stage: Stage)

  /** Where a stage sits in the pipeline. */
  function Position(stage: Stage): nat {
    match stage
    case GenerateApplication => 0
    case GenerateReadme => 1
    case PublishRepository => 2
    case SubmitEvaluation => 3
  }

  /** The stages started before the pipeline ended with `outcome`: all of them, or those up to the one that raised. */
  function StagesRun(outcome: TaskOutcome): seq<Stage> {
    match outcome
    case Completed => AllStages
    case Failed(stage) => AllStages[..Position(stage) + 1]
  }

  /**
   * The stages run in the fixed order and stop at the first failure: those started
   * are a non-empty prefix of the pipeline, ending with the stage that raised, and
   * a stage runs only if every earlier one finished.
   */
  lemma StagesRunInOrder(outcome: TaskOutcome)
    ensures var ran := StagesRun(outcome);
      && 1 <= |ran| && ran <= AllStages
      && (outcome.Failed? ==> ran[|ran| - 1] == outcome.stage && outcome.stage !in ran[..|ran| - 1])
      && (outcome.Completed? <==> SubmitEvaluation in ran && outcome != Failed(SubmitEvaluation))
  {
  }

  /** The stage logs of the five ways the pipeline ends, written out. */
  lemma StagesRunListed()
    ensures StagesRun(Failed(GenerateApplication)) == [GenerateApplication]
    ensures StagesRun(Failed(GenerateReadme)) == [GenerateApplication, GenerateReadme]
    ensures StagesRun(Failed(PublishRepository)) == [GenerateApplication, GenerateReadme, PublishRepository]
    ensures StagesRun(Failed(SubmitEvaluation)) == AllStages
    ensures StagesRun(Completed) == AllStages
  {
  }

  /** The payload reported for a task and the repository published for it. */
  function PayloadFor(request: TaskRequest, published: WorkflowResult): EvaluationPayload {
    EvaluationPayload(request.email, request.task, request.round, request.nonce,
                      published.repoUrl, published.commitSha, published.pagesUrl)
  }

  /**
   * The last two stages of `process_task`: publish the generated files through a
   * new `GitHubService`, then report the published repository.
   */
  method PublishAndSubmit(request: TaskRequest, host: Host, indexHtml: string, readmeMd: string,
                          endpoint: seq<PostOutcome>)
    returns (outcome: TaskOutcome, after: Host, ghost posts: seq<Post>)
    ensures var w := GitWorkflowSpec(host, request.task, indexHtml, readmeMd);
      && after == w.host
      && (w.result.Err? ==> outcome == Failed(PublishRepository) && posts == [])
      && (w.result.Ok? ==>
            && outcome == (if Delivers(endpoint, DefaultMaxRetries) then Completed else Failed(SubmitEvaluation))
            && 1 <= |posts| <= DefaultMaxRetries
            && forall k :: 0 <= k < |posts| ==>
                 posts[k] == Post(request.evaluationUrl, PayloadFor(request, w.result.value)))
  {
    var github := new GitHubService(host);
    var published := github.GitWorkflow(request.task, request.brief, indexHtml, readmeMd);
    after := github.host;
    if published.Err? {
      return Failed(PublishRepository), after, [];
    }
    var submitted, sent, _ := SubmitToEvaluation(endpoint, request.evaluationUrl, request.email,
      request.task, request.round, request.nonce, published.value.repoUrl,
      published.value.commitSha, published.value.pagesUrl, DefaultMaxRetries);
    posts := sent;
    outcome := if submitted.Ok? then Completed else Failed(SubmitEvaluation);
  }

  /**
   * `process_task`: generate the page, generate the README, publish them and report
   * to the evaluation URL, stopping at the first stage that raises. `application`
   * and `readme` are what the two generator calls return or raise; `after` is the
   * host when the pipeline stops, and `started` logs each stage as it begins.
   */
  method ProcessTask(request: TaskRequest, host: Host, application: Result<string, string>,
                     readme: Result<string, string>, endpoint: seq<PostOutcome>)
    returns (outcome: TaskOutcome, after: Host, ghost started: seq<Stage>, ghost posts: seq<Post>)
    ensures started == StagesRun(outcome)
    ensures application.Err? ==> outcome == Failed(GenerateApplication) && after == host && posts == []
    ensures application.Ok? && readme.Err? ==>
      outcome == Failed(GenerateReadme) && after == host && posts == []
    ensures application.Ok? && readme.Ok? ==>
      var w := GitWorkflowSpec(host, request.task, application.value, readme.value);
      && after == w.host
      && (w.result.Err? ==> outcome == Failed(PublishRepository) && posts == [])
      && (w.result.Ok? ==>
            && outcome == (if Delivers(endpoint, DefaultMaxRetries) then Completed else Failed(SubmitEvaluation))
            && 1 <= |posts| <= DefaultMaxRetries
            && forall k :: 0 <= k < |posts| ==>
                 posts[k] == Post(request.evaluationUrl, PayloadFor(request, w.result.value)))
  {
    StagesRunListed();
    started := [GenerateApplication];
    if application.Err? {
      outcome, after, posts := Failed(GenerateApplication), host, [];
    } else {
      started := [GenerateApplication, GenerateReadme];
      if readme.Err? {
        outcome, after, posts := Failed(GenerateReadme), host, [];
      } else {
        started := [GenerateApplication, GenerateReadme, PublishRepository];
        outcome, after, posts := PublishAndSubmit(request, host, application.value, readme.value, endpoint);
        if outcome != Failed(PublishRepository) {
          started := AllStages;
        }
      }
    }
  }
}
