/**
 * The event context of `send` in src/slack.ts: what the run's environment and the
 * triggering webhook payload say about the ref, the diff, the description and the sender.
 */
module SlackContext {
  import opened Wrappers
  import opened Text
  import opened Js

  /** The environment variables `send` reads, passed in explicitly. */
  datatype RunEnv = RunEnv(
    eventName: string,        // GITHUB_EVENT_NAME
    workflow: string,         // GITHUB_WORKFLOW
    repository: string,       // GITHUB_REPOSITORY, owner/name
    serverUrl: string,        // GITHUB_SERVER_URL
    runId: string,            // GITHUB_RUN_ID
    runNumber: string,        // GITHUB_RUN_NUMBER
    sha: string,              // GITHUB_SHA
    headRef: Option<string>,  // GITHUB_HEAD_REF
    ref: string,              // GITHUB_REF
    refType: Option<string>,  // GITHUB_REF_TYPE
    actor: string,            // GITHUB_ACTOR
    action: Option<string>)   // GITHUB_ACTION

  /** The identity shown as the attachment's author. */
  datatype Sender = Sender(login: string, htmlUrl: string, avatarUrl: string)

  datatype Issue = Issue(number: int, htmlUrl: string, commentsUrl: string, title: string)

  datatype PullRequest = PullRequest(htmlUrl: string, headRef: string, title: string)

  /**
   * The parts of the webhook payload (`github.context.payload`) that `send` reads. An
   * object the code dereferences further (`issue`, `pull_request`, `ref`, `commits`) is
   * optional: when it is missing the source throws.
   */
  datatype Payload = Payload(
    action: Option<string>,
    number: Option<int>,
    issue: Option<Issue>,
    pullRequest: Option<PullRequest>,
    ref: Option<string>,
    compare: Option<string>,
    commitCount: Option<nat>,   // payload.commits.length
    schedule: Option<string>,
    sender: Option<Sender>)

  /** The variables the event switch assigns. `None` stands for `undefined` or `null`. */
  datatype EventContext = EventContext(
    payload: Option<Payload>,   // what templates see as `payload` (before `|| {}`)
    action: Option<string>,
    ref: string,
    refUrl: string,
    diffRef: string,
    diffUrl: Option<string>,
    description: Option<string>,
    sender: Option<Sender>)

  /** The branches of the event switch; `issues` falls through into `issue_comment`. */
  datatype EventKind = IssueEvent | PullRequestEvent | PushEvent | ScheduleEvent | OtherEvent

  function KindOf(eventName: string): (r: EventKind)
    ensures r == IssueEvent <==> eventName in {"issues", "issue_comment"}
    ensures r == PullRequestEvent <==> eventName == "pull_request"
    ensures r == PushEvent <==> eventName == "push"
    ensures r == ScheduleEvent <==> eventName == "schedule"
  {
    if eventName == "issues" || eventName == "issue_comment" then IssueEvent
    else if eventName == "pull_request" then PullRequestEvent
    else if eventName == "push" then PushEvent
    else if eventName == "schedule" then ScheduleEvent
    else OtherEvent
  }

  /** `${GITHUB_SERVER_URL}/${GITHUB_REPOSITORY}`. */
  function RepositoryUrl(env: RunEnv): (r: string)
    ensures r == env.serverUrl + "/" + env.repository
    ensures StartsWith(r, env.serverUrl + "/") && EndsWith(r, env.repository)
    ensures |r| == |env.serverUrl| + 1 + |env.repository|
  {
    env.serverUrl + "/" + env.repository
  }

  /** The workflow's run list, filtered by workflow name. */
  function WorkflowUrl(env: RunEnv): (r: string)
    ensures r == RepositoryUrl(env) + "/actions?query=workflow:" + env.workflow
    ensures StartsWith(r, RepositoryUrl(env) + "/actions?query=workflow:") && EndsWith(r, env.workflow)
    ensures |r| == |RepositoryUrl(env)| + |"/actions?query=workflow:"| + |env.workflow|
  {
    RepositoryUrl(env) + "/actions?query=workflow:" + env.workflow
  }

  /** The page of this run. */
  function WorkflowRunUrl(env: RunEnv): (r: string)
    ensures r == RepositoryUrl(env) + "/actions/runs/" + env.runId
    ensures StartsWith(r, RepositoryUrl(env) + "/actions/runs/") && EndsWith(r, env.runId)
    ensures |r| == |RepositoryUrl(env)| + |"/actions/runs/"| + |env.runId|
  {
    RepositoryUrl(env) + "/actions/runs/" + env.runId
  }

  /** `sha.slice(0, 8)`: the first eight characters of the commit SHA. */
  function ShortSha(env: RunEnv): (r: string)
    ensures StartsWith(env.sha, r)
    ensures |r| == if |env.sha| < 8 then |env.sha| else 8
  {
    Take(env.sha, 8)
  }

  /** `GITHUB_HEAD_REF || GITHUB_REF.replace('refs/heads/', '')`. */
  function Branch(env: RunEnv): (r: string)
    ensures Present(env.headRef) ==> r == env.headRef.value
    ensures !Present(env.headRef) && StartsWith(env.ref, HeadsPrefix) ==> r == env.ref[|HeadsPrefix|..]
    ensures !Present(env.headRef) ==> r == StripHeads(env.ref)
  {
    OrElse(env.headRef, StripHeads(env.ref))
  }

  /** The sender that `schedule` events always use. */
  const GithubSender := Sender("github", "https://github.com/github",
                               "https://avatars1.githubusercontent.com/u/9919?s=200&v=4")

  /** The sender synthesised from the actor when an unsupported event's payload has none. */
  function ActorSender(actor: string): Sender
  {
    Sender(actor, "https://github.com/" + actor, "")
  }

  /** The action of an unsupported event: GITHUB_ACTION, but '' when it starts with 'self'. */
  function EnvAction(env: RunEnv): (r: Option<string>)
    ensures env.action.None? ==> r.None?
    ensures env.action.Some? ==> r.Some? && (r.value == "" || r.value == env.action.value)
    ensures env.action.Some? && !StartsWith(env.action.value, "self") ==> r == env.action
    ensures env.action.Some? && StartsWith(env.action.value, "self") ==> !Present(r)
  {
    if env.action.Some? && StartsWith(env.action.value, "self") then Some("") else env.action
  }

  /** The context every branch starts from: branch ref, its commit list, and the short SHA. */
  function Initial(env: RunEnv): (r: EventContext)
    ensures r.payload.None? && r.action.None? && r.description.None? && r.sender.None?
    ensures r.ref == Branch(env) && r.diffRef == ShortSha(env)
    ensures StartsWith(r.refUrl, RepositoryUrl(env)) && EndsWith(r.refUrl, Branch(env))
    ensures r.diffUrl.Some? && StartsWith(r.diffUrl.value, RepositoryUrl(env)) && EndsWith(r.diffUrl.value, ShortSha(env))
    ensures r.refUrl == RepositoryUrl(env) + "/commits/" + Branch(env)
    ensures r.diffUrl == Some(RepositoryUrl(env) + "/commit/" + ShortSha(env))
  {
    EventContext(None, None, Branch(env), RepositoryUrl(env) + "/commits/" + Branch(env),
                 ShortSha(env), Some(RepositoryUrl(env) + "/commit/" + ShortSha(env)), None, None)
  }

  /** The resolved context, one case per branch, stated as updates of the initial context. */
  function Resolve(env: RunEnv, p: Payload): (r: Result<EventContext, JsError>)
    ensures r.Err? <==>
      match KindOf(env.eventName)
      case IssueEvent => p.issue.None?
      case PullRequestEvent => p.pullRequest.None?
      case PushEvent => p.ref.None? || p.commitCount.None?
      case _ => false
    ensures r.Ok? && KindOf(env.eventName) != PullRequestEvent ==> r.value.diffRef == ShortSha(env)
    ensures r.Ok? && KindOf(env.eventName) != ScheduleEvent ==> r.value.payload == Some(p)
  {
    var init := Initial(env);
    match KindOf(env.eventName)
    case IssueEvent =>
      if p.issue.None? then Err(TypeError("number"))
      else
        var issue := p.issue.value;
        Ok(init.(payload := Some(p), action := p.action, ref := "#" + IntToString(issue.number),
                 refUrl := issue.htmlUrl, diffUrl := Some(issue.commentsUrl),
                 description := Some(issue.title), sender := p.sender))
    case PullRequestEvent =>
      if p.pullRequest.None? then Err(TypeError("html_url"))
      else
        var pr := p.pullRequest.value;
        var number := if p.number.Some? then Some(IntToString(p.number.value)) else None;
        Ok(init.(payload := Some(p), action := p.action, ref := "#" + Show(number),
                 refUrl := pr.htmlUrl, diffUrl := Some(pr.htmlUrl + "/files"), diffRef := pr.headRef,
                 description := Some(pr.title), sender := p.sender))
    case PushEvent =>
      if p.ref.None? then Err(TypeError("replace"))
      else if p.commitCount.None? then Err(TypeError("length"))
      else
        Ok(init.(payload := Some(p), action := None, ref := StripHeads(p.ref.value), diffUrl := p.compare,
                 description := Some(IntToString(p.commitCount.value) + " commits"), sender := p.sender))
    case ScheduleEvent =>
      Ok(init.(action := None, ref := StripHeads(env.ref),
               description := Some("Schedule `" + Show(p.schedule) + "`"), sender := Some(GithubSender)))
    case OtherEvent =>
      Ok(init.(payload := Some(p), action := EnvAction(env), ref := StripHeads(env.ref),
               sender := Some(if p.sender.Some? then p.sender.value else ActorSender(env.actor))))
  }

  /** The `switch (eventName)` of `send`, reassigning its `let` variables branch by branch. */
  method ResolveContext(env: RunEnv, p: Payload) returns (r: Result<EventContext, JsError>)
    ensures r == Resolve(env, p)
  {
    var repositoryUrl := RepositoryUrl(env);
    var shortSha := ShortSha(env);
    var branch := Branch(env);
    var payload: Option<Payload> := None;
    var action: Option<string> := None;
    var ref := branch;
    var refUrl := repositoryUrl + "/commits/" + branch;
    var diffRef := shortSha;
    var diffUrl := Some(repositoryUrl + "/commit/" + shortSha);
    var description: Option<string> := None;
    var sender: Option<Sender> := None;
    var eventName := env.eventName;
    if eventName == "issues" || eventName == "issue_comment" {
      payload := Some(p);
      if p.issue.None? {
        return Err(TypeError("number"));
      }
      action := p.action;
      ref := "#" + IntToString(p.issue.value.number);
      refUrl := p.issue.value.htmlUrl;
      diffUrl := Some(p.issue.value.commentsUrl);
      description := Some(p.issue.value.title);
      sender := p.sender;
    } else if eventName == "pull_request" {
      payload := Some(p);
      action := p.action;
      ref := "#" + Show(if p.number.Some? then Some(IntToString(p.number.value)) else None);
      if p.pullRequest.None? {
        return Err(TypeError("html_url"));
      }
      refUrl := p.pullRequest.value.htmlUrl;
      diffUrl := Some(p.pullRequest.value.htmlUrl + "/files");
      diffRef := p.pullRequest.value.headRef;
      description := Some(p.pullRequest.value.title);
      sender := p.sender;
    } else if eventName == "push" {
      payload := Some(p);
      action := None;
      if p.ref.None? {
        return Err(TypeError("replace"));
      }
      ref := StripHeads(p.ref.value);
      diffUrl := p.compare;
      if p.commitCount.None? {
        return Err(TypeError("length"));
      }
      description := Some(IntToString(p.commitCount.value) + " commits");
      sender := p.sender;
    } else if eventName == "schedule" {
      action := None;
      ref := StripHeads(env.ref);
      description := Some("Schedule `" + Show(p.schedule) + "`");
      sender := Some(GithubSender);
    } else {
      payload := Some(p);
      action := EnvAction(env);
      ref := StripHeads(env.ref);
      sender := if p.sender.Some? then p.sender else Some(ActorSender(env.actor));
    }
    r := Ok(EventContext(payload, action, ref, refUrl, diffRef, diffUrl, description, sender));
  }

  /** `issues` falls through into `issue_comment`: both events resolve identically. */
  lemma IssuesFallThrough(env: RunEnv, p: Payload)
    ensures Resolve(env.(eventName := "issues"), p) == Resolve(env.(eventName := "issue_comment"), p)
  {
  }

  /** A pull request is shown as `#<number>` and its diff link is the PR's files tab. */
  lemma PullRequestContext(env: RunEnv, p: Payload, n: int, pr: PullRequest)
    requires env.eventName == "pull_request" && p.number == Some(n) && p.pullRequest == Some(pr)
    ensures Resolve(env, p).Ok?
    ensures Resolve(env, p).value.ref == "#" + IntToString(n)
    ensures Resolve(env, p).value.diffUrl == Some(pr.htmlUrl + "/files")
    ensures Resolve(env, p).value.diffRef == pr.headRef
    ensures Resolve(env, p).value.description == Some(pr.title)
  {
  }

  /** A push is described by its commit count and linked to its compare view. */
  lemma PushContext(env: RunEnv, p: Payload, ref: string, n: nat)
    requires env.eventName == "push" && p.ref == Some(ref) && p.commitCount == Some(n)
    ensures Resolve(env, p).Ok?
    ensures Resolve(env, p).value.description == Some(IntToString(n) + " commits")
    ensures Resolve(env, p).value.ref == StripHeads(ref)
    ensures Resolve(env, p).value.diffUrl == p.compare
    ensures Resolve(env, p).value.action.None?
  {
  }

  /** A scheduled run always names the fixed `github` sender and gives templates no payload. */
  lemma ScheduleContext(env: RunEnv, p: Payload)
    requires env.eventName == "schedule"
    ensures Resolve(env, p).Ok?
    ensures Resolve(env, p).value.sender == Some(GithubSender)
    ensures Resolve(env, p).value.payload.None?
    ensures Resolve(env, p).value.action.None?
  {
  }

  /**
   * An unsupported event takes its action from GITHUB_ACTION (blanked when it starts
   * with `self`) and synthesises a sender from the actor when the payload has none.
   */
  lemma OtherEventContext(env: RunEnv, p: Payload)
    requires KindOf(env.eventName) == OtherEvent
    ensures Resolve(env, p).Ok?
    ensures Resolve(env, p).value.sender.Some?
    ensures p.sender.None? ==> Resolve(env, p).value.sender == Some(Sender(env.actor, "https://github.com/" + env.actor, ""))
    ensures p.sender.Some? ==> Resolve(env, p).value.sender == p.sender
    ensures env.action.Some? && StartsWith(env.action.value, "self") ==> Resolve(env, p).value.action == Some("")
    ensures !(env.action.Some? && StartsWith(env.action.value, "self")) ==> Resolve(env, p).value.action == env.action
    ensures Resolve(env, p).value.description.None?
  {
  }

  /** `Math.round(nowMillis / 1000)`: the nearest whole second, halves rounded up. */
  function Timestamp(nowMillis: int): (ts: int)
    ensures -500 <= nowMillis - ts * 1000 < 500
  {
    (nowMillis + 500) / 1000
  }
}
