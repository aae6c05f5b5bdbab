/**
 * The older entry point src/main.ts: case-sensitive colour and icon tables, the step
 * checklist and the message that `run` posts.
 */
module MainRun {
  import opened Wrappers
  import opened Text
  import opened Js
  import SlackStatus
  import opened SlackContext

  /** `jobColor(status)`: exact, upper-case statuses only; anything else is undefined. */
  function OldJobColor(status: string): (r: Option<string>)
    ensures r.Some? <==> status in {"SUCCESS", "FAILURE", "CANCELLED"}
    ensures r.Some? ==> r.value in {"good", "danger", "warning"}
  {
    if status == "SUCCESS" then Some("good")
    else if status == "FAILURE" then Some("danger")
    else if status == "CANCELLED" then Some("warning")
    else None
  }

  /** `stepIcon(status)`: exact, capitalised outcomes only. */
  function OldStepIcon(status: string): (r: string)
    ensures status !in {"Success", "Failure", "Cancelled", "Skipped"} ==> r == SlackStatus.UnknownIcon + status
  {
    if status == "Success" then ":heavy_check_mark:"
    else if status == "Failure" then ":x:"
    else if status == "Cancelled" then ":exclamation:"
    else if status == "Skipped" then ":no_entry_sign:"
    else SlackStatus.UnknownIcon + status
  }

  /** Upper-casing matches a lower-case word exactly when lower-casing yields it. */
  lemma UpperMatchesLower(s: string, w: string)
    requires forall i :: 0 <= i < |w| ==> 'a' <= w[i] <= 'z'
    ensures Upper(s) == Upper(w) <==> Lower(s) == w
  {
    if |s| == |w| {
      forall i | 0 <= i < |s|
        ensures (UpperChar(s[i]) == UpperChar(w[i])) == (LowerChar(s[i]) == w[i])
      {
      }
      if Upper(s) == Upper(w) {
        assert forall i :: 0 <= i < |s| ==> Lower(s)[i] == w[i];
      }
      if Lower(s) == w {
        assert forall i :: 0 <= i < |s| ==> Upper(s)[i] == Upper(w)[i];
      }
    } else {
      assert |Upper(s)| != |Upper(w)|;
    }
  }

  /**
   * `run` upper-cases the status before looking up its colour, so the older table agrees
   * with the case-insensitive `jobColor` of src/slack.ts (without overrides) on the three
   * known statuses and leaves every other status without a colour where the newer one uses silver.
   */
  lemma {:induction false} UpperCasedColorAgrees(s: string)
    ensures OldJobColor(Upper(s)).Some? <==> Lower(s) in SlackStatus.BuiltinColors
    ensures OldJobColor(Upper(s)).Some? ==> OldJobColor(Upper(s)).value == SlackStatus.JobColor(s, SlackStatus.NoColors)
  {
    assert Upper("success") == "SUCCESS";
    assert Upper("failure") == "FAILURE";
    assert Upper("cancelled") == "CANCELLED";
    UpperMatchesLower(s, "success");
    UpperMatchesLower(s, "failure");
    UpperMatchesLower(s, "cancelled");
  }

  /** Where the older icon table recognises an outcome, the newer one (without overrides) gives the same icon. */
  lemma OldStepIconRefined(s: string)
    requires s in {"Success", "Failure", "Cancelled", "Skipped"}
    ensures SlackStatus.StepIcon(s, SlackStatus.NoIcons) == OldStepIcon(s)
  {
    assert Lower("Success") == "success";
    assert Lower("Failure") == "failure";
    assert Lower("Cancelled") == "cancelled";
    assert Lower("Skipped") == "skipped";
  }

  /** The older icon table is case-sensitive: a lower-case outcome is unknown to it. */
  lemma OldStepIconCaseSensitive()
    ensures OldStepIcon("success") == ":grey_question: success"
    ensures SlackStatus.StepIcon("success", SlackStatus.NoIcons) == ":heavy_check_mark:"
  {
    assert Lower("success") == "success";
  }

  /** The `checks.push` loop: one line per step, in key order. `steps` pairs step names with outcomes. */
  method BuildChecks(steps: seq<(string, string)>) returns (checks: seq<string>)
    ensures |checks| == |steps|
    ensures forall i :: 0 <= i < |steps| ==> checks[i] == OldStepIcon(steps[i].1) + " " + steps[i].0
  {
    checks := [];
    for i := 0 to |steps|
      invariant |checks| == i
      invariant forall k :: 0 <= k < i ==> checks[k] == OldStepIcon(steps[k].1) + " " + steps[k].0
    {
      var line := OldStepIcon(steps[i].1) + " " + steps[i].0;
      assert (checks + [line])[i] == line;
      checks := checks + [line];
    }
  }

  datatype OldField = OldField(title: string, value: string, short: bool)

  /** The `fields` list: one Job Steps field with the checklist, only when there are checks. */
  method BuildFields(checks: seq<string>) returns (fields: seq<OldField>)
    ensures |checks| > 0 ==> fields == [OldField("Job Steps", Join(checks, "\n"), false)]
    ensures |checks| == 0 ==> fields == []
  {
    fields := [];
    if |checks| > 0 {
      fields := fields + [OldField("Job Steps", Join(checks, "\n"), false)];
    }
  }

  datatype Repository = Repository(fullName: string, htmlUrl: string, pushedAt: int)
  datatype HeadCommit = HeadCommit(url: string, id: string, message: string)

  /** What `run` reads from its inputs, the environment and `github.context`. */
  datatype RunInputs = RunInputs(
    status: string,                   // input `status` as the input reader returns it, before upper-casing
    steps: seq<(string, string)>,     // input `steps`: step name and outcome, in key order
    channel: string,                  // input `channel`
    jobName: string,                  // GITHUB_JOB
    workflow: string,
    eventName: string,
    ref: string,
    compare: string,
    sender: Option<Sender>,
    repository: Option<Repository>,
    headCommit: Option<HeadCommit>)

  datatype OldAttachment = OldAttachment(
    fallback: string,
    color: Option<string>,
    authorName: string,
    authorLink: string,
    authorIcon: string,
    mrkdwnIn: seq<string>,
    text: string,
    fields: seq<OldField>,
    footer: string,
    footerIcon: string,
    ts: int)

  datatype OldMessage = OldMessage(username: string, iconUrl: string, channel: string, attachments: seq<OldAttachment>)

  /** The text `run` builds: the status line, then the head commit's short id and message. */
  function OldText(inputs: RunInputs, jobStatus: string, commit: HeadCommit): (r: string)
    ensures StartsWith(r, "*<" + commit.url + "/checks|Workflow _" + inputs.workflow + "_ ")
    ensures EndsWith(r, "<" + commit.url + "|`" + Take(commit.id, 8) + "`> - " + commit.message)
    ensures r == "*<" + commit.url + "/checks|Workflow _" + inputs.workflow + "_ " +
                 "job _" + inputs.jobName + "_ triggered by _" + inputs.eventName + "_ is _" + jobStatus + "_> " +
                 "for <" + inputs.compare + "|`" + StripHeads(inputs.ref) + "`>*\n" +
                 "<" + commit.url + "|`" + Take(commit.id, 8) + "`> - " + commit.message
  {
    "*<" + commit.url + "/checks|Workflow _" + inputs.workflow + "_ " +
    "job _" + inputs.jobName + "_ triggered by _" + inputs.eventName + "_ is _" + jobStatus + "_> " +
    "for <" + inputs.compare + "|`" + StripHeads(inputs.ref) + "`>*\n" +
    "<" + commit.url + "|`" + Take(commit.id, 8) + "`> - " + commit.message
  }

  const OldUsername := "GitHub Action"
  const OldIconUrl := "https://octodex.github.com/images/original.png"
  const OldFooterIcon := "https://github.githubassets.com/favicon.ico"

  /**
   * `run` up to the webhook call; an empty `status` input or a missing payload object throws
   * and is reported as a failure.
   */
  method Run(inputs: RunInputs) returns (r: Result<OldMessage, JsError>)
    ensures r.Err? <==> inputs.status == "" || inputs.headCommit.None? || inputs.repository.None? || inputs.sender.None?
    ensures inputs.status == "" ==> r == Err(InputRequired("status"))
    ensures r.Ok? ==> |r.value.attachments| == 1
    ensures r.Ok? ==> r.value.attachments[0].color == OldJobColor(Upper(inputs.status))
    ensures r.Ok? ==>
              r.value.attachments[0].fallback == "[GitHub]: [" + inputs.repository.value.fullName + "] " +
                                                 inputs.workflow + " " + inputs.eventName + " " + Upper(inputs.status)
    ensures r.Ok? ==> (r.value.attachments[0].fields == [] <==> inputs.steps == [])
    ensures r.Ok? && inputs.steps != [] ==>
              r.value.attachments[0].fields == [OldField("Job Steps", Join(StepLines(inputs.steps), "\n"), false)]
    ensures r.Ok? ==> r.value.attachments[0].text == OldText(inputs, Upper(inputs.status), inputs.headCommit.value)
    ensures r.Ok? ==>
              && r.value.attachments[0].authorName == inputs.sender.value.login
              && r.value.attachments[0].authorLink == inputs.sender.value.htmlUrl
              && r.value.attachments[0].authorIcon == inputs.sender.value.avatarUrl
    ensures r.Ok? ==> r.value.attachments[0].mrkdwnIn == ["text"]
    ensures r.Ok? ==>
              r.value.attachments[0].footer == "<" + inputs.repository.value.htmlUrl + "|" + inputs.repository.value.fullName + ">"
    ensures r.Ok? ==> r.value.attachments[0].footerIcon == OldFooterIcon
    ensures r.Ok? ==> r.value.attachments[0].ts == inputs.repository.value.pushedAt
    ensures r.Ok? ==> r.value.username == OldUsername && r.value.iconUrl == OldIconUrl && r.value.channel == inputs.channel
  {
    if inputs.status == "" {
      return Err(InputRequired("status"));
    }
    var jobStatus := Upper(inputs.status);
    if inputs.headCommit.None? {
      return Err(TypeError("url"));
    }
    var text := OldText(inputs, jobStatus, inputs.headCommit.value);
    var checks := BuildChecks(inputs.steps);
    var fields := BuildFields(checks);
    if inputs.repository.None? {
      return Err(TypeError("full_name"));
    }
    if inputs.sender.None? {
      return Err(TypeError("login"));
    }
    var repository := inputs.repository.value;
    var sender := inputs.sender.value;
    assert checks == StepLines(inputs.steps);
    var attachment := OldAttachment(
      "[GitHub]: [" + repository.fullName + "] " + inputs.workflow + " " + inputs.eventName + " " + jobStatus,
      OldJobColor(jobStatus), sender.login, sender.htmlUrl, sender.avatarUrl, ["text"], text, fields,
      "<" + repository.htmlUrl + "|" + repository.fullName + ">",
      OldFooterIcon, repository.pushedAt);
    r := Ok(OldMessage(OldUsername, OldIconUrl, inputs.channel, [attachment]));
  }

  /** The checklist lines, as a value: icon, a space, and the step name. */
  function StepLines(steps: seq<(string, string)>): (r: seq<string>)
    ensures |r| == |steps|
    ensures forall i :: 0 <= i < |steps| ==> r[i] == OldStepIcon(steps[i].1) + " " + steps[i].0
    ensures forall i :: 0 <= i < |steps| ==> EndsWith(r[i], " " + steps[i].0)
    ensures forall i :: 0 <= i < |steps| ==> StartsWith(r[i], OldStepIcon(steps[i].1))
  {
    seq(|steps|, i requires 0 <= i < |steps| => OldStepIcon(steps[i].1) + " " + steps[i].0)
  }
}
