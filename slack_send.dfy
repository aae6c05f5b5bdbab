/**
 * Payload assembly in `send` (src/slack.ts): the default templates, the field and block
 * lists, the attachments and the top-level defaults. Templates stay template text; the
 * draft carries the data record they are rendered against.
 */
module SlackSend {
  import opened Wrappers
  import opened Text
  import opened Js
  import opened SlackStatus
  import opened SlackGuards
  import opened SlackFields
  import opened SlackContext

  const DefaultUsername := "GitHub Actions"
  const DefaultIconUrl := "https://octodex.github.com/images/original.png"
  const DefaultFooterIcon := "https://github.githubassets.com/favicon.ico"

  /** A configured block: its `type` and the rest of its keys (other than `if`) as JSON text. */
  datatype Block = Block(blockType: string, body: string)

  type BlockSpec = Guarded<Block>

  /** The user configuration (`opts`); every key is optional. */
  datatype Config = Config(
    username: Option<string>,
    iconUrl: Option<string>,
    pretext: Option<string>,
    title: Option<string>,
    titleLink: Option<string>,
    text: Option<string>,
    fallback: Option<string>,
    fields: Option<seq<FieldSpec>>,
    blocks: Option<seq<BlockSpec>>,
    footer: Option<string>,
    colors: ColorOptions,
    icons: IconOptions)

  /** No configuration at all. */
  const EmptyConfig := Config(None, None, None, None, None, None, None, None, None, None, NoColors, NoIcons)

  /** Everything one call of `send` depends on, with the clock reading made explicit. */
  datatype Request = Request(
    env: RunEnv,
    payload: Payload,
    nowMillis: int,
    jobName: string,
    jobStatus: string,
    jobSteps: seq<(string, string)>,
    jobMatrix: seq<(string, string)>,
    channel: Option<string>,
    message: Option<string>,
    opts: Config)

  /** The data record every template is rendered against. */
  datatype TemplateData = TemplateData(
    env: RunEnv,
    payload: Option<Payload>,
    jobName: string,
    jobStatus: string,
    jobSteps: seq<(string, string)>,
    jobMatrix: seq<(string, string)>,
    eventName: string,
    workflow: string,
    workflowUrl: string,
    workflowRunUrl: string,
    repositoryName: string,
    repositoryUrl: string,
    runId: string,
    runNumber: string,
    sha: string,
    shortSha: string,
    branch: string,
    actor: string,
    action: Option<string>,
    ref: string,
    refType: Option<string>,
    refUrl: string,
    diffRef: string,
    diffUrl: Option<string>,
    description: Option<string>,
    sender: Option<Sender>,
    ts: int)

  /** The classic attachment, and the second attachment that carries the blocks. */
  datatype Attachment =
    | Classic(
        mrkdwnIn: seq<string>,
        color: string,
        pretext: string,
        author: Option<Sender>,
        title: string,
        titleLink: Option<string>,
        text: string,
        fields: seq<Field>,
        fallback: string,
        footer: string,
        footerIcon: string,
        ts: string)
    | WithBlocks(color: string, fallback: string, blocks: seq<Block>)

  /** The message handed to the webhook, with its templates still unrendered, and their data. */
  datatype Draft = Draft(
    username: string,
    iconUrl: string,
    channel: Option<string>,
    attachments: seq<Attachment>,
    data: TemplateData)

  /** The first line of the default text: workflow, job, event and status, and the ref. */
  const TextHeadline :=
    "*<{{{workflowUrl}}}|Workflow _{{workflow}}_ " +
    "job _{{jobName}}_ triggered by _{{eventName}}_ is _{{jobStatus}}_>* " +
    "for <{{refUrl}}|`{{ref}}`>\n"

  /** The second line of the default text: the diff link and the description. */
  const DiffLine := "<{{diffUrl}}|`{{diffRef}}`> - {{{description}}}"

  /** The default text template; the diff line is there only when a description is. */
  function DefaultText(description: Option<string>): (r: string)
    ensures StartsWith(r, TextHeadline)
    ensures r == TextHeadline <==> !Present(description)
    ensures Present(description) ==> r == TextHeadline + DiffLine
  {
    TextHeadline + (if Present(description) then DiffLine else "")
  }

  /** The text template: the ad-hoc message, else the configured text, else the default. */
  function TextTemplate(message: Option<string>, text: Option<string>, description: Option<string>): (r: string)
    ensures Present(message) ==> r == message.value
    ensures !Present(message) && Present(text) ==> r == text.value
    ensures !Present(message) && !Present(text) ==> r == DefaultText(description)
  {
    OrElse(message, OrElse(text, DefaultText(description)))
  }

  const FallbackHead := "[GitHub]: [{{repositoryName}}] {{workflow}} {{eventName}} "
  const FallbackTail := "{{jobStatus}}"
  const ActionSlot := "{{action}} "

  /** The default fallback template; the action slot is there only when the action is truthy. */
  function DefaultFallback(action: Option<string>): (r: string)
    ensures StartsWith(r, FallbackHead) && EndsWith(r, FallbackTail)
    ensures Present(action) ==> r == FallbackHead + ActionSlot + FallbackTail
    ensures !Present(action) ==> r == FallbackHead + FallbackTail
  {
    FallbackHead + (if Present(action) then ActionSlot else "") + FallbackTail
  }

  /** Only whether there is an action matters to the default fallback, never its text. */
  lemma DefaultFallbackOnlyTestsAction(a: Option<string>, b: Option<string>)
    requires Present(a) == Present(b)
    ensures DefaultFallback(a) == DefaultFallback(b)
  {
  }

  const DefaultFooter := "<{{repositoryUrl}}|{{repositoryName}}> #{{runNumber}}"

  /** The default field list, as a value. */
  function DefaultFieldList(jobSteps: seq<(string, string)>, jobMatrix: seq<(string, string)>): (r: seq<FieldSpec>)
    ensures JobStepsField in r <==> |jobSteps| > 0
    ensures JobMatrixField in r <==> |jobMatrix| > 0
    ensures |r| == (if |jobSteps| > 0 then 1 else 0) + (if |jobMatrix| > 0 then 1 else 0)
    ensures |r| == 2 ==> r == [JobStepsField, JobMatrixField]
  {
    (if |jobSteps| > 0 then [JobStepsField] else []) + (if |jobMatrix| > 0 then [JobMatrixField] else [])
  }

  /** Every default field is guarded by `always()` and is not short. */
  lemma DefaultFieldsAlwaysLong(jobSteps: seq<(string, string)>, jobMatrix: seq<(string, string)>)
    ensures forall f :: f in DefaultFieldList(jobSteps, jobMatrix) ==>
              f.guard == Some(Always) && f.item.short == Some(ShortBool(false))
  {
  }

  /** `opts?.fields || defaultFields`: a configured list, even an empty one, replaces the defaults. */
  function ChosenFields(req: Request): (r: seq<FieldSpec>)
    ensures req.opts.fields.Some? ==> r == req.opts.fields.value
    ensures req.opts.fields.None? ==> r == DefaultFieldList(req.jobSteps, req.jobMatrix)
  {
    if req.opts.fields.Some? then req.opts.fields.value else DefaultFieldList(req.jobSteps, req.jobMatrix)
  }

  /** The data record `send` renders its templates against. */
  function Data(req: Request, ctx: EventContext): (r: TemplateData)
    ensures r.payload == ctx.payload && r.action == ctx.action && r.ref == ctx.ref && r.refUrl == ctx.refUrl
    ensures r.diffRef == ctx.diffRef && r.diffUrl == ctx.diffUrl
    ensures r.description == ctx.description && r.sender == ctx.sender
    ensures r.repositoryUrl == RepositoryUrl(req.env)
    ensures r.workflowUrl == WorkflowUrl(req.env) && r.workflowRunUrl == WorkflowRunUrl(req.env)
    ensures StartsWith(r.workflowUrl, r.repositoryUrl) && StartsWith(r.workflowRunUrl, r.repositoryUrl)
    ensures r.env == req.env && r.eventName == req.env.eventName && r.workflow == req.env.workflow
    ensures r.repositoryName == req.env.repository && r.runId == req.env.runId && r.runNumber == req.env.runNumber
    ensures r.sha == req.env.sha && r.actor == req.env.actor && r.refType == req.env.refType
    ensures r.shortSha == ShortSha(req.env) && r.branch == Branch(req.env)
    ensures r.ts == Timestamp(req.nowMillis)
    ensures r.jobName == req.jobName && r.jobStatus == req.jobStatus
    ensures r.jobSteps == req.jobSteps && r.jobMatrix == req.jobMatrix
  {
    TemplateData(req.env, ctx.payload, req.jobName, req.jobStatus, req.jobSteps, req.jobMatrix,
                 req.env.eventName, req.env.workflow, WorkflowUrl(req.env), WorkflowRunUrl(req.env),
                 req.env.repository, RepositoryUrl(req.env), req.env.runId, req.env.runNumber,
                 req.env.sha, ShortSha(req.env), Branch(req.env), req.env.actor, ctx.action, ctx.ref,
                 req.env.refType, ctx.refUrl, ctx.diffRef, ctx.diffUrl, ctx.description, ctx.sender,
                 Timestamp(req.nowMillis))
  }

  /** The complete outcome of `send` before rendering and delivery. */
  function Assemble(req: Request): (r: Result<Draft, JsError>)
    ensures r.Err? <==>
      Resolve(req.env, req.payload).Err? || ParseFields(Filter(ChosenFields(req), req.jobStatus)).Err?
    ensures r.Ok? ==> |r.value.attachments| == if req.opts.blocks.Some? then 2 else 1
    ensures r.Ok? ==> r.value.attachments[0].Classic?
    ensures r.Ok? ==> r.value.attachments[0].color == JobColor(req.jobStatus, req.opts.colors)
    ensures r.Ok? ==> r.value.attachments[0].fields == ParseFields(Filter(ChosenFields(req), req.jobStatus)).value
    ensures r.Ok? ==>
              r.value.attachments[0].text == TextTemplate(req.message, req.opts.text, Resolve(req.env, req.payload).value.description)
    ensures r.Ok? ==> r.value.attachments[0].author == Resolve(req.env, req.payload).value.sender
    ensures r.Ok? ==>
              r.value.attachments[0].fallback == OrElse(req.opts.fallback, DefaultFallback(Resolve(req.env, req.payload).value.action))
    ensures r.Ok? ==> r.value.attachments[0].footer == OrElse(req.opts.footer, DefaultFooter)
    ensures r.Ok? ==> r.value.attachments[0].pretext == OrElse(req.opts.pretext, "")
    ensures r.Ok? ==> r.value.attachments[0].title == OrElse(req.opts.title, "")
    ensures r.Ok? ==> r.value.attachments[0].ts == IntToString(r.value.data.ts)
    ensures r.Ok? ==> r.value.data == Data(req, Resolve(req.env, req.payload).value)
    ensures r.Ok? ==> r.value.data.ts == Timestamp(req.nowMillis)
    ensures r.Ok? ==> r.value.attachments[0].titleLink == req.opts.titleLink
    ensures r.Ok? ==> r.value.attachments[0].footerIcon == DefaultFooterIcon
    ensures r.Ok? ==> r.value.attachments[0].mrkdwnIn == ["pretext", "text", "fields"]
    ensures r.Ok? && req.opts.blocks.Some? ==>
              r.value.attachments[1] == WithBlocks(r.value.attachments[0].color, r.value.attachments[0].fallback,
                                                    Filter(req.opts.blocks.value, req.jobStatus))
    ensures r.Ok? ==> r.value.username == OrElse(req.opts.username, DefaultUsername)
    ensures r.Ok? ==> r.value.iconUrl == OrElse(req.opts.iconUrl, DefaultIconUrl)
    ensures r.Ok? ==> r.value.channel == req.channel
  {
    match Resolve(req.env, req.payload)
    case Err(e) => Err(e)
    case Ok(ctx) => AssembleIn(req, ctx)
  }

  /** The statements of `send` after the event switch: parse the surviving fields, then build on them. */
  function AssembleIn(req: Request, ctx: EventContext): Result<Draft, JsError>
  {
    match ParseFields(Filter(ChosenFields(req), req.jobStatus))
    case Err(e) => Err(e)
    case Ok(fields) => Ok(Build(req, ctx, fields))
  }

  /** The draft `send` builds once the context is resolved and the fields are parsed. */
  function Build(req: Request, ctx: EventContext, fields: seq<Field>): (r: Draft)
    ensures |r.attachments| == if req.opts.blocks.Some? then 2 else 1
    ensures r.attachments[0] == Classic(
      ["pretext", "text", "fields"], JobColor(req.jobStatus, req.opts.colors), OrElse(req.opts.pretext, ""),
      ctx.sender, OrElse(req.opts.title, ""), req.opts.titleLink, TextTemplate(req.message, req.opts.text, ctx.description),
      fields, OrElse(req.opts.fallback, DefaultFallback(ctx.action)), OrElse(req.opts.footer, DefaultFooter),
      DefaultFooterIcon, IntToString(Timestamp(req.nowMillis)))
    ensures req.opts.blocks.Some? ==>
              r.attachments[1] == WithBlocks(r.attachments[0].color, r.attachments[0].fallback,
                                             Filter(req.opts.blocks.value, req.jobStatus))
    ensures r.data == Data(req, ctx) && r.data.ts == Timestamp(req.nowMillis)
    ensures r.username == OrElse(req.opts.username, DefaultUsername)
    ensures r.iconUrl == OrElse(req.opts.iconUrl, DefaultIconUrl)
    ensures r.channel == req.channel
  {
    var data := Data(req, ctx);
    var color := JobColor(req.jobStatus, req.opts.colors);
    var fallback := OrElse(req.opts.fallback, DefaultFallback(ctx.action));
    var classic := Classic(
      ["pretext", "text", "fields"], color, OrElse(req.opts.pretext, ""), ctx.sender,
      OrElse(req.opts.title, ""), req.opts.titleLink, TextTemplate(req.message, req.opts.text, ctx.description),
      fields, fallback, OrElse(req.opts.footer, DefaultFooter), DefaultFooterIcon, IntToString(data.ts));
    var blocks := if req.opts.blocks.Some? then [WithBlocks(color, fallback, Filter(req.opts.blocks.value, req.jobStatus))] else [];
    Draft(OrElse(req.opts.username, DefaultUsername), OrElse(req.opts.iconUrl, DefaultIconUrl),
          req.channel, [classic] + blocks, data)
  }

  /** `defaultFields`, built by conditional pushes. */
  method DefaultFields(jobSteps: seq<(string, string)>, jobMatrix: seq<(string, string)>)
    returns (fields: seq<FieldSpec>)
    ensures fields == DefaultFieldList(jobSteps, jobMatrix)
  {
    fields := [];
    if |jobSteps| > 0 {
      fields := fields + [JobStepsField];
    }
    if |jobMatrix| > 0 {
      fields := fields + [JobMatrixField];
    }
  }

  /** The body of `send` up to the webhook call: resolve the event context, then build on it. */
  method Send(req: Request) returns (r: Result<Draft, JsError>)
    ensures r == Assemble(req)
  {
    var ctx := ResolveContext(req.env, req.payload);
    if ctx.Err? {
      return Err(ctx.error);
    }
    r := SendInContext(req, ctx.value);
  }

  /** The statements of `send` after the event switch, one by one. */
  method SendInContext(req: Request, ctx: EventContext) returns (r: Result<Draft, JsError>)
    ensures r == AssembleIn(req, ctx)
  {
    var defaultFields := DefaultFields(req.jobSteps, req.jobMatrix);
    var fields := FilterFields(if req.opts.fields.Some? then req.opts.fields.value else defaultFields, req.jobStatus);
    assert fields == ParseFields(Filter(ChosenFields(req), req.jobStatus));
    if fields.Err? {
      return Err(fields.error);
    }
    var attachments := Attachments(req, ctx, fields.value);
    r := Ok(Draft(OrElse(req.opts.username, DefaultUsername), OrElse(req.opts.iconUrl, DefaultIconUrl),
                  req.channel, attachments, Data(req, ctx)));
  }

  /** The `attachments` array of the payload: the classic attachment, then the blocks attachment if configured. */
  method Attachments(req: Request, ctx: EventContext, fields: seq<Field>) returns (attachments: seq<Attachment>)
    ensures attachments == Build(req, ctx, fields).attachments
  {
    var opts := req.opts;
    var pretext := OrElse(opts.pretext, "");
    var title := OrElse(opts.title, "");
    var text := TextTemplate(req.message, opts.text, ctx.description);
    var fallback := OrElse(opts.fallback, DefaultFallback(ctx.action));
    var footer := OrElse(opts.footer, DefaultFooter);
    var data := Data(req, ctx);
    var blocks := FilterGuarded(if opts.blocks.Some? then opts.blocks.value else [], req.jobStatus);
    attachments := [Classic(["pretext", "text", "fields"], JobColor(req.jobStatus, opts.colors), pretext,
                            ctx.sender, title, opts.titleLink, text, fields, fallback, footer,
                            DefaultFooterIcon, IntToString(data.ts))];
    if opts.blocks.Some? {
      attachments := attachments + [WithBlocks(JobColor(req.jobStatus, opts.colors), fallback, blocks)];
    }
  }

  /** A configured field list, even an empty one, replaces the default Job Steps and Job Matrix fields. */
  lemma ConfiguredFieldsReplaceDefaults(req: Request)
    requires req.opts.fields == Some([])
    requires Resolve(req.env, req.payload).Ok?
    ensures Assemble(req).Ok?
    ensures Assemble(req).value.attachments[0].fields == []
  {
  }

  /**
   * With no configuration, no steps, no matrix and no ad-hoc message, an event whose context
   * has no description yields no fields and the one-line default text.
   */
  lemma EmptyInputsGiveBareDefaults(req: Request)
    requires req.opts == EmptyConfig && req.jobSteps == [] && req.jobMatrix == [] && req.message.None?
    requires Resolve(req.env, req.payload).Ok? && Resolve(req.env, req.payload).value.description.None?
    ensures Assemble(req).Ok?
    ensures Assemble(req).value.attachments[0].fields == []
    ensures Assemble(req).value.attachments[0].text == TextHeadline
    ensures |Assemble(req).value.attachments| == 1
    ensures Assemble(req).value.username == "GitHub Actions"
  {
  }

  /** The default field list of a job with steps parses, with the Job Steps field first, whatever the status. */
  lemma DefaultFieldsParseStepsFirst(jobSteps: seq<(string, string)>, jobMatrix: seq<(string, string)>, status: string)
    requires |jobSteps| > 0
    ensures ParseFields(Filter(DefaultFieldList(jobSteps, jobMatrix), status)).Ok?
    ensures |ParseFields(Filter(DefaultFieldList(jobSteps, jobMatrix), status)).value| > 0
    ensures ParseFields(Filter(DefaultFieldList(jobSteps, jobMatrix), status)).value[0] ==
              Field(JobStepsTitle, JobStepsField.item.value, false)
  {
    DefaultFieldsParse(jobSteps, jobMatrix, status);
    DefaultStepsKeptFirst(jobSteps, jobMatrix, status);
    assert ParseShort(JobStepsField.item.short) == Ok(false);
  }

  /** Every kept default field has a boolean `short` flag, so the default list always parses. */
  lemma DefaultFieldsParse(jobSteps: seq<(string, string)>, jobMatrix: seq<(string, string)>, status: string)
    ensures ParseFields(Filter(DefaultFieldList(jobSteps, jobMatrix), status)).Ok?
  {
    var specs := DefaultFieldList(jobSteps, jobMatrix);
    var kept := Filter(specs, status);
    DefaultFieldsAlwaysLong(jobSteps, jobMatrix);
    forall i | 0 <= i < |kept|
      ensures ParseShort(kept[i].short).Ok?
    {
      assert kept[i] in kept;
      FilterMembers(specs, status, kept[i]);
      var j :| 0 <= j < |specs| && specs[j].item == kept[i] && Keeps(specs[j].guard, status);
      assert specs[j] in specs;
    }
  }

  /** With steps, the Job Steps field is kept, and kept first. */
  lemma DefaultStepsKeptFirst(jobSteps: seq<(string, string)>, jobMatrix: seq<(string, string)>, status: string)
    requires |jobSteps| > 0
    ensures |Filter(DefaultFieldList(jobSteps, jobMatrix), status)| > 0
    ensures Filter(DefaultFieldList(jobSteps, jobMatrix), status)[0] == JobStepsField.item
  {
    var specs := DefaultFieldList(jobSteps, jobMatrix);
    assert specs == [JobStepsField] + specs[1..];
    FilterAppend([JobStepsField], specs[1..], status);
    FilterSnoc([], JobStepsField, status);
    assert [] + [JobStepsField] == [JobStepsField];
  }

  /** With the default fields, a job with steps always gets its Job Steps field first, whatever its status. */
  lemma DefaultJobStepsAlwaysShown(req: Request)
    requires req.opts.fields.None? && |req.jobSteps| > 0
    requires Resolve(req.env, req.payload).Ok?
    ensures Assemble(req).Ok?
    ensures |Assemble(req).value.attachments[0].fields| > 0
    ensures Assemble(req).value.attachments[0].fields[0] == Field(JobStepsTitle, JobStepsField.item.value, false)
  {
    DefaultFieldsParseStepsFirst(req.jobSteps, req.jobMatrix, req.jobStatus);
    assert ChosenFields(req) == DefaultFieldList(req.jobSteps, req.jobMatrix);
  }
}
