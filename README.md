# Slack notification assembly, modelled in Dafny

This project models the notification-assembly core of the `act10ns/slack` GitHub Action: the
part that turns a workflow run (its environment, the event payload, the job status, steps and
matrix, and the user's configuration) into the message posted to a Slack incoming webhook.
It covers:

- the status colour and step icon tables. There are two versions of each: the case-insensitive
  ones with user overrides in `src/slack.ts` and the older case-sensitive ones in `src/main.ts`;
- the body of `send` in `src/slack.ts` up to the webhook call. This covers the event switch
  that derives `ref`, `refUrl`, `diffRef`, `diffUrl`, `description`, `sender` and `action`; the
  default text, fallback and footer templates; the default field list; the `if`-guard
  filtering of fields and blocks; the parsing of each field's `short` flag; and the one or two
  attachments with the top-level defaults;
- the template helpers registered in `src/handlebars.ts`: `truncate`, `default`, `pluralize`,
  `eq`, `neq`, `not`, `and`, `or`, `ifeq`, `ifneq`;
- the older `run` of `src/main.ts`, which builds the step checklist, the Job Steps field, the
  fallback and the text.

Templates stay template text. Rendering them is the template engine's job, and the engine is
not part of this model. The `Draft` that `send` produces therefore carries the template
strings together with the data record that the pretext, title, text, fallback, fields and
footer templates would be rendered against. The blocks are rendered against that record
extended with the rendered attachment texts; the `Draft` does not carry that extended record.

Module layout, one file per module:

| file | module | what |
|---|---|---|
| `wrappers.dfy` | `Wrappers` | `Option`, `Result` |
| `text.dfy` | `Text` | the `String.prototype` operations used: case mapping, `startsWith`, `slice`, `replace`, `join`, number printing |
| `js.dfy` | `Js` | JavaScript values, truthiness, `===`, `x \|\| d` on optional strings, thrown errors |
| `handlebars_helpers.dfy` | `HandlebarsHelpers` | the helper bodies |
| `slack_status.dfy` | `SlackStatus` | `jobColor`, `stepIcon` of `src/slack.ts` |
| `slack_guards.dfy` | `SlackGuards` | the `if` guard rule and the order-preserving filter loop |
| `slack_fields.dfy` | `SlackFields` | field specs, `short` parsing, the field filter loop, the two default fields |
| `slack_context.dfy` | `SlackContext` | run environment, event payload, the event switch, the timestamp |
| `slack_send.dfy` | `SlackSend` | default templates and fields, attachments, the whole of `send` |
| `main_run.dfy` | `MainRun` | `src/main.ts` |

JavaScript behaviour is written out explicitly:

- `x || d` on an optional string replaces both a missing and an empty string (`Js.OrElse`).
- `String.prototype.replace` with a string pattern replaces only the first occurrence
  (`Text.ReplaceFirst`).
- `Math.round` of a millisecond reading divided by 1000 rounds halves up (`SlackContext.Timestamp`).
- A property read on `undefined` becomes a `TypeError` result, and `JSON.parse` of a bad text
  becomes a `SyntaxError` result. An empty required action input (`status` in `run`) becomes an
  `InputRequired` result. `send` and `run` return a `Result` accordingly.
- A missing value printed into a template literal reads `undefined` (`Js.Show`). For example, a
  pull request without a number gets ref `#undefined`.

Notable behaviour of the code, which the model keeps:

- **Guards.** A field or block guard is kept when it equals `always()` or when the guard
  *starts with* the lower-cased job status. The guard itself is not lower-cased (slack.ts:266,
  321). So `if: Failure` is dropped for status `failure`, `if: failure` is kept for status
  `fail`, and an empty status keeps everything. `SlackGuards.GuardExamples` pins these cases.
- **Timestamp.** `ts` is always the clock reading at the start of `send`. The per-event
  payload timestamps exist only as commented-out code (slack.ts:178, 190, 200).
- **Default username.** It is `GitHub Actions` (slack.ts:8). `GitHub Action`, without the `s`,
  is the username of the older `run` in `src/main.ts`.

## Model

| member | source | states |
|---|---|---|
| Text.Lower | src/slack.ts:20-22 | `toLowerCase` keeps the length and lower-cases every ASCII letter in place |
| Text.Upper | src/main.ts:24 | `toUpperCase` keeps the length and upper-cases every ASCII letter in place |
| Text.Take | src/slack.ts:151 | `slice(0, n)` is a prefix of the text of length min(n, length) |
| Text.NatToString | src/slack.ts:358 | the printed number is a non-empty run of decimal digits without a leading zero |
| Text.NatToStringValue | src/slack.ts:358 | reading the printed digits back yields the number, so the text is its decimal numeral |
| Text.IntToString | src/slack.ts:358 | `${i}` of an integer: a leading `-` exactly for negative numbers, followed by the decimal numeral of the magnitude |
| Text.IntToStringInjective | src/slack.ts:358 | distinct integers print as distinct texts, so the printed `ts` determines the timestamp |
| Text.ReplaceFirst | src/slack.ts:152 | `replace` with a string pattern at the start of the text substitutes exactly that prefix |
| Text.ReplaceFirstAt | src/slack.ts:152 | the first occurrence of the pattern, wherever it is, is replaced and the rest is kept |
| Text.ReplaceFirstLength | src/slack.ts:152 | at most one occurrence is replaced: the text is unchanged or its length moves by the length difference once |
| Text.StripHeads | src/slack.ts:196 | a leading `refs/heads/` is removed; otherwise at most one occurrence is removed |
| Text.Join | src/main.ts:53 | `join` of no strings is empty; the result starts with the first and ends with the last string, and its length is theirs plus one separator between each pair |
| Text.JoinSnoc | src/main.ts:53 | joining one more string appends the separator and that string, so every part and separator of `join` is in place, in order |
| Text.LowerIdempotent | src/slack.ts:20-22 | lower-casing twice is lower-casing once, so it is a normal form for the case-insensitive comparisons |
| Text.StripHeadsOfBranch | src/slack.ts:196 | `ref.replace('refs/heads/', '')` of a branch ref yields exactly the branch name |
| Text.ReplaceFirstAbsent | src/slack.ts:152 | a ref that does not contain `refs/heads/` is left unchanged |
| Js.Truthy | src/handlebars.ts:8 | the falsy values are exactly undefined, null, `false`, `0` and `''` |
| Js.StrictEquals | src/handlebars.ts:21 | arrays and objects are equal by identity only, never equal to a value of another kind; other values by value |
| Js.Show | src/slack.ts:184 | a present value prints as itself, a missing one as `undefined` |
| Js.OrElse | src/slack.ts:371-372 | `o \|\| d` yields `o` when it is a non-empty string and `d` when it is missing or empty |
| Js.StrictEqualsEquivalence | src/handlebars.ts:21 | `===` on the modelled values is reflexive, symmetric and transitive |
| HandlebarsHelpers.Truncate | src/handlebars.ts:6 | `truncate` succeeds exactly on strings; the result is the prefix of length min(size, length), clamped at 0 |
| HandlebarsHelpers.TruncateTwice | src/handlebars.ts:6 | truncating twice is truncating once to the smaller size |
| HandlebarsHelpers.Default | src/handlebars.ts:8 | `default` keeps `want` when it is truthy, `0` or `false`, and yields `fallback` for undefined, null and `''`; it yields one of the two |
| HandlebarsHelpers.DefaultKeepsExactlyPresent | src/handlebars.ts:8 | `default` replaces exactly undefined, null and the empty string |
| HandlebarsHelpers.DefaultIdempotent | src/handlebars.ts:8 | defaulting again with the same fallback changes nothing; a kept fallback always gives a kept result |
| HandlebarsHelpers.PluralCount | src/handlebars.ts:11 | the count is the number itself or the `length` (of a string or array); it throws exactly on undefined and null |
| HandlebarsHelpers.Pluralize | src/handlebars.ts:10-18 | `no <plural>` for 0, `1 <singular>` for 1, `<count> <plural>` otherwise, `undefined <plural>` without a length; it throws exactly on undefined and null |
| HandlebarsHelpers.PluralNouns | src/handlebars.ts:12-13 | no user arguments gives item/items; one gives it and it + `s`; two give singular and plural; more than two fall back to singular + `s` |
| HandlebarsHelpers.PluralizeExamples | src/handlebars.ts:10-18 | `no items`, `7 attempts`, `1 commit`, `4 attendees`, `4 people` for the unit tests' inputs |
| HandlebarsHelpers.Eq | src/handlebars.ts:21 | `eq` is a boolean that is true iff `a === b` |
| HandlebarsHelpers.Neq | src/handlebars.ts:23 | `neq` is a boolean that is true iff `a !== b` |
| HandlebarsHelpers.NeqIsNotEq | src/handlebars.ts:21-23 | `neq` is exactly `not` of `eq` |
| HandlebarsHelpers.Not | src/handlebars.ts:26 | `not` is a boolean that is true iff its operand is falsy |
| HandlebarsHelpers.And | src/handlebars.ts:28 | `and` returns a falsy first operand itself and otherwise the second, so it is truthy iff both are |
| HandlebarsHelpers.Or | src/handlebars.ts:30 | `or` returns a truthy first operand itself and otherwise the second, so it is truthy iff either is |
| HandlebarsHelpers.BooleanTables | src/handlebars.ts:26-30 | on booleans the helpers are the truth tables; `and (not false) (or true false)` is true |
| HandlebarsHelpers.DeMorgan | src/handlebars.ts:26-30 | De Morgan's laws hold for the truthiness of any operands |
| HandlebarsHelpers.IfEq | src/handlebars.ts:33-35 | `#ifeq` renders the main block iff `a === b`, else the inverse |
| HandlebarsHelpers.IfNeq | src/handlebars.ts:37-39 | `#ifneq` renders the main block iff `a !== b`, else the inverse |
| HandlebarsHelpers.IfNeqSwapsIfEq | src/handlebars.ts:33-39 | `#ifneq` is `#ifeq` with its blocks exchanged; on equal operands `#ifeq` renders the main block |
| SlackStatus.JobColor | src/slack.ts:19-24 | the colour is never empty; an unknown status gives the `default` override or silver `#C0C0C0` |
| SlackStatus.JobColorByTable | src/slack.ts:19-24 | the lower-cased status selects success, failure or cancelled; a non-empty override wins over good, danger or warning |
| SlackStatus.JobColorCaseInsensitive | src/slack.ts:20-22 | statuses equal up to case get the same colour |
| SlackStatus.JobColorEmptyOverride | src/slack.ts:20-23 | an empty-string override behaves as a missing one |
| SlackStatus.StepIcon | src/slack.ts:34-40 | a known outcome gives its non-empty override or its builtin icon; any other outcome gives `:grey_question: ` plus the outcome as written |
| SlackStatus.StepIconIgnoresDefault | src/slack.ts:34-39 | the `default` icon override is never consulted |
| SlackStatus.StepIconShowsUnknown | src/slack.ts:39 | an unknown outcome's icon starts with `:grey_question: ` and ends with the outcome |
| SlackStatus.StepIconCaseInsensitive | src/slack.ts:35-38 | known outcomes equal up to case get the same icon |
| SlackGuards.GuardText | src/slack.ts:265 | a missing or empty guard reads as `always()`; any other guard is used as written |
| SlackGuards.Keeps | src/slack.ts:265-266 | no guard, an empty guard and `always()` keep the entry; any other guard keeps it iff the guard starts with the lower-cased status |
| SlackGuards.Filter | src/slack.ts:319-325 | the kept entries are at most as many as the input, and all are kept iff every guard matches |
| SlackGuards.FilterSnoc | src/slack.ts:319-325 | one more entry adds its item at the end exactly when its guard matches |
| SlackGuards.FilterGuarded | src/slack.ts:318-326 | the push loop yields exactly the guard-filtered items, in order, without their guards |
| SlackGuards.FilterAppend | src/slack.ts:264-272 | filtering distributes over concatenation, so kept entries keep their relative order |
| SlackGuards.FilterMembers | src/slack.ts:265-266 | an item is kept iff some entry carrying it passes its guard |
| SlackGuards.FilterEmptyStatusKeepsAll | src/slack.ts:266 | with an empty status every entry is kept |
| SlackGuards.FilterStatusCaseInsensitive | src/slack.ts:266 | statuses equal up to case keep the same entries |
| SlackGuards.GuardExamples | src/slack.ts:265-266 | no guard and `always()` keep; `failure` matches `failure` and `FAILURE` but not `success`; `Failure` does not match `failure`; `failure` matches `fail` |
| SlackFields.ParseJsonBool | src/slack.ts:270 | the model of `JSON.parse` for a flag accepts exactly `true` (giving true) and `false` (giving false); anything else is a syntax error carrying the text |
| SlackFields.ParseShort | src/slack.ts:270 | a boolean `short` is kept; a missing one throws a type error; text is parsed as JSON, so `'true'` gives true and `'false'` gives false |
| SlackFields.ParseField | src/slack.ts:267-271 | one kept field converts iff its `short` flag parses, keeping title and value; otherwise it fails with the flag's error |
| SlackFields.ParseFields | src/slack.ts:267-271 | the fields parse iff every `short` flag does; the result keeps length, order, title and value |
| SlackFields.ParseFieldsAppend | src/slack.ts:264-272 | parsing a concatenation parses the first part, then the second; the first failure wins |
| SlackFields.ParseFieldsFailureSticks | src/slack.ts:270 | once a field fails to parse, later fields cannot undo the failure |
| SlackFields.ParseFieldsSnoc | src/slack.ts:267-271 | one more field extends the parsed list, or fails with that field's error |
| SlackFields.FilterFields | src/slack.ts:263-273 | the field loop yields exactly the parsed guard-filtered fields, or the first parse error |
| SlackFields.KeptFieldStep | src/slack.ts:264-272 | a kept field whose flag parses extends the loop's result by that field; one whose flag fails makes its error the outcome of the whole loop |
| SlackFields.ParseFilterStep | src/slack.ts:264-272 | one pass of the field loop: a kept field is parsed onto the result, a dropped one changes nothing |
| SlackFields.ParseFilterFailure | src/slack.ts:270 | a parse failure among the fields seen so far is the outcome of the whole loop |
| SlackFields.DroppedFieldNeverParsed | src/slack.ts:265-270 | a field whose guard fails, wherever it stands, never reaches `JSON.parse`: the kept and parsed fields are those without it |
| SlackContext.KindOf | src/slack.ts:166-213 | which branch of the event switch runs: `issues` and `issue_comment` share one, `pull_request`, `push` and `schedule` have their own, anything else takes the default |
| SlackContext.RepositoryUrl | src/slack.ts:143 | the server URL, a slash and the repository name |
| SlackContext.WorkflowUrl | src/slack.ts:147 | the repository URL, `/actions?query=workflow:` and the workflow name |
| SlackContext.WorkflowRunUrl | src/slack.ts:148 | the repository URL, `/actions/runs/` and the run id |
| SlackContext.Branch | src/slack.ts:152 | the branch is a non-empty `GITHUB_HEAD_REF`, else `GITHUB_REF` with its first `refs/heads/` removed (a leading one, or none for a ref such as `refs/tags/v1`) |
| SlackContext.EnvAction | src/slack.ts:216 | the action of an unsupported event is `GITHUB_ACTION`, blanked when it starts with `self` |
| SlackContext.Initial | src/slack.ts:156-163 | before the switch there is no payload, action, description or sender; the ref is the branch, the diff ref the short SHA; the ref link is the repository's `/commits/<branch>` and the diff link its `/commit/<short sha>` |
| SlackContext.ShortSha | src/slack.ts:151 | the short SHA is a prefix of the SHA of length min(8, length) |
| SlackContext.Resolve | src/slack.ts:156-226 | resolving fails exactly when the event's required payload part is missing; outside pull requests `diffRef` is the short SHA; outside schedules the payload is passed through |
| SlackContext.ResolveContext | src/slack.ts:156-226 | the switch over `let` variables yields exactly `Resolve` |
| SlackContext.IssuesFallThrough | src/slack.ts:167-180 | `issues` and `issue_comment` resolve identically |
| SlackContext.PullRequestContext | src/slack.ts:181-192 | a pull request gives ref `#<number>`, diff URL `<html_url>/files`, the head ref as diff ref, and its title |
| SlackContext.PushContext | src/slack.ts:193-202 | a push gives `<n> commits`, the stripped ref, the compare URL and no action |
| SlackContext.ScheduleContext | src/slack.ts:203-212 | a schedule always uses the fixed `github` sender, no payload and no action |
| SlackContext.OtherEventContext | src/slack.ts:213-225 | another event takes its action from `GITHUB_ACTION` (`''` when it starts with `self`) and the payload sender, else one synthesised from the actor with an empty avatar |
| SlackContext.Timestamp | src/slack.ts:164 | `ts` is the clock reading in seconds, rounded to the nearest second |
| SlackSend.DefaultText | src/slack.ts:233-237 | the default text is the headline alone when the description is falsy, and the headline followed by the diff line when it is truthy |
| SlackSend.TextTemplate | src/slack.ts:238 | the text template is the message, else the configured text, else the default |
| SlackSend.DefaultFallback | src/slack.ts:240-242 | the default fallback is the repository/workflow/event head, then `{{action}} ` only when the action is truthy, then `{{jobStatus}}` |
| SlackSend.DefaultFallbackOnlyTestsAction | src/slack.ts:240-242 | only the truthiness of the action matters to the default fallback |
| SlackSend.DefaultFieldList | src/slack.ts:245-261 | Job Steps is present iff there are steps, Job Matrix iff there is a matrix, and Steps comes first |
| SlackSend.DefaultFieldsAlwaysLong | src/slack.ts:247-259 | both default fields are guarded by `always()` and are not short |
| SlackSend.DefaultFields | src/slack.ts:245-261 | the conditional pushes yield the default field list |
| SlackSend.ChosenFields | src/slack.ts:264 | configured fields, even an empty list, replace the defaults; without configured fields the default list is used |
| SlackSend.Assemble | src/slack.ts:263-375 | fails iff the event context or a kept field's `short` fails (the JSON round trips of rendered text are not modelled); one attachment, plus a second `{color, fallback, blocks}` iff blocks are configured, with the same colour and the guard-filtered blocks; the first carries the parsed kept fields, text, fallback, footer, pretext, title, title link, author, footer icon, markdown keys and ts; the data record is the resolved context's, with `ts` the rounded clock; username and icon default |
| SlackSend.Send | src/slack.ts:140-375 | `send` up to the webhook call yields exactly `Assemble` |
| SlackSend.SendInContext | src/slack.ts:230-375 | the statements after the event switch yield the draft `Assemble` builds on the resolved context |
| SlackSend.Attachments | src/slack.ts:343-368 | the attachments array is the classic attachment, extended by the blocks attachment iff blocks are configured |
| SlackSend.ConfiguredFieldsReplaceDefaults | src/slack.ts:264 | once the event context resolves, an empty configured field list always yields a message with no fields, even with steps |
| SlackSend.EmptyInputsGiveBareDefaults | src/slack.ts:233-261 | with no configuration, steps, matrix, message or description there are no fields, the one-line default text, one attachment and username `GitHub Actions` |
| SlackSend.Data | src/slack.ts:279-307 | the template data carries the resolved context's payload, action, ref, links, description and sender unchanged, the environment and its event name, workflow, repository name, run id and number, SHA, actor and ref type; the repository, workflow and run links; the short SHA, branch, job inputs and the rounded clock |
| SlackSend.Build | src/slack.ts:343-375 | the classic attachment with every configured-or-default value, the blocks attachment iff blocks are configured with the same colour and fallback and the guard-filtered blocks, the data record, and the default username, icon and channel |
| SlackSend.DefaultFieldsParse | src/slack.ts:245-273 | every kept default field has a boolean `short`, so the default list always parses |
| SlackSend.DefaultStepsKeptFirst | src/slack.ts:245-264 | with steps, the Job Steps field survives the guard filter and comes first |
| SlackSend.DefaultFieldsParseStepsFirst | src/slack.ts:245-273 | with steps, the default fields always parse and Job Steps is the first, whatever the status |
| SlackSend.DefaultJobStepsAlwaysShown | src/slack.ts:245-273 | with steps and no configured fields, the message's first field is Job Steps for every status |
| MainRun.OldJobColor | src/main.ts:5-9 | only `SUCCESS`, `FAILURE` and `CANCELLED` have a colour (good, danger or warning) |
| MainRun.OldStepIcon | src/main.ts:11-17 | any outcome other than `Success`, `Failure`, `Cancelled` and `Skipped` gives `:grey_question: ` plus the outcome |
| MainRun.UpperMatchesLower | src/main.ts:24 | upper-casing matches an upper-cased lower-case word iff lower-casing yields the word |
| MainRun.UpperCasedColorAgrees | src/main.ts:5-9 | after `toUpperCase` the old table colours exactly the statuses the new one knows, with the same colours |
| MainRun.OldStepIconRefined | src/main.ts:11-15 | on the four capitalised outcomes the old and new icon tables agree |
| MainRun.OldStepIconCaseSensitive | src/main.ts:11-16 | `success` is unknown to the old table but known to the new one |
| MainRun.OldText | src/main.ts:39-42 | the text is the status line (checks link, workflow, job, event, status, compare link with the stripped branch), a line feed, and the commit link showing the first 8 characters of the id, then the commit message |
| MainRun.StepLines | src/main.ts:44-47 | one line per step, in order, each exactly the step's icon, a space and the step name |
| MainRun.BuildChecks | src/main.ts:44-47 | one check per step, in order, each its icon, a space and the step name |
| MainRun.BuildFields | src/main.ts:49-56 | one non-short Job Steps field joining the checks by newlines iff there are checks, else none |
| MainRun.Run | src/main.ts:19-83 | fails iff the `status` input is empty or the head commit, repository or sender is missing (the empty status with the required-input error); otherwise one attachment with the upper-cased status's colour, the fallback, the text with the 8-character commit id, the Job Steps field iff there are steps, the sender as author (login, page, avatar), markdown in `text` only, the repository footer link, the fixed footer icon and `ts` the repository's push time; username `GitHub Action`, the fixed icon URL and the channel input |

## Left out

- MainRun.Run: two more throws of `run` are not modelled. A `steps` input that is not valid
  JSON makes `JSON.parse` throw (src/main.ts:25), and a step entry that is `null` makes
  `jobSteps[step].outcome` throw (src/main.ts:46). Steps are given already parsed, as name and
  outcome pairs. The `status` input is taken as the input reader returns it, after its white
  space trimming.
- Rendering: compiling and rendering templates with the template engine, and the helper
  registration in its global table (src/slack.ts:228, 230-341). Templates are kept as text, and
  the helpers are modelled as functions of the values the engine would pass them. This includes
  the `icon` helper: it is `stepIcon` with the configured icons.
- JSON: the `json` helper, and the stringify-then-parse round trip of the filtered fields and
  blocks (slack.ts:274, 315, 327, 341). The filtered lists are modelled directly. A block's
  non-`if` keys are kept as one opaque text. So `send` is not modelled as throwing when a
  rendered field or block text is not valid JSON, which happens for example when `{{{description}}}`
  in a field inserts a title containing `"`, or a matrix value contains a line feed.
- Blocks context: blocks are rendered against the data record extended by the rendered pretext,
  title, title link, text, fallback, footer and footer icon (slack.ts:329-341); the `Draft`
  carries only the data record.
- Delivery: the webhook POST and its result, asynchrony, and the `core.info`, `core.debug`
  and `core.setFailed` logging. An error result stands for the exception that `run` reports
  through `setFailed`.
- Inputs as parameters: environment variables, `github.context`, action inputs and the clock.
  `process.env` is an explicit `RunEnv` in which `GITHUB_REF`, `GITHUB_SHA` and the other
  always-set variables are present strings. The clock is a millisecond argument. The `steps`
  and `matrix` objects are sequences of entries in enumeration order, so JavaScript's
  `Object.keys` ordering rule for integer-like keys is not modelled.
- `unfurl_links` and `unfurl_media`: declared in the configuration type but never read by
  `send`, so the model has no counterpart.
- Text.Lower, Text.Upper: case mapping covers ASCII letters only. JavaScript maps all of Unicode.
- SlackFields.ParseJsonBool, SlackFields.ParseShort: `JSON.parse` of the text is modelled as
  accepting only `true` and `false`. JavaScript also accepts them with surrounding white space
  (`' true'` is true), and other JSON texts such as `1`, `null` or `"x"` parse to non-boolean
  values. The model reports all of these as syntax errors.
- HandlebarsHelpers.Truncate: strings are sequences of Unicode scalar values, while `substring`
  counts UTF-16 code units. Outside the Basic Multilingual Plane the two differ: `truncate "😀x" 1`
  is a lone surrogate in JavaScript and `😀` here.
- HandlebarsHelpers.PluralCount: a string's count is its number of scalar values, not its UTF-16
  `length`, so `pluralize "😀"` gives `2 items` in JavaScript and `1 item` here.
- Js.Show: `Option` does not distinguish null from undefined, so a null value prints as
  `undefined` where JavaScript prints `null` (a null pull-request number gives ref `#null`, a
  null schedule ``Schedule `null` ``).
- Js.Value: numbers are integers (no NaN, no fractions, no `-0`), and objects other than arrays
  carry no properties. So `truncate` with a fractional size and `pluralize` of an object with a
  `length` property are not modelled.
- SlackStatus.JobColor: overrides are strings. The `colors` and `icons` objects could hold
  values of other types, which `||` would then pass through.
- Test suites: the integration tests pin older signatures of `send`, such as username
  `GitHub Action` and a `jobInputs` argument. The model follows the code. Only the helper unit
  tests are reflected, in `HandlebarsHelpers.PluralizeExamples`.
