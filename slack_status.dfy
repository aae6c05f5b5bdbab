/** Job colour and step icon, as src/slack.ts maps them (case-insensitively, with user overrides). */
module SlackStatus {
  import opened Wrappers
  import opened Text
  import opened Js

  /** The `colors` configuration key; a key left out is `None`. */
  datatype ColorOptions = ColorOptions(
    success: Option<string>,
    failure: Option<string>,
    cancelled: Option<string>,
    default: Option<string>)

  /** The `icons` configuration key; a key left out is `None`. */
  datatype IconOptions = IconOptions(
    success: Option<string>,
    failure: Option<string>,
    cancelled: Option<string>,
    skipped: Option<string>,
    default: Option<string>)

  const NoColors := ColorOptions(None, None, None, None)
  const NoIcons := IconOptions(None, None, None, None, None)

  /** The builtin colours per lower-cased job status; anything else is silver. */
  const BuiltinColors: map<string, string> :=
    map["success" := "good", "failure" := "danger", "cancelled" := "warning"]
  const DefaultColor := "#C0C0C0"

  /** The builtin icons per lower-cased step outcome. */
  const BuiltinIcons: map<string, string> :=
    map["success" := ":heavy_check_mark:", "failure" := ":x:",
        "cancelled" := ":exclamation:", "skipped" := ":no_entry_sign:"]
  const UnknownIcon := ":grey_question: "

  /** `jobColor(status, opts)`. */
  function JobColor(status: string, opts: ColorOptions): (r: string)
    ensures r != ""
    ensures Lower(status) !in BuiltinColors ==> r == OrElse(opts.default, DefaultColor)
  {
    if Lower(status) == "success" then OrElse(opts.success, "good")
    else if Lower(status) == "failure" then OrElse(opts.failure, "danger")
    else if Lower(status) == "cancelled" then OrElse(opts.cancelled, "warning")
    else OrElse(opts.default, DefaultColor)
  }

  /** The colour override configured for a lower-cased status bucket. */
  function ColorOverride(opts: ColorOptions, bucket: string): Option<string>
  {
    if bucket == "success" then opts.success
    else if bucket == "failure" then opts.failure
    else if bucket == "cancelled" then opts.cancelled
    else opts.default
  }

  /**
   * `jobColor` as a table: the lower-cased status selects a bucket, a present
   * (non-empty) override for the bucket wins, and the builtin table is the fallback.
   */
  lemma JobColorByTable(status: string, opts: ColorOptions)
    ensures JobColor(status, opts) ==
      if Lower(status) in BuiltinColors
      then OrElse(ColorOverride(opts, Lower(status)), BuiltinColors[Lower(status)])
      else OrElse(opts.default, DefaultColor)
  {
  }

  /** The status is compared case-insensitively. */
  lemma JobColorCaseInsensitive(s: string, t: string, opts: ColorOptions)
    requires Lower(s) == Lower(t)
    ensures JobColor(s, opts) == JobColor(t, opts)
  {
  }

  /** An empty-string override behaves exactly as a missing one. */
  lemma JobColorEmptyOverride(status: string, opts: ColorOptions)
    ensures JobColor(status, opts.(success := Some(""))) == JobColor(status, opts.(success := None))
    ensures JobColor(status, opts.(failure := Some(""))) == JobColor(status, opts.(failure := None))
    ensures JobColor(status, opts.(cancelled := Some(""))) == JobColor(status, opts.(cancelled := None))
    ensures JobColor(status, opts.(default := Some(""))) == JobColor(status, opts.(default := None))
  {
  }

  /** `stepIcon(status, opts)`. */
  function StepIcon(status: string, opts: IconOptions): (r: string)
    ensures r != ""
    ensures Lower(status) !in BuiltinIcons ==> r == UnknownIcon + status
    ensures Lower(status) in BuiltinIcons && !Present(IconOverride(opts, Lower(status))) ==>
              r == BuiltinIcons[Lower(status)]
    ensures Lower(status) in BuiltinIcons && Present(IconOverride(opts, Lower(status))) ==>
              r == IconOverride(opts, Lower(status)).value
  {
    if Lower(status) == "success" then OrElse(opts.success, ":heavy_check_mark:")
    else if Lower(status) == "failure" then OrElse(opts.failure, ":x:")
    else if Lower(status) == "cancelled" then OrElse(opts.cancelled, ":exclamation:")
    else if Lower(status) == "skipped" then OrElse(opts.skipped, ":no_entry_sign:")
    else UnknownIcon + status
  }

  /** The icon override configured for a lower-cased outcome bucket (there is none for unknown outcomes). */
  function IconOverride(opts: IconOptions, bucket: string): Option<string>
  {
    if bucket == "success" then opts.success
    else if bucket == "failure" then opts.failure
    else if bucket == "cancelled" then opts.cancelled
    else if bucket == "skipped" then opts.skipped
    else None
  }

  /** The `default` icon override is never consulted. */
  lemma StepIconIgnoresDefault(status: string, opts: IconOptions, d: Option<string>)
    ensures StepIcon(status, opts.(default := d)) == StepIcon(status, opts)
  {
  }

  /** An unrecognised outcome is never dropped: the icon ends with the literal outcome. */
  lemma StepIconShowsUnknown(status: string, opts: IconOptions)
    requires Lower(status) !in BuiltinIcons
    ensures StartsWith(StepIcon(status, opts), UnknownIcon)
    ensures EndsWith(StepIcon(status, opts), status)
  {
    var r := StepIcon(status, opts);
    assert r[..|UnknownIcon|] == UnknownIcon;
    assert r[|r| - |status|..] == status;
  }

  /** The outcome is compared case-insensitively, except that an unknown outcome is echoed as given. */
  lemma StepIconCaseInsensitive(s: string, t: string, opts: IconOptions)
    requires Lower(s) == Lower(t) && Lower(s) in BuiltinIcons
    ensures StepIcon(s, opts) == StepIcon(t, opts)
  {
  }
}
