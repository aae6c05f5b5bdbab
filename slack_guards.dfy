/**
 * The `if` guards on configured fields and blocks (src/slack.ts): an entry is kept when its
 * guard is `always()` or starts with the lower-cased job status, and loses its guard.
 */
module SlackGuards {
  import opened Wrappers
  import opened Text

  /** A field or block together with its optional `if` guard. */
  datatype Guarded<T> = Guarded(item: T, guard: Option<string>)

  const Always := "always()"

  /** `entry?.if || 'always()'`: a missing or empty guard means `always()`. */
  function GuardText(guard: Option<string>): (r: string)
    ensures r != ""
    ensures guard.Some? && guard.value != "" ==> r == guard.value
    ensures guard.None? || guard.value == "" ==> r == Always
  {
    if guard.Some? && guard.value != "" then guard.value else Always
  }

  /** The keep rule: the guard is `always()`, or the guard (not lower-cased) starts with the lower-cased status. */
  predicate Keeps(guard: Option<string>, status: string)
    ensures guard.None? || guard == Some("") || guard == Some(Always) ==> Keeps(guard, status)
    ensures guard.Some? && guard.value !in {"", Always} ==> (Keeps(guard, status) <==> StartsWith(guard.value, Lower(status)))
  {
    GuardText(guard) == Always || StartsWith(GuardText(guard), Lower(status))
  }

  /** The kept items of `xs`, in order, without their guards. */
  function Filter<T>(xs: seq<Guarded<T>>, status: string): (r: seq<T>)
    ensures |r| <= |xs|
    ensures |r| == |xs| <==> forall i :: 0 <= i < |xs| ==> Keeps(xs[i].guard, status)
  {
    if xs == [] then []
    else
      var init := xs[..|xs| - 1];
      var last := xs[|xs| - 1];
      assert forall i :: 0 <= i < |init| ==> init[i] == xs[i];
      Filter(init, status) + (if Keeps(last.guard, status) then [last.item] else [])
  }

  /** Appending one entry appends its item exactly when its guard matches. */
  lemma FilterSnoc<T>(xs: seq<Guarded<T>>, x: Guarded<T>, status: string)
    ensures Filter(xs + [x], status) == Filter(xs, status) + (if Keeps(x.guard, status) then [x.item] else [])
  {
    assert (xs + [x])[..|xs|] == xs;
  }

  /** The loop of src/slack.ts that pushes every kept entry, without its `if`, onto a fresh list. */
  method FilterGuarded<T>(xs: seq<Guarded<T>>, status: string) returns (kept: seq<T>)
    ensures kept == Filter(xs, status)
  {
    kept := [];
    for i := 0 to |xs|
      invariant kept == Filter(xs[..i], status)
    {
      assert xs[..i + 1][..i] == xs[..i];
      if Keeps(xs[i].guard, status) {
        kept := kept + [xs[i].item];
      }
    }
    assert xs[..|xs|] == xs;
  }

  /** Filtering distributes over concatenation, so kept entries keep their relative order. */
  lemma {:induction false} FilterAppend<T>(a: seq<Guarded<T>>, b: seq<Guarded<T>>, status: string)
    ensures Filter(a + b, status) == Filter(a, status) + Filter(b, status)
    decreases |b|
  {
    if b == [] {
      assert a + b == a;
    } else {
      var b' := b[..|b| - 1];
      assert (a + b)[..|a + b| - 1] == a + b';
      FilterAppend(a, b', status);
    }
  }

  /** An item is in the result iff some entry carrying it passes its guard. */
  lemma {:induction false} FilterMembers<T>(xs: seq<Guarded<T>>, status: string, x: T)
    ensures x in Filter(xs, status) <==>
              exists i :: 0 <= i < |xs| && xs[i].item == x && Keeps(xs[i].guard, status)
    decreases |xs|
  {
    if xs != [] {
      var init := xs[..|xs| - 1];
      FilterMembers(init, status, x);
      assert forall i :: 0 <= i < |init| ==> init[i] == xs[i];
      if exists i :: 0 <= i < |xs| && xs[i].item == x && Keeps(xs[i].guard, status) {
        var i :| 0 <= i < |xs| && xs[i].item == x && Keeps(xs[i].guard, status);
        if i < |init| {
          assert init[i] == xs[i];
        }
      }
    }
  }

  /** The items of all entries, guards dropped. */
  function Items<T>(xs: seq<Guarded<T>>): (r: seq<T>)
    ensures |r| == |xs| && forall i :: 0 <= i < |xs| ==> r[i] == xs[i].item
  {
    seq(|xs|, i requires 0 <= i < |xs| => xs[i].item)
  }

  /** With an empty job status every guard matches, so nothing is dropped. */
  lemma {:induction false} FilterEmptyStatusKeepsAll<T>(xs: seq<Guarded<T>>)
    ensures Filter(xs, "") == Items(xs)
    decreases |xs|
  {
    if xs != [] {
      var init := xs[..|xs| - 1];
      FilterEmptyStatusKeepsAll(init);
      assert Keeps(xs[|xs| - 1].guard, "") by {
        assert Lower("") == "";
      }
      assert Items(xs) == Items(init) + [xs[|xs| - 1].item];
    }
  }

  /** The status is lower-cased before matching, so its case never matters. */
  lemma {:induction false} FilterStatusCaseInsensitive<T>(xs: seq<Guarded<T>>, s: string, t: string)
    requires Lower(s) == Lower(t)
    ensures Filter(xs, s) == Filter(xs, t)
    decreases |xs|
  {
    if xs != [] {
      FilterStatusCaseInsensitive(xs[..|xs| - 1], s, t);
    }
  }

  /** How the rule treats typical guards (the guard itself is not lower-cased). */
  lemma GuardExamples(status: string)
    ensures Keeps(None, status) && Keeps(Some(""), status) && Keeps(Some(Always), status)
    ensures Keeps(Some("failure"), "failure") && Keeps(Some("failure"), "FAILURE")
    ensures Keeps(Some("failure()"), "Failure")
    ensures !Keeps(Some("failure"), "success")
    ensures !Keeps(Some("Failure"), "failure")
    ensures Keeps(Some("failure"), "fail")
  {
    assert Lower("failure") == "failure";
    assert Lower("FAILURE") == "failure";
    assert Lower("Failure") == "failure";
    assert Lower("success") == "success";
    assert Lower("fail") == "fail";
    assert "failure()"[..7] == "failure";
    assert "failure"[..7] == "failure";
    assert "failure"[..4] == "fail";
    assert "Failure"[..7] != "failure" by { assert "Failure"[0] != "failure"[0]; }
    assert "failure"[..7] != "success" by { assert "failure"[0] != "success"[0]; }
  }
}
