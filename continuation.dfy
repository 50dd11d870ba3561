/** The store-free continuation controller shared by `sendRequestWithContinuation`
    (services/aiService.js:100-145) and the `/code` handler (bot.js:361-394):
    while the last completion stopped because of its length and the ceiling is
    not reached, ask again with the text so far and join the parts with a
    blank line. The request builder, the completion call and the reading of a
    response are parameters, so both callers instantiate the same loop. */
module Continuation {
  import opened Wrappers
  import opened Seqs
  import opened JsText

  /** What separates two parts of a continued reply. */
  const PART_SEPARATOR: string := "\n\n"

  /** What a run of the loop received, in order, and the error of the call that
      failed, when one did (that call contributed no response). */
  datatype Run<R> = Run(responses: seq<R>, error: Option<string>)

  /** The reply text of a run: the parts joined by a blank line. */
  function Combined<R>(text: R -> string, rs: seq<R>): string
  {
    Join(Map(text, rs), PART_SEPARATOR)
  }

  /** The number of completion calls a run made, the failed one included. */
  function Calls<R>(run: Run<R>): nat
  {
    |run.responses| + (if run.error.Some? then 1 else 0)
  }

  /** The loop, once `sofar` has been received: `next(full)` is the
      continuation call for the text so far. */
  function Continue<R>(next: string -> Result<R, string>, truncated: R -> bool,
                       text: R -> string, ceiling: int, sofar: seq<R>): (run: Run<R>)
    requires sofar != []
    ensures |run.responses| >= |sofar| && run.responses[..|sofar|] == sofar
    decreases if |sofar| <= ceiling then ceiling - |sofar| + 1 else 0
  {
    if truncated(sofar[|sofar| - 1]) && |sofar| - 1 < ceiling then
      match next(Combined(text, sofar))
      case Failure(e) => Run(sofar, Some(e))
      case Success(r) =>
        var run := Continue(next, truncated, text, ceiling, sofar + [r]);
        assert run.responses[..|sofar|] == run.responses[..|sofar| + 1][..|sofar|];
        run
    else Run(sofar, None)
  }

  /** The whole controller: the first call, then the loop. */
  function Controller<R>(first: Result<R, string>, next: string -> Result<R, string>,
                         truncated: R -> bool, text: R -> string, ceiling: int): Run<R>
  {
    match first
    case Failure(e) => Run([], Some(e))
    case Success(r) => Continue(next, truncated, text, ceiling, [r])
  }

  /** The protocol a run of the loop follows, given the responses `rs` it
      received: each continuation was asked for with the text before it, every
      response but the last was cut by length, and the loop stopped for one of
      its two reasons or because a call failed. */
  ghost predicate FollowsProtocol<R>(rs: seq<R>, error: Option<string>,
                                     next: string -> Result<R, string>, truncated: R -> bool,
                                     text: R -> string, ceiling: int)
  {
    && rs != []
    && |rs| <= 1 + (if ceiling < 0 then 0 else ceiling)
    && (forall i :: 1 <= i < |rs| ==> next(Combined(text, rs[..i])) == Success(rs[i]))
    && (forall i :: 0 <= i < |rs| - 1 ==> truncated(rs[i]))
    && (error.None? ==> !truncated(rs[|rs| - 1]) || |rs| - 1 >= ceiling)
    && (error.Some? ==> truncated(rs[|rs| - 1]) && |rs| - 1 < ceiling
                        && next(Combined(text, rs)) == Failure(error.value))
  }

  lemma {:induction false} ContinueFollows<R>(next: string -> Result<R, string>, truncated: R -> bool,
                                            text: R -> string, ceiling: int, sofar: seq<R>)
    requires sofar != []
    requires |sofar| <= 1 + (if ceiling < 0 then 0 else ceiling)
    requires forall i :: 1 <= i < |sofar| ==> next(Combined(text, sofar[..i])) == Success(sofar[i])
    requires forall i :: 0 <= i < |sofar| - 1 ==> truncated(sofar[i])
    ensures var run := Continue(next, truncated, text, ceiling, sofar);
            FollowsProtocol(run.responses, run.error, next, truncated, text, ceiling)
    decreases if |sofar| <= ceiling then ceiling - |sofar| + 1 else 0
  {
    if truncated(sofar[|sofar| - 1]) && |sofar| - 1 < ceiling {
      match next(Combined(text, sofar))
      case Failure(e) =>
      case Success(r) =>
        var more := sofar + [r];
        assert more[..|sofar|] == sofar;
        forall i | 1 <= i < |more|
          ensures next(Combined(text, more[..i])) == Success(more[i])
        {
          if i < |sofar| {
            assert more[..i] == sofar[..i];
          }
        }
        ContinueFollows(next, truncated, text, ceiling, more);
    }
  }

  /** The controller's run is exactly described by the protocol: a failed first
      call yields nothing, otherwise the responses start with the first one and
      follow FollowsProtocol. */
  lemma ControllerFollows<R>(first: Result<R, string>, next: string -> Result<R, string>,
                             truncated: R -> bool, text: R -> string, ceiling: int)
    ensures var run := Controller(first, next, truncated, text, ceiling);
            && (first.Failure? ==> run == Run([], Some(first.error)))
            && (first.Success? ==>
                  (run.responses[..1] == [first.value]
                   && FollowsProtocol(run.responses, run.error, next, truncated, text, ceiling)))
  {
    if first.Success? {
      ContinueFollows(next, truncated, text, ceiling, [first.value]);
    }
  }

  /** The loop makes at most `1 + ceiling` calls (one when the ceiling is not
      positive). */
  lemma ControllerCallBound<R>(first: Result<R, string>, next: string -> Result<R, string>,
                               truncated: R -> bool, text: R -> string, ceiling: int)
    ensures Calls(Controller(first, next, truncated, text, ceiling)) <= 1 + (if ceiling < 0 then 0 else ceiling)
  {
    ControllerFollows(first, next, truncated, text, ceiling);
  }

  lemma {:induction false} ContinueAlwaysTruncated<R>(next: string -> Result<R, string>, truncated: R -> bool,
                                                    text: R -> string, ceiling: nat, sofar: seq<R>)
    requires sofar != [] && |sofar| <= 1 + ceiling
    requires forall s :: next(s).Success?
    requires forall r :: truncated(r)
    ensures var run := Continue(next, truncated, text, ceiling, sofar);
            run.error == None && |run.responses| == 1 + ceiling
    decreases ceiling - |sofar|
  {
    assert truncated(sofar[|sofar| - 1]);
    if |sofar| - 1 < ceiling {
      var r := next(Combined(text, sofar)).value;
      ContinueAlwaysTruncated(next, truncated, text, ceiling, sofar + [r]);
    }
  }

  /** A client that always answers and always reports a cut reply is asked
      exactly `1 + ceiling` times. */
  lemma AlwaysTruncated<R>(r: R, next: string -> Result<R, string>,
                           truncated: R -> bool, text: R -> string, ceiling: nat)
    requires forall s :: next(s).Success?
    requires forall r :: truncated(r)
    ensures var run := Controller(Success(r), next, truncated, text, ceiling);
            run.error == None && |run.responses| == 1 + ceiling
  {
    ContinueAlwaysTruncated(next, truncated, text, ceiling, [r]);
  }

  /** Adding a part to the reply appends a blank line and the part. */
  lemma CombinedSnoc<R>(text: R -> string, rs: seq<R>, r: R)
    requires rs != []
    ensures Combined(text, rs + [r]) == Combined(text, rs) + PART_SEPARATOR + text(r)
  {
    assert Map(text, rs + [r]) == Map(text, rs) + [text(r)];
    JoinSnoc(Map(text, rs), text(r), PART_SEPARATOR);
  }

  lemma CombinedSingle<R>(text: R -> string, r: R)
    ensures Combined(text, [r]) == text(r)
  {
    assert Map(text, [r]) == [text(r)];
  }
}
