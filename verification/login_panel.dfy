/**
 * The TruSoundCloud login form's submit handler: a submit while a previous
 * one is still pending is ignored, and the pending flag is lowered when the
 * awaited `onSubmit` settles, whether it resolved or threw.
 */
module LoginPanel {
  import opened Js

  datatype Panel = Panel(email: string, password: string, loading: bool)

  datatype Credentials = Credentials(email: string, password: string)

  /** How the awaited `onSubmit` call ended. */
  datatype Settlement = Resolved | Threw

  /** The panel after a submit, and the argument `onSubmit` was called with, if it was called. */
  datatype Submitted = Submitted(panel: Panel, call: Option<Credentials>)

  /**
   * `handleSubmit` up to its await. While loading, nothing happens. Otherwise
   * loading is raised and, when the parent passed an `onSubmit`, it receives
   * the current email and password.
   */
  function Submit(p: Panel, hasOnSubmit: bool): (r: Submitted)
    ensures p.loading ==> r == Submitted(p, None)
    ensures !p.loading ==> r.panel == p.(loading := true)
    ensures r.call.Some? <==> !p.loading && hasOnSubmit
    ensures r.call.Some? ==> r.call.value == Credentials(p.email, p.password)
  {
    if p.loading then Submitted(p, None)
    else Submitted(p.(loading := true), if hasOnSubmit then Some(Credentials(p.email, p.password)) else None)
  }

  /** The `finally` after the await: loading is lowered however the call ended; the fields stay. */
  function Settle(p: Panel, how: Settlement): (r: Panel)
    ensures !r.loading && r.email == p.email && r.password == p.password
  {
    p.(loading := false)
  }

  datatype Event = SubmitPressed(hasOnSubmit: bool) | CallSettled(how: Settlement)

  /** The panel after a sequence of events, and how many times `onSubmit` was called. */
  function Run(p: Panel, events: seq<Event>): (Panel, nat)
    decreases |events|
  {
    if |events| == 0 then (p, 0)
    else
      match events[0]
      case SubmitPressed(h) =>
        var s := Submit(p, h);
        var rest := Run(s.panel, events[1..]);
        (rest.0, rest.1 + if s.call.Some? then 1 else 0)
      case CallSettled(how) => Run(Settle(p, how), events[1..])
  }

  /**
   * Re-entrancy: as long as no call settles, any number of submits makes at
   * most one call, and none at all when a call is already pending.
   */
  lemma {:induction false} AtMostOneCallUntilSettled(p: Panel, events: seq<Event>)
    requires forall i :: 0 <= i < |events| ==> events[i].SubmitPressed?
    ensures Run(p, events).1 <= if p.loading then 0 else 1
    ensures |events| > 0 ==> Run(p, events).0.loading
    decreases |events|
  {
    if |events| > 0 {
      var s := Submit(p, events[0].hasOnSubmit);
      assert s.panel.loading;
      AtMostOneCallUntilSettled(s.panel, events[1..]);
    }
  }

  /** A double submit calls `onSubmit` once. */
  lemma DoubleSubmitCallsOnce(p: Panel)
    requires !p.loading
    ensures Run(p, [SubmitPressed(true), SubmitPressed(true)]).1 == 1
  {
  }

  /** Submitting, then the call resolving or throwing, leaves the panel ready again; so does a panel with no `onSubmit`. */
  lemma SubmitThenSettleIsReady(p: Panel, hasOnSubmit: bool, how: Settlement)
    requires !p.loading
    ensures Submit(p, hasOnSubmit).panel.loading
    ensures Settle(Submit(p, hasOnSubmit).panel, how) == p
  {
  }
}
