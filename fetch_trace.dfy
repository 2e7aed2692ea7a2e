/** The coordinator together with the background threads its requests spawn,
    run one event at a time.

    An event is a call of `request`, a progress write of the relay thread, or
    one of the two writes a background thread makes once its fetch returned:
    `Store` is the end of `threaded_fetch` up to `set_result` (the sentinel
    send, the relay join, then the write of the result, skipped when the relay
    failed), and `Clear` is the `clear_request` that follows it, on the normal
    path or on the error path. Besides the coordinator's slots the system
    records the request each spawned thread was given (`served`), how many
    threads are still running, how many have completed, and whether the
    running thread has passed its `Store`. An event that needs a thread in a
    phase it is not in is rejected (`Run` answers `None`). */
module FetchTrace {
  import opened Wrappers
  import opened Fetch

  datatype Event =
    | Request(params: FetchRequest)
    | Relay(progress: ProgressNotification)
    | Store(relayJoined: bool, outcome: FetchOutcome)
    | Clear

  datatype System = System(core: Snapshot, served: seq<FetchRequest>, running: nat, finished: nat, stored: bool)

  /** A fresh coordinator, no thread spawned yet. */
  function Start(): System
  {
    System(Initial(), [], 0, 0, false)
  }

  /** One event. A `request` spawns a thread exactly when it got past the
      pending check and installed its request. The relay writes progress
      only while a thread runs and has not yet joined it; a thread stores
      its result once, and clears the request only after that. */
  function Next(sys: System, e: Event): (r: Option<System>)
    ensures e.Request? ==> r.Some? && r.value.finished == sys.finished
    ensures e.Request? ==> r.value.served == (if Pending(sys.core) then sys.served else sys.served + [e.params])
    ensures e.Request? ==> r.value.running == (if Pending(sys.core) then sys.running else sys.running + 1)
    ensures e.Relay? || e.Store? ==> (r.Some? <==> sys.running > 0 && !sys.stored)
    ensures e.Clear? ==> (r.Some? <==> sys.running > 0 && sys.stored)
    ensures e.Clear? && r.Some? ==> r.value.running == sys.running - 1 && r.value.finished == sys.finished + 1
  {
    match e
    case Request(params) =>
      var r := RequestStep(sys.core, params);
      if !Pending(sys.core) && r.result.Ok? then
        Some(System(r.after, sys.served + [params], sys.running + 1, sys.finished, false))
      else
        Some(sys.(core := r.after))
    case Relay(p) =>
      if sys.running == 0 || sys.stored then None
      else Some(sys.(core := ReportProgressStep(sys.core, p)))
    case Store(relayJoined, outcome) =>
      if sys.running == 0 || sys.stored then None
      else Some(sys.(core := if relayJoined then SetResultStep(sys.core, outcome) else sys.core, stored := true))
    case Clear =>
      if sys.running == 0 || !sys.stored then None
      else Some(System(ClearRequestStep(sys.core), sys.served, sys.running - 1, sys.finished + 1, false))
  }

  /** A sequence of events, in order. */
  function Run(sys: System, es: seq<Event>): Option<System>
    decreases |es|
  {
    if es == [] then Some(sys)
    else
      match Next(sys, es[0])
      case None => None
      case Some(next) => Run(next, es[1..])
  }

  /** The system invariant: a thread runs exactly while a request is
      installed, so never more than one; every spawned thread is running or
      has completed exactly once; the installed request is the one the
      running thread was given; and only a running thread can be between its
      `Store` and its `Clear`. */
  ghost predicate Inv(sys: System)
  {
    && sys.running == (if Pending(sys.core) then 1 else 0)
    && |sys.served| == sys.finished + sys.running
    && (Pending(sys.core) ==> sys.core.state.value.request == sys.served[|sys.served| - 1])
    && (sys.stored ==> sys.running == 1)
  }

  lemma StartInv()
    ensures Inv(Start())
  {
  }

  lemma NextInv(sys: System, e: Event)
    requires Inv(sys)
    ensures Next(sys, e).Some? ==> Inv(Next(sys, e).value)
  {
  }

  /** Every accepted trace keeps the invariant. */
  lemma {:induction false} RunInv(sys: System, es: seq<Event>)
    requires Inv(sys)
    ensures Run(sys, es).Some? ==> Inv(Run(sys, es).value)
    decreases |es|
  {
    if es != [] {
      NextInv(sys, es[0]);
      match Next(sys, es[0])
      case None =>
      case Some(next) => RunInv(next, es[1..]);
    }
  }

  /** Single flight: whatever the calls, at most one background thread runs,
      it runs exactly while the coordinator reports pending, and every thread
      that was spawned has completed or is the one running. */
  lemma {:induction false} AtMostOneInFlight(es: seq<Event>)
    ensures Run(Start(), es).Some? ==> Inv(Run(Start(), es).value)
    ensures Run(Start(), es).Some? ==>
      var sys := Run(Start(), es).value;
      && sys.running <= 1
      && (sys.running == 1 <==> Pending(sys.core))
      && |sys.served| == sys.finished + sys.running
  {
    assert Inv(Start()) by { StartInv(); }
    assert Run(Start(), es).Some? ==> Inv(Run(Start(), es).value) by { RunInv(Start(), es); }
  }

  /** Running two traces one after the other. */
  lemma {:induction false} RunConcat(sys: System, es: seq<Event>, more: seq<Event>)
    ensures Run(sys, es + more) == (match Run(sys, es) case None => None case Some(mid) => Run(mid, more))
    decreases |es|
  {
    if es == [] {
      assert es + more == more;
    } else {
      assert (es + more)[0] == es[0];
      assert (es + more)[1..] == es[1..] + more;
      match Next(sys, es[0])
      case None =>
      case Some(next) => RunConcat(next, es[1..], more);
    }
  }

  /** While a fetch is in flight, further requests and progress writes leave
      the installed request, the stored result and the threads alone: a
      request issued while busy is dropped without a trace. Before the
      running thread joined its relay, every such trace is accepted. */
  lemma {:induction false} BusyRequestsIgnored(sys: System, es: seq<Event>)
    requires Inv(sys) && Pending(sys.core)
    requires forall i :: 0 <= i < |es| ==> es[i].Request? || es[i].Relay?
    ensures !sys.stored ==> Run(sys, es).Some?
    ensures Run(sys, es).Some? ==>
      var after := Run(sys, es).value;
      && after.core.state == sys.core.state
      && after.core.lastResult == sys.core.lastResult
      && after.served == sys.served
      && after.running == sys.running
      && after.finished == sys.finished
      && after.stored == sys.stored
    decreases |es|
  {
    if es != [] {
      assert es[0].Request? || es[0].Relay?;
      NextInv(sys, es[0]);
      match Next(sys, es[0])
      case None =>
      case Some(next) =>
        forall i | 0 <= i < |es[1..]| ensures es[1..][i].Request? || es[1..][i].Relay? {
          assert es[1..][i] == es[i + 1];
        }
        BusyRequestsIgnored(next, es[1..]);
    }
  }

  /** The result is written before the request is cleared: whenever one
      event takes the coordinator from pending to idle, it is the `Clear` of
      the running thread, that thread had already passed its `Store`, and the
      result a poller reads at the first idle moment is the one that was
      there before the clear. */
  lemma ResultStoredBeforeIdle(es: seq<Event>, e: Event)
    requires Run(Start(), es).Some? && Pending(Run(Start(), es).value.core)
    requires Run(Start(), es + [e]).Some? && !Pending(Run(Start(), es + [e]).value.core)
    ensures var before := Run(Start(), es).value;
      var after := Run(Start(), es + [e]).value;
      && e == Clear
      && before.stored
      && after.running == 0
      && after.core.lastResult == before.core.lastResult
  {
    RunConcat(Start(), es, [e]);
    AtMostOneInFlight(es);
  }

  /** The write of the result: afterwards the coordinator is still pending
      and the stored result is the cycle's encoded outcome, or the earlier
      result when the relay failed. */
  lemma StoreRecordsOutcome(es: seq<Event>, relayJoined: bool, outcome: FetchOutcome)
    requires Run(Start(), es + [Store(relayJoined, outcome)]).Some?
    ensures Run(Start(), es).Some?
    ensures var before := Run(Start(), es).value;
      var after := Run(Start(), es + [Store(relayJoined, outcome)]).value;
      && Pending(after.core)
      && after.stored
      && after.core.state == before.core.state
      && after.finished == before.finished
      && after.core.lastResult == (if relayJoined then Some(EncodeResult(outcome)) else before.core.lastResult)
  {
    RunConcat(Start(), es, [Store(relayJoined, outcome)]);
    AtMostOneInFlight(es);
  }

  /** From a thread that has stored its result: requests dropped meanwhile,
      then its clear. */
  lemma {:induction false} ClearAfterStore(s: System, mid: seq<Event>)
    requires Inv(s) && Pending(s.core) && s.stored
    requires forall i :: 0 <= i < |mid| ==> mid[i].Request?
    requires Run(s, mid + [Clear]).Some?
    ensures var after := Run(s, mid + [Clear]).value;
      && !Pending(after.core)
      && after.running == 0
      && after.finished == s.finished + 1
      && after.core.lastResult == s.core.lastResult
  {
    RunConcat(s, mid, [Clear]);
    BusyRequestsIgnored(s, mid);
    var m := Run(s, mid).value;
    assert [Clear][1..] == [];
    assert Run(s, mid + [Clear]) == Next(m, Clear);
  }

  /** Completion is observable: a thread stores its result, any number of
      requests arrive and are dropped, then the thread clears the request.
      Afterwards the coordinator is idle, no thread runs, one more has
      completed, and the stored result is that cycle's encoded outcome (or,
      when the relay failed, the result stored before). */
  lemma CompletionObservable(es: seq<Event>, relayJoined: bool, outcome: FetchOutcome, mid: seq<Event>)
    requires forall i :: 0 <= i < |mid| ==> mid[i].Request?
    requires Run(Start(), es + [Store(relayJoined, outcome)] + mid + [Clear]).Some?
    ensures Run(Start(), es).Some?
    ensures var before := Run(Start(), es).value;
      var after := Run(Start(), es + [Store(relayJoined, outcome)] + mid + [Clear]).value;
      && !Pending(after.core)
      && after.running == 0
      && after.finished == before.finished + 1
      && after.core.lastResult == (if relayJoined then Some(EncodeResult(outcome)) else before.core.lastResult)
  {
    var stored := es + [Store(relayJoined, outcome)];
    assert stored + mid + [Clear] == stored + (mid + [Clear]);
    RunConcat(Start(), stored, mid + [Clear]);
    StoreRecordsOutcome(es, relayJoined, outcome);
    AtMostOneInFlight(stored);
    ClearAfterStore(Run(Start(), stored).value, mid);
  }

  /** The two writes of a completing thread together are the completion step
      the class performs in `Complete`. */
  lemma StoreThenClearCompletes(sys: System, relayJoined: bool, outcome: FetchOutcome)
    requires Inv(sys) && Pending(sys.core) && !sys.stored
    ensures Run(sys, [Store(relayJoined, outcome), Clear])
         == Some(System(CompleteStep(sys.core, relayJoined, outcome), sys.served, 0, sys.finished + 1, false))
  {
    var mid := sys.(core := if relayJoined then SetResultStep(sys.core, outcome) else sys.core, stored := true);
    assert Next(sys, Store(relayJoined, outcome)) == Some(mid);
    assert [Store(relayJoined, outcome), Clear][1..] == [Clear];
    assert [Clear][1..] == [];
    assert Run(mid, [Clear]) == Next(mid, Clear);
  }

  /** A request accepted by an idle coordinator is the one its new thread
      serves, and the progress left by an earlier cycle is gone. */
  lemma AcceptedRequestResetsProgress(es: seq<Event>, params: FetchRequest)
    requires Run(Start(), es).Some? && !Pending(Run(Start(), es).value.core)
    ensures Run(Start(), es + [Request(params)]).Some?
    ensures var before := Run(Start(), es).value;
      var after := Run(Start(), es + [Request(params)]).value;
      && after.core.state == Some(FetchState(params))
      && after.core.progress == None
      && after.core.lastResult == before.core.lastResult
      && after.served == before.served + [params]
      && after.running == 1
  {
    RunConcat(Start(), es, [Request(params)]);
    AtMostOneInFlight(es);
  }

  /** Two requests back to back, then the thread's two writes: only the first
      request started a thread, and the stored result is that thread's outcome. */
  lemma BackToBackRequestsServeFirst(first: FetchRequest, second: FetchRequest, outcome: FetchOutcome)
    ensures Run(Start(), [Request(first), Request(second), Store(true, outcome), Clear])
         == Some(System(Snapshot(None, Some(EncodeResult(outcome)), None), [first], 0, 1, false))
  {
    var s1 := System(Snapshot(Some(FetchState(first)), None, None), [first], 1, 0, false);
    var s3 := System(Snapshot(Some(FetchState(first)), Some(EncodeResult(outcome)), None), [first], 1, 0, true);
    var s4 := System(Snapshot(None, Some(EncodeResult(outcome)), None), [first], 0, 1, false);
    assert Start().served + [first] == [first];
    assert Next(Start(), Request(first)) == Some(s1);
    assert Next(s1, Request(second)) == Some(s1);
    assert Next(s1, Store(true, outcome)) == Some(s3);
    assert Next(s3, Clear) == Some(s4);
    var es := [Request(first), Request(second), Store(true, outcome), Clear];
    assert es[1..] == [Request(second), Store(true, outcome), Clear];
    assert es[2..] == [Store(true, outcome), Clear];
    assert es[3..] == [Clear];
    assert Run(s3, [Clear]) == Some(s4);
    assert [Store(true, outcome), Clear][1..] == [Clear];
    assert Run(s1, [Store(true, outcome), Clear]) == Some(s4);
    assert Run(s1, es[1..]) == Some(s4);
  }
}
