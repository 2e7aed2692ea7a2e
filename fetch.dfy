/** The single-flight fetch coordinator of asyncgit (`AsyncFetch`).

    The coordinator keeps three shared slots: the in-flight request (`state`),
    the outcome of the last completed fetch (`lastResult`) and the latest
    progress snapshot (`progress`). The locks around them are taken to always
    succeed, so every operation is a sequential step on those three slots.
    Each step is first defined on a `Snapshot` value, and the methods of class
    `AsyncFetch` are proved to perform exactly that step on their fields. */
module Fetch {
  import opened Wrappers

  /** A credential handed through to the remote operation; its contents are opaque here. */
  type BasicAuthCredential

  /** A progress event of the remote operation, kept as it arrives; opaque here. */
  type ProgressNotification

  /** What to fetch: the remote, the branch and an optional credential. */
  datatype FetchRequest = FetchRequest(remote: string, branch: string, basicCredential: Option<BasicAuthCredential>)

  /** The in-flight marker: its presence alone means "busy". */
  datatype FetchState = FetchState(request: FetchRequest)

  /** The errors the coordinator raises itself: `Generic` for a second install
      of a request, `RelayFailed` for a failed send of the progress sentinel
      or a failed join of the relay thread. */
  datatype Error = Generic(message: string) | RelayFailed

  /** The text of the error `set_request` returns while a request is installed. */
  const PendingRequestMessage: string := "pending request"

  /** A stored fetch outcome: bytes transferred and an error text, empty on success. */
  type FetchResult = (nat, string)

  /** What the external fetch call returns: the bytes transferred, or the text of its error. */
  type FetchOutcome = Result<nat, string>

  /** The three shared slots of the coordinator, as a value. */
  datatype Snapshot = Snapshot(state: Option<FetchState>, lastResult: Option<FetchResult>, progress: Option<ProgressNotification>)

  /** A step that also answers its caller. */
  datatype Reply = Reply(after: Snapshot, result: Result<(), Error>)

  /** The slots of a freshly constructed coordinator. */
  function Initial(): Snapshot
  {
    Snapshot(None, None, None)
  }

  /** Busy exactly when a request is installed. */
  predicate Pending(s: Snapshot)
  {
    s.state.Some?
  }

  /** How a caller reads a stored result: an empty error text means success. */
  function DecodeResult(r: FetchResult): FetchOutcome
  {
    if r.1 == "" then Ok(r.0) else Err(r.1)
  }

  /** The pair `set_result` stores for an outcome: a success keeps its byte
      count with an empty text, a failure reports zero bytes and its text.
      Every outcome but a failure whose text is empty is read back unchanged. */
  function EncodeResult(res: FetchOutcome): (r: FetchResult)
    ensures res.Err? ==> r.0 == 0 && r.1 == res.error
    ensures res.Ok? || res.error != "" ==> DecodeResult(r) == res
  {
    match res
    case Ok(bytes) => (bytes, "")
    case Err(message) => (0, message)
  }

  /** `set_request`: refuses, and keeps the installed request, when one is
      already in flight; otherwise installs the given one. Either way the
      coordinator is busy afterwards and the other slots are untouched. */
  function SetRequestStep(s: Snapshot, params: FetchRequest): (r: Reply)
    ensures Pending(r.after)
    ensures r.result.Err? <==> Pending(s)
    ensures Pending(s) ==> r.after == s && r.result == Err(Generic(PendingRequestMessage))
    ensures !Pending(s) ==> r.after.state == Some(FetchState(params))
    ensures r.after.lastResult == s.lastResult && r.after.progress == s.progress
  {
    if s.state.Some? then
      Reply(s, Err(Generic(PendingRequestMessage)))
    else
      Reply(s.(state := Some(FetchState(params))), Ok(()))
  }

  /** `clear_request`: back to idle, nothing else changes. */
  function ClearRequestStep(s: Snapshot): (r: Snapshot)
    ensures !Pending(r)
    ensures r.lastResult == s.lastResult && r.progress == s.progress
  {
    s.(state := None)
  }

  /** `set_result`: the stored result is overwritten with the encoded outcome. */
  function SetResultStep(s: Snapshot, res: FetchOutcome): (r: Snapshot)
    ensures r.lastResult == Some(EncodeResult(res))
    ensures r.state == s.state && r.progress == s.progress
  {
    s.(lastResult := Some(EncodeResult(res)))
  }

  /** `request`: a no-op that answers `Ok` while a fetch is in flight, so the
      in-flight request is kept; otherwise it installs `params` and resets the
      progress snapshot. It always answers `Ok` and leaves the result alone. */
  function RequestStep(s: Snapshot, params: FetchRequest): (r: Reply)
    ensures r.result == Ok(())
    ensures Pending(r.after)
    ensures r.after.lastResult == s.lastResult
    ensures Pending(s) ==> r.after == s
    ensures !Pending(s) ==> r.after.state == Some(FetchState(params)) && r.after.progress == None
  {
    if Pending(s) then
      Reply(s, Ok(()))
    else
      var installed := SetRequestStep(s, params);
      if installed.result.Err? then installed
      else Reply(installed.after.(progress := None), Ok(()))
  }

  /** A write of the relay thread into the shared progress slot: the latest
      event replaces the previous one. */
  function ReportProgressStep(s: Snapshot, p: ProgressNotification): (r: Snapshot)
    ensures r.progress == Some(p)
    ensures r.state == s.state && r.lastResult == s.lastResult
  {
    s.(progress := Some(p))
  }

  /** The end of `threaded_fetch`, after the external call returned `res`:
      when the relay shut down cleanly, the result is stored and then the
      request is cleared; otherwise it fails before touching anything. */
  function FinishFetchStep(s: Snapshot, relayJoined: bool, res: FetchOutcome): (r: Reply)
    ensures r.result.Ok? <==> relayJoined
    ensures relayJoined ==> !Pending(r.after) && r.after.lastResult == Some(EncodeResult(res))
    ensures !relayJoined ==> r.after == s && r.result == Err(RelayFailed)
    ensures r.after.progress == s.progress
  {
    if !relayJoined then
      Reply(s, Err(RelayFailed))
    else
      Reply(ClearRequestStep(SetResultStep(s, res)), Ok(()))
  }

  /** One run of the background thread after its fetch returned: the end of
      `threaded_fetch`, then, if that failed, the request is cleared anyway.
      So the coordinator is idle afterwards in every case; the result is the
      cycle's encoded outcome unless the relay failed, when it is kept. */
  function CompleteStep(s: Snapshot, relayJoined: bool, res: FetchOutcome): (r: Snapshot)
    ensures !Pending(r)
    ensures r.lastResult == (if relayJoined then Some(EncodeResult(res)) else s.lastResult)
    ensures r.progress == s.progress
  {
    var finished := FinishFetchStep(s, relayJoined, res);
    if finished.result.Err? then ClearRequestStep(finished.after) else finished.after
  }

  /** The coordinator object; its three fields are the shared slots. */
  class AsyncFetch {
    var state: Option<FetchState>
    var lastResult: Option<FetchResult>
    var progress: Option<ProgressNotification>

    /** The fields as a `Snapshot` value. */
    function View(): Snapshot
      reads this
    {
      Snapshot(state, lastResult, progress)
    }

    /** `new`: nothing in flight, no result, no progress. */
    constructor ()
      ensures View() == Initial()
      ensures state == None && lastResult == None && progress == None
    {
      state := None;
      lastResult := None;
      progress := None;
    }

    /** `is_pending`: whether a request is installed. */
    method IsPending() returns (pending: bool)
      ensures pending <==> state.Some?
      ensures pending == Pending(View())
    {
      pending := state.Some?;
    }

    /** `last_result`: a copy of the stored result. */
    method LastResult() returns (r: Option<FetchResult>)
      ensures r == lastResult
      ensures r == View().lastResult
    {
      r := lastResult;
    }

    /** `progress`: the latest progress snapshot. */
    method Progress() returns (r: Option<ProgressNotification>)
      ensures r == progress
      ensures r == View().progress
    {
      r := progress;
    }

    /** `set_request`. */
    method SetRequest(params: FetchRequest) returns (r: Result<(), Error>)
      modifies this`state
      ensures Reply(View(), r) == SetRequestStep(old(View()), params)
    {
      if state.Some? {
        return Err(Generic(PendingRequestMessage));
      }
      state := Some(FetchState(params));
      r := Ok(());
    }

    /** `clear_request`. */
    method ClearRequest()
      modifies this`state
      ensures View() == ClearRequestStep(old(View()))
    {
      state := None;
    }

    /** `set_result`. */
    method SetResult(res: FetchOutcome)
      modifies this`lastResult
      ensures View() == SetResultStep(old(View()), res)
    {
      lastResult := Some(EncodeResult(res));
    }

    /** `request`: the pending check, then the install, then the progress
        reset; the background thread it spawns is `Complete`, run later. */
    method Request(params: FetchRequest) returns (reply: Result<(), Error>)
      modifies this
      ensures Reply(View(), reply) == RequestStep(old(View()), params)
      ensures reply == Ok(())
      ensures old(state).Some? ==> unchanged(this)
      ensures old(state).None? ==> state == Some(FetchState(params)) && progress == None
      ensures lastResult == old(lastResult)
    {
      var pending := IsPending();
      if pending {
        return Ok(());
      }
      reply := SetRequest(params);
      if reply.Ok? {
        progress := None;
      }
    }

    /** A progress event written by the relay thread. */
    method ReportProgress(p: ProgressNotification)
      modifies this`progress
      ensures View() == ReportProgressStep(old(View()), p)
    {
      progress := Some(p);
    }

    /** The end of `threaded_fetch`: the sentinel send and relay join either
        succeeded (`relayJoined`) or made it return early. */
    method FinishFetch(relayJoined: bool, res: FetchOutcome) returns (r: Result<(), Error>)
      modifies this
      ensures Reply(View(), r) == FinishFetchStep(old(View()), relayJoined, res)
    {
      if !relayJoined {
        return Err(RelayFailed);
      }
      SetResult(res);
      ClearRequest();
      r := Ok(());
    }

    /** The body of the spawned thread once the fetch returned `res`. */
    method Complete(relayJoined: bool, res: FetchOutcome)
      modifies this
      ensures View() == CompleteStep(old(View()), relayJoined, res)
      ensures state == None && progress == old(progress)
      ensures lastResult == (if relayJoined then Some(EncodeResult(res)) else old(lastResult))
    {
      var r := FinishFetch(relayJoined, res);
      if r.Err? {
        ClearRequest();
      }
    }
  }
}
