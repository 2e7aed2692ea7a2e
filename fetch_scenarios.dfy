/** Callers of `AsyncFetch` that rely on its method contracts alone: one
    request followed by the completion of its background thread, with the
    external fetch succeeding or failing, and two requests issued back to
    back before the first completes. */
module FetchScenarios {
  import opened Wrappers
  import opened Fetch

  /** The request every scenario issues first: branch `main` of `origin`, no credential. */
  function OriginMain(): FetchRequest
  {
    FetchRequest("origin", "main", None)
  }

  /** A fetch of 1500 bytes: afterwards nothing is pending and the result is `(1500, "")`. */
  method FetchSucceeds() returns (pending: bool, last: Option<FetchResult>)
    ensures !pending
    ensures last == Some((1500, ""))
  {
    var fetch := new AsyncFetch();
    var reply := fetch.Request(OriginMain());
    assert reply.Ok?;
    fetch.Complete(true, Ok(1500));
    pending := fetch.IsPending();
    last := fetch.LastResult();
  }

  /** A fetch failing with "auth failed": the caller's request still answers
      `Ok`, nothing is pending afterwards and the result is `(0, "auth failed")`. */
  method FetchFails() returns (reply: Result<(), Error>, pending: bool, last: Option<FetchResult>)
    ensures reply == Ok(())
    ensures !pending
    ensures last == Some((0, "auth failed"))
  {
    var fetch := new AsyncFetch();
    reply := fetch.Request(OriginMain());
    fetch.Complete(true, Err("auth failed"));
    pending := fetch.IsPending();
    last := fetch.LastResult();
  }

  /** A second request while the first is in flight answers `Ok` and is
      dropped: the first request stays installed until its thread completes,
      and the result is that thread's. */
  method SecondRequestDropped(second: FetchRequest, bytes: nat)
    returns (firstReply: Result<(), Error>, reply: Result<(), Error>, inFlight: Option<FetchState>, pending: bool, last: Option<FetchResult>)
    ensures firstReply == Ok(()) && reply == Ok(())
    ensures inFlight == Some(FetchState(OriginMain()))
    ensures !pending
    ensures last == Some((bytes, ""))
  {
    var fetch := new AsyncFetch();
    firstReply := fetch.Request(OriginMain());
    reply := fetch.Request(second);
    inFlight := fetch.state;
    fetch.Complete(true, Ok(bytes));
    pending := fetch.IsPending();
    last := fetch.LastResult();
  }
}
