# Single-flight fetch coordinator (asyncgit `AsyncFetch`)

This project models `AsyncFetch` from gitui's asyncgit crate. `AsyncFetch`
lets a UI thread start a fetch from a remote without blocking, poll whether
the fetch is still pending, and read its outcome afterwards. At most one
fetch is in flight at a time.

The coordinator keeps three shared slots:

- `state`: the in-flight `FetchRequest`, if any. Its presence alone means "busy".
- `last_result`: the `(bytes, error text)` pair of the last completed fetch.
- `progress`: the latest progress event.

In the source each slot sits behind its own mutex and a background thread does
the fetch. Here the locks always succeed. In the class, the thread body after
the fetch returns is one sequential step (`Complete`). That step takes the
fetch's outcome as a parameter, plus whether the progress relay shut down
cleanly. In the trace model the same body is two events, so that the order of
its two writes is visible: `Store` writes the result and `Clear` then clears
the request.

- `wrappers.dfy` (module `Wrappers`): `Option` and `Result`.
- `fetch.dfy` (module `Fetch`): the request and state types. Each coordinator
  operation is a step function on a `Snapshot` value of the three slots. Class
  `AsyncFetch` holds those slots as fields, and each method is proved to
  perform exactly its step function on them.
- `fetch_trace.dfy` (module `FetchTrace`): the coordinator plus the background
  threads its requests spawn, run one event at a time. An event is a
  `request`, a progress write from the relay, or one of the two writes of a
  completing thread (store the result, then clear the request). Lemmas
  over every such trace give the single-flight invariant, what completion
  does, and how a request while busy is dropped.
- `fetch_scenarios.dfy` (module `FetchScenarios`): three callers of the class
  that rely on its contracts alone. They cover a successful fetch, a failed
  fetch, and two requests issued back to back.

Two behaviours of the code that a reader may not expect:

- When the progress sentinel cannot be sent or the relay thread cannot be
  joined, `threaded_fetch` returns early, before `set_result`. So the stored
  result is not overwritten in that cycle. Only the request is cleared,
  by the error path of the spawned thread. `CompleteStep` states this.
- The error for a second install is `Error::Generic("pending request")`, not a
  dedicated "busy" kind. Run sequentially, `request` can never hit it: it
  checks `is_pending` first. So `RequestStep` always answers `Ok`, and the error
  appears only when `SetRequestStep` is called directly.

## Model

| member | source | states |
|---|---|---|
| Fetch.EncodeResult | asyncgit/src/fetch.rs:138-144 | a failure is stored as zero bytes with its error text; every outcome except a failure with empty text decodes back to itself when an empty text is read as success |
| Fetch.SetRequestStep | asyncgit/src/fetch.rs:108-120 | busy afterwards in every case; answers the "pending request" error exactly when a request was already installed, and then keeps that request and every slot unchanged; otherwise installs the given request; result and progress untouched |
| Fetch.ClearRequestStep | asyncgit/src/fetch.rs:122-130 | idle afterwards; result and progress untouched |
| Fetch.SetResultStep | asyncgit/src/fetch.rs:132-147 | the stored result is overwritten with the encoded outcome; state and progress untouched |
| Fetch.RequestStep | asyncgit/src/fetch.rs:69-106 | always answers `Ok` and is busy afterwards; while busy it changes nothing, so the in-flight request is kept; when idle it installs the request and resets progress to none; the stored result is never touched |
| Fetch.ReportProgressStep | asyncgit/src/fetch.rs:158-163 | a relay write replaces the progress snapshot with the latest event; state and result untouched |
| Fetch.FinishFetchStep | asyncgit/src/fetch.rs:172-179 | succeeds exactly when the relay shut down cleanly, and then stores the encoded outcome and is idle; otherwise fails with `RelayFailed` having changed nothing |
| Fetch.CompleteStep | asyncgit/src/fetch.rs:85-98 | after the thread body the coordinator is idle on every path, including the early error return; the result is that cycle's encoded outcome, or the previous result when the relay failed; progress untouched |
| Fetch.AsyncFetch.constructor | asyncgit/src/fetch.rs:41-48 | a new coordinator has no request, no result and no progress |
| Fetch.AsyncFetch.IsPending | asyncgit/src/fetch.rs:51-54 | true exactly when a request is installed; changes nothing |
| Fetch.AsyncFetch.LastResult | asyncgit/src/fetch.rs:57-60 | returns the stored result; changes nothing |
| Fetch.AsyncFetch.Progress | asyncgit/src/fetch.rs:63-66 | returns the stored progress snapshot; changes nothing |
| Fetch.AsyncFetch.SetRequest | asyncgit/src/fetch.rs:108-120 | performs `SetRequestStep` on the fields and returns its answer |
| Fetch.AsyncFetch.ClearRequest | asyncgit/src/fetch.rs:122-130 | performs `ClearRequestStep` on the fields |
| Fetch.AsyncFetch.SetResult | asyncgit/src/fetch.rs:132-147 | performs `SetResultStep` on the fields |
| Fetch.AsyncFetch.Request | asyncgit/src/fetch.rs:69-106 | performs `RequestStep` on the fields: answers `Ok`; while busy nothing changes; when idle the request is installed and progress reset; the result is kept |
| Fetch.AsyncFetch.ReportProgress | asyncgit/src/fetch.rs:158-163 | performs `ReportProgressStep` on the fields |
| Fetch.AsyncFetch.FinishFetch | asyncgit/src/fetch.rs:172-179 | performs `FinishFetchStep` on the fields and returns its answer |
| Fetch.AsyncFetch.Complete | asyncgit/src/fetch.rs:85-98 | performs `CompleteStep` on the fields: idle afterwards, the result is this cycle's outcome unless the relay failed, progress kept |
| FetchTrace.Next | asyncgit/src/fetch.rs:72-103 | a `request` is always accepted, and spawns a thread (one more served request, one more running) exactly when the coordinator was idle; relay writes and the result write need a running thread that has not yet stored its result; a clear needs a running thread that has stored its result, and completes it (one fewer running, one more finished) |
| FetchTrace.RunInv | asyncgit/src/fetch.rs:69-106 | every accepted trace keeps the system invariant: a thread runs exactly while a request is installed, each spawned thread has completed exactly once or is still running, and the installed request is the one the running thread was given |
| FetchTrace.AtMostOneInFlight | asyncgit/src/fetch.rs:72-77 | from a fresh coordinator, under any events, at most one background thread runs, one runs exactly while `is_pending` is true, and the spawned threads are those completed plus the one running |
| FetchTrace.BusyRequestsIgnored | asyncgit/src/fetch.rs:72-75 | while a fetch is in flight, any number of requests and progress writes keep the installed request, the stored result and the set of spawned threads unchanged, and spawn nothing; before the running thread has stored its result every such trace is accepted |
| FetchTrace.StoreRecordsOutcome | asyncgit/src/fetch.rs:172-176 | the result write leaves the coordinator pending with the same request, and the stored result is the cycle's encoded outcome, or the earlier result when the relay failed |
| FetchTrace.ResultStoredBeforeIdle | asyncgit/src/fetch.rs:176-177 | any single event that takes the coordinator from pending to idle is the running thread's clear, made after that thread stored its result; so at the first idle moment the stored result is already this cycle's, and no thread runs |
| FetchTrace.CompletionObservable | asyncgit/src/fetch.rs:176-177 | a thread stores its result, any requests that arrive meanwhile are dropped, then it clears: nothing is pending, no thread runs, one more thread has completed, and the result is that cycle's encoded outcome (the earlier result if the relay failed) |
| FetchTrace.StoreThenClearCompletes | asyncgit/src/fetch.rs:85-98 | the two writes of a completing thread, one after the other, are exactly the class's completion step `CompleteStep`, and complete that thread |
| FetchTrace.AcceptedRequestResetsProgress | asyncgit/src/fetch.rs:77-78 | a request accepted by an idle coordinator is installed and handed to a newly spawned thread, progress from an earlier cycle is reset to none, and the stored result is kept |
| FetchTrace.BackToBackRequestsServeFirst | asyncgit/src/fetch.rs:72-75 | two requests issued back to back and then the thread's result write and clear: exactly one thread was spawned, for the first request, and the result is its outcome |
| FetchScenarios.FetchSucceeds | asyncgit/src/fetch.rs:139 | a 1500-byte fetch on `origin`/`main` leaves nothing pending and the result `(1500, "")` |
| FetchScenarios.FetchFails | asyncgit/src/fetch.rs:140-143 | a fetch failing with "auth failed" still answers `Ok` to the caller, leaves nothing pending and the result `(0, "auth failed")` |
| FetchScenarios.SecondRequestDropped | asyncgit/src/fetch.rs:72-75 | a second request while busy answers `Ok` and leaves the first request installed; after completion nothing is pending and the result is the first fetch's |

## Left out

- Threads, `Arc`/`Mutex` sharing and lock poisoning: every `lock()?` is taken to succeed. The race between the pending check and the install cannot arise sequentially, so `set_request`'s error is reachable only by calling it directly.
- The crossbeam progress channel, the `ProgressNotification::Done` sentinel and the relay thread (`RemoteProgress::spawn_receiver_thread`, `handle.join()`): they are plumbing and code outside this file. Their success or failure is the `relayJoined` parameter, and the relay's writes to the progress slot are `ReportProgress`.
- The external `fetch` call and the `CWD` global: the call's outcome is a parameter of the completion step, so the request's branch and credential are carried but not used.
- The `ProgressNotification` to `RemoteProgress` conversion in `progress()`: it is a foreign `into`, so progress is an opaque value and the query returns it unconverted.
- `BasicAuthCredential` internals, and the formatting of the `Error` type: a failed fetch is given as the text `e.to_string()` would produce.
- Logging, the `AsyncGitNotification::Fetch` send at the end of the thread, and the `expect` panics around it and around `clear_request`: the completion notification and its ordering after the state update are not modelled.
- Fetch.FinishFetchStep: it is one atomic step, so the order of its two writes (`set_result`, then `clear_request`) is not observable in it or in the class methods `FinishFetch` and `Complete`; the order is stated in the trace model instead, where `Store` and `Clear` are separate events (`FetchTrace.ResultStoredBeforeIdle`).
- Byte counts are unbounded naturals: the source's `usize` never overflows here because nothing is added to it.
