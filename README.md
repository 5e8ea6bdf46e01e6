# Remote image-data loader, modelled in Dafny

This project models the logic of the ImageFetcherPlayground's `NetworkRequests`
playground: an HTTP client abstraction, and `RemoteFeedImageDataLoader`, which
turns a client result into an `Entry` or a typed error. The loader returns a
cancellable task, `HTTPClientTaskWrapper`.

- `results.dfy` (module `Results`): Swift's `Optional` and `Result`, with `mapError` and `flatMap`.
- `http_client.dfy` (module `HttpClient`):
  - `Data` is a sequence of bytes.
  - `HTTPURLResponse` is its status code, with `isOK`.
  - `SessionOutcome` is the outcome table `URLSessionHTTPClient.get` builds from a data task's optional `(data, response, error)`.
  - `TransportTask` is the cancellable task a client returns. It counts the cancels it receives.
- `image_data_loader.dfy` (module `ImageDataLoader`):
  - `Entry` and `toAddPhotoModel`.
  - `MapClientResult` is the result mapping inside `loadImageData`.
  - The task wrapper is written twice. First as a pure state machine: `WrapperState`, `Step` and `Run`. Then as the class `HttpClientTaskWrapper`: its constructor yields `Initial(c)`; `Complete`, `Cancel` and `Attach` each take exactly one `Step`; `PreventFurtherCompletions` only clears the completion.
  - The liveness guard: the weak `self` captured by the transport callback becomes the flag `RemoteFeedImageDataLoader.alive`. `Session`, `SessionStep` and `RunSession` model a loader together with one task, from `Created` (the wrapper built at line 88, no client task assigned yet). The assignment of the client's task is an event of its own, so a transport callback may come before it, as from a client that calls back inside `get`.

Modelling choices:

- A caller's completion closure is a `Callback` identity. When a closure is called, the model appends a `Delivery` to the wrapper's ghost log.
- The URLSession error is an opaque `SessionError` code.
- The URL argument is not modelled. The client is abstract: the loader's constructor does not take it, the task its `get` returns comes in as a parameter of `LoadImageData`, and the callback it invokes, at any point after the wrapper exists, is `OnTransportResult`.

What the wrapper does not promise:

- `complete(with:)` does not clear the stored completion (`NetworkRequests.playground/Contents.swift:73-75`), so each further `complete` before a cancel reaches the caller again.
- `CompletesWhileStored` and `TwoCompletionsBothDelivered` state this. At-most-once delivery rests on the client calling back once, and the model does not claim it.

## Model

| member | source | states |
|---|---|---|
| HttpClient.SessionOutcome | NetworkRequests.playground/Contents.swift:154-162 | an error, when present, gives that error as the failure; success holds exactly when there is no error, a body and an HTTP response, with that pair as the value; every failure without an error is UnexpectedValuesRepresentation |
| HttpClient.ErrorTakesPrecedence | NetworkRequests.playground/Contents.swift:155-156 | with an error present the outcome does not depend on the body or the response |
| HttpClient.TransportTask.constructor | NetworkRequests.playground/Contents.swift:165 | a task just returned by a client has received no cancel |
| HttpClient.TransportTask.Cancel | NetworkRequests.playground/Contents.swift:144-150 | each cancel reaches the underlying task once |
| ImageDataLoader.Entry.ToAddPhotoModel | NetworkRequests.playground/Contents.swift:33-35 | the copy equals the receiver, field by field |
| ImageDataLoader.MapClientResult | NetworkRequests.playground/Contents.swift:92-97 | any client failure becomes connectivity; a client success becomes a success exactly when the status is 200 and the body is non-empty, and then both buffers equal the body; every other success is invalidData |
| ImageDataLoader.MappedResultIsWellFormed | NetworkRequests.playground/Contents.swift:95-96 | a mapped success always holds one non-empty body in both fields |
| ImageDataLoader.LoadFromSession | NetworkRequests.playground/Contents.swift:92-97 | composed with the URLSession outcome table: a session error or a malformed callback (no body, no response, or a non-HTTP one) gives connectivity; a body with an HTTP response gives success with Entry(body, body) for status 200 and a non-empty body, invalidData otherwise |
| ImageDataLoader.Step | NetworkRequests.playground/Contents.swift:73-84 | no wrapper event installs a different completion; the delivery log only grows, by at most one entry; the forwarded-cancel count never decreases; an attached task stays attached |
| ImageDataLoader.NothingDeliveredWithoutCompletion | NetworkRequests.playground/Contents.swift:73-84 | once the completion is gone, no sequence of events restores it or delivers anything |
| ImageDataLoader.NoDeliveryAfterCancel | NetworkRequests.playground/Contents.swift:77-84 | after a cancel, whatever events follow, nothing more is delivered and the completion stays absent |
| ImageDataLoader.CompletesWhileStored | NetworkRequests.playground/Contents.swift:73-75 | while the completion is stored, each complete(with: r) delivers exactly r to it, in order, and the completion stays stored |
| ImageDataLoader.TwoCompletionsBothDelivered | NetworkRequests.playground/Contents.swift:73-75 | two completes before any cancel both reach the caller: the wrapper by itself does not enforce at-most-once delivery |
| ImageDataLoader.RepeatedCancels | NetworkRequests.playground/Contents.swift:77-83 | after one or more cancels the completion is absent and nothing was delivered; each cancel is forwarded to the wrapped task when one is set |
| ImageDataLoader.ForwardedCountsCancels | NetworkRequests.playground/Contents.swift:77-80 | once a task is attached, the forwarded count grows by exactly the number of cancels among the events |
| ImageDataLoader.DeliveriesOnlyToOwnCompletion | NetworkRequests.playground/Contents.swift:65-75 | a wrapper only ever calls the completion it was constructed with |
| ImageDataLoader.SessionStep | NetworkRequests.playground/Contents.swift:89-98 | a released loader never becomes alive again and its callbacks deliver nothing; deliveries are only appended, to the completion already stored; a step delivers if and only if it is a transport callback while the loader is alive and the completion stored, and then it delivers exactly the mapped result |
| ImageDataLoader.CancelledLoadDeliversNothing | NetworkRequests.playground/Contents.swift:87-100 | from the session loadImageData creates, whatever happened before the caller cancels (an early callback included), nothing is delivered after the cancel |
| ImageDataLoader.EarlyCallbackDelivered | NetworkRequests.playground/Contents.swift:88-89 | a client that calls back before its task is assigned to wrapped still reaches the caller with the mapped result, and a later cancel does not undo that |
| ImageDataLoader.ReleasedLoaderDeliversNothing | NetworkRequests.playground/Contents.swift:89-90 | once the loader is gone, no transport callback delivers a result |
| ImageDataLoader.CancelledSessionDeliversNothing | NetworkRequests.playground/Contents.swift:77-98 | once the caller has cancelled, no later transport callback or release delivers anything |
| ImageDataLoader.SessionDeliveriesAreWellFormed | NetworkRequests.playground/Contents.swift:87-98 | every delivery in a loader session goes to the caller's completion and carries a result the mapping can produce |
| ImageDataLoader.HttpClientTaskWrapper.constructor | NetworkRequests.playground/Contents.swift:69-71 | a new wrapper stores the completion, has no wrapped task and has delivered nothing |
| ImageDataLoader.HttpClientTaskWrapper.Complete | NetworkRequests.playground/Contents.swift:73-75 | the new state is one Complete step from the old one |
| ImageDataLoader.HttpClientTaskWrapper.Cancel | NetworkRequests.playground/Contents.swift:77-80 | the new state is one Cancel step from the old one, and the wrapped task, if set, has received one more cancel |
| ImageDataLoader.HttpClientTaskWrapper.PreventFurtherCompletions | NetworkRequests.playground/Contents.swift:82-84 | the completion is absent afterwards, and only the completion field changes |
| ImageDataLoader.HttpClientTaskWrapper.Attach | NetworkRequests.playground/Contents.swift:88-89 | the wrapped task is the client's task, and the state is one Attach step from the old one |
| ImageDataLoader.RemoteFeedImageDataLoader.constructor | NetworkRequests.playground/Contents.swift:55-57 | a new loader is alive |
| ImageDataLoader.RemoteFeedImageDataLoader.Release | NetworkRequests.playground/Contents.swift:89-90 | after the last strong reference goes, the weak self the callback holds is nil: the loader is no longer alive |
| ImageDataLoader.RemoteFeedImageDataLoader.LoadImageData | NetworkRequests.playground/Contents.swift:87-100 | the returned task is new, holds the caller's completion, and wraps the client's task: its state is that of Created after the ClientTaskAssigned event |
| ImageDataLoader.RemoteFeedImageDataLoader.OnTransportResult | NetworkRequests.playground/Contents.swift:89-98 | the task takes one SessionStep for the callback: it completes with the mapped result if the loader is alive, and is unchanged otherwise |

## Left out

- URLSession, `dataTask` and `resume` (`NetworkRequests.playground/Contents.swift:135-166` apart from the outcome decision): platform network I/O. The data task's callback arguments are parameters of `SessionOutcome`, and its task is a `TransportTask`.
- The URL argument of `get` and `loadImageData`: the model does not look at it.
- `Data.toModel`, `Model.toData` and `Model.toJson` (`NetworkRequests.playground/Contents.swift:4-22`): thin wrappers over JSONEncoder, JSONDecoder and JSONSerialization, which are not part of this model. So the encode/decode round trip of an `Entry` is not stated.
- The callback's execution context (`NetworkRequests.playground/Contents.swift:121-122`) and concurrent calls to `complete` and `cancel`: the model applies events one at a time.
- `ImageDataLoader.RemoteFeedImageDataLoader.LoadImageData` builds the wrapper and assigns the client's task in one method, so a callback from inside `get` cannot be expressed against the class. The session model covers that order: `ClientTaskAssigned` is a separate event, and `EarlyCallbackDelivered` and `CancelledLoadDeliversNothing` allow a callback before it.
- The weak-reference mechanism itself: the model reduces it to the `alive` flag, which `Release` clears.
- The identity of the caller's completion closure: it is a `Callback` token, and calling it appends to a ghost log.
- The playground script (`NetworkRequests.playground/Contents.swift:178-207`): UIKit image decoding, printing and hard-coded URLs.
- `Entry2` (`NetworkRequests.playground/Contents.swift:38-50`): a duplicate of `Entry`.
- The unused `HttpError` enum (`NetworkRequests.playground/Contents.swift:169-175`).
- `HttpClient.HttpUrlResponse.IsOK` (`NetworkRequests.playground/Contents.swift:127-133`) has no contract of its own. What it decides is stated through `MapClientResult`.
