/**
 * RemoteFeedImageDataLoader: the domain record, the mapping from a client
 * result to a load result, the cancellation-aware task wrapper it returns, and
 * the loader's own guard against calling back after it has been released.
 *
 * The wrapper is specified twice: as a pure state machine (WrapperState, Step,
 * Run), about which the lemmas are proved, and as the class
 * HttpClientTaskWrapper: its constructor yields Initial, Complete, Cancel and
 * Attach each take exactly one Step, and PreventFurtherCompletions only clears
 * the completion.
 */
module ImageDataLoader {
  import opened Results
  import opened HttpClient

  // ---------------------------------------------------------------------------
  // Domain record
  // ---------------------------------------------------------------------------

  /** `Entry`: two byte buffers, the thumbnail and the full image. */
  datatype Entry = Entry(thumbnailUrl: Data, url: Data) {
    /** `toAddPhotoModel`: a field-by-field copy, hence the receiver itself. */
    function ToAddPhotoModel(): (e: Entry)
      ensures e == this
      ensures e.thumbnailUrl == thumbnailUrl && e.url == url
    {
      Entry(thumbnailUrl := thumbnailUrl, url := url)
    }
  }

  // ---------------------------------------------------------------------------
  // Result mapping
  // ---------------------------------------------------------------------------

  /** `RemoteFeedImageDataLoader.Error`. */
  datatype LoaderError = Connectivity | InvalidData

  /**
   * `FeedImageDataLoader.ResultImage`, restricted to the errors the loader
   * produces: its failure side is any error, but the loader only ever reports
   * a LoaderError.
   */
  type LoadResult = Result<Entry, LoaderError>

  /**
   * What the loader's transport callback hands to its task: any client
   * failure becomes `connectivity`; a body with an OK response becomes an
   * Entry whose two buffers are the body, provided the body is not empty;
   * anything else is `invalidData`.
   */
  function MapClientResult(result: ClientResult): (r: LoadResult)
    ensures result.Failure? ==> r == Failure(Connectivity)
    ensures result.Success? ==>
              (r.Success? <==> result.value.1.statusCode == 200 && |result.value.0| > 0)
    ensures r.Success? ==> r.value.thumbnailUrl == result.value.0 && r.value.url == result.value.0
    ensures r.Failure? ==> (r.error == Connectivity <==> result.Failure?)
  {
    result
      .MapError((e: TransportError) => Connectivity)
      .FlatMap((pair: (Data, HttpUrlResponse)) =>
        var isValidResponse := pair.1.IsOK() && |pair.0| != 0;
        if isValidResponse then Success(Entry(thumbnailUrl := pair.0, url := pair.0))
        else Failure(InvalidData))
  }

  /** A load result as the mapping can produce it: a success carries one non-empty body twice. */
  ghost predicate WellFormed(r: LoadResult)
  {
    r.Success? ==> r.value.thumbnailUrl == r.value.url && |r.value.url| > 0
  }

  /** Every delivery in a log carries a well-formed result. */
  ghost predicate AllWellFormed(ds: seq<Delivery>)
  {
    forall i :: 0 <= i < |ds| ==> WellFormed(ds[i].result)
  }

  /** Every result the mapping produces is well formed, whatever the client reported. */
  lemma MappedResultIsWellFormed(result: ClientResult)
    ensures WellFormed(MapClientResult(result))
  {
  }

  /**
   * End to end over URLSessionHTTPClient: what a data task's callback
   * arguments become once the loader has mapped them. A session error and a
   * malformed callback (no body, or a response that is not HTTP) both surface
   * as `connectivity`.
   */
  lemma LoadFromSession(data: Option<Data>, response: Option<UrlResponse>, error: Option<SessionError>)
    ensures var r := MapClientResult(SessionOutcome(data, response, error));
      && (error.Some? ==> r == Failure(Connectivity))
      && (error.None? && (data.None? || response.None? || response.value.NonHttp?) ==> r == Failure(Connectivity))
      && (error.None? && data.Some? && response.Some? && response.value.Http? ==>
            r == if response.value.http.statusCode == 200 && |data.value| > 0
                 then Success(Entry(data.value, data.value))
                 else Failure(InvalidData))
  {
  }

  // ---------------------------------------------------------------------------
  // The task wrapper as a state machine
  // ---------------------------------------------------------------------------

  /** The identity of a caller's completion closure. */
  datatype Callback = Callback(id: nat)

  /** One invocation of a completion closure with a result. */
  datatype Delivery = Delivery(to: Callback, result: LoadResult)

  /**
   * What can happen to a wrapper: `complete(with:)`, `cancel()`, and the
   * assignment of the client's task to `wrapped`.
   */
  datatype WrapperEvent = Complete(result: LoadResult) | Cancel | Attach

  /**
   * The wrapper's observable state: the stored completion, whether a wrapped
   * client task is set, the log of deliveries made, and the number of cancels
   * forwarded to the wrapped task.
   */
  datatype WrapperState = WrapperState(completion: Option<Callback>, attached: bool,
                                       delivered: seq<Delivery>, forwarded: nat)

  /** A wrapper just constructed around a caller's completion. */
  function Initial(c: Callback): WrapperState
  {
    WrapperState(Some(c), false, [], 0)
  }

  /**
   * One event. `complete` calls the stored completion if there is one and
   * leaves it stored; `cancel` drops the completion and forwards to the
   * wrapped task when there is one; attaching sets the wrapped task.
   */
  function Step(s: WrapperState, e: WrapperEvent): (t: WrapperState)
    // no event ever stores a different completion
    ensures t.completion.Some? ==> t.completion == s.completion
    // the delivery log only grows, by at most one entry
    ensures s.delivered <= t.delivered && |t.delivered| <= |s.delivered| + 1
    ensures t.forwarded >= s.forwarded
    ensures s.attached ==> t.attached
  {
    match e
    case Complete(r) =>
      if s.completion.Some? then s.(delivered := s.delivered + [Delivery(s.completion.value, r)]) else s
    case Cancel =>
      s.(completion := None, forwarded := if s.attached then s.forwarded + 1 else s.forwarded)
    case Attach =>
      s.(attached := true)
  }

  /** A sequence of events, applied in order. */
  function Run(s: WrapperState, events: seq<WrapperEvent>): WrapperState
    decreases |events|
  {
    if events == [] then s else Run(Step(s, events[0]), events[1..])
  }

  /** `n` cancels in a row. */
  function Cancels(n: nat): seq<WrapperEvent>
  {
    if n == 0 then [] else [Cancel] + Cancels(n - 1)
  }

  /** One `complete` per result, in order. */
  function Completes(results: seq<LoadResult>): seq<WrapperEvent>
  {
    if results == [] then [] else [Complete(results[0])] + Completes(results[1..])
  }

  /** The deliveries of `results`, in order, to `c`. */
  function DeliveriesTo(c: Callback, results: seq<LoadResult>): seq<Delivery>
  {
    if results == [] then [] else [Delivery(c, results[0])] + DeliveriesTo(c, results[1..])
  }

  /** The number of cancels among `events`. */
  function CountCancels(events: seq<WrapperEvent>): nat
  {
    if events == [] then 0 else (if events[0].Cancel? then 1 else 0) + CountCancels(events[1..])
  }

  /** Once the completion is gone, nothing brings it back and nothing is delivered. */
  lemma {:induction false} NothingDeliveredWithoutCompletion(s: WrapperState, events: seq<WrapperEvent>)
    requires s.completion.None?
    ensures Run(s, events).completion.None?
    ensures Run(s, events).delivered == s.delivered
    decreases |events|
  {
    if events != [] {
      NothingDeliveredWithoutCompletion(Step(s, events[0]), events[1..]);
    }
  }

  /** After a cancel, whatever follows, the completion is never called again. */
  lemma NoDeliveryAfterCancel(s: WrapperState, events: seq<WrapperEvent>)
    ensures Run(s, [Cancel] + events).delivered == s.delivered
    ensures Run(s, [Cancel] + events).completion.None?
  {
    assert ([Cancel] + events)[1..] == events;
    NothingDeliveredWithoutCompletion(Step(s, Cancel), events);
  }

  /**
   * While the completion is stored, every `complete(with: r)` delivers exactly
   * `r` to it, in order, and the completion stays stored: the wrapper does not
   * itself limit delivery to one.
   */
  lemma {:induction false} CompletesWhileStored(s: WrapperState, c: Callback, results: seq<LoadResult>)
    requires s.completion == Some(c)
    ensures Run(s, Completes(results)).delivered == s.delivered + DeliveriesTo(c, results)
    ensures Run(s, Completes(results)).completion == Some(c)
    decreases |results|
  {
    if results != [] {
      var t := Step(s, Complete(results[0]));
      assert Completes(results)[0] == Complete(results[0]);
      assert Completes(results)[1..] == Completes(results[1..]);
      CompletesWhileStored(t, c, results[1..]);
      assert s.delivered + [Delivery(c, results[0])] + DeliveriesTo(c, results[1..])
          == s.delivered + DeliveriesTo(c, results);
    }
  }

  /** Two completions before any cancel reach the caller twice. */
  lemma TwoCompletionsBothDelivered(c: Callback, r1: LoadResult, r2: LoadResult)
    ensures Run(Initial(c), [Attach, Complete(r1), Complete(r2)]).delivered == [Delivery(c, r1), Delivery(c, r2)]
  {
    var s := Step(Initial(c), Attach);
    assert [r1, r2][1..] == [r2];
    assert [r2][1..] == [];
    assert Completes([r1, r2]) == [Complete(r1), Complete(r2)] by {
      assert Completes([r2]) == [Complete(r2)] + Completes([]);
    }
    CompletesWhileStored(s, c, [r1, r2]);
    assert DeliveriesTo(c, [r1, r2]) == [Delivery(c, r1), Delivery(c, r2)] by {
      assert DeliveriesTo(c, [r2]) == [Delivery(c, r2)] + DeliveriesTo(c, []);
    }
    assert [Attach, Complete(r1), Complete(r2)][1..] == [Complete(r1), Complete(r2)];
  }

  /**
   * Cancel is idempotent on the wrapper's own state: after one or more
   * cancels the completion is gone and nothing was delivered, while each
   * cancel is forwarded to the wrapped task when one is set.
   */
  lemma {:induction false} RepeatedCancels(s: WrapperState, n: nat)
    ensures Run(s, Cancels(n)).completion == (if n == 0 then s.completion else None)
    ensures Run(s, Cancels(n)).delivered == s.delivered
    ensures Run(s, Cancels(n)).attached == s.attached
    ensures Run(s, Cancels(n)).forwarded == s.forwarded + (if s.attached then n else 0)
    decreases n
  {
    if n > 0 {
      assert Cancels(n)[0] == Cancel;
      assert Cancels(n)[1..] == Cancels(n - 1);
      RepeatedCancels(Step(s, Cancel), n - 1);
    }
  }

  /** Once a task is attached, every cancel and only a cancel is forwarded to it. */
  lemma {:induction false} ForwardedCountsCancels(s: WrapperState, events: seq<WrapperEvent>)
    requires s.attached
    ensures Run(s, events).attached
    ensures Run(s, events).forwarded == s.forwarded + CountCancels(events)
    decreases |events|
  {
    if events != [] {
      ForwardedCountsCancels(Step(s, events[0]), events[1..]);
    }
  }

  /** Every delivery goes to `c`. */
  ghost predicate OnlyTo(c: Callback, s: WrapperState)
  {
    && (s.completion.Some? ==> s.completion.value == c)
    && forall i :: 0 <= i < |s.delivered| ==> s.delivered[i].to == c
  }

  /** A wrapper only ever calls the completion it was constructed with. */
  lemma {:induction false} DeliveriesOnlyToOwnCompletion(s: WrapperState, c: Callback, events: seq<WrapperEvent>)
    requires OnlyTo(c, s)
    ensures OnlyTo(c, Run(s, events))
    decreases |events|
  {
    if events != [] {
      DeliveriesOnlyToOwnCompletion(Step(s, events[0]), c, events[1..]);
    }
  }

  // ---------------------------------------------------------------------------
  // The loader together with one task
  // ---------------------------------------------------------------------------

  /** A loader's liveness (the weak `self` of its transport callback) and its task's state. */
  datatype Session = Session(alive: bool, task: WrapperState)

  /**
   * What can happen once `loadImageData` has built its wrapper: the
   * assignment of the client's task to `wrapped`, the transport callback, the
   * caller's cancel and the loader's release. A client may call back before
   * `get` returns, so the callback may come before the assignment.
   */
  datatype SessionEvent =
    | ClientTaskAssigned
    | TransportCallsBack(result: ClientResult)
    | CallerCancels
    | LoaderReleased

  /**
   * One event. The transport callback completes the task with the mapped
   * result only while the loader is alive; otherwise it returns silently.
   */
  function SessionStep(s: Session, e: SessionEvent): (t: Session)
    // a released loader is never alive again, and its callbacks deliver nothing
    ensures t.alive ==> s.alive
    ensures !s.alive ==> t.task.delivered == s.task.delivered
    // deliveries are only appended, to the completion already stored
    ensures s.task.delivered <= t.task.delivered
    ensures t.task.completion.Some? ==> t.task.completion == s.task.completion
    ensures |t.task.delivered| > |s.task.delivered| ==>
              e.TransportCallsBack? && s.alive && s.task.completion.Some? &&
              t.task.delivered == s.task.delivered + [Delivery(s.task.completion.value, MapClientResult(e.result))]
    // and a callback while alive and stored does deliver the mapped result
    ensures e.TransportCallsBack? && s.alive && s.task.completion.Some? ==>
              t.task.delivered == s.task.delivered + [Delivery(s.task.completion.value, MapClientResult(e.result))]
  {
    match e
    case ClientTaskAssigned => s.(task := Step(s.task, Attach))
    case TransportCallsBack(r) =>
      if s.alive then s.(task := Step(s.task, Complete(MapClientResult(r)))) else s
    case CallerCancels => s.(task := Step(s.task, Cancel))
    case LoaderReleased => s.(alive := false)
  }

  /** A sequence of session events, applied in order. */
  function RunSession(s: Session, events: seq<SessionEvent>): Session
    decreases |events|
  {
    if events == [] then s else RunSession(SessionStep(s, events[0]), events[1..])
  }

  /**
   * The session as `loadImageData` begins it: the loader alive, the wrapper
   * holding the caller's completion, no client task assigned yet.
   */
  function Created(c: Callback): Session
  {
    Session(true, Initial(c))
  }

  /** Running two event sequences one after the other is running their concatenation. */
  lemma {:induction false} RunSessionAppend(s: Session, before: seq<SessionEvent>, after: seq<SessionEvent>)
    ensures RunSession(s, before + after) == RunSession(RunSession(s, before), after)
    decreases |before|
  {
    if before == [] {
      assert before + after == after;
    } else {
      assert (before + after)[0] == before[0];
      assert (before + after)[1..] == before[1..] + after;
      RunSessionAppend(SessionStep(s, before[0]), before[1..], after);
    }
  }

  /**
   * Whatever happened to a load before the caller cancels, including a
   * transport callback before the client's task was assigned, nothing is
   * delivered after the cancel.
   */
  lemma {:induction false} CancelledLoadDeliversNothing(c: Callback, before: seq<SessionEvent>, after: seq<SessionEvent>)
    ensures RunSession(Created(c), before + [CallerCancels] + after).task.delivered
         == RunSession(Created(c), before).task.delivered
  {
    var s := RunSession(Created(c), before);
    RunSessionAppend(Created(c), before, [CallerCancels] + after);
    assert before + [CallerCancels] + after == before + ([CallerCancels] + after);
    assert ([CallerCancels] + after)[1..] == after;
    CancelledSessionDeliversNothing(SessionStep(s, CallerCancels), after);
  }

  /**
   * A client that calls back inside `get`, before its task is assigned to
   * `wrapped`, still reaches the caller with the mapped result, and a cancel
   * after that does not take it back.
   */
  lemma EarlyCallbackDelivered(c: Callback, r: ClientResult)
    ensures RunSession(Created(c), [TransportCallsBack(r), ClientTaskAssigned, CallerCancels]).task.delivered
         == [Delivery(c, MapClientResult(r))]
  {
    var evs := [TransportCallsBack(r), ClientTaskAssigned, CallerCancels];
    assert evs[1..] == [ClientTaskAssigned, CallerCancels];
    assert evs[1..][1..] == [CallerCancels];
    assert evs[1..][1..][1..] == [];
    var s1 := SessionStep(Created(c), TransportCallsBack(r));
    assert s1.task.delivered == [Delivery(c, MapClientResult(r))];
    var s2 := SessionStep(s1, ClientTaskAssigned);
    var s3 := SessionStep(s2, CallerCancels);
    assert RunSession(s2, [CallerCancels]) == RunSession(s3, []) == s3;
    assert RunSession(s1, [ClientTaskAssigned, CallerCancels]) == RunSession(s2, [CallerCancels]);
    assert RunSession(Created(c), evs) == RunSession(s1, [ClientTaskAssigned, CallerCancels]);
  }

  /** Once the loader is released, no transport callback delivers anything. */
  lemma {:induction false} ReleasedLoaderDeliversNothing(s: Session, events: seq<SessionEvent>)
    requires !s.alive
    ensures !RunSession(s, events).alive
    ensures RunSession(s, events).task.delivered == s.task.delivered
    decreases |events|
  {
    if events != [] {
      ReleasedLoaderDeliversNothing(SessionStep(s, events[0]), events[1..]);
    }
  }

  /** A caller's cancel silences the task for good, whatever the transport and loader do next. */
  lemma {:induction false} CancelledSessionDeliversNothing(s: Session, events: seq<SessionEvent>)
    requires s.task.completion.None?
    ensures RunSession(s, events).task.completion.None?
    ensures RunSession(s, events).task.delivered == s.task.delivered
    decreases |events|
  {
    if events != [] {
      CancelledSessionDeliversNothing(SessionStep(s, events[0]), events[1..]);
    }
  }

  /** Every delivery in a session is a well-formed load result for the caller's own completion. */
  lemma {:induction false} SessionDeliveriesAreWellFormed(s: Session, c: Callback, events: seq<SessionEvent>)
    requires OnlyTo(c, s.task)
    requires AllWellFormed(s.task.delivered)
    ensures OnlyTo(c, RunSession(s, events).task)
    ensures AllWellFormed(RunSession(s, events).task.delivered)
    decreases |events|
  {
    if events != [] {
      var t := SessionStep(s, events[0]);
      if events[0].TransportCallsBack? && s.alive && s.task.completion.Some? {
        MappedResultIsWellFormed(events[0].result);
        assert t.task.delivered == s.task.delivered + [Delivery(c, MapClientResult(events[0].result))];
      }
      SessionDeliveriesAreWellFormed(t, c, events[1..]);
      assert RunSession(s, events) == RunSession(t, events[1..]);
    }
  }

  // ---------------------------------------------------------------------------
  // The objects
  // ---------------------------------------------------------------------------

  /**
   * `HTTPClientTaskWrapper`: holds the caller's completion until cancelled
   * and the client's task once it is assigned. The ghost fields record what
   * the completion received and how many cancels went to the wrapped task.
   */
  class HttpClientTaskWrapper {
    var completion: Option<Callback>
    var wrapped: TransportTask?
    ghost var delivered: seq<Delivery>
    ghost var forwarded: nat

    /** The wrapper's state as the state machine sees it. */
    ghost function State(): WrapperState
      reads this
    {
      WrapperState(completion, wrapped != null, delivered, forwarded)
    }

    constructor (c: Callback)
      ensures State() == Initial(c)
      ensures wrapped == null
    {
      completion := Some(c);
      wrapped := null;
      delivered := [];
      forwarded := 0;
    }

    /** `complete(with:)`: calls the stored completion, if any, and keeps it. */
    method Complete(result: LoadResult)
      modifies this
      ensures State() == Step(old(State()), WrapperEvent.Complete(result))
      ensures wrapped == old(wrapped)
    {
      if completion.Some? {
        delivered := delivered + [Delivery(completion.value, result)];
      }
    }

    /** `cancel()`: prevents further completions, then cancels the wrapped task if there is one. */
    method Cancel()
      modifies this, wrapped
      ensures State() == Step(old(State()), WrapperEvent.Cancel)
      ensures wrapped == old(wrapped)
      ensures wrapped != null ==> wrapped.cancels == old(wrapped.cancels) + 1
    {
      PreventFurtherCompletions();
      if wrapped != null {
        wrapped.Cancel();
        forwarded := forwarded + 1;
      }
    }

    /** `preventFurtherCompletions()`: drops the stored completion and nothing else. */
    method PreventFurtherCompletions()
      modifies this`completion
      ensures completion.None?
    {
      completion := None;
    }

    /** The assignment `task.wrapped = client.get(...)`. */
    method Attach(t: TransportTask)
      modifies this`wrapped
      ensures wrapped == t
      ensures State() == Step(old(State()), WrapperEvent.Attach)
    {
      wrapped := t;
    }
  }

  /**
   * `RemoteFeedImageDataLoader`. The client is abstract: the task its `get`
   * returns is a parameter, and the callback it later invokes is
   * OnTransportResult. `alive` stands for the weak reference to the loader
   * that the callback captures.
   */
  class RemoteFeedImageDataLoader {
    var alive: bool

    constructor ()
      ensures alive
    {
      alive := true;
    }

    /** The last strong reference to the loader goes away. */
    method Release()
      modifies this
      ensures !alive
    {
      alive := false;
    }

    /** `loadImageData(from:completion:)`: wraps the completion and attaches the client's task. */
    method LoadImageData(completion: Callback, clientTask: TransportTask) returns (task: HttpClientTaskWrapper)
      ensures fresh(task)
      ensures task.wrapped == clientTask
      ensures task.State() == Step(Initial(completion), Attach)
      ensures Session(true, task.State()) == SessionStep(Created(completion), ClientTaskAssigned)
    {
      task := new HttpClientTaskWrapper(completion);
      task.Attach(clientTask);
    }

    /** The closure handed to the client: returns unless the loader is alive, else completes the task. */
    method OnTransportResult(task: HttpClientTaskWrapper, result: ClientResult)
      modifies task
      ensures Session(alive, task.State()) ==
              SessionStep(Session(alive, old(task.State())), TransportCallsBack(result))
      ensures task.wrapped == old(task.wrapped)
    {
      if alive {
        task.Complete(MapClientResult(result));
      }
    }
  }
}
