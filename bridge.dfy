/**
  The handler bridge: the engine's request-unaware callbacks become calls
  of the caller's handlers carrying the request ID, and the end of a
  transfer emits the completion call and then triggers the request's
  cancel function. Everything the caller can observe of one transfer is a
  sequence of `Event`s.
 */
module Bridge {
  import opened Errors

  /** Go's int64. */
  type Int64 = x: int | -0x8000_0000_0000_0000 <= x < 0x8000_0000_0000_0000

  /** A callback the engine makes while it sends. */
  datatype EngineEvent =
    | Started
    | Progress(fileSize: Int64, bytesTransferred: Int64, msElapsed: Int64,
               totalBytesTransferred: Int64, totalMsElapsed: Int64)

  /**
    What the caller observes: a call of one of its three handler entry
    points, or the invocation of a request's cancel function.
   */
  datatype Event =
    | TransferStarted(requestId: int)
    | TransferProgress(requestId: int, fileSize: Int64, bytesTransferred: Int64,
                       msElapsed: Int64, totalBytesTransferred: Int64, totalMsElapsed: Int64)
    | TransferComplete(requestId: int, err: Option<Error>)
    | CancelTriggered(requestId: int)

  /** The handler call a bridged engine callback turns into. */
  function Scoped(id: int, e: EngineEvent): Event
  {
    match e
    case Started => TransferStarted(id)
    case Progress(a, b, c, d, f) => TransferProgress(id, a, b, c, d, f)
  }

  /** The engine callback behind a handler call, if it came from one. */
  function Unscoped(h: Event): Option<EngineEvent>
  {
    match h
    case TransferStarted(_) => Some(Started)
    case TransferProgress(_, a, b, c, d, f) => Some(Progress(a, b, c, d, f))
    case TransferComplete(_, _) => None
    case CancelTriggered(_) => None
  }

  /**
    The handler calls the bridge makes for a sequence of engine callbacks:
    one per callback, carrying `id`, when handlers were supplied; none
    otherwise.
   */
  function Forwarded(id: int, installed: bool, trace: seq<EngineEvent>): (calls: seq<Event>)
    ensures installed ==> |calls| == |trace|
    ensures installed ==> forall k :: 0 <= k < |trace| ==>
      calls[k].requestId == id && Unscoped(calls[k]) == Some(trace[k])
    ensures !installed ==> calls == []
  {
    if !installed || trace == [] then []
    else Forwarded(id, installed, trace[..|trace| - 1]) + [Scoped(id, trace[|trace| - 1])]
  }

  /** The engine callbacks the caller saw, in order, read back from its events. */
  function Observed(events: seq<Event>): seq<EngineEvent>
  {
    if events == [] then []
    else
      var last := events[|events| - 1];
      Observed(events[..|events| - 1]) + (if Unscoped(last).Some? then [Unscoped(last).value] else [])
  }

  lemma {:induction false} ObservedAppend(a: seq<Event>, b: seq<Event>)
    ensures Observed(a + b) == Observed(a) + Observed(b)
    decreases |b|
  {
    if b == [] {
      assert a + b == a;
    } else {
      var b' := b[..|b| - 1];
      ObservedAppend(a, b');
      assert (a + b)[..|a + b| - 1] == a + b';
    }
  }

  /** The bridge passes every engine callback through, values unchanged and in order. */
  lemma {:induction false} ForwardedRoundTrip(id: int, trace: seq<EngineEvent>)
    ensures Observed(Forwarded(id, true, trace)) == trace
    decreases |trace|
  {
    if trace != [] {
      var init, last := trace[..|trace| - 1], trace[|trace| - 1];
      ForwardedRoundTrip(id, init);
      ForwardedStep(id, trace);
      ObservedAppend(Forwarded(id, true, init), [Scoped(id, last)]);
      ObservedScoped(id, last);
      assert trace == init + [last];
    }
  }

  /** One step of Forwarded with handlers: the calls for all but the last callback, then the last one's. */
  lemma ForwardedStep(id: int, trace: seq<EngineEvent>)
    requires trace != []
    ensures Forwarded(id, true, trace) == Forwarded(id, true, trace[..|trace| - 1]) + [Scoped(id, trace[|trace| - 1])]
  {
  }

  /** A single bridged callback reads back as that callback. */
  lemma ObservedScoped(id: int, e: EngineEvent)
    ensures Observed([Scoped(id, e)]) == [e]
  {
    assert [Scoped(id, e)][..0] == [];
  }

  /**
    The engine's ordering contract: at most one `started`, and every
    `progress` after it.
   */
  ghost predicate EngineOrdered(trace: seq<EngineEvent>)
  {
    && (forall i, j :: 0 <= i < j < |trace| && trace[i].Started? ==> !trace[j].Started?)
    && (forall j :: 0 <= j < |trace| && trace[j].Progress? ==> Started in trace[..j])
  }

  /** The same ordering, seen through the caller's handlers for request `id`. */
  ghost predicate HandlersOrdered(events: seq<Event>, id: int)
  {
    && (forall i, j :: 0 <= i < j < |events| && events[i].TransferStarted? ==> !events[j].TransferStarted?)
    && (forall j :: 0 <= j < |events| && events[j].TransferProgress? ==> TransferStarted(id) in events[..j])
  }

  /** The bridge preserves the engine's ordering. */
  lemma ForwardedKeepsOrder(id: int, trace: seq<EngineEvent>)
    requires EngineOrdered(trace)
    ensures HandlersOrdered(Forwarded(id, true, trace), id)
  {
    var calls := Forwarded(id, true, trace);
    forall j | 0 <= j < |calls| && calls[j].TransferProgress?
      ensures TransferStarted(id) in calls[..j]
    {
      assert trace[j].Progress?;
      var i :| 0 <= i < j && trace[i] == Started;
      assert calls[i] == TransferStarted(id);
      assert calls[..j][i] == calls[i];
    }
  }

  /**
    What the goroutine makes observable once the engine's send returns with
    `err`: the completion call if handlers were supplied, then the cancel
    trigger.
   */
  function Completion(id: int, installed: bool, err: Option<Error>): seq<Event>
  {
    (if installed then [TransferComplete(id, err)] else []) + [CancelTriggered(id)]
  }

  /** Everything one transfer makes observable after Send has returned. */
  function TransferEvents(id: int, installed: bool, trace: seq<EngineEvent>, err: Option<Error>): seq<Event>
  {
    Forwarded(id, installed, trace) + Completion(id, installed, err)
  }

  /**
    The completion sequence: the cancel trigger is the last event and
    happens once; with handlers, exactly one completion call carrying the
    engine's error comes right before it; without handlers, nothing but the
    cancel trigger is observed.
   */
  lemma CompletionIsTerminal(id: int, installed: bool, trace: seq<EngineEvent>, err: Option<Error>)
    ensures var es := TransferEvents(id, installed, trace, err);
      && |es| >= 1 && es[|es| - 1] == CancelTriggered(id)
      && (forall k :: 0 <= k < |es| - 1 ==> !es[k].CancelTriggered?)
      && (installed ==> |es| >= 2 && es[|es| - 2] == TransferComplete(id, err))
      && (installed ==> forall k :: 0 <= k < |es| && k != |es| - 2 ==> !es[k].TransferComplete?)
      && (!installed ==> es == [CancelTriggered(id)])
  {
    var es := TransferEvents(id, installed, trace, err);
    var fw := Forwarded(id, installed, trace);
    forall k | 0 <= k < |fw| ensures !fw[k].CancelTriggered? && !fw[k].TransferComplete? {
      assert Unscoped(fw[k]).Some?;
    }
    forall k | 0 <= k < |es| - 1 ensures !es[k].CancelTriggered? {
      if k < |fw| {
        assert es[k] == fw[k];
      }
    }
    if installed {
      forall k | 0 <= k < |es| && k != |es| - 2 ensures !es[k].TransferComplete? {
        if k < |fw| {
          assert es[k] == fw[k];
        }
      }
    }
  }

  /** The completion sequence holds no bridged callback. */
  lemma ObservedCompletion(id: int, installed: bool, err: Option<Error>)
    ensures Observed(Completion(id, installed, err)) == []
  {
    var done := Completion(id, installed, err);
    if installed {
      assert done[..1] == [TransferComplete(id, err)];
      assert Observed([TransferComplete(id, err)]) == Observed([]) + [];
    } else {
      assert done[..0] == [];
    }
  }

  /** Events that are neither started nor progress calls do not disturb the ordering. */
  lemma OrderedExtend(events: seq<Event>, tail: seq<Event>, id: int)
    requires HandlersOrdered(events, id)
    requires forall k :: 0 <= k < |tail| ==> !tail[k].TransferStarted? && !tail[k].TransferProgress?
    ensures HandlersOrdered(events + tail, id)
  {
    var es := events + tail;
    forall i, j | 0 <= i < j < |es| && es[i].TransferStarted? ensures !es[j].TransferStarted? {
      if j < |events| {
        assert es[i] == events[i] && es[j] == events[j];
      } else {
        assert es[j] == tail[j - |events|];
      }
    }
    forall j | 0 <= j < |es| && es[j].TransferProgress? ensures TransferStarted(id) in es[..j] {
      assert es[j] == events[j];
      assert es[..j] == events[..j];
    }
  }

  /**
    Through the whole transfer, the caller sees the engine's callbacks with
    their values unchanged, each carrying the request ID, and in order.
   */
  lemma TransferPassesCallbacks(id: int, trace: seq<EngineEvent>, err: Option<Error>)
    requires EngineOrdered(trace)
    ensures Observed(TransferEvents(id, true, trace, err)) == trace
    ensures HandlersOrdered(TransferEvents(id, true, trace, err), id)
  {
    TransferObserved(id, trace, err);
    TransferOrdered(id, trace, err);
  }

  /** The callbacks read back from a whole transfer with handlers are the engine's. */
  lemma TransferObserved(id: int, trace: seq<EngineEvent>, err: Option<Error>)
    ensures Observed(TransferEvents(id, true, trace, err)) == trace
  {
    var fw := Forwarded(id, true, trace);
    var done := Completion(id, true, err);
    ForwardedRoundTrip(id, trace);
    ObservedAppend(fw, done);
    ObservedCompletion(id, true, err);
  }

  /** A whole transfer with handlers keeps the engine's callback order. */
  lemma TransferOrdered(id: int, trace: seq<EngineEvent>, err: Option<Error>)
    requires EngineOrdered(trace)
    ensures HandlersOrdered(TransferEvents(id, true, trace, err), id)
  {
    var fw := Forwarded(id, true, trace);
    var done := Completion(id, true, err);
    ForwardedKeepsOrder(id, trace);
    assert done == [TransferComplete(id, err), CancelTriggered(id)];
    OrderedExtend(fw, done, id);
  }
}
