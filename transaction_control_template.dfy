/**
 * The client's group-control template: creating, joining and notifying a
 * transaction group. Each operation is a fixed sequence of calls on
 * collaborators (the reliable messenger, the aspect logger, the delayed
 * checker, the clean template, the exception handler and the transaction
 * logger). The model records those calls as an event log and takes the
 * collaborators' outcomes as parameters; ReliableMessenger.java,
 * DTXExceptionHandler.java, DTXChecking.java, TransactionCleanTemplate.java,
 * AspectLogger.java and TxLogger.java are not part of this model.
 */
module Template {
  import opened Wrappers
  import Aspect

  datatype RpcException = RpcException(message: string)
  /** The `Throwable` an exception wraps. */
  datatype Cause = Cause(message: string)
  datatype LcnBusinessException = LcnBusinessException(message: string, cause: Option<Cause>)
  datatype TransactionException = TransactionException(message: string)

  /** How a call on the reliable messenger ends. */
  datatype SendOutcome = Sent | RpcFailed(rpc: RpcException) | BusinessFailed(business: LcnBusinessException)

  /** How `transactionCleanTemplate.clean` ends: normally or with a TransactionClearException. */
  datatype CleanOutcome = Cleaned | ClearFailed

  /** How a create or join failure handler ends: it may rethrow as a TransactionException. */
  datatype HandlerOutcome = Handled | Raised(raised: TransactionException)

  /** How a template operation ends. */
  datatype Completion = Completed | Threw(thrown: TransactionException)

  /** An element of the argument lists the handlers receive. */
  datatype HandlerArg = Text(text: string) | Number(number: int)

  /** The points at which the transaction logger records progress. */
  datatype LogPoint =
    | CreateStart | CreateOver
    | JoinStart | JoinMessageOver | JoinOver
    | NotifyStart | NotifyOver

  /** The tag `Transactions.TE` of the clean-failure trace. */
  const CleanFailTag: string := "TE"

  /** The message of the exception a timed-out notification raises. */
  const TimeoutMessage: string := "dtx timeout."

  datatype Event =
    | TxLog(groupId: string, unitId: string, point: LogPoint)
    | TxTrace(groupId: string, unitId: string, tag: string)
    | SendCreateGroup(groupId: string)
    | SendJoinGroup(groupId: string, unitId: string, transactionType: string, localState: int)
    | SendNotifyGroup(groupId: string, state: int)
    | AspectTrace(groupId: string, unitId: string, info: Aspect.TransactionInfo)
    | StartDelayChecking(groupId: string, unitId: string, transactionType: string)
    | Clean(groupId: string, unitId: string, transactionType: string, state: int)
    | CleanDebugLog(transactionType: string)
    | ClearErrorLog
    | CreateGroupMessageHandled(groupId: string, rpc: RpcException)
    | CreateGroupBusinessHandled(groupId: string, cause: Option<Cause>)
    | JoinGroupMessageHandled(args: seq<HandlerArg>, rpc: RpcException)
    | JoinGroupBusinessHandled(args: seq<HandlerArg>, business: LcnBusinessException)
    | NotifyGroupMessageHandled(args: seq<HandlerArg>, rpc: RpcException)
    | NotifyGroupBusinessHandled(args: seq<HandlerArg>, cause: Option<Cause>)

  /** A call on the exception handler. */
  predicate IsHandler(e: Event) {
    || e.CreateGroupMessageHandled? || e.CreateGroupBusinessHandled?
    || e.JoinGroupMessageHandled? || e.JoinGroupBusinessHandled?
    || e.NotifyGroupMessageHandled? || e.NotifyGroupBusinessHandled?
  }

  /** The handler calls of a log, in order. */
  function HandlerEvents(es: seq<Event>): (r: seq<Event>)
    ensures |r| <= |es|
  {
    if es == [] then []
    else
      var last := es[|es| - 1];
      HandlerEvents(es[..|es| - 1]) + (if IsHandler(last) then [last] else [])
  }

  /** Appending one event adds it to the handler calls exactly when it is one. */
  lemma HandlerEventsSnoc(a: seq<Event>, e: Event)
    ensures HandlerEvents(a + [e]) == HandlerEvents(a) + (if IsHandler(e) then [e] else [])
  {
    assert (a + [e])[..|a|] == a;
  }

  /** The handler calls of two logs run one after the other are those of the first, then those of the second. */
  lemma {:induction false} HandlerEventsAppend(a: seq<Event>, b: seq<Event>)
    ensures HandlerEvents(a + b) == HandlerEvents(a) + HandlerEvents(b)
    decreases |b|
  {
    if b == [] {
      assert a + b == a;
    } else {
      var init := b[..|b| - 1];
      assert (a + b)[..|a + b| - 1] == a + init;
      HandlerEventsAppend(a, init);
    }
  }

  /** The handler calls of a log are the log's handler events, and only those. */
  lemma {:induction false} HandlerEventsMembers(es: seq<Event>, e: Event)
    ensures e in HandlerEvents(es) <==> e in es && IsHandler(e)
  {
    if es != [] {
      var init := es[..|es| - 1];
      assert es == init + [es[|es| - 1]];
      HandlerEventsMembers(init, e);
    }
  }

  /** A log without handler events has no handler calls. */
  lemma NoHandlerEvents(es: seq<Event>)
    requires forall i :: 0 <= i < |es| ==> !IsHandler(es[i])
    ensures HandlerEvents(es) == []
  {
    if HandlerEvents(es) != [] {
      HandlerEventsMembers(es, HandlerEvents(es)[0]);
    }
  }

  /** The handler calls of a failed operation's log: the one handler call between its other entries. */
  lemma FailureHandlerEvents(opening: seq<Event>, handled: Event, closing: seq<Event>)
    requires |opening| == 2 && !IsHandler(opening[0]) && !IsHandler(opening[1]) && IsHandler(handled)
    requires |closing| <= 1 && (closing != [] ==> !IsHandler(closing[0]))
    ensures HandlerEvents(opening + [handled] + closing) == [handled]
  {
    assert [] + [opening[0]] == [opening[0]];
    HandlerEventsSnoc([], opening[0]);
    assert [opening[0]] + [opening[1]] == opening;
    HandlerEventsSnoc([opening[0]], opening[1]);
    HandlerEventsSnoc(opening, handled);
    if closing != [] {
      assert closing == [closing[0]];
      HandlerEventsSnoc(opening + [handled], closing[0]);
    } else {
      assert opening + [handled] + closing == opening + [handled];
    }
  }

  /** The handler arguments of a join failure: `[groupId, unitId, transactionType]`. */
  function JoinArgs(groupId: string, unitId: string, transactionType: string): seq<HandlerArg> {
    [Text(groupId), Text(unitId), Text(transactionType)]
  }

  /** The handler arguments of a notify failure: `[groupId, state, unitId, transactionType]`. */
  function NotifyArgs(groupId: string, unitId: string, transactionType: string, state: int): seq<HandlerArg> {
    [Text(groupId), Number(state), Text(unitId), Text(transactionType)]
  }

  /**
   * `createGroup`: the create message is sent first, and the aspect trace is
   * recorded only once it succeeds. A failure of either kind reaches exactly
   * one handler; the closing log entry is written unless that handler throws.
   */
  method CreateGroup(groupId: string, unitId: string, transactionInfo: Aspect.TransactionInfo,
                     transactionType: string, send: SendOutcome, handler: HandlerOutcome)
    returns (events: seq<Event>, completion: Completion)
    ensures |events| >= 2 && events[0] == TxLog(groupId, unitId, CreateStart) && events[1] == SendCreateGroup(groupId)
    ensures AspectTrace(groupId, unitId, transactionInfo) in events <==> send.Sent?
    ensures send.Sent? ==> events[2] == AspectTrace(groupId, unitId, transactionInfo)
    ensures send.Sent? ==> HandlerEvents(events) == []
    ensures send.RpcFailed? ==> HandlerEvents(events) == [CreateGroupMessageHandled(groupId, send.rpc)]
    ensures send.BusinessFailed? ==> HandlerEvents(events) == [CreateGroupBusinessHandled(groupId, send.business.cause)]
    ensures completion.Completed? <==> send.Sent? || handler.Handled?
    ensures completion.Threw? ==> completion.thrown == handler.raised
    ensures completion.Completed? <==> events[|events| - 1] == TxLog(groupId, unitId, CreateOver)
    ensures |events| == (if send.Sent? || handler.Handled? then 4 else 3)
  {
    var opening := [TxLog(groupId, unitId, CreateStart), SendCreateGroup(groupId)];
    var handled: Event;
    match send {
      case Sent =>
        events := opening + [AspectTrace(groupId, unitId, transactionInfo), TxLog(groupId, unitId, CreateOver)];
        NoHandlerEvents(events);
        return events, Completed;
      case RpcFailed(e) =>
        handled := CreateGroupMessageHandled(groupId, e);
      case BusinessFailed(e) =>
        handled := CreateGroupBusinessHandled(groupId, e.cause);
    }
    var closing := if handler.Raised? then [] else [TxLog(groupId, unitId, CreateOver)];
    events := opening + [handled] + closing;
    completion := if handler.Raised? then Threw(handler.raised) else Completed;
    FailureHandlerEvents(opening, handled, closing);
    assert !handled.AspectTrace?;
  }

  /**
   * `joinGroup`: the join message carries the thread's local transaction
   * state; the delayed check and then the aspect trace follow only once it
   * succeeds. Failure handlers receive `[groupId, unitId, transactionType]`.
   */
  method JoinGroup(groupId: string, unitId: string, transactionType: string, transactionInfo: Aspect.TransactionInfo,
                   localState: int, send: SendOutcome, handler: HandlerOutcome)
    returns (events: seq<Event>, completion: Completion)
    ensures |events| >= 2 && events[0] == TxLog(groupId, unitId, JoinStart)
    ensures events[1] == SendJoinGroup(groupId, unitId, transactionType, localState)
    ensures TxLog(groupId, unitId, JoinMessageOver) in events <==> send.Sent?
    ensures StartDelayChecking(groupId, unitId, transactionType) in events <==> send.Sent?
    ensures AspectTrace(groupId, unitId, transactionInfo) in events <==> send.Sent?
    ensures send.Sent? ==> |events| >= 5 && events[2..5] == [TxLog(groupId, unitId, JoinMessageOver),
                                            StartDelayChecking(groupId, unitId, transactionType),
                                            AspectTrace(groupId, unitId, transactionInfo)]
    ensures send.Sent? ==> HandlerEvents(events) == []
    ensures send.RpcFailed? ==>
      HandlerEvents(events) == [JoinGroupMessageHandled(JoinArgs(groupId, unitId, transactionType), send.rpc)]
    ensures send.BusinessFailed? ==>
      HandlerEvents(events) == [JoinGroupBusinessHandled(JoinArgs(groupId, unitId, transactionType), send.business)]
    ensures completion.Completed? <==> send.Sent? || handler.Handled?
    ensures completion.Threw? ==> completion.thrown == handler.raised
    ensures completion.Completed? <==> events[|events| - 1] == TxLog(groupId, unitId, JoinOver)
    ensures |events| == (if send.Sent? then 6 else if handler.Handled? then 4 else 3)
  {
    var opening := [TxLog(groupId, unitId, JoinStart), SendJoinGroup(groupId, unitId, transactionType, localState)];
    var handled: Event;
    match send {
      case Sent =>
        events := opening + [TxLog(groupId, unitId, JoinMessageOver), StartDelayChecking(groupId, unitId, transactionType),
                             AspectTrace(groupId, unitId, transactionInfo), TxLog(groupId, unitId, JoinOver)];
        NoHandlerEvents(events);
        return events, Completed;
      case RpcFailed(e) =>
        handled := JoinGroupMessageHandled(JoinArgs(groupId, unitId, transactionType), e);
      case BusinessFailed(e) =>
        handled := JoinGroupBusinessHandled(JoinArgs(groupId, unitId, transactionType), e);
    }
    events, completion := JoinFailed(groupId, unitId, transactionType, transactionInfo, localState, handled, handler);
  }

  /** The rest of a failed `joinGroup`: the one handler call, then the closing entry unless the handler throws. */
  method JoinFailed(groupId: string, unitId: string, transactionType: string, transactionInfo: Aspect.TransactionInfo,
                    localState: int, handled: Event, handler: HandlerOutcome)
    returns (events: seq<Event>, completion: Completion)
    requires IsHandler(handled)
    ensures |events| >= 3 && events[0] == TxLog(groupId, unitId, JoinStart)
    ensures events[1] == SendJoinGroup(groupId, unitId, transactionType, localState) && events[2] == handled
    ensures TxLog(groupId, unitId, JoinMessageOver) !in events
    ensures StartDelayChecking(groupId, unitId, transactionType) !in events
    ensures AspectTrace(groupId, unitId, transactionInfo) !in events
    ensures HandlerEvents(events) == [handled]
    ensures completion.Completed? <==> handler.Handled?
    ensures completion.Threw? ==> completion.thrown == handler.raised
    ensures completion.Completed? <==> events[|events| - 1] == TxLog(groupId, unitId, JoinOver)
    ensures |events| == (if handler.Handled? then 4 else 3)
  {
    var opening := [TxLog(groupId, unitId, JoinStart), SendJoinGroup(groupId, unitId, transactionType, localState)];
    var closing := if handler.Raised? then [] else [TxLog(groupId, unitId, JoinOver)];
    events := opening + [handled] + closing;
    completion := if handler.Raised? then Threw(handler.raised) else Completed;
    FailureHandlerEvents(opening, handled, closing);
    assert !handled.TxLog? && !handled.StartDelayChecking? && !handled.AspectTrace?;
  }

  /** What follows a call on the clean template: a debug entry, or the error log and the clean-failure trace. */
  function CleanupSteps(groupId: string, unitId: string, transactionType: string, clean: CleanOutcome): (r: seq<Event>)
    ensures |r| == (if clean.Cleaned? then 1 else 2)
    ensures TxTrace(groupId, unitId, CleanFailTag) in r <==> clean.ClearFailed?
    ensures forall i :: 0 <= i < |r| ==> !IsHandler(r[i]) && !r[i].TxLog? && !r[i].Clean? && !r[i].SendNotifyGroup?
  {
    if clean.Cleaned? then [CleanDebugLog(transactionType)] else [ClearErrorLog, TxTrace(groupId, unitId, CleanFailTag)]
  }

  /**
   * The part of `notifyGroup` after the timeout check: the notification is
   * sent, then the group is cleaned; a clear failure is logged and traced,
   * and a send failure goes to exactly one handler.
   */
  method SendNotification(groupId: string, unitId: string, transactionType: string, state: int,
                          send: SendOutcome, clean: CleanOutcome)
    returns (steps: seq<Event>)
    ensures |steps| >= 2 && steps[0] == SendNotifyGroup(groupId, state)
    ensures Clean(groupId, unitId, transactionType, state) in steps <==> send.Sent?
    ensures send.Sent? ==> steps[1] == Clean(groupId, unitId, transactionType, state)
    ensures send.Sent? ==> HandlerEvents(steps) == []
    ensures send.RpcFailed? ==>
      HandlerEvents(steps) == [NotifyGroupMessageHandled(NotifyArgs(groupId, unitId, transactionType, state), send.rpc)]
    ensures send.BusinessFailed? ==>
      HandlerEvents(steps)
      == [NotifyGroupBusinessHandled(NotifyArgs(groupId, unitId, transactionType, state), send.business.cause)]
    ensures TxTrace(groupId, unitId, CleanFailTag) in steps <==> send.Sent? && clean.ClearFailed?
    ensures forall i :: 0 <= i < |steps| ==> !steps[i].TxLog?
    ensures send.Sent? ==> steps[2..] == CleanupSteps(groupId, unitId, transactionType, clean)
    ensures |steps| == (if !send.Sent? then 2 else if clean.Cleaned? then 3 else 4)
  {
    var args := NotifyArgs(groupId, unitId, transactionType, state);
    match send {
      case Sent =>
        var cleanup := CleanupSteps(groupId, unitId, transactionType, clean);
        var sent := [SendNotifyGroup(groupId, state), Clean(groupId, unitId, transactionType, state)];
        steps := sent + cleanup;
        HandlerEventsAppend(sent, cleanup);
      case RpcFailed(e) =>
        steps := [SendNotifyGroup(groupId, state), NotifyGroupMessageHandled(args, e)];
      case BusinessFailed(e) =>
        steps := [SendNotifyGroup(groupId, state), NotifyGroupBusinessHandled(args, e.cause)];
    }
  }

  /** A log framed by an opening and a closing entry: its length, ends, members and handler calls. */
  lemma Framed(start: Event, middle: seq<Event>, over: Event)
    requires !IsHandler(start) && !IsHandler(over)
    ensures var r := [start] + middle + [over];
      && |r| == |middle| + 2 && r[0] == start && r[|r| - 1] == over && r[1..|r| - 1] == middle
      && (forall e :: e in r <==> e == start || e in middle || e == over)
      && HandlerEvents(r) == HandlerEvents(middle)
  {
    HandlerEventsAppend([start], middle);
    HandlerEventsSnoc([start] + middle, over);
  }

  /** A three-entry log whose middle entry alone is a handler call. */
  lemma LoneHandlerEvent(start: Event, handled: Event, over: Event)
    requires !IsHandler(start) && IsHandler(handled) && !IsHandler(over)
    ensures HandlerEvents([start, handled, over]) == [handled]
  {
    Framed(start, [handled], over);
    HandlerEventsSnoc([], handled);
    assert [] + [handled] == [handled];
    assert [start] + [handled] + [over] == [start, handled, over];
  }

  /** `notifyGroup` when the transaction has not timed out: the notification steps between the opening and closing entries. */
  method NotifyInTime(groupId: string, unitId: string, transactionType: string, state: int,
                      send: SendOutcome, clean: CleanOutcome)
    returns (events: seq<Event>)
    ensures |events| >= 2 && events[0] == TxLog(groupId, unitId, NotifyStart)
    ensures events[|events| - 1] == TxLog(groupId, unitId, NotifyOver)
    ensures SendNotifyGroup(groupId, state) in events && events[1] == SendNotifyGroup(groupId, state)
    ensures Clean(groupId, unitId, transactionType, state) in events <==> send.Sent?
    ensures send.Sent? ==> events[2] == Clean(groupId, unitId, transactionType, state)
    ensures send.RpcFailed? ==>
      HandlerEvents(events) == [NotifyGroupMessageHandled(NotifyArgs(groupId, unitId, transactionType, state), send.rpc)]
    ensures send.BusinessFailed? ==>
      HandlerEvents(events)
      == [NotifyGroupBusinessHandled(NotifyArgs(groupId, unitId, transactionType, state), send.business.cause)]
    ensures send.Sent? ==> HandlerEvents(events) == []
    ensures TxTrace(groupId, unitId, CleanFailTag) in events <==> send.Sent? && clean.ClearFailed?
    ensures send.Sent? ==> events[3..|events| - 1] == CleanupSteps(groupId, unitId, transactionType, clean)
    ensures |events| == (if !send.Sent? then 4 else if clean.Cleaned? then 5 else 6)
  {
    var start, over := TxLog(groupId, unitId, NotifyStart), TxLog(groupId, unitId, NotifyOver);
    var middle := SendNotification(groupId, unitId, transactionType, state, send, clean);
    events := [start] + middle + [over];
    Framed(start, middle, over);
    if send.Sent? {
      assert events[3..|events| - 1] == middle[2..];
    }
  }

  /**
   * `notifyGroup`: on a transaction timeout neither the messenger nor the
   * clean template is called, and the business handler gets the timeout's
   * (absent) cause. Otherwise clean runs only after the notification is
   * sent, and a clear failure is logged, not handled. The operation always
   * ends with its closing log entry, since its handlers declare no checked
   * exception.
   */
  method NotifyGroup(groupId: string, unitId: string, transactionType: string, state: int,
                     timedOut: bool, send: SendOutcome, clean: CleanOutcome)
    returns (events: seq<Event>)
    ensures |events| >= 2 && events[0] == TxLog(groupId, unitId, NotifyStart)
    ensures events[|events| - 1] == TxLog(groupId, unitId, NotifyOver)
    ensures SendNotifyGroup(groupId, state) in events <==> !timedOut
    ensures !timedOut ==> events[1] == SendNotifyGroup(groupId, state)
    ensures Clean(groupId, unitId, transactionType, state) in events <==> !timedOut && send.Sent?
    ensures !timedOut && send.Sent? ==> events[2] == Clean(groupId, unitId, transactionType, state)
    ensures timedOut ==>
      HandlerEvents(events) == [NotifyGroupBusinessHandled(NotifyArgs(groupId, unitId, transactionType, state), None)]
    ensures !timedOut && send.RpcFailed? ==>
      HandlerEvents(events) == [NotifyGroupMessageHandled(NotifyArgs(groupId, unitId, transactionType, state), send.rpc)]
    ensures !timedOut && send.BusinessFailed? ==>
      HandlerEvents(events)
      == [NotifyGroupBusinessHandled(NotifyArgs(groupId, unitId, transactionType, state), send.business.cause)]
    ensures !timedOut && send.Sent? ==> HandlerEvents(events) == []
    ensures TxTrace(groupId, unitId, CleanFailTag) in events <==> !timedOut && send.Sent? && clean.ClearFailed?
    ensures !timedOut && send.Sent? ==>
      events[3..|events| - 1] == CleanupSteps(groupId, unitId, transactionType, clean)
    ensures |events| == (if timedOut then 3 else if !send.Sent? then 4 else if clean.Cleaned? then 5 else 6)
  {
    if timedOut {
      var timeout := LcnBusinessException(TimeoutMessage, None);
      var handled := NotifyGroupBusinessHandled(NotifyArgs(groupId, unitId, transactionType, state), timeout.cause);
      events := [TxLog(groupId, unitId, NotifyStart), handled, TxLog(groupId, unitId, NotifyOver)];
      LoneHandlerEvent(events[0], handled, events[2]);
    } else {
      events := NotifyInTime(groupId, unitId, transactionType, state, send, clean);
    }
  }
}
