/**
 * The weaver that wraps a business call in a distributed transaction: it
 * short-circuits nested calls, picks or starts the global transaction
 * context, sets up the thread's local context, runs the transaction
 * executor and tears the contexts down afterwards.
 *
 * One thread is modelled; its thread-local slots are objects the weaver
 * is given. DTXLocalContext.java, TCGlobalContext.java, TxContext.java,
 * TxTransactionInfo.java and DTXServiceExecutor.java are not part of this
 * model; their state is reduced to what the weaver reads and writes.
 */
module Weave {
  import opened Wrappers
  import Aspect
  import Tracing

  /** How a call ends: with a value or with an exception. */
  datatype CallOutcome = Returned(value: string) | Threw(exception: string)

  /** The business callback; the model knows of it only how `call()` ends. */
  datatype BusinessCallback = BusinessCallback(outcome: CallOutcome)

  /** The global transaction context a unit runs in (its lock is represented by the `Signalled` event). */
  datatype TxContext = TxContext(groupId: string, dtxStart: bool)

  /** The parameter object handed to the transaction executor. */
  datatype TxTransactionInfo = TxTransactionInfo(
    businessCallback: BusinessCallback,
    groupId: string,
    unitId: string,
    pointMethod: Aspect.MethodRef,
    propagation: Option<Aspect.DTXPropagation>,
    transactionInfo: Aspect.TransactionInfo,
    transactionType: Option<string>,
    transactionStart: bool)

  /** The fields of a thread's local transaction context; `None` stands for Java's null. */
  datatype LocalState = LocalState(
    inGroup: bool, destroy: bool, unitId: Option<string>, groupId: Option<string>, transactionType: Option<string>)

  /** What the weaver does to its collaborators, in order. */
  datatype WeaverEvent =
    | BusinessCalled
    | TxStarted(groupId: string)
    | ExecutorRan(info: TxTransactionInfo)
    | Signalled(groupId: string)
    | TxDestroyed
    | LocalCleared
    | TracingCleared

  class DTXLocalContext {
    var inGroup: bool
    var destroy: bool
    var unitId: Option<string>
    var groupId: Option<string>
    var transactionType: Option<string>

    constructor (init: LocalState)
      ensures State() == init
    {
      inGroup := init.inGroup;
      destroy := init.destroy;
      unitId := init.unitId;
      groupId := init.groupId;
      transactionType := init.transactionType;
    }

    function State(): LocalState
      reads this
    {
      LocalState(inGroup, destroy, unitId, groupId, transactionType)
    }
  }

  /** The thread-local slot holding the current local context. */
  class LocalSlot {
    var current: DTXLocalContext?

    constructor ()
      ensures current == null
    {
      current := null;
    }

    /** `getOrNew()`: the current context, or a new one with the initial field values `init`. */
    method GetOrNew(init: LocalState) returns (c: DTXLocalContext)
      modifies this
      ensures old(current) != null ==> c == old(current)
      ensures old(current) == null ==> fresh(c) && c.State() == init
      ensures current == c
    {
      if current == null {
        current := new DTXLocalContext(init);
      }
      c := current;
    }

    /** `makeNeverAppeared()`: the thread no longer has a local context. */
    method MakeNeverAppeared()
      modifies this
      ensures current == null
    {
      current := null;
    }
  }

  /** The part of the global context the weaver uses: the current transaction context, if any. */
  class TCGlobalContext {
    var txContext: Option<TxContext>

    constructor (txContext: Option<TxContext>)
      ensures this.txContext == txContext
    {
      this.txContext := txContext;
    }

    predicate HasTxContext()
      reads this
    {
      txContext.Some?
    }

    /** `startTx()`: installs a new context; its group id is generated elsewhere, so it is passed in. */
    method StartTx(started: TxContext) returns (t: TxContext)
      modifies this
      ensures t == started && txContext == Some(started)
    {
      txContext := Some(started);
      t := started;
    }

    method DestroyTx()
      modifies this
      ensures txContext == None
    {
      txContext := None;
    }
  }

  /** The events of the `finally` block for a local context with flags `destroy` and `inGroup`. */
  function TeardownEvents(destroy: bool, inGroup: bool, groupId: string): (r: seq<WeaverEvent>)
    ensures !destroy <==> r == []
    ensures destroy ==> |r| >= 3 && r[0] == Signalled(groupId) && r[|r| - 2..] == [LocalCleared, TracingCleared]
    ensures TxDestroyed in r <==> destroy && !inGroup
  {
    if !destroy then []
    else [Signalled(groupId)] + (if inGroup then [] else [TxDestroyed]) + [LocalCleared, TracingCleared]
  }

  class DTXLogicWeaver {
    /** `transactionRunning(info)` of the executor, as a function of the info it is given. */
    const executor: TxTransactionInfo -> CallOutcome
    const globalContext: TCGlobalContext
    const localSlot: LocalSlot
    const tracingSlot: Tracing.TracingSlot
    /** The field values a new local context starts with. */
    const initialLocal: LocalState

    constructor (executor: TxTransactionInfo -> CallOutcome, globalContext: TCGlobalContext,
                 localSlot: LocalSlot, tracingSlot: Tracing.TracingSlot, initialLocal: LocalState)
      ensures this.executor == executor && this.globalContext == globalContext
      ensures this.localSlot == localSlot && this.tracingSlot == tracingSlot && this.initialLocal == initialLocal
    {
      this.executor := executor;
      this.globalContext := globalContext;
      this.localSlot := localSlot;
      this.tracingSlot := tracingSlot;
      this.initialLocal := initialLocal;
    }

    /** The `finally` block: only a context marked `destroy` is torn down, the group's own context only outside the group. */
    method Teardown(local: DTXLocalContext, groupId: string) returns (events: seq<WeaverEvent>)
      requires localSlot.current == local
      modifies localSlot, globalContext, tracingSlot
      ensures events == TeardownEvents(local.destroy, local.inGroup, groupId)
      ensures local.destroy ==> localSlot.current == null && tracingSlot.current == null
      ensures !local.destroy ==> localSlot.current == local && tracingSlot.current == old(tracingSlot.current)
      ensures globalContext.txContext == (if local.destroy && !local.inGroup then None else old(globalContext.txContext))
    {
      events := [];
      if local.destroy {
        events := events + [Signalled(groupId)];
        if !local.inGroup {
          globalContext.DestroyTx();
          events := events + [TxDestroyed];
        }
        localSlot.MakeNeverAppeared();
        events := events + [LocalCleared];
        var tracing := tracingSlot.Tracing();
        tracing.Destroy(tracingSlot);
        events := events + [TracingCleared];
      }
    }

    /**
     * The set-up of a call that is not nested: the thread's new local context,
     * and the parent's transaction context or, without one, a started one.
     */
    method Enter(dtxInfo: Aspect.DTXInfo, started: TxContext)
      returns (local: DTXLocalContext, txContext: TxContext, events: seq<WeaverEvent>)
      requires localSlot.current == null
      modifies localSlot, globalContext
      ensures fresh(local) && localSlot.current == local && globalContext.txContext == Some(txContext)
      ensures old(globalContext.txContext).Some? ==>
        txContext == old(globalContext.txContext).value && local.inGroup && events == []
      ensures old(globalContext.txContext).None? ==>
        txContext == started && local.inGroup == initialLocal.inGroup && events == [TxStarted(started.groupId)]
      ensures local.unitId == Some(dtxInfo.unitId) && local.groupId == Some(txContext.groupId)
      ensures local.transactionType == dtxInfo.transactionType
      ensures local.destroy == (initialLocal.destroy && initialLocal.groupId.None?)
    {
      var _ := localSlot.GetOrNew(initialLocal);
      local := localSlot.GetOrNew(initialLocal);
      events := [];
      if globalContext.HasTxContext() {
        txContext := globalContext.txContext.value;
        local.inGroup := true;
      } else {
        txContext := globalContext.StartTx(started);
        events := events + [TxStarted(started.groupId)];
      }

      if local.groupId.Some? {
        local.destroy := false;
      }
      local.unitId := Some(dtxInfo.unitId);
      local.groupId := Some(txContext.groupId);
      local.transactionType := dtxInfo.transactionType;
    }

    /**
     * `runTransaction(dtxInfo, business)`. `started` is the context
     * `startTx()` would install. `ctx`, `tx` and `info` name the local
     * context, the transaction context and the executor's parameter of a
     * call that is not nested.
     */
    method RunTransaction(dtxInfo: Aspect.DTXInfo, business: BusinessCallback, started: TxContext)
      returns (r: CallOutcome, events: seq<WeaverEvent>, ghost ctx: DTXLocalContext?, ghost tx: TxContext,
               ghost info: TxTransactionInfo)
      modifies localSlot, globalContext, tracingSlot
      // A nested call only runs the callback.
      ensures old(localSlot.current) != null ==>
        && r == business.outcome && events == [BusinessCalled]
        && localSlot.current == old(localSlot.current) && unchanged(old(localSlot.current))
        && globalContext.txContext == old(globalContext.txContext)
        && tracingSlot.current == old(tracingSlot.current)
      ensures old(localSlot.current) == null ==> ctx != null && fresh(ctx)
      // The transaction context: the parent's is reused, and marks the unit as in its group.
      ensures old(localSlot.current) == null && old(globalContext.txContext).Some? ==>
        tx == old(globalContext.txContext).value && ctx.inGroup
      ensures old(localSlot.current) == null && old(globalContext.txContext).None? ==>
        tx == started && ctx.inGroup == initialLocal.inGroup
      // The local context as the executor sees it, and teardown only if no group id was set before.
      ensures old(localSlot.current) == null ==>
        && ctx.unitId == Some(dtxInfo.unitId) && ctx.groupId == Some(tx.groupId)
        && ctx.transactionType == dtxInfo.transactionType
        && ctx.destroy == (initialLocal.destroy && initialLocal.groupId.None?)
      // The executor's parameter and result.
      ensures old(localSlot.current) == null ==>
        && info == TxTransactionInfo(business, tx.groupId, dtxInfo.unitId, dtxInfo.businessMethod,
                                     dtxInfo.transactionPropagation, dtxInfo.transactionInfo,
                                     dtxInfo.transactionType, tx.dtxStart)
        && r == executor(info)
      // The teardown, the same whether the executor returned or threw.
      ensures old(localSlot.current) == null ==>
        && events == (if old(globalContext.txContext).None? then [TxStarted(started.groupId)] else [])
                     + [ExecutorRan(info)] + TeardownEvents(ctx.destroy, ctx.inGroup, tx.groupId)
        && (ctx.destroy ==> localSlot.current == null && tracingSlot.current == null)
        && (!ctx.destroy ==> localSlot.current == ctx && tracingSlot.current == old(tracingSlot.current))
        && globalContext.txContext == (if ctx.destroy && !ctx.inGroup then None else Some(tx))
    {
      info := TxTransactionInfo(business, started.groupId, dtxInfo.unitId, dtxInfo.businessMethod,
                                dtxInfo.transactionPropagation, dtxInfo.transactionInfo,
                                dtxInfo.transactionType, started.dtxStart);
      tx := started;
      if localSlot.current != null {
        ctx := null;
        r := business.outcome;
        events := [BusinessCalled];
        return;
      }
      var local, txContext, opening := Enter(dtxInfo, started);
      ctx := local;
      tx := txContext;
      events := opening;

      var parameter := TxTransactionInfo(business, txContext.groupId, dtxInfo.unitId, dtxInfo.businessMethod,
                                         dtxInfo.transactionPropagation, dtxInfo.transactionInfo,
                                         dtxInfo.transactionType, txContext.dtxStart);
      info := parameter;
      r := executor(parameter);
      events := events + [ExecutorRan(parameter)];

      // finally
      var teardown := Teardown(local, txContext.groupId);
      events := events + teardown;
    }
  }
}
