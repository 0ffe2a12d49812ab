/** What the durable records say, in every run: each change of the execution tables is one transaction. */
module RecordTheorems {
  import opened Domain
  import opened ExecutionTables
  import opened ReplayTables
  import opened Protocol
  import opened ProtocolInvariant
  import opened ProtocolSteps
  import opened ProtocolTheorems
  import Policy = ReplayPolicy

  /** The transaction on the execution tables an event stands for, if it stands for one. */
  function StoreTransaction(s: System, e: Event): Option<Transaction> {
    match e
    case Insert(w, v) =>
      if HasMessage(s, w) && s.workers[w].pc.Claiming?
      then Some(TxCreate(Current(s, w).key, s.nextId, s.clock, v, s.workers[w].pc.fps)) else None
    case Fence(w) =>
      if HasMessage(s, w) && s.workers[w].pc.Quarantining?
      then Some(TxFence(Current(s, w).key, s.workers[w].pc.seen, s.workers[w].pc.at, s.nextId, FromOwner, Some(s.workers[w].pc.fps)))
      else None
    case Refuse(w) =>
      if HasMessage(s, w) && s.workers[w].pc.Owner?
      then Some(TxRefuse(Current(s, w).key, s.workers[w].pc.token, "unsupported_action_type", s.clock, s.nextId)) else None
    case Begin(w, provider) =>
      if HasMessage(s, w) && s.workers[w].pc.Owner? then Some(TxStart(Current(s, w).key, s.workers[w].pc.token, provider)) else None
    case Finish(w) => if HasMessage(s, w) then FinishTransaction(s, w) else None
    case Quarantine(key, seen, at) => if at <= s.clock then Some(TxFence(key, seen, at, s.nextId, FromReconciler, None)) else None
    case Repair(key, seen) => Some(TxRepair(key, seen, s.nextId))
    case _ => None
  }

  function FinishTransaction(s: System, w: nat): Option<Transaction>
    requires HasMessage(s, w)
  {
    match s.workers[w].pc
    case Finishing(token, _, AcceptedBy(_, receipt)) => Some(TxSucceed(Current(s, w).key, token, receipt, s.clock))
    case Finishing(token, _, FailedWith(evidence)) => Some(TxFail(Current(s, w).key, token, evidence, s.clock, s.nextId))
    case _ => None
  }

  /** The execution tables after a transaction that may not have happened. */
  function AfterStore(t: Tables, tx: Option<Transaction>): Tables {
    if tx.Some? && Execute(t, tx.value).Committed? then Execute(t, tx.value).state else t
  }

  // ----- every change is a transaction -----

  lemma InsertIs(s: System, w: nat, v: Option<Hash>)
    requires HasMessage(s, w) && s.workers[w].pc.Claiming?
    ensures DoInsert(s, w, v).store == AfterStore(s.store, StoreTransaction(s, Insert(w, v)))
  {
    hide Create;
  }

  lemma FenceIs(s: System, w: nat)
    requires HasMessage(s, w) && s.workers[w].pc.Quarantining?
    ensures DoFence(s, w).store == AfterStore(s.store, StoreTransaction(s, Fence(w)))
  {
    hide FenceExpired;
  }

  lemma OwnerIs(s: System, w: nat, provider: Provider)
    requires HasMessage(s, w) && s.workers[w].pc.Owner?
    ensures DoRefuse(s, w).store == AfterStore(s.store, StoreTransaction(s, Refuse(w)))
    ensures DoBegin(s, w, provider).store == AfterStore(s.store, StoreTransaction(s, Begin(w, provider)))
  {
    hide Execute;
  }

  lemma FinishingIs(s: System, w: nat)
    requires HasMessage(s, w) && s.workers[w].pc.Finishing?
    ensures DoFinish(s, w).store == AfterStore(s.store, FinishTransaction(s, w))
  {
    hide Execute, Settle;
  }

  lemma ReplayFinishingIs(s: System, w: nat)
    requires HasMessage(s, w) && !s.workers[w].pc.Finishing?
    ensures DoFinish(s, w).store == s.store
  {
    hide ExecuteReplay, Settle;
  }

  lemma FinishIsStored(s: System, w: nat)
    requires HasMessage(s, w)
    ensures DoFinish(s, w).store == AfterStore(s.store, FinishTransaction(s, w))
  {
    hide DoFinish, Execute;
    if s.workers[w].pc.Finishing? { FinishingIs(s, w); } else { ReplayFinishingIs(s, w); }
  }

  lemma WorkerEventIsStored(s: System, e: Event)
    requires e.Insert? || e.Fence? || e.Refuse? || e.Begin?
    ensures Apply(s, e).store == AfterStore(s.store, StoreTransaction(s, e))
  {
    hide DoInsert, DoFence, DoRefuse, DoBegin, Execute;
    match e
    case Insert(w, v) => if HasMessage(s, w) && s.workers[w].pc.Claiming? { InsertIs(s, w, v); }
    case Fence(w) => if HasMessage(s, w) && s.workers[w].pc.Quarantining? { FenceIs(s, w); }
    case Refuse(w) => if HasMessage(s, w) && s.workers[w].pc.Owner? { OwnerIs(s, w, Telegram); }
    case Begin(w, provider) => if HasMessage(s, w) && s.workers[w].pc.Owner? { OwnerIs(s, w, provider); }
  }

  lemma FinishEventIsStored(s: System, w: nat)
    ensures Apply(s, Finish(w)).store == AfterStore(s.store, StoreTransaction(s, Finish(w)))
  {
    hide DoFinish, Execute, FinishTransaction;
    if HasMessage(s, w) { FinishIsStored(s, w); }
  }

  lemma ReconcilerIsStored(s: System, e: Event)
    requires e.Quarantine? || e.Repair?
    ensures Apply(s, e).store == AfterStore(s.store, StoreTransaction(s, e))
  {
    hide Execute;
  }

  lemma ClaimLeavesStore(s: System, w: nat, c: ReplayChecks)
    requires HasMessage(s, w)
    ensures DoClaimReplay(s, w, c).store == s.store
  {
    hide ExecuteReplay, StillAllowed, Settle;
  }

  lemma RequestLeavesStore(s: System, id: nat, key: Key, approval: nat, expiresAt: int, facts: Policy.Facts)
    ensures DoRequest(s, id, key, approval, expiresAt, facts).store == s.store
  {
    hide ExecuteReplay, NewRequest;
  }

  lemma DispatchedLeavesStore(s: System, d: nat, tx: ReplayTransaction)
    ensures Dispatched(s, d, tx).store == s.store
  {
    hide ExecuteReplay;
  }

  lemma DispatchLeavesStore(s: System, e: Event)
    requires e.LeaseRequest? || e.ReleaseRequest? || e.StampRequest?
    ensures Apply(s, e).store == s.store
  {
    hide ExecuteReplay, Dispatched;
    if !e.LeaseRequest? && e.dispatcher in s.dispatchers {
      match s.dispatchers[e.dispatcher]
      case Leased(r, token, attempts) => DispatchedLeavesStore(s, e.dispatcher, RtRelease(r, token, attempts, s.clock));
      case Sent(r, token) => DispatchedLeavesStore(s, e.dispatcher, RtStamp(r, token, s.clock));
      case Waiting =>
    }
  }

  lemma ReplayEventLeavesStore(s: System, e: Event)
    requires e.RequestReplay? || e.ClaimReplay?
    ensures Apply(s, e).store == s.store
  {
    hide DoRequest, DoClaimReplay;
    match e
    case RequestReplay(id, key, approval, expiresAt, authorized, facts) => RequestLeavesStore(s, id, key, approval, expiresAt, facts);
    case ClaimReplay(w, c) => if HasMessage(s, w) { ClaimLeavesStore(s, w, c); }
  }

  /** Whatever the event, the execution tables change by exactly one transaction, or not at all. */
  lemma StoreChangesByTransactions(s: System, e: Event)
    ensures Apply(s, e).store == AfterStore(s.store, StoreTransaction(s, e))
  {
    hide Apply, Execute, FinishTransaction;
    if e.Insert? || e.Fence? || e.Refuse? || e.Begin? { WorkerEventIsStored(s, e); }
    else if e.Finish? { FinishEventIsStored(s, e.worker); }
    else if e.Quarantine? || e.Repair? { ReconcilerIsStored(s, e); }
    else if e.RequestReplay? || e.ClaimReplay? { ReplayEventLeavesStore(s, e); }
    else if e.LeaseRequest? || e.ReleaseRequest? || e.StampRequest? { DispatchLeavesStore(s, e); }
    else if e.Fetch? || e.Find? { ReadingForward(s, e); }
    else if e.Invoke? || e.Respond? || e.Decline? { CallingForward(s, e); }
    else if e.Publish? || e.Commit? || e.Drop? || e.Assign? { OffsetsForward(s, e); }
    else { OutsideForward(s, e); }
  }

  lemma TransactionsWellFormed(s: System, e: Event)
    requires Inv(s) && StoreTransaction(s, e).Some?
    ensures WellFormed(s.store, StoreTransaction(s, e).value)
  {
    hide Inv;
    if (e.Refuse? || e.Finish?) && HasMessage(s, e.worker) { WorkerFacts(s, e.worker); }
  }

  // ----- the records agree -----

  lemma EventKeepsRecords(s: System, e: Event)
    requires Inv(s) && RecordsAgree(s.store)
    ensures RecordsAgree(Apply(s, e).store)
  {
    hide Inv, Apply, Execute, RecordsAgree, Lifecycle, StoreTransaction;
    StoreChangesByTransactions(s, e);
    var tx := StoreTransaction(s, e);
    if tx.Some? && Execute(s.store, tx.value).Committed? {
      StoreFacts(s);
      TransactionsWellFormed(s, e);
      RecordsStayAgreed(s.store, s.legacy, tx.value);
    }
  }

  /** In every reachable state each attempt carries its execution's fingerprints, each failure record carries the identity and
      the outcome of its execution, and what an owner recorded repeats its attempt field by field. */
  lemma {:induction false} RecordsAlwaysAgree(s: System, events: seq<Event>)
    requires Init(s)
    ensures RecordsAgree(Run(s, events).store)
  {
    hide Inv, Init, Apply, RecordsAgree;
    if events == [] {
      NoRecordsYet(s);
    } else {
      RecordsAlwaysAgree(s, events[..|events| - 1]);
      Reachable(s, events[..|events| - 1]);
      EventKeepsRecords(Run(s, events[..|events| - 1]), events[|events| - 1]);
    }
  }

  lemma NoRecordsYet(s: System)
    requires Init(s)
    ensures RecordsAgree(s.store)
  {
  }

  // ----- two minutes for an owner -----

  /** The stage belongs to the owner of a token; while it is open its lease runs to the given time. */
  ghost predicate Standing(t: Tables, key: Key, token: nat, until: Time) {
    && key in t.executions && t.executions[key].token == Some(token)
    && (t.executions[key].status == Pending ==> t.executions[key].leaseUntil == Some(until))
  }

  lemma EventKeepsStanding(s: System, e: Event, key: Key, token: nat, until: Time)
    requires Standing(s.store, key, token, until)
    ensures Standing(Apply(s, e).store, key, token, until)
  {
    hide Apply, Execute, StoreTransaction;
    StoreChangesByTransactions(s, e);
    var tx := StoreTransaction(s, e);
    if tx.Some? && Execute(s.store, tx.value).Committed? { PendingRowIsFixed(s.store, tx.value, key); }
  }

  lemma {:induction false} StandingLasts(s: System, events: seq<Event>, key: Key, token: nat, until: Time)
    requires Standing(s.store, key, token, until)
    ensures Standing(Run(s, events).store, key, token, until)
  {
    hide Apply, Standing;
    if events != [] {
      StandingLasts(s, events[..|events| - 1], key, token, until);
      EventKeepsStanding(Run(s, events[..|events| - 1]), events[|events| - 1], key, token, until);
    }
  }

  /** Nobody quarantines with a time that has not come yet. */
  lemma FencesUsePastTimes(s: System, e: Event)
    requires Inv(s) && StoreTransaction(s, e).Some? && StoreTransaction(s, e).value.TxFence?
    ensures StoreTransaction(s, e).value.at <= s.clock
  {
    hide Inv;
    if e.Fence? { WorkerFacts(s, e.worker); }
  }

  /** Of whatever happens after a claim, no quarantine of the stage commits in the two minutes of its lease, neither by a
      rival nor by the reconciler; and as long as the stage is open, a quarantine commits exactly with a time from the end
      of the lease on and the token of the claim. */
  lemma LeaseProtectsOwner(s: System, claim: Event, events: seq<Event>, e: Event)
    requires Inv(s) && claim.Insert?
    requires StoreTransaction(s, claim).Some? && Execute(s.store, StoreTransaction(s, claim).value).Committed?
    ensures var key, t, tx := StoreTransaction(s, claim).value.key, Run(Apply(s, claim), events), StoreTransaction(Run(Apply(s, claim), events), e);
      && key in t.store.executions
      && (tx.Some? && tx.value.TxFence? && tx.value.key == key && Execute(t.store, tx.value).Committed? ==>
           t.clock >= s.clock + 120_000 && tx.value.seen == Some(s.nextId))
      && (tx.Some? && tx.value.TxFence? && tx.value.key == key && t.store.executions[key].status == Pending ==>
           (Execute(t.store, tx.value).Committed? <==> tx.value.at >= s.clock + 120_000 && tx.value.seen == Some(s.nextId)))
  {
    hide Inv, Apply, StoreTransaction, Lifecycle;
    var create := StoreTransaction(s, claim).value;
    ClaimStands(s, claim);
    StandingLasts(Apply(s, claim), events, create.key, s.nextId, s.clock + 120_000);
    ApplyKeeps(s, claim);
    RunKeeps(Apply(s, claim), events);
    var t := Run(Apply(s, claim), events);
    var tx := StoreTransaction(t, e);
    if tx.Some? && tx.value.TxFence? {
      FencesUsePastTimes(t, e);
      StoreFacts(t);
      if t.store.executions[create.key].status == Pending { OpenRowHasNoFailure(t.store, t.legacy, create.key); }
    }
  }

  lemma OpenRowHasNoFailure(t: Tables, legacy: set<Key>, k: Key)
    requires Lifecycle(t, legacy) && k in t.executions && t.executions[k].status == Pending
    ensures k !in t.failures
  {
    assert RowOk(t, legacy, k);
  }

  lemma ClaimStands(s: System, claim: Event)
    requires claim.Insert?
    requires StoreTransaction(s, claim).Some? && Execute(s.store, StoreTransaction(s, claim).value).Committed?
    ensures Standing(Apply(s, claim).store, StoreTransaction(s, claim).value.key, s.nextId, s.clock + 120_000)
  {
    hide Apply;
    StoreChangesByTransactions(s, claim);
  }

  /** Until the lease ends only the owner closes its stage: an event that does so carries the token of the claim. */
  lemma OnlyOwnerCloses(s: System, claim: Event, events: seq<Event>, e: Event)
    requires Inv(s) && claim.Insert?
    requires StoreTransaction(s, claim).Some? && Execute(s.store, StoreTransaction(s, claim).value).Committed?
    requires Run(Apply(s, claim), events).clock < s.clock + 120_000
    ensures var key, t, tx := StoreTransaction(s, claim).value.key, Run(Apply(s, claim), events), StoreTransaction(Run(Apply(s, claim), events), e);
      && key in t.store.executions && key in Apply(t, e).store.executions
      && (t.store.executions[key].status == Pending && Apply(t, e).store.executions[key] != t.store.executions[key] ==>
           tx.Some? && (tx.value.TxSucceed? || tx.value.TxFail? || tx.value.TxRefuse?) && tx.value.owner == s.nextId)
  {
    hide Inv, Apply, StoreTransaction, Execute;
    var key := StoreTransaction(s, claim).value.key;
    ClaimStands(s, claim);
    StandingLasts(Apply(s, claim), events, key, s.nextId, s.clock + 120_000);
    LeaseProtectsOwner(s, claim, events, e);
    var t := Run(Apply(s, claim), events);
    EventKeepsStanding(t, e, key, s.nextId, s.clock + 120_000);
    StoreChangesByTransactions(t, e);
    if t.store.executions[key].status == Pending && Apply(t, e).store.executions[key] != t.store.executions[key] {
      WhoChangesOpenRows(t.store, StoreTransaction(t, e).value, key);
    }
  }

  lemma WhoChangesOpenRows(t: Tables, tx: Transaction, k: Key)
    requires Execute(t, tx).Committed? && k in t.executions && k in Execute(t, tx).state.executions
    requires t.executions[k].status == Pending && Execute(t, tx).state.executions[k] != t.executions[k]
    ensures tx.key == k
    ensures tx.TxFence? || ((tx.TxSucceed? || tx.TxFail? || tx.TxRefuse?) && t.executions[k].token == Some(tx.owner))
  {
    TouchesItsKey(t, tx);
  }
}
