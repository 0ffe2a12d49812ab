/** What is promised of every run of the execution system. */
module ProtocolTheorems {
  import opened Domain
  import opened ExecutionTables
  import opened ReplayTables
  import opened Protocol
  import opened ProtocolInvariant
  import opened ProtocolSteps

  /** A system that has processed nothing yet, over rows from before claim tokens existed: each old run either
      finished or stopped at a failed stage. */
  ghost predicate Init(s: System) {
    && |s.committed| == |s.topic|
    && (forall p :: 0 <= p < |s.topic| ==> s.topic[p] == [] && s.committed[p] == 0)
    && s.outbox == {} && s.workers == map[] && s.processors == map[] && s.dispatchers == map[]
    && s.grants == map[] && s.log == []
    && s.replay == ReplayTables(map[], map[], map[], map[])
    && s.store.attempts == map[] && s.store.failures == map[]
    && s.store.executions.Keys == s.legacy
    && (forall k :: k in s.legacy ==>
         && s.store.executions[k].status != Pending && HasAction(s, k)
         && (forall j: nat :: j < k.stage ==> ExecutionDone(s.store, Key(k.run, j))))
    && (forall r :: r in s.runs ==> Key(r, 0) in s.legacy)
    && (forall k :: k in s.legacy && ExecutionDone(s.store, k) && k.stage + 1 < s.runs[k.run] ==> Key(k.run, k.stage + 1) in s.legacy)
  }

  lemma InitHolds(s: System)
    requires Init(s)
    ensures Inv(s)
  {
    assert forall id: nat :: Coherent(s.replay, id);
    forall k | k in s.store.executions ensures RowPlaced(s, k) && RowOk(s.store, s.legacy, k) {
      assert k in s.legacy;
      forall j: nat | j < k.stage ensures Done(s, Key(k.run, j)) { assert ExecutionDone(s.store, Key(k.run, j)); }
    }
    assert LegacyOk(s);
  }

  // ----- one event -----

  lemma WorkerEventKeeps(s: System, e: Event)
    requires Inv(s)
    requires e.Fetch? || e.Insert? || e.Find? || e.Fence? || e.Refuse? || e.Begin? || e.Invoke? || e.Respond?
    ensures Inv(Apply(s, e))
  {
    hide Inv, DoFetch, DoInsert, DoFind, DoFence, DoRefuse, DoBegin, DoInvoke, DoRespond;
    match e
    case Fetch(w, fps, recovered) => if HasMessage(s, w) { FetchStep(s, w, fps, recovered); }
    case Insert(w, v) => if HasMessage(s, w) && s.workers[w].pc.Claiming? { InsertStep(s, w, v); }
    case Find(w) => if HasMessage(s, w) && (s.workers[w].pc.Existing? || s.workers[w].pc.Raced?) { FindStep(s, w); }
    case Fence(w) => if HasMessage(s, w) && s.workers[w].pc.Quarantining? { FenceStep(s, w); }
    case Refuse(w) => if HasMessage(s, w) && s.workers[w].pc.Owner? { RefuseStep(s, w); }
    case Begin(w, provider) => if HasMessage(s, w) && s.workers[w].pc.Owner? { BeginStep(s, w, provider); }
    case Invoke(w) => if HasMessage(s, w) { InvokeStep(s, w); }
    case Respond(w, report) => if HasMessage(s, w) { RespondStep(s, w, report); }
  }

  lemma FinishStep(s: System, w: nat)
    requires Inv(s) && HasMessage(s, w)
    ensures Inv(DoFinish(s, w))
  {
    hide Inv;
    match s.workers[w].pc
    case Finishing(_, _, AcceptedBy(_, _)) => FinishSuccessStep(s, w);
    case Finishing(_, _, FailedWith(_)) => FinishFailureStep(s, w);
    case ReplayFinishing(_, _, _, _) => FinishReplayStep(s, w);
    case _ =>
  }

  lemma ResolutionEventKeeps(s: System, e: Event)
    requires Inv(s)
    requires e.Finish? || e.ClaimReplay? || e.Decline? || e.Publish? || e.Commit? || e.Drop? || e.Assign? || e.Tick?
    ensures Inv(Apply(s, e))
  {
    hide Inv, DoFinish, DoClaimReplay, DoDecline, DoPublish, DoCommit, At;
    match e
    case Finish(w) => if HasMessage(s, w) { FinishStep(s, w); }
    case ClaimReplay(w, checks) => if HasMessage(s, w) { ClaimReplayStep(s, w, checks); }
    case Decline(w) => if HasMessage(s, w) { DeclineStep(s, w); }
    case Publish(w, partition, ok) =>
      if HasMessage(s, w) && s.workers[w].pc.Publishing? && partition < |s.topic| { PublishStep(s, w, partition, ok); }
    case Commit(w) =>
      if HasMessage(s, w) && s.workers[w].pc.Committing? && s.workers[w].partition < |s.committed| { CommitStep(s, w); }
    case Drop(w) => if w in s.workers { PcMoves(s, w, Idle); }
    case Assign(w, partition) =>
      if partition < |s.topic| && partition < |s.committed| { AssignStep(s, w, partition); }
    case Tick(ms) => TickStep(s, ms);
  }

  lemma OtherEventKeeps(s: System, e: Event)
    requires Inv(s)
    requires e.Ingest? || e.ReadOutbox? || e.SendOutbox? || e.DeleteOutbox? || e.StopProcessor? || e.Quarantine? || e.Repair?
    ensures Inv(Apply(s, e))
  {
    hide Inv, DoSendOutbox, Execute;
    match e
    case Ingest(run, actions, authorized) => if authorized && run !in s.runs { IngestStep(s, run, actions); }
    case ReadOutbox(p, rows) => if forall r | r in rows :: r in s.outbox { ReadOutboxStep(s, p, rows); }
    case SendOutbox(p, partition) =>
      if p in s.processors && s.processors[p].Sending? && s.processors[p].sent < |s.processors[p].rows| && partition < |s.topic| {
        SendOutboxStep(s, p, partition);
      }
    case DeleteOutbox(p) => if p in s.processors && s.processors[p].Deleting? { DeleteOutboxStep(s, p); }
    case StopProcessor(p) => StopProcessorStep(s, p);
    case Quarantine(key, seen, at) =>
      var tx := TxFence(key, seen, at, s.nextId, FromReconciler, None);
      if Execute(s.store, tx).Committed? { ReconcileStep(s, tx); }
    case Repair(key, seen) =>
      var tx := TxRepair(key, seen, s.nextId);
      if Execute(s.store, tx).Committed? { ReconcileStep(s, tx); }
  }

  lemma ReplayEventKeeps(s: System, e: Event)
    requires Inv(s)
    requires e.RequestReplay? || e.LeaseRequest? || e.SendRequest? || e.ReleaseRequest? || e.StampRequest? || e.StopDispatcher?
    ensures Inv(Apply(s, e))
  {
    hide Inv, DoRequest, DoSendRequest, Dispatched, ExecuteReplay;
    match e
    case RequestReplay(id, key, approval, expiresAt, authorized, facts) => RequestStep(s, id, key, approval, expiresAt, facts);
    case LeaseRequest(d, id) =>
      var tx := RtLease(id, s.nextId, s.clock);
      if ExecuteReplay(s.replay, tx).Committed? {
        LeaseCommits(s, tx);
        DispatchStep(s, Apply(s, e), tx);
      }
    case SendRequest(d, partition, ok) =>
      if d in s.dispatchers && s.dispatchers[d].Leased? && s.dispatchers[d].id in s.replay.requests && partition < |s.topic| {
        SendRequestStep(s, d, partition, ok);
      }
    case ReleaseRequest(d) =>
      if d in s.dispatchers && s.dispatchers[d].Leased? {
        DispatchedStep(s, d, RtRelease(s.dispatchers[d].id, s.dispatchers[d].token, s.dispatchers[d].attempts, s.clock));
      }
    case StampRequest(d) =>
      if d in s.dispatchers && s.dispatchers[d].Sent? {
        DispatchedStep(s, d, RtStamp(s.dispatchers[d].id, s.dispatchers[d].token, s.clock));
      }
    case StopDispatcher(d) => DispatcherMoves(s, d, Waiting);
  }

  lemma LeaseCommits(s: System, tx: ReplayTransaction)
    requires tx.RtLease? && ExecuteReplay(s.replay, tx).Committed?
    ensures tx.id in ExecuteReplay(s.replay, tx).state.replays
  {
  }

  lemma ApplyKeeps(s: System, e: Event)
    requires Inv(s)
    ensures Inv(Apply(s, e))
  {
    hide Inv, Apply;
    if e.Fetch? || e.Insert? || e.Find? || e.Fence? || e.Refuse? || e.Begin? || e.Invoke? || e.Respond? {
      WorkerEventKeeps(s, e);
    } else if e.Finish? || e.ClaimReplay? || e.Decline? || e.Publish? || e.Commit? || e.Drop? || e.Assign? || e.Tick? {
      ResolutionEventKeeps(s, e);
    } else if e.RequestReplay? || e.LeaseRequest? || e.SendRequest? || e.ReleaseRequest? || e.StampRequest? || e.StopDispatcher? {
      ReplayEventKeeps(s, e);
    } else {
      OtherEventKeeps(s, e);
    }
  }

  lemma {:induction false} RunKeeps(s: System, events: seq<Event>)
    requires Inv(s)
    ensures Inv(Run(s, events))
  {
    hide Inv, Apply;
    if events != [] {
      RunKeeps(s, events[..|events| - 1]);
      ApplyKeeps(Run(s, events[..|events| - 1]), events[|events| - 1]);
    }
  }

  /** Every reachable state satisfies the invariant. */
  lemma Reachable(s: System, events: seq<Event>)
    requires Init(s)
    ensures Inv(Run(s, events))
  {
    InitHolds(s);
    RunKeeps(s, events);
  }

  // ----- effectively-once delivery -----

  /** The call was accepted, or nobody knows that it was not. */
  predicate MayHaveDelivered(c: Call) {
    c.state == InFlight || c.state == Reported(Accepted) || c.state == Reported(Unknown)
  }

  /** Two calls for one stage: the first was rejected on the record, the second is its replay after the cooldown. */
  lemma SecondCallIsACooledReplay(s: System, i: nat, j: nat)
    requires Inv(s) && i < j < |s.log| && s.log[i].claimant.key == s.log[j].claimant.key
    ensures s.log[i].claimant.ByMessage? && s.log[i].state == Reported(Rejected)
    ensures s.log[j].claimant.ByReplay? && Cooled(s.store, s.log[j].claimant.key, s.log[j].at)
  {
    hide Inv;
    LogFacts(s);
    var k := s.log[i].claimant.key;
    assert CallOk(s, i) && CallOk(s, j);
    OneTokenPerClaimant(s, i, j);
    GrantFacts(s, s.log[j].token);
    if s.log[j].claimant.ByReplay? {
      var first :| 0 <= first < j && s.log[first].claimant == ByMessage(k) && s.log[first].state == Reported(Rejected);
      if s.log[i].claimant.ByMessage? {
        if first != i { OneTokenPerClaimant(s, if first < i then first else i, if first < i then i else first); }
      } else {
        ReplaysDiffer(s, i, j);
      }
    } else {
      assert s.log[i].claimant.ByReplay?;
      var first :| 0 <= first < i && s.log[first].claimant == ByMessage(k);
      OneTokenPerClaimant(s, first, j);
    }
  }

  lemma OneTokenPerClaimant(s: System, i: nat, j: nat)
    requires Inv(s) && i < j < |s.log|
    ensures s.log[i].claimant != s.log[j].claimant
  {
    hide Inv;
    LogFacts(s);
    WorkerSideFacts(s);
    assert CallOk(s, i) && CallOk(s, j);
  }

  lemma ReplaysDiffer(s: System, i: nat, j: nat)
    requires Inv(s) && i < j < |s.log| && s.log[i].claimant.ByReplay? && s.log[j].claimant.ByReplay?
    ensures s.log[i].claimant.key != s.log[j].claimant.key
  {
    hide Inv;
    LogFacts(s);
    ReplayFacts(s);
    assert CallOk(s, i) && CallOk(s, j);
    GrantFacts(s, s.log[i].token);
    GrantFacts(s, s.log[j].token);
    OneTokenPerClaimant(s, i, j);
  }

  /** In every run at most one call for a stage may have been delivered, and at most two are ever made. */
  lemma EffectivelyOnce(s: System, events: seq<Event>)
    requires Init(s)
    ensures var t := Run(s, events);
      forall i, j :: 0 <= i < j < |t.log| && t.log[i].claimant.key == t.log[j].claimant.key ==>
        && !(MayHaveDelivered(t.log[i]) && MayHaveDelivered(t.log[j]))
        && t.log[i].claimant.ByMessage? && t.log[i].state == Reported(Rejected)
        && t.log[j].claimant.ByReplay? && Cooled(t.store, t.log[j].claimant.key, t.log[j].at)
    ensures var t := Run(s, events);
      forall i, j, k :: 0 <= i < j < k < |t.log| ==>
        !(t.log[i].claimant.key == t.log[j].claimant.key == t.log[k].claimant.key)
  {
    hide Inv, Init, Run;
    Reachable(s, events);
    var t := Run(s, events);
    forall i, j | 0 <= i < j < |t.log| && t.log[i].claimant.key == t.log[j].claimant.key
      ensures t.log[i].claimant.ByMessage? && t.log[i].state == Reported(Rejected)
      ensures t.log[j].claimant.ByReplay? && Cooled(t.store, t.log[j].claimant.key, t.log[j].at)
    {
      SecondCallIsACooledReplay(t, i, j);
    }
  }

  // ----- stage order -----

  /** A message or an execution for a stage exists only if every earlier stage succeeded, itself or in replay. */
  lemma StageOrder(s: System, events: seq<Event>)
    requires Init(s)
    ensures var t := Run(s, events);
      && (forall k :: k in t.store.executions ==> HasAction(t, k) && DoneBefore(t, k))
      && (forall p, i :: 0 <= p < |t.topic| && 0 <= i < |t.topic[p]| ==> DoneBefore(t, t.topic[p][i].key))
      && (forall i :: 0 <= i < |t.log| ==> DoneBefore(t, t.log[i].claimant.key))
  {
    hide Init, Run;
    Reachable(s, events);
    var t := Run(s, events);
    forall k | k in t.store.executions ensures HasAction(t, k) && DoneBefore(t, k) { assert RowPlaced(t, k); }
    forall p, i | 0 <= p < |t.topic| && 0 <= i < |t.topic[p]| ensures DoneBefore(t, t.topic[p][i].key) {
      assert MessageOk(t, t.topic[p][i]);
      if t.topic[p][i].ReplayOrder? { assert RequestOk(t, t.topic[p][i].request); assert RowPlaced(t, t.topic[p][i].key); }
    }
    forall i | 0 <= i < |t.log| ensures DoneBefore(t, t.log[i].claimant.key) {
      assert CallOk(t, i) && GrantOk(t, t.log[i].token);
      if t.log[i].claimant.ByReplay? { assert RequestOk(t, t.log[i].claimant.request); }
      assert RowPlaced(t, t.log[i].claimant.key);
    }
  }

  // ----- no stranded run -----

  ghost predicate Uncommitted(s: System, m: Message) {
    exists p, i :: 0 <= p < |s.topic| && p < |s.committed| && s.committed[p] <= i < |s.topic[p]| && s.topic[p][i] == m
  }

  ghost predicate UncommittedReplay(s: System, k: Key) {
    exists p, i :: 0 <= p < |s.topic| && p < |s.committed| && s.committed[p] <= i < |s.topic[p]|
      && s.topic[p][i].ReplayOrder? && s.topic[p][i].key == k
  }

  /** A message in the topic is still to be handled or already resolved. */
  lemma PendingOrResolved(s: System, m: Message)
    requires OffsetsOk(s) && InTopic(s.topic, m)
    ensures Uncommitted(s, m) || Resolved(s, m)
  {
    var p, i :| 0 <= p < |s.topic| && 0 <= i < |s.topic[p]| && s.topic[p][i] == m;
    if i < s.committed[p] { assert Resolved(s, s.topic[p][i]); }
  }

  /** What moves a run on, or shows where it stopped. The frontier is the first stage not done. */
  ghost predicate Accounted(s: System, run: nat, frontier: nat) {
    || run in s.outbox
    || Uncommitted(s, Ordinary(Key(run, frontier)))
    // The stage before is done and the message that will hand the run on is still uncommitted.
    || (frontier > 0 && Uncommitted(s, Ordinary(Key(run, frontier - 1))))
    || (frontier > 0 && UncommittedReplay(s, Key(run, frontier - 1)))
    || FailedWithRecord(s.store, Key(run, frontier))
    // A failure from before failure records existed, which the reconciler will still record.
    || (Key(run, frontier) in s.legacy && Key(run, frontier) in s.store.executions
        && s.store.executions[Key(run, frontier)].status == Failed)
  }

  lemma FrontierIsAccounted(s: System, run: nat, frontier: nat)
    requires Inv(s) && run in s.runs && frontier < s.runs[run]
    requires !Done(s, Key(run, frontier)) && DoneBefore(s, Key(run, frontier))
    ensures Accounted(s, run, frontier)
  {
    hide Inv, Done, DoneBefore, Accounted;
    var k := Key(run, frontier);
    if frontier == 0 {
      OutboxFacts(s);
      if InTopic(s.topic, Ordinary(k)) { SentFrontier(s, k); }
      else if k in s.legacy { LegacyFrontier(s, k); }
      else { OutboxHolds(s, run); }
    } else {
      HandedToFrontier(s, k);
    }
  }

  lemma OutboxHolds(s: System, run: nat)
    requires run in s.outbox
    ensures Accounted(s, run, 0)
  {
  }

  lemma SentFrontier(s: System, k: Key)
    requires Inv(s) && InTopic(s.topic, Ordinary(k)) && !Done(s, k)
    ensures Accounted(s, k.run, k.stage)
  {
    hide Inv;
    OffsetFacts(s);
    PendingOrResolved(s, Ordinary(k));
    assert Key(k.run, k.stage) == k;
  }

  lemma LegacyFrontier(s: System, k: Key)
    requires Inv(s) && k in s.legacy && !Done(s, k)
    ensures Accounted(s, k.run, k.stage)
  {
    hide Inv;
    StoreFacts(s);
    RowFacts(s, k);
    assert Key(k.run, k.stage) == k;
  }

  /** The stage before the frontier is done: it has handed the run on, or its message still will. */
  lemma HandedToFrontier(s: System, k: Key)
    requires Inv(s) && k.run in s.runs && 0 < k.stage < s.runs[k.run] && !Done(s, k) && DoneBefore(s, k)
    ensures Accounted(s, k.run, k.stage)
  {
    hide Inv, Accounted, Resolved;
    var previous := Key(k.run, k.stage - 1);
    assert Done(s, previous);
    OffsetFacts(s);
    if ExecutionDone(s.store, previous) {
      RowFacts(s, previous);
      if previous in s.legacy {
        LegacyHandsOn(s, previous);
        LegacyFrontier(s, k);
      } else {
        PendingOrResolved(s, Ordinary(previous));
        if Resolved(s, Ordinary(previous)) { ResolvedHandsOn(s, Ordinary(previous)); SentFrontier(s, k); }
        else { StillToCome(s, k, Ordinary(previous)); }
      }
    } else {
      var id :| ReplayedBy(s.replay, previous, id);
      RequestFacts(s, id);
      PendingOrResolved(s, ReplayOrder(previous, id));
      if Resolved(s, ReplayOrder(previous, id)) { ResolvedHandsOn(s, ReplayOrder(previous, id)); SentFrontier(s, k); }
      else { StillToCome(s, k, ReplayOrder(previous, id)); }
    }
  }

  lemma StillToCome(s: System, k: Key, m: Message)
    requires k.stage > 0 && m.key == Key(k.run, k.stage - 1) && Uncommitted(s, m)
    ensures Accounted(s, k.run, k.stage)
  {
  }

  lemma LegacyHandsOn(s: System, k: Key)
    requires Inv(s) && k in s.legacy && ExecutionDone(s.store, k) && k.stage + 1 < s.runs[k.run]
    ensures Key(k.run, k.stage + 1) in s.legacy
  {
  }

  lemma ResolvedHandsOn(s: System, m: Message)
    requires Resolved(s, m) && m.key.run in s.runs && m.key.stage + 1 < s.runs[m.key.run]
    requires if m.Ordinary? then ExecutionDone(s.store, m.key)
             else m.request in s.replay.replays && s.replay.replays[m.request].status == ReplaySuccess
    ensures InTopic(s.topic, Ordinary(Key(m.key.run, m.key.stage + 1)))
  {
  }

  /** At every moment of every run, each ingested run has something that carries it on, or a record of where it
      failed, or nothing left to do. */
  lemma NoStrandedRun(s: System, events: seq<Event>)
    requires Init(s)
    ensures var t := Run(s, events);
      forall run: nat, frontier: nat :: run in t.runs && DoneBefore(t, Key(run, frontier)) ==>
        frontier >= t.runs[run] || Done(t, Key(run, frontier)) || Accounted(t, run, frontier)
  {
    hide Inv, Init, Run, Done, DoneBefore, Accounted;
    Reachable(s, events);
    var t := Run(s, events);
    forall run: nat, frontier: nat | run in t.runs && DoneBefore(t, Key(run, frontier))
      ensures frontier >= t.runs[run] || Done(t, Key(run, frontier)) || Accounted(t, run, frontier)
    {
      if frontier < t.runs[run] && !Done(t, Key(run, frontier)) { FrontierIsAccounted(t, run, frontier); }
    }
  }

  /** An offset passes a message only when the message is resolved. */
  lemma CommittedMeansResolved(s: System, events: seq<Event>)
    requires Init(s)
    ensures var t := Run(s, events);
      && |t.committed| == |t.topic|
      && (forall p, i :: 0 <= p < |t.topic| && 0 <= i < t.committed[p] ==> i < |t.topic[p]| && Resolved(t, t.topic[p][i]))
  {
    hide Inv, Init, Run;
    Reachable(s, events);
    OffsetFacts(Run(s, events));
  }

  // ----- replays -----

  /** A run is replayed at most once, whatever the cases and approvals. */
  lemma OneReplayPerRun(s: System, events: seq<Event>)
    requires Init(s)
    ensures var t := Run(s, events);
      forall a, b :: a in t.replay.requests && b in t.replay.requests ==>
        t.replay.requests[a].key.run == t.replay.requests[b].key.run ==> a == b
  {
    hide Inv, Init, Run;
    Reachable(s, events);
    var t := Run(s, events);
    ReplayFacts(t);
    forall a, b | a in t.replay.requests && b in t.replay.requests
      && t.replay.requests[a].key.run == t.replay.requests[b].key.run
      ensures a == b
    {
      RequestFacts(t, a);
      RequestFacts(t, b);
      var k, l := t.replay.requests[a].key, t.replay.requests[b].key;
      assert Key(k.run, k.stage) == k && Key(l.run, l.stage) == l;
    }
  }

  // ----- what no event undoes -----

  ghost predicate NothingUndone(s: System, t: System) {
    Progress(s.store, t.store) && ReplayForward(s.replay, t.replay)
  }

  lemma NothingUndoneReflexive(s: System)
    ensures NothingUndone(s, s)
  {
  }

  lemma NothingUndoneTransitive(a: System, b: System, c: System)
    requires NothingUndone(a, b) && NothingUndone(b, c)
    ensures NothingUndone(a, c)
  {
  }

  lemma StoreForward(s: System, tx: Transaction)
    requires Inv(s) && WellFormed(s.store, tx)
    ensures Execute(s.store, tx).Committed? ==> Progress(s.store, Execute(s.store, tx).state)
  {
    hide Inv;
    StoreFacts(s);
    if Execute(s.store, tx).Committed? { TransactionKeepsLifecycle(s.store, s.legacy, tx); }
  }

  lemma ReplaysForward(s: System, tx: ReplayTransaction)
    requires Inv(s) && WellFormedReplay(tx)
    ensures ExecuteReplay(s.replay, tx).Committed? ==> ReplayForward(s.replay, ExecuteReplay(s.replay, tx).state)
  {
    hide Inv, ReplayLifecycle, ExecuteReplay;
    ReplayFacts(s);
    if ExecuteReplay(s.replay, tx).Committed? {
      var u := ExecuteReplay(s.replay, tx).state;
      ReplayTransactionKeepsLifecycle(s.replay, tx);
      forall id | id in s.replay.requests || id in s.replay.replays || id in s.replay.attempts || id in s.replay.failures
        ensures RowProgress(s.replay, u, id) {
      }
    }
  }

  lemma InsertForward(s: System, w: nat, v: Option<Hash>)
    requires Inv(s) && HasMessage(s, w) && s.workers[w].pc.Claiming?
    ensures NothingUndone(s, DoInsert(s, w, v))
  {
    hide Inv, Progress, ReplayForward, Lifecycle, Create;
    NothingUndoneReflexive(s);
    StoreForward(s, TxCreate(Current(s, w).key, s.nextId, s.clock, v, s.workers[w].pc.fps));
  }

  lemma FenceForward(s: System, w: nat)
    requires Inv(s) && HasMessage(s, w) && s.workers[w].pc.Quarantining?
    ensures NothingUndone(s, DoFence(s, w))
  {
    hide Inv, Progress, ReplayForward, Lifecycle, FenceExpired;
    NothingUndoneReflexive(s);
    var pc := s.workers[w].pc;
    StoreForward(s, TxFence(Current(s, w).key, pc.seen, pc.at, s.nextId, FromOwner, Some(pc.fps)));
  }

  lemma OwnerForward(s: System, w: nat, provider: Provider)
    requires Inv(s) && HasMessage(s, w) && s.workers[w].pc.Owner?
    ensures NothingUndone(s, DoRefuse(s, w)) && NothingUndone(s, DoBegin(s, w, provider))
  {
    hide Inv, Progress, ReplayForward, Lifecycle, Execute;
    NothingUndoneReflexive(s);
    WorkerFacts(s, w);
    StoreForward(s, TxRefuse(Current(s, w).key, s.workers[w].pc.token, "unsupported_action_type", s.clock, s.nextId));
    StoreForward(s, TxStart(Current(s, w).key, s.workers[w].pc.token, provider));
  }

  lemma StoreEventForward(s: System, e: Event)
    requires Inv(s) && (e.Insert? || e.Fence? || e.Refuse? || e.Begin?)
    ensures NothingUndone(s, Apply(s, e))
  {
    hide Inv, Progress, ReplayForward, DoInsert, DoFence, DoRefuse, DoBegin;
    NothingUndoneReflexive(s);
    match e
    case Insert(w, v) => if HasMessage(s, w) && s.workers[w].pc.Claiming? { InsertForward(s, w, v); }
    case Fence(w) => if HasMessage(s, w) && s.workers[w].pc.Quarantining? { FenceForward(s, w); }
    case Refuse(w) => if HasMessage(s, w) && s.workers[w].pc.Owner? { OwnerForward(s, w, Telegram); }
    case Begin(w, provider) => if HasMessage(s, w) && s.workers[w].pc.Owner? { OwnerForward(s, w, provider); }
  }

  lemma FinishForward(s: System, w: nat)
    requires Inv(s) && HasMessage(s, w)
    ensures NothingUndone(s, DoFinish(s, w))
  {
    hide Inv, Progress, ReplayForward, Execute, ExecuteReplay;
    WorkerFacts(s, w);
    NothingUndoneReflexive(s);
    var k := Current(s, w).key;
    match s.workers[w].pc
    case Finishing(token, _, AcceptedBy(_, receipt)) => StoreForward(s, TxSucceed(k, token, receipt, s.clock));
    case Finishing(token, _, FailedWith(evidence)) => StoreForward(s, TxFail(k, token, evidence, s.clock, s.nextId));
    case ReplayFinishing(token, request, _, report) => ReplaysForward(s, RtComplete(request, token, report, s.clock));
    case _ =>
  }

  lemma EndingForward(s: System, w: nat, tx: ReplayTransaction)
    requires Inv(s) && w in s.workers && WellFormedReplay(tx)
    ensures NothingUndone(s, Ending(s, w, tx))
  {
    hide Inv, Progress, ReplayForward, ExecuteReplay;
    NothingUndoneReflexive(s);
    ReplaysForward(s, tx);
  }

  lemma ClaimForward(s: System, w: nat, c: ReplayChecks)
    requires Inv(s) && HasMessage(s, w)
    ensures NothingUndone(s, DoClaimReplay(s, w, c))
  {
    hide Inv, Progress, ReplayForward, ExecuteReplay, StillAllowed, Ending;
    NothingUndoneReflexive(s);
    var m := Current(s, w);
    if m.ReplayOrder? {
      EndingForward(s, w, RtExpire(m.request, s.clock));
      EndingForward(s, w, RtDeny(m.request, "replay_authority_invalid", s.clock));
      EndingForward(s, w, RtDeny(m.request, "replay_policy_changed", s.clock));
      EndingForward(s, w, RtDeny(m.request, "replay_input_identity_unproven", s.clock));
      if m.key.run in s.runs { ReplaysForward(s, RtTake(m.request, s.nextId, Following(s, m.key), s.clock)); }
    }
  }

  lemma DispatchedForward(s: System, d: nat, tx: ReplayTransaction)
    requires Inv(s) && WellFormedReplay(tx)
    ensures NothingUndone(s, Dispatched(s, d, tx))
  {
    hide Inv, Progress, ReplayForward, ExecuteReplay;
    NothingUndoneReflexive(s);
    ReplaysForward(s, tx);
  }

  lemma RequestForward(s: System, id: nat, key: Key, approval: nat, expiresAt: int, facts: Policy.Facts)
    requires Inv(s)
    ensures NothingUndone(s, DoRequest(s, id, key, approval, expiresAt, facts))
  {
    hide Inv, Progress, ReplayForward, ExecuteReplay, NewRequest;
    NothingUndoneReflexive(s);
    var request := NewRequest(s, key, approval, expiresAt, facts);
    if request.Some? { ReplaysForward(s, RtReserve(id, request.value)); }
  }

  lemma DispatchEventForward(s: System, e: Event)
    requires Inv(s) && (e.LeaseRequest? || e.ReleaseRequest? || e.StampRequest?)
    ensures NothingUndone(s, Apply(s, e))
  {
    hide Inv, Progress, ReplayForward, ExecuteReplay, Dispatched;
    NothingUndoneReflexive(s);
    match e
    case LeaseRequest(d, id) => ReplaysForward(s, RtLease(id, s.nextId, s.clock));
    case ReleaseRequest(d) =>
      if d in s.dispatchers && s.dispatchers[d].Leased? {
        DispatchedForward(s, d, RtRelease(s.dispatchers[d].id, s.dispatchers[d].token, s.dispatchers[d].attempts, s.clock));
      }
    case StampRequest(d) =>
      if d in s.dispatchers && s.dispatchers[d].Sent? {
        DispatchedForward(s, d, RtStamp(s.dispatchers[d].id, s.dispatchers[d].token, s.clock));
      }
  }

  lemma ReplayEventForward(s: System, e: Event)
    requires Inv(s) && (e.RequestReplay? || e.Finish? || e.ClaimReplay?)
    ensures NothingUndone(s, Apply(s, e))
  {
    hide Inv, Progress, ReplayForward, ExecuteReplay, DoRequest, DoFinish, DoClaimReplay;
    NothingUndoneReflexive(s);
    match e
    case RequestReplay(id, key, approval, expiresAt, authorized, facts) => RequestForward(s, id, key, approval, expiresAt, facts);
    case Finish(w) => if HasMessage(s, w) { FinishForward(s, w); }
    case ClaimReplay(w, c) => if HasMessage(s, w) { ClaimForward(s, w, c); }
  }

  lemma ReconcilerForward(s: System, e: Event)
    requires Inv(s) && (e.Quarantine? || e.Repair?)
    ensures NothingUndone(s, Apply(s, e))
  {
    hide Inv, Progress, ReplayForward, Execute;
    NothingUndoneReflexive(s);
    match e
    case Quarantine(key, seen, at) => StoreForward(s, TxFence(key, seen, at, s.nextId, FromReconciler, None));
    case Repair(key, seen) => StoreForward(s, TxRepair(key, seen, s.nextId));
  }

  predicate SameTables(s: System, t: System) {
    t.store == s.store && t.replay == s.replay
  }

  lemma FetchReads(s: System, w: nat, fps: Fingerprints, recovered: Option<nat>)
    requires HasMessage(s, w)
    ensures SameTables(s, DoFetch(s, w, fps, recovered))
  {
    hide Recovers, Settle;
  }

  lemma FindReads(s: System, w: nat)
    requires HasMessage(s, w) && (s.workers[w].pc.Existing? || s.workers[w].pc.Raced?)
    ensures SameTables(s, DoFind(s, w))
  {
    hide Settle;
  }

  lemma ReadingForward(s: System, e: Event)
    requires e.Fetch? || e.Find?
    ensures SameTables(s, Apply(s, e))
  {
    hide DoFetch, DoFind;
    match e
    case Fetch(w, fps, recovered) => if HasMessage(s, w) { FetchReads(s, w, fps, recovered); }
    case Find(w) =>
      if HasMessage(s, w) && (s.workers[w].pc.Existing? || s.workers[w].pc.Raced?) { FindReads(s, w); }
  }

  lemma CallReads(s: System, w: nat, report: Report)
    requires HasMessage(s, w)
    ensures SameTables(s, DoInvoke(s, w)) && SameTables(s, DoRespond(s, w, report)) && SameTables(s, DoDecline(s, w))
  {
  }

  lemma CallingForward(s: System, e: Event)
    requires e.Invoke? || e.Respond? || e.Decline?
    ensures SameTables(s, Apply(s, e))
  {
    hide DoInvoke, DoRespond, DoDecline;
    if HasMessage(s, e.worker) {
      CallReads(s, e.worker, if e.Respond? then e.report else FailedWith(OutcomeUnknown()));
    }
  }

  lemma OffsetsForward(s: System, e: Event)
    requires e.Publish? || e.Commit? || e.Drop? || e.Assign?
    ensures SameTables(s, Apply(s, e))
  {
    hide Settle, Deliver;
  }

  lemma OutsideForward(s: System, e: Event)
    requires e.Tick? || e.Ingest? || e.ReadOutbox? || e.SendOutbox? || e.DeleteOutbox? || e.StopProcessor? || e.SendRequest?
      || e.StopDispatcher?
    ensures SameTables(s, Apply(s, e))
  {
    hide Deliver;
  }

  lemma OtherEventForward(s: System, e: Event)
    requires Inv(s)
    requires !(e.Insert? || e.Fence? || e.Refuse? || e.Begin? || e.LeaseRequest? || e.ReleaseRequest? || e.StampRequest?)
    requires !(e.RequestReplay? || e.Finish? || e.ClaimReplay?)
    ensures NothingUndone(s, Apply(s, e))
  {
    hide Inv, Progress, ReplayForward, Apply;
    NothingUndoneReflexive(s);
    if e.Quarantine? || e.Repair? { ReconcilerForward(s, e); }
    else if e.Fetch? || e.Find? { ReadingForward(s, e); }
    else if e.Invoke? || e.Respond? || e.Decline? { CallingForward(s, e); }
    else if e.Publish? || e.Commit? || e.Drop? || e.Assign? { OffsetsForward(s, e); }
    else { OutsideForward(s, e); }
  }

  /** Over any continuation of any run, an execution leaves PENDING at most once and never returns, a replay moves only
      forward, and every finished attempt and failure record stays as it is. */
  lemma {:induction false} RunsOnlyMoveForward(s: System, events: seq<Event>)
    requires Inv(s)
    ensures Progress(s.store, Run(s, events).store) && ReplayForward(s.replay, Run(s, events).replay)
  {
    hide Inv, Progress, ReplayForward, Apply;
    NothingUndoneReflexive(s);
    if events != [] {
      var before := Run(s, events[..|events| - 1]);
      var e := events[|events| - 1];
      RunsOnlyMoveForward(s, events[..|events| - 1]);
      RunKeeps(s, events[..|events| - 1]);
      if e.Insert? || e.Fence? || e.Refuse? || e.Begin? { StoreEventForward(before, e); }
      else if e.LeaseRequest? || e.ReleaseRequest? || e.StampRequest? { DispatchEventForward(before, e); }
      else if e.RequestReplay? || e.Finish? || e.ClaimReplay? { ReplayEventForward(before, e); }
      else { OtherEventForward(before, e); }
      NothingUndoneTransitive(s, before, Apply(before, e));
    }
  }

  /** In every reachable state a failed execution has its failure record and only a failed one has, and no terminal
      execution keeps an open attempt. */
  lemma FailedExactlyWithRecord(s: System, events: seq<Event>)
    requires Init(s)
    ensures var t := Run(s, events);
      && (forall k :: k in t.store.executions && k !in t.legacy ==>
           (t.store.executions[k].status == Failed <==> k in t.store.failures))
      && (forall k :: k in t.store.failures ==> k in t.store.executions && t.store.executions[k].status == Failed)
      && (forall id :: id in t.store.attempts ==> id.key in t.store.executions)
      && (forall id :: id in t.store.attempts && t.store.attempts[id].status == Started ==>
           t.store.executions[id.key].status == Pending)
  {
    hide Inv, Init, Run;
    Reachable(s, events);
    var t := Run(s, events);
    StoreFacts(t);
    forall k | k in t.store.failures ensures t.store.executions[k].status == Failed { assert RowOk(t.store, t.legacy, k); }
    forall id | id in t.store.attempts
      ensures id.key in t.store.executions
      ensures t.store.attempts[id].status == Started ==> t.store.executions[id.key].status == Pending
    {
      assert AttemptOk(t.store, t.legacy, id);
    }
  }
}
