/** Every event keeps the invariant. */
module ProtocolSteps {
  import opened Domain
  import opened ExecutionTables
  import opened ReplayTables
  import opened Protocol
  import opened ProtocolInvariant
  import opened ProtocolKeeping
  import Policy = ReplayPolicy

  // ----- parts of the invariant, one at a time -----

  lemma WorkerFacts(s: System, w: nat)
    requires Inv(s) && w in s.workers
    ensures WorkerOk(s, w)
  {
  }

  lemma RequestFacts(s: System, id: nat)
    requires Inv(s) && id in s.replay.requests
    ensures RequestOk(s, id) && id in s.replay.replays && ReplayRowOk(s.replay, id)
  {
    assert Coherent(s.replay, id);
  }

  lemma RowFacts(s: System, k: Key)
    requires Inv(s) && k in s.store.executions
    ensures RowPlaced(s, k) && RowOk(s.store, s.legacy, k)
  {
  }

  lemma GrantFacts(s: System, token: nat)
    requires Inv(s) && token in s.grants
    ensures GrantOk(s, token)
  {
  }

  lemma MessageFacts(s: System, w: nat)
    requires Inv(s) && HasMessage(s, w)
    ensures MessageOk(s, Current(s, w))
  {
  }

  lemma OutboxFacts(s: System)
    requires Inv(s)
    ensures OutboxSideOk(s)
  {
  }

  lemma StoreFacts(s: System)
    requires Inv(s)
    ensures Lifecycle(s.store, s.legacy)
  {
  }

  lemma ReplayFacts(s: System)
    requires Inv(s)
    ensures ReplayLifecycle(s.replay)
  {
  }

  lemma LogFacts(s: System)
    requires Inv(s)
    ensures LogOk(s)
  {
  }

  lemma OffsetFacts(s: System)
    requires Inv(s)
    ensures OffsetsOk(s)
  {
  }

  lemma WorkerSideFacts(s: System)
    requires Inv(s)
    ensures WorkersOk(s) && GrantsOk(s) && DispatchersOk(s)
  {
  }

  // ----- steps that touch no table -----

  lemma PcCarriesOver(s: System, t: System, w: nat, m: Message, pc: Pc)
    requires PcOk(s, w, m, pc) && GrantsOk(s)
    requires s.clock <= t.clock && s.runs == t.runs && s.nextId == t.nextId && s.legacy == t.legacy
    requires s.topic == t.topic && s.store == t.store && s.replay == t.replay && s.grants == t.grants && s.log == t.log
    ensures PcOk(t, w, m, pc)
  {
    QuietStepEvolves(s, t, w + 1);
    forall g | g in t.grants ensures GrantOk(t, g) { assert GrantOk(s, g); }
    PcStable(s, t, w + 1, w, m, pc);
  }

  /** A worker that only moves its program counter keeps the invariant if it knows enough. */
  lemma PcMoves(s: System, w: nat, pc: Pc)
    requires Inv(s) && w in s.workers
    requires pc == Idle || (HasMessage(s, w) && PcOk(s, w, Current(s, w), pc))
    ensures Inv(At(s, w, pc))
  {
    hide Inv, Evolves, WorkersOk;
    WorkerSideFacts(s);
    OutboxFacts(s);
    var t := At(s, w, pc);
    QuietStepEvolves(s, t, w);
    if pc != Idle { PcCarriesOver(s, t, w, Current(s, w), pc); }
    assert WorkerOk(s, w);
    ActorOk(s, t, w, pc);
    SameOutboxJustified(s, t);
    QuietStep(s, t, w);
  }

  lemma TickStep(s: System, ms: nat)
    requires Inv(s)
    ensures Inv(s.(clock := s.clock + ms))
  {
    hide Inv;
    WorkerSideFacts(s);
    OutboxFacts(s);
    var t := s.(clock := s.clock + ms);
    EnvironmentKeepsWorkers(s, t, 0);
    EnvironmentEvolves(s, t, 0);
    SameOutboxJustified(s, t);
    QuietStep(s, t, 0);
  }

  lemma AssignStep(s: System, w: nat, partition: nat)
    requires Inv(s) && partition < |s.topic| && partition < |s.committed|
    ensures Inv(s.(workers := s.workers[w := Worker(partition, s.committed[partition], Idle)]))
  {
    hide Inv;
    WorkerSideFacts(s);
    OutboxFacts(s);
    OffsetFacts(s);
    var t := s.(workers := s.workers[w := Worker(partition, s.committed[partition], Idle)]);
    QuietStepEvolves(s, t, w);
    forall i | 0 <= i < s.committed[partition] ensures Resolved(t, t.topic[partition][i]) {
      ResolvedStable(s, t, w, s.topic[partition][i]);
    }
    SameOutboxJustified(s, t);
    QuietStep(s, t, w);
  }

  // ----- ingestion and outbox -----

  lemma IngestStep(s: System, run: nat, actions: nat)
    requires Inv(s) && run !in s.runs
    ensures Inv(s.(runs := s.runs[run := actions], outbox := s.outbox + {run}))
  {
    hide Inv;
    WorkerSideFacts(s);
    OutboxFacts(s);
    var t := s.(runs := s.runs[run := actions], outbox := s.outbox + {run});
    EnvironmentEvolves(s, t, 0);
    EnvironmentKeepsWorkers(s, t, 0);
    QuietStep(s, t, 0);
  }

  lemma ReadOutboxStep(s: System, p: nat, rows: seq<nat>)
    requires Inv(s) && forall r | r in rows :: r in s.outbox
    ensures Inv(s.(processors := s.processors[p := Sending(rows, 0)]))
  {
    hide Inv;
    WorkerSideFacts(s);
    OutboxFacts(s);
    var t := s.(processors := s.processors[p := Sending(rows, 0)]);
    EnvironmentEvolves(s, t, 0);
    EnvironmentKeepsWorkers(s, t, 0);
    assert ProcessorOk(t, Sending(rows, 0)) by {
      forall i | 0 <= i < |rows| ensures rows[i] in s.runs { assert rows[i] in rows; }
    }
    QuietStep(s, t, 0);
  }

  lemma StopProcessorStep(s: System, p: nat)
    requires Inv(s)
    ensures Inv(s.(processors := s.processors[p := Resting]))
  {
    hide Inv;
    WorkerSideFacts(s);
    OutboxFacts(s);
    var t := s.(processors := s.processors[p := Resting]);
    EnvironmentEvolves(s, t, 0);
    EnvironmentKeepsWorkers(s, t, 0);
    QuietStep(s, t, 0);
  }

  /** Rows leave the outbox only after their messages are in the topic. */
  lemma DeleteOutboxStep(s: System, p: nat)
    requires Inv(s) && p in s.processors && s.processors[p].Deleting?
    ensures Inv(s.(outbox := s.outbox - (set r | r in s.processors[p].rows), processors := s.processors[p := Resting]))
  {
    hide Inv, Evolves;
    WorkerSideFacts(s);
    OutboxFacts(s);
    var rows := s.processors[p].rows;
    var t := s.(outbox := s.outbox - (set r | r in rows), processors := s.processors[p := Resting]);
    EnvironmentEvolves(s, t, 0);
    EnvironmentKeepsWorkers(s, t, 0);
    assert ProcessorOk(s, s.processors[p]);
    QuietStep(s, t, 0);
  }

  lemma DeliverGrows(topic: seq<seq<Message>>, partition: nat, m: Message)
    requires partition < |topic|
    ensures TopicGrows(topic, Deliver(topic, partition, m))
    ensures InTopic(Deliver(topic, partition, m), m)
  {
    assert Deliver(topic, partition, m)[partition][|topic[partition]|] == m;
  }

  lemma SendOutboxStep(s: System, p: nat, partition: nat)
    requires Inv(s) && p in s.processors && s.processors[p].Sending?
    requires s.processors[p].sent < |s.processors[p].rows| && partition < |s.topic|
    ensures Inv(DoSendOutbox(s, p, partition))
  {
    hide Inv, Evolves, WorkersStep, WorkersOk, GrantsOk;
    WorkerSideFacts(s);
    OutboxFacts(s);
    var rows, sent := s.processors[p].rows, s.processors[p].sent + 1;
    var m := Ordinary(Key(rows[sent - 1], 0));
    var t := DoSendOutbox(s, p, partition);
    DeliverGrows(s.topic, partition, m);
    EnvironmentEvolves(s, t, 0);
    EnvironmentKeepsWorkers(s, t, 0);
    assert ProcessorOk(s, s.processors[p]);
    assert MessageOk(t, m);
    forall i | 0 <= i < sent ensures InTopic(t.topic, Ordinary(Key(rows[i], 0))) {
      if i < sent - 1 { InTopicStable(s.topic, t.topic, Ordinary(Key(rows[i], 0))); }
    }
    assert ProcessorOk(t, t.processors[p]);
    TopicStep(s, t, 0);
  }

  // ----- the worker reads -----

  lemma SettledKnows(s: System, w: nat, m: Message, r: Resolution, ordinaryNext: Option<nat>)
    requires m.key.run in s.runs && r.ack && (m.ReplayOrder? || HasAction(s, m.key))
    requires r.advance ==> Done(s, m.key)
    requires r.advance && m.ReplayOrder? ==> ReplayedBy(s.replay, m.key, m.request)
    requires r.advance ==> (if r.nextStage.Given? then r.nextStage.stage else ordinaryNext) == Following(s, m.key)
    requires !r.advance ==> Resolved(s, m)
    ensures PcOk(s, w, m, Settle(r, ordinaryNext))
  {
  }

  lemma FetchStep(s: System, w: nat, fps: Fingerprints, recovered: Option<nat>)
    requires Inv(s) && HasMessage(s, w)
    ensures Inv(DoFetch(s, w, fps, recovered))
  {
    hide Inv;
    var m := Current(s, w);
    if m.Ordinary? && HasAction(s, m.key) {
      if recovered.Some? && Recovers(s, m.key, fps, recovered.value) {
        var row := s.replay.replays[recovered.value];
        if row.status == ReplaySuccess {
          RequestFacts(s, recovered.value);
          assert ReplayedBy(s.replay, m.key, recovered.value);
          var r := Resolution(true, true, Given(row.nextStage));
          SettledKnows(s, w, m, r, Following(s, m.key));
          PcMoves(s, w, Settle(r, Following(s, m.key)));
        } else if row.status != Running {
          PcMoves(s, w, Claiming(fps));
        }
      } else if recovered.None? && !(exists r :: Recovers(s, m.key, fps, r)) {
        PcMoves(s, w, Claiming(fps));
      }
    }
  }

  lemma FindStep(s: System, w: nat)
    requires Inv(s) && HasMessage(s, w) && (s.workers[w].pc.Existing? || s.workers[w].pc.Raced?)
    ensures Inv(DoFind(s, w))
  {
    hide Inv;
    WorkerFacts(s, w);
    var m := Current(s, w);
    var k := m.key;
    if k !in s.store.executions || k.run !in s.runs {
      PcMoves(s, w, Idle);
    } else {
      var e := s.store.executions[k];
      match e.status
      case Success =>
        SettledKnows(s, w, m, ADVANCE, Following(s, k));
        PcMoves(s, w, Settle(ADVANCE, Following(s, k)));
      case Failed => PcMoves(s, w, if k in s.store.failures then Settle(STOP, None) else Idle);
      case Pending =>
        if s.workers[w].pc.Raced? || (e.leaseUntil.Some? && s.clock < e.leaseUntil.value) { PcMoves(s, w, Idle); }
        else { PcMoves(s, w, Quarantining(e.token, s.clock, s.workers[w].pc.fps)); }
  }
  }

  // ----- the worker's transactions -----

  lemma CurrentInTopic(s: System, w: nat)
    requires HasMessage(s, w)
    ensures InTopic(s.topic, Current(s, w))
  {
    assert s.topic[s.workers[w].partition][s.workers[w].position] == Current(s, w);
  }

  /** A fresh token was never granted and never called. */
  lemma FreshToken(s: System)
    requires Inv(s)
    ensures s.nextId !in s.grants && NotCalled(s, s.nextId)
  {
    forall i | 0 <= i < |s.log| ensures s.log[i].token != s.nextId {
      assert CallOk(s, i) && GrantOk(s, s.log[i].token);
    }
    forall g | g in s.grants ensures g != s.nextId { assert GrantOk(s, g); }
  }

  /** A transaction of the worker that owns the row undoes nothing. */
  lemma StoreEvolves(s: System, t: System, w: nat, tx: Transaction)
    requires Inv(s) && WellFormed(s.store, tx) && Execute(s.store, tx).Committed? && t.store == Execute(s.store, tx).state
    requires s.clock == t.clock && s.nextId <= t.nextId && s.legacy == t.legacy && s.runs == t.runs
    requires s.topic == t.topic && s.replay == t.replay && s.log == t.log
    requires forall g :: g in s.grants ==> g in t.grants && t.grants[g] == s.grants[g]
    requires t.store.attempts.Keys == s.store.attempts.Keys
      || (tx.key in s.store.executions && s.store.executions[tx.key].token.Some?
          && Mine(s, w, s.store.executions[tx.key].token.value))
    ensures Evolves(s, t, w) && Lifecycle(t.store, t.legacy) && OnlyTouches(s.store, t.store, tx.key)
  {
    hide Inv, Lifecycle, Progress, OnlyTouches, Execute;
    StoreFacts(s);
    TransactionKeepsLifecycle(s.store, s.legacy, tx);
    assert AttemptsOnlyBy(s, t, w);
  }

  lemma InsertStep(s: System, w: nat, v: Option<Hash>)
    requires Inv(s) && HasMessage(s, w) && s.workers[w].pc.Claiming?
    ensures Inv(DoInsert(s, w, v))
  {
    hide Inv, Evolves, OnlyTouches, NewRowsPlaced, NewGrantsOk;
    WorkerFacts(s, w);
    var k, fps, token := Current(s, w).key, s.workers[w].pc.fps, s.nextId;
    if Create(s.store, k, token, s.clock, v, fps).Committed? {
      var t := DoInsert(s, w, v);
      FreshToken(s);
      StoreEvolves(s, t, w, TxCreate(k, token, s.clock, v, fps));
      InsertPlacesRow(s, t, w);
      InsertGrants(s, t, w);
      assert PcOk(t, w, Current(s, w), Owner(token)) by {
        StoreFacts(s);
        forall id | id in s.store.attempts ensures id.key != k { assert AttemptOk(s.store, s.legacy, id); }
      }
      ActorOk(s, t, w, Owner(token));
      StoreStep(s, t, w);
    } else {
      PcMoves(s, w, Existing(fps));
    }
  }

  lemma InsertPlacesRow(s: System, t: System, w: nat)
    requires Inv(s) && HasMessage(s, w) && Evolves(s, t, w)
    requires Current(s, w).Ordinary? && HasAction(s, Current(s, w).key) && OnlyTouches(s.store, t.store, Current(s, w).key)
    ensures NewRowsPlaced(s, t)
  {
    hide Inv;
    MessageFacts(s, w);
    CurrentInTopic(s, w);
    var k := Current(s, w).key;
    DoneBeforeStable(s, t, w, k);
    InTopicStable(s.topic, t.topic, Ordinary(k));
  }

  lemma InsertGrants(s: System, t: System, w: nat)
    requires Inv(s) && HasMessage(s, w) && Evolves(s, t, w)
    requires var k := Current(s, w).key;
      && k !in s.store.executions && k in t.store.executions && t.store.executions[k].token == Some(s.nextId)
      && s.nextId < t.nextId && s.nextId !in s.grants
      && t.grants == s.grants[s.nextId := Grant(ByMessage(k), w, s.clock)]
    ensures NewGrantsOk(s, t)
  {
    hide Inv;
    WorkerSideFacts(s);
    forall h | h in s.grants ensures s.grants[h].claimant != ByMessage(Current(s, w).key) {
      assert GrantOk(s, h);
    }
  }

  lemma FenceStep(s: System, w: nat)
    requires Inv(s) && HasMessage(s, w) && s.workers[w].pc.Quarantining?
    ensures Inv(DoFence(s, w))
  {
    hide Inv, Evolves, OnlyTouches, Lifecycle;
    WorkerFacts(s, w);
    var pc, k := s.workers[w].pc, Current(s, w).key;
    var tx := TxFence(k, pc.seen, pc.at, s.nextId, FromOwner, Some(pc.fps));
    if Execute(s.store, tx).Committed? {
      var t := DoFence(s, w);
      StoreEvolves(s, t, w, tx);
      ActorOk(s, t, w, Committing);
      QuarantineStep(s, t, w, tx);
    } else {
      PcMoves(s, w, Raced);
    }
  }

  /** Quarantine and repair only add an unknown outcome. */
  lemma QuarantineStep(s: System, t: System, actor: nat, tx: Transaction)
    requires Inv(s) && Evolves(s, t, actor) && (tx.TxFence? || tx.TxRepair?)
    requires Execute(s.store, tx).Committed? && t.store == Execute(s.store, tx).state && Lifecycle(t.store, t.legacy)
    requires SameOutboxSide(s, t) && SameTopicSide(s, t) && s.replay == t.replay && s.log == t.log
    requires s.dispatchers == t.dispatchers && s.grants == t.grants && WorkersStep(s, t, actor)
    ensures Inv(t)
  {
    hide Inv, Evolves;
    StoreStep(s, t, actor);
  }

  /** A transaction of an owner on its own row, and where it leaves the worker. */
  lemma OwnerStep(s: System, t: System, w: nat, tx: Transaction, token: nat, pc: Pc)
    requires Inv(s) && HasMessage(s, w) && Current(s, w).Ordinary? && Holds(s, w, token, ByMessage(Current(s, w).key))
    requires tx.key == Current(s, w).key && Owned(s.store, tx.key, token) && WellFormed(s.store, tx)
    requires Execute(s.store, tx).Committed?
    requires exists n :: n >= s.nextId && t == At(s.(store := Execute(s.store, tx).state, nextId := n), w, pc)
    requires RecordedRejected(t.store, tx.key) ==> RecordedRejected(s.store, tx.key) || RejectedCallBefore(s.log, tx.key, |s.log|)
    requires pc == Idle || PcOk(t, w, Current(s, w), pc)
    ensures Inv(t)
  {
    hide Inv, Evolves, Execute, WellFormed, PcOk;
    WorkerFacts(s, w);
    StoreEvolves(s, t, w, tx);
    ActorOk(s, t, w, pc);
    assert NewRowsPlaced(s, t);
    forall k | RecordedRejected(t.store, k) ensures RecordedRejected(s.store, k) || RejectedCallBefore(t.log, k, |t.log|) {
      if k != tx.key { assert AttemptId(k, 1) in s.store.attempts; }
    }
    StoreStep(s, t, w);
  }

  lemma RefuseStep(s: System, w: nat)
    requires Inv(s) && HasMessage(s, w) && s.workers[w].pc.Owner?
    ensures Inv(DoRefuse(s, w))
  {
    hide Inv;
    WorkerFacts(s, w);
    var k, token := Current(s, w).key, s.workers[w].pc.token;
    var tx := TxRefuse(k, token, "unsupported_action_type", s.clock, s.nextId);
    if Execute(s.store, tx).Committed? {
      OwnerStep(s, DoRefuse(s, w), w, tx, token, Committing);
    } else {
      PcMoves(s, w, Idle);
    }
  }

  lemma BeginStep(s: System, w: nat, provider: Provider)
    requires Inv(s) && HasMessage(s, w) && s.workers[w].pc.Owner?
    ensures Inv(DoBegin(s, w, provider))
  {
    hide Inv;
    WorkerFacts(s, w);
    var k, token := Current(s, w).key, s.workers[w].pc.token;
    var tx := TxStart(k, token, provider);
    if Execute(s.store, tx).Committed? {
      var t := DoBegin(s, w, provider);
      assert t == At(s.(store := Execute(s.store, tx).state, nextId := s.nextId), w, Begun(token));
      OwnerStep(s, t, w, tx, token, Begun(token));
    } else {
      PcMoves(s, w, Idle);
    }
  }

  lemma FinishSuccessStep(s: System, w: nat)
    requires Inv(s) && HasMessage(s, w) && s.workers[w].pc.Finishing? && s.workers[w].pc.report.AcceptedBy?
    ensures Inv(DoFinish(s, w))
  {
    hide Inv;
    WorkerFacts(s, w);
    var m, token := Current(s, w), s.workers[w].pc.token;
    var tx := TxSucceed(m.key, token, s.workers[w].pc.report.receipt, s.clock);
    if Execute(s.store, tx).Committed? {
      RowFacts(s, m.key);
      var pc := Settle(ADVANCE, Following(s, m.key));
      var t := DoFinish(s, w);
      assert t == At(s.(store := Execute(s.store, tx).state, nextId := s.nextId), w, pc);
      assert ExecutionDone(t.store, m.key);
      SettledKnows(t, w, m, ADVANCE, Following(s, m.key));
      OwnerStep(s, t, w, tx, token, pc);
    } else {
      PcMoves(s, w, Idle);
    }
  }

  /** A rejection is recorded only by the worker whose call was rejected. */
  lemma RejectionWasCalled(s: System, w: nat)
    requires Inv(s) && HasMessage(s, w) && s.workers[w].pc.Finishing? && OutcomeOf(s.workers[w].pc.report) == Rejected
    ensures RejectedCallBefore(s.log, Current(s, w).key, |s.log|)
  {
    hide Inv;
    WorkerFacts(s, w);
    LogFacts(s);
    var c := s.workers[w].pc.call;
    assert CallOk(s, c);
    assert s.log[c].claimant == ByMessage(Current(s, w).key) && s.log[c].state == Reported(Rejected);
  }

  lemma FinishFailureStep(s: System, w: nat)
    requires Inv(s) && HasMessage(s, w) && s.workers[w].pc.Finishing? && s.workers[w].pc.report.FailedWith?
    ensures Inv(DoFinish(s, w))
  {
    hide Inv;
    WorkerFacts(s, w);
    var m, token, evidence := Current(s, w), s.workers[w].pc.token, s.workers[w].pc.report.evidence;
    var tx := TxFail(m.key, token, evidence, s.clock, s.nextId);
    if Execute(s.store, tx).Committed? {
      if evidence.outcome == Rejected { RejectionWasCalled(s, w); }
      OwnerStep(s, DoFinish(s, w), w, tx, token, Committing);
    } else {
      PcMoves(s, w, Idle);
    }
  }

  // ----- the provider call -----

  lemma InvokeStep(s: System, w: nat)
    requires Inv(s) && HasMessage(s, w)
    ensures Inv(DoInvoke(s, w))
  {
    hide Inv;
    WorkerFacts(s, w);
    var m := Current(s, w);
    match s.workers[w].pc
    case Begun(token) => CallLeaves(s, w, token, ByMessage(m.key), InCall(token, |s.log|));
    case ReplayOwner(token, request) => CallLeaves(s, w, token, ByReplay(m.key, request), ReplayInCall(token, request, |s.log|));
    case _ =>
  }

  ghost function WithCall(s: System, w: nat, token: nat, claimant: Claimant, pc: Pc): System
    requires w in s.workers
  {
    At(s.(log := s.log + [Call(token, claimant, s.clock, InFlight)]), w, pc)
  }

  lemma CallEvolves(s: System, w: nat, token: nat, claimant: Claimant, pc: Pc)
    requires w in s.workers && Holds(s, w, token, claimant)
    ensures Evolves(s, WithCall(s, w, token, claimant, pc), w)
  {
  }

  /** A replay's call leaves only after the first call's rejection was recorded. */
  lemma CallIsOk(s: System, w: nat, token: nat, claimant: Claimant, pc: Pc)
    requires Inv(s) && w in s.workers && Holds(s, w, token, claimant) && NotCalled(s, token)
    ensures NewCallsOk(s, WithCall(s, w, token, claimant, pc))
  {
    hide Inv, Evolves;
    var t := WithCall(s, w, token, claimant, pc);
    CallEvolves(s, w, token, claimant, pc);
    GrantFacts(s, token);
    LogFacts(s);
    if claimant.ByReplay? {
      assert RecordedRejected(s.store, claimant.key);
      assert LogGrows(s, t, w);
      RejectedCallStable(s, t, w, claimant.key, |s.log|);
    }
    assert CallOk(t, |s.log|);
  }

  lemma CallLeaves(s: System, w: nat, token: nat, claimant: Claimant, pc: Pc)
    requires Inv(s) && HasMessage(s, w) && Holds(s, w, token, claimant) && NotCalled(s, token)
    requires pc == (if claimant.ByMessage? then InCall(token, |s.log|) else ReplayInCall(token, claimant.request, |s.log|))
    requires Current(s, w) == (if claimant.ByMessage? then Ordinary(claimant.key) else ReplayOrder(claimant.key, claimant.request))
    ensures Inv(WithCall(s, w, token, claimant, pc))
  {
    hide Inv, Evolves, NewCallsOk;
    var t := WithCall(s, w, token, claimant, pc);
    CallEvolves(s, w, token, claimant, pc);
    CallIsOk(s, w, token, claimant, pc);
    WorkerFacts(s, w);
    ActorOk(s, t, w, pc);
    LogStep(s, t, w);
  }

  lemma RespondStep(s: System, w: nat, report: Report)
    requires Inv(s) && HasMessage(s, w)
    ensures Inv(DoRespond(s, w, report))
  {
    hide Inv;
    WorkerFacts(s, w);
    match s.workers[w].pc
    case InCall(token, c) =>
      if Honest(report) { CallAnswered(s, w, token, c, report, Finishing(token, c, report)); }
    case ReplayInCall(token, request, c) =>
      if Honest(report) { CallAnswered(s, w, token, c, Trusted(report), ReplayFinishing(token, request, Some(c), Trusted(report))); }
    case _ =>
  }

  lemma CallAnswered(s: System, w: nat, token: nat, c: nat, report: Report, pc: Pc)
    requires Inv(s) && HasMessage(s, w) && Honest(report) && Called(s, token, c, InFlight)
    requires token in s.grants && s.grants[token].worker == w
    requires pc == Finishing(token, c, report) || (pc.ReplayFinishing? && pc == ReplayFinishing(token, pc.request, Some(c), report))
    requires var m := Current(s, w);
      if pc.Finishing? then m.Ordinary? && Holds(s, w, token, ByMessage(m.key))
      else m.ReplayOrder? && m.request == pc.request && Holds(s, w, token, ByReplay(m.key, pc.request))
    ensures Inv(At(s.(log := s.log[c := s.log[c].(state := Reported(OutcomeOf(report)))]), w, pc))
  {
    hide Inv;
    var t := At(s.(log := s.log[c := s.log[c].(state := Reported(OutcomeOf(report)))]), w, pc);
    WorkerFacts(s, w);
    assert Evolves(s, t, w);
    LogFacts(s);
    ActorOk(s, t, w, pc);
    assert NewCallsOk(s, t);
    LogStep(s, t, w);
  }

  // ----- replays -----

  /** A transaction on the replay of the message at hand. */
  lemma ReplayTxStep(s: System, t: System, w: nat, tx: ReplayTransaction, pc: Pc)
    requires Inv(s) && HasMessage(s, w) && Current(s, w) == ReplayOrder(Current(s, w).key, tx.id)
    requires tx.id in s.replay.requests && s.replay.requests[tx.id].key == Current(s, w).key
    requires WellFormedReplay(tx) && ExecuteReplay(s.replay, tx).Committed?
    requires s.nextId <= t.nextId && (forall g :: g in s.grants ==> g in t.grants && t.grants[g] == s.grants[g])
    requires t == At(s.(replay := ExecuteReplay(s.replay, tx).state, nextId := t.nextId, grants := t.grants), w, pc)
    requires tx.id in t.replay.replays
    requires t.replay.replays[tx.id].status in {Running, ReplaySuccess} ==>
      Current(s, w).key.run in s.runs && t.replay.replays[tx.id].nextStage == Following(s, Current(s, w).key)
    requires NewGrantsOk(s, t)
    requires pc == Idle || PcOk(t, w, Current(s, w), pc)
    ensures Inv(t)
  {
    hide Inv, PcOk, ExecuteReplay, NewGrantsOk;
    ReplayFacts(s);
    ReplayTransactionKeepsLifecycle(s.replay, tx);
    ReplayTxEvolves(s, t, w, tx);
    ReplayTxRequests(s, t, w, tx);
    WorkerFacts(s, w);
    ActorOk(s, t, w, pc);
    WorkerSideFacts(s);
    forall d | d in t.dispatchers && t.dispatchers[d].Leased? ensures t.dispatchers[d].id in t.replay.requests {
      assert RowProgress(s.replay, t.replay, s.dispatchers[d].id);
    }
    ReplayStep(s, t, w);
  }

  lemma ReplayTxEvolves(s: System, t: System, w: nat, tx: ReplayTransaction)
    requires ReplayProgress(s.replay, t.replay)
    requires s.nextId <= t.nextId && (forall g :: g in s.grants ==> g in t.grants && t.grants[g] == s.grants[g])
    requires s.clock == t.clock && s.legacy == t.legacy && s.runs == t.runs && s.topic == t.topic
    requires s.store == t.store && s.log == t.log
    ensures Evolves(s, t, w)
  {
  }

  lemma ReplayTxRequests(s: System, t: System, w: nat, tx: ReplayTransaction)
    requires Inv(s) && HasMessage(s, w) && Current(s, w) == ReplayOrder(Current(s, w).key, tx.id)
    requires tx.id in s.replay.requests && s.replay.requests[tx.id].key == Current(s, w).key
    requires s.store == t.store && s.topic == t.topic && s.runs == t.runs
    requires OnlyTouchesReplay(s.replay, t.replay, tx.id) && RowProgress(s.replay, t.replay, tx.id)
    requires tx.id in t.replay.replays
    requires t.replay.replays[tx.id].status in {Running, ReplaySuccess} ==>
      Current(s, w).key.run in s.runs && t.replay.replays[tx.id].nextStage == Following(s, Current(s, w).key)
    ensures NewRequestsOk(s, t)
  {
    hide Inv;
    CurrentInTopic(s, w);
    forall id | id in t.replay.requests ensures SameReplay(s, t, id) || RequestOk(t, id) {
      if id == tx.id { RequestFacts(s, id); }
      else { OthersUntouched(s.replay, t.replay, tx.id, id); RequestFacts(s, id); }
    }
  }

  lemma FinishReplayStep(s: System, w: nat)
    requires Inv(s) && HasMessage(s, w) && s.workers[w].pc.ReplayFinishing?
    ensures Inv(DoFinish(s, w))
  {
    hide Inv;
    WorkerFacts(s, w);
    var m, pc := Current(s, w), s.workers[w].pc;
    var tx := RtComplete(pc.request, pc.token, pc.report, s.clock);
    if ExecuteReplay(s.replay, tx).Committed? {
      GrantFacts(s, pc.token);
      RequestFacts(s, pc.request);
      var t := DoFinish(s, w);
      var next := if pc.report.AcceptedBy? then Settle(Resolution(true, true, Given(s.replay.replays[pc.request].nextStage)), None)
                  else Committing;
      assert t.replay.replays[pc.request].status == StatusFor(OutcomeOf(pc.report));
      if pc.report.AcceptedBy? {
        assert ReplayedBy(t.replay, m.key, pc.request);
        SettledKnows(t, w, m, Resolution(true, true, Given(s.replay.replays[pc.request].nextStage)), None);
      }
      ReplayTxStep(s, t, w, tx, next);
    } else {
      PcMoves(s, w, Idle);
    }
  }

  /** Ending a replay leaves its message resolved. */
  lemma EndingStep(s: System, w: nat, tx: ReplayTransaction)
    requires Inv(s) && HasMessage(s, w) && Current(s, w).ReplayOrder? && Current(s, w).request == tx.id
    requires tx.id in s.replay.requests && s.replay.requests[tx.id].key == Current(s, w).key
    requires tx.RtDeny? || tx.RtExpire?
    ensures Inv(Ending(s, w, tx))
  {
    hide Inv;
    if ExecuteReplay(s.replay, tx).Committed? {
      var t := Ending(s, w, tx);
      assert t.replay.replays[tx.id].status in {ReplayFailed, ReplayUnknown};
      ReplayTxStep(s, t, w, tx, Committing);
    }
  }

  /** An allowed replay had its one call recorded as rejected, and its cooldown is over. */
  lemma AllowedMeansCooled(t: Tables, legacy: set<Key>, r: ReplayTables, k: Key, exclude: Option<nat>, facts: Policy.Facts, now: Time)
    requires Lifecycle(t, legacy) && k in t.executions && k in t.failures && PolicyAllows(t, r, k, exclude, facts, now)
    ensures Cooled(t, k, now) && FailedWithRecord(t, k) && EarlierSucceeded(t, k) && !LaterExists(t, k)
    ensures Siblings(r, k, exclude) == {}
  {
    var f := CurrentFacts(t, r, k, exclude, facts);
    Policy.RequiresApprovalExactly(f, now);
    AllowedAttempts(t, legacy, k, now);
  }

  lemma AllowedAttempts(t: Tables, legacy: set<Key>, k: Key, now: Time)
    requires Lifecycle(t, legacy) && k in t.executions
    requires Policy.SafeHistory(AttemptFacts(t, k)) && Policy.CooledDown(AttemptFacts(t, k), now)
    ensures Cooled(t, k, now)
  {
    var one := AttemptId(k, 1);
    AttemptFactsCover(t, k);
    RefusalsAreNotSafe(t, legacy, k);
    assert one in t.attempts && Policy.SafeAttempt(AttemptFact(t.attempts[one]));
    assert t.attempts[one].status.Ended?;
  }

  lemma AttemptFactsCover(t: Tables, k: Key)
    ensures forall n {:trigger AttemptId(k, n)} :: n in {0, 1} && AttemptId(k, n) in t.attempts ==>
      AttemptFact(t.attempts[AttemptId(k, n)]) in AttemptFacts(t, k)
    ensures AttemptId(k, 0) !in t.attempts && AttemptId(k, 1) !in t.attempts ==> AttemptFacts(t, k) == []
  {
    assert AttemptId(k, 0) in t.attempts ==> AttemptFact(t.attempts[AttemptId(k, 0)]) in AttemptFacts(t, k);
  }

  lemma RefusalsAreNotSafe(t: Tables, legacy: set<Key>, k: Key)
    requires Lifecycle(t, legacy)
    ensures AttemptId(k, 0) in t.attempts ==> !Policy.SafeAttempt(AttemptFact(t.attempts[AttemptId(k, 0)]))
  {
    assert AttemptId(k, 0) in t.attempts ==> AttemptOk(t, legacy, AttemptId(k, 0));
  }

  lemma TakeStep(s: System, w: nat, id: nat, facts: Policy.Facts)
    requires Inv(s) && HasMessage(s, w) && Current(s, w) == ReplayOrder(Current(s, w).key, id)
    requires id in s.replay.requests && s.replay.requests[id].key == Current(s, w).key
    requires id in s.replay.replays && s.replay.replays[id].status == Reserved && Current(s, w).key.run in s.runs
    requires Current(s, w).key in s.store.executions && Current(s, w).key in s.store.failures && StillAllowed(s, id, facts)
    requires ExecuteReplay(s.replay, RtTake(id, s.nextId, Following(s, Current(s, w).key), s.clock)).Committed?
    ensures var k := Current(s, w).key;
      Inv(At(s.(replay := ExecuteReplay(s.replay, RtTake(id, s.nextId, Following(s, k), s.clock)).state, nextId := s.nextId + 1,
                grants := s.grants[s.nextId := Grant(ByReplay(k, id), w, s.clock)]), w, ReplayOwner(s.nextId, id)))
  {
    hide Inv, StillAllowed, NewRequestsOk, WorkersOk;
    var k, token := Current(s, w).key, s.nextId;
    var tx := RtTake(id, token, Following(s, k), s.clock);
    var t := At(s.(replay := ExecuteReplay(s.replay, tx).state, nextId := s.nextId + 1,
                   grants := s.grants[token := Grant(ByReplay(k, id), w, s.clock)]), w, ReplayOwner(token, id));
    FreshToken(s);
    TakeIsCooled(s, id, facts);
    WorkerSideFacts(s);
    forall h | h in s.grants ensures s.grants[h].claimant != ByReplay(k, id) { assert GrantOk(s, h); }
    assert NewGrantsOk(s, t);
    ReplayTxStep(s, t, w, tx, ReplayOwner(token, id));
  }

  lemma TakeIsCooled(s: System, id: nat, facts: Policy.Facts)
    requires Inv(s) && id in s.replay.requests
    requires s.replay.requests[id].key in s.store.executions && s.replay.requests[id].key in s.store.failures
    requires StillAllowed(s, id, facts)
    ensures Cooled(s.store, s.replay.requests[id].key, s.clock)
  {
    hide Inv;
    StoreFacts(s);
    AllowedMeansCooled(s.store, s.legacy, s.replay, s.replay.requests[id].key, Some(id), facts, s.clock);
  }

  lemma ClaimReplayStep(s: System, w: nat, c: ReplayChecks)
    requires Inv(s) && HasMessage(s, w)
    ensures Inv(DoClaimReplay(s, w, c))
  {
    hide Inv, StillAllowed, Ending, ExecuteReplay;
    var m := Current(s, w);
    if m.ReplayOrder? && c.enabled {
      MessageFacts(s, w);
      var id := m.request;
      RequestFacts(s, id);
      var request, row, k := s.replay.requests[id], s.replay.replays[id], m.key;
      match row.status
      case ReplaySuccess =>
        var r := Resolution(true, true, Given(row.nextStage));
        assert ReplayedBy(s.replay, k, id);
        SettledKnows(s, w, m, r, None);
        PcMoves(s, w, Settle(r, None));
      case ReplayFailed => PcMoves(s, w, Settle(STOP, None));
      case ReplayUnknown => PcMoves(s, w, Settle(STOP, None));
      case Running => EndingStep(s, w, RtExpire(id, s.clock));
      case Reserved =>
        if !c.authorized || request.expiresAt <= s.clock || k !in s.store.executions || k !in s.store.failures {
          EndingStep(s, w, RtDeny(id, "replay_authority_invalid", s.clock));
        } else if request.notBefore > s.clock {
        } else if !StillAllowed(s, id, c.facts) {
          EndingStep(s, w, RtDeny(id, "replay_policy_changed", s.clock));
        } else if !c.telegramAction || k.run !in s.runs {
        } else if !c.identityProven {
          EndingStep(s, w, RtDeny(id, "replay_input_identity_unproven", s.clock));
        } else if ExecuteReplay(s.replay, RtTake(id, s.nextId, Following(s, k), s.clock)).Committed? {
          TakeStep(s, w, id, c.facts);
        }
    }
  }

  lemma DeclineStep(s: System, w: nat)
    requires Inv(s) && HasMessage(s, w)
    ensures Inv(DoDecline(s, w))
  {
    hide Inv;
    WorkerFacts(s, w);
    match s.workers[w].pc
    case ReplayOwner(token, request) =>
      PcMoves(s, w, ReplayFinishing(token, request, None, FailedWith(Denial("unsupported_action_type"))));
    case _ =>
  }

  /** Every earlier stage of a stage that may be replayed succeeded in its own row. */
  lemma EarlierRowsExist(s: System, k: Key)
    requires Inv(s) && k in s.store.executions && EarlierSucceeded(s.store, k)
    ensures forall j: nat :: j < k.stage ==> ExecutionDone(s.store, Key(k.run, j))
  {
    hide Inv;
    RowFacts(s, k);
    forall j: nat | j < k.stage ensures ExecutionDone(s.store, Key(k.run, j)) {
      assert Done(s, Key(k.run, j));
      if !ExecutionDone(s.store, Key(k.run, j)) {
        var id :| ReplayedBy(s.replay, Key(k.run, j), id);
        RequestFacts(s, id);
      }
    }
  }

  lemma RequestStep(s: System, id: nat, key: Key, approval: nat, expiresAt: int, facts: Policy.Facts)
    requires Inv(s)
    ensures Inv(DoRequest(s, id, key, approval, expiresAt, facts))
  {
    hide Inv, NewRequest, ExecuteReplay;
    var request := NewRequest(s, key, approval, expiresAt, facts);
    if request.Some? && ExecuteReplay(s.replay, RtReserve(id, request.value)).Committed? {
      RequestIsOk(s, key, approval, expiresAt, facts);
      ReserveStep(s, DoRequest(s, id, key, approval, expiresAt, facts), id, request.value);
    }
  }

  lemma RequestIsOk(s: System, key: Key, approval: nat, expiresAt: int, facts: Policy.Facts)
    requires Inv(s) && NewRequest(s, key, approval, expiresAt, facts).Some?
    ensures var request := NewRequest(s, key, approval, expiresAt, facts).value;
      && request.key == key && FailedWithRecord(s.store, key) && RecordedRejected(s.store, key)
      && (forall j: nat :: j < key.stage ==> ExecutionDone(s.store, Key(key.run, j)))
  {
    hide Inv, PolicyAllows;
    StoreFacts(s);
    AllowedMeansCooled(s.store, s.legacy, s.replay, key, None, facts, s.clock);
    EarlierRowsExist(s, key);
  }

  lemma ReserveStep(s: System, t: System, id: nat, request: Request)
    requires Inv(s) && ExecuteReplay(s.replay, RtReserve(id, request)).Committed?
    requires t == s.(replay := ExecuteReplay(s.replay, RtReserve(id, request)).state)
    requires FailedWithRecord(s.store, request.key) && RecordedRejected(s.store, request.key)
    requires forall j: nat :: j < request.key.stage ==> ExecutionDone(s.store, Key(request.key.run, j))
    ensures Inv(t)
  {
    hide Inv;
    ReplayFacts(s);
    ReplayTransactionKeepsLifecycle(s.replay, RtReserve(id, request));
    WorkerSideFacts(s);
    forall d | d in t.dispatchers && t.dispatchers[d].Leased? ensures t.dispatchers[d].id in t.replay.requests {
      assert RowProgress(s.replay, t.replay, s.dispatchers[d].id);
    }
    ReplayOnlyStep(s, t, id);
  }

  /** A step of the replay tables outside any worker. */
  lemma ReplayOnlyStep(s: System, t: System, id: nat)
    requires Inv(s) && ReplayProgress(s.replay, t.replay) && ReplayLifecycle(t.replay) && OnlyTouchesReplay(s.replay, t.replay, id)
    requires s.nextId <= t.nextId && t == s.(replay := t.replay, nextId := t.nextId, dispatchers := t.dispatchers)
    requires id in t.replay.requests && (SameReplay(s, t, id) || RequestOk(t, id))
    requires DispatchersOk(t)
    ensures Inv(t)
  {
    hide Inv, ReplayLifecycle, RequestOk;
    EnvironmentEvolves(s, t, 0);
    WorkerSideFacts(s);
    EnvironmentKeepsWorkers(s, t, 0);
    forall i | i in t.replay.requests ensures SameReplay(s, t, i) || RequestOk(t, i) {
      if i != id { OthersUntouched(s.replay, t.replay, id, i); RequestFacts(s, i); }
    }
    ReplayStep(s, t, 0);
  }

  // ----- publishing and committing -----

  lemma PublishStep(s: System, w: nat, partition: nat, acknowledged: bool)
    requires Inv(s) && HasMessage(s, w) && s.workers[w].pc.Publishing? && partition < |s.topic|
    ensures Inv(DoPublish(s, w, partition, acknowledged))
  {
    hide Inv, Evolves, WorkersOk, GrantsOk;
    WorkerFacts(s, w);
    var pc, m, t := s.workers[w].pc, Current(s, w), DoPublish(s, w, partition, acknowledged);
    var next := Key(m.key.run, pc.next);
    DeliverGrows(s.topic, partition, Ordinary(next));
    PublishEvolves(s, t, w);
    MessageFacts(s, w);
    NextIsOk(s, t, w, m);
    assert NewMessagesOk(s, t);
    PublishedIsResolved(s, t, w, m);
    ActorOk(s, t, w, if acknowledged && pc.ack then Committing else Idle);
    OutboxFacts(s);
    WorkerSideFacts(s);
    SameOutboxJustified(s, t);
    TopicStep(s, t, w);
  }

  lemma PublishEvolves(s: System, t: System, w: nat)
    requires t == s.(topic := t.topic, workers := t.workers) && TopicGrows(s.topic, t.topic)
    ensures Evolves(s, t, w)
  {
  }

  /** The next stage's message is justified by the stages below it, this one included. */
  lemma NextIsOk(s: System, t: System, w: nat, m: Message)
    requires Inv(s) && Evolves(s, t, w) && MessageOk(s, m) && Done(s, m.key)
    requires m.key.run in s.runs && m.key.stage + 1 < s.runs[m.key.run]
    ensures MessageOk(t, Ordinary(Key(m.key.run, m.key.stage + 1)))
  {
    hide Inv, Evolves, Done;
    var next := Key(m.key.run, m.key.stage + 1);
    if m.ReplayOrder? { RequestFacts(s, m.request); RowFacts(s, m.key); }
    forall j: nat | j < next.stage ensures Done(s, Key(next.run, j)) {
      if j == m.key.stage { assert Key(next.run, j) == m.key; }
    }
    assert MessageOk(s, Ordinary(next));
    MessageStable(s, t, w, Ordinary(next));
  }

  lemma PublishedIsResolved(s: System, t: System, w: nat, m: Message)
    requires Evolves(s, t, w) && Done(s, m.key) && m.key.run in s.runs
    requires m.ReplayOrder? ==> ReplayedBy(s.replay, m.key, m.request)
    requires InTopic(t.topic, Ordinary(Key(m.key.run, m.key.stage + 1)))
    ensures Resolved(t, m)
  {
    DoneStable(s, t, w, m.key);
    if m.ReplayOrder? { ReplayedStable(s.replay, t.replay, m.key, m.request); }
    assert HandedOn(t, m.key);
  }

  /** An offset passes only messages that are resolved. */
  lemma CommitStep(s: System, w: nat)
    requires Inv(s) && HasMessage(s, w) && s.workers[w].pc.Committing? && s.workers[w].partition < |s.committed|
    ensures Inv(DoCommit(s, w))
  {
    hide Inv, Evolves, MessagesOk, RowsPlaced, WorkersOk, GrantsOk, LogOk, LegacyOk, RequestsOk;
    WorkerFacts(s, w);
    OffsetFacts(s);
    OutboxFacts(s);
    WorkerSideFacts(s);
    ReplayFacts(s);
    var x, t := s.workers[w], DoCommit(s, w);
    QuietStepEvolves(s, t, w);
    assert Resolved(s, s.topic[x.partition][x.position]);
    forall i | 0 <= i <= x.position ensures Resolved(t, t.topic[x.partition][i]) {
      ResolvedStable(s, t, w, s.topic[x.partition][i]);
    }
    SameOutboxJustified(s, t);
    SameReplayJustified(s, t);
    CommitJustified(s, t, w);
  }

  lemma CommitJustified(s: System, t: System, w: nat)
    requires Inv(s) && Evolves(s, t, w)
    requires t == s.(committed := t.committed, workers := t.workers)
    requires OutboxStep(s, t) && OffsetsStep(s, t) && NewRequestsOk(s, t) && WorkersStep(s, t, w) && DispatchersOk(t)
    ensures Inv(t)
  {
    InvariantKept(s, t, w);
  }

  // ----- the reconciler and the dispatcher -----

  lemma ReconcileStep(s: System, tx: Transaction)
    requires Inv(s) && (tx.TxFence? || tx.TxRepair?) && Execute(s.store, tx).Committed?
    ensures Inv(s.(store := Execute(s.store, tx).state, nextId := s.nextId + 1))
  {
    hide Inv, Evolves;
    var t := s.(store := Execute(s.store, tx).state, nextId := s.nextId + 1);
    StoreFacts(s);
    TransactionKeepsLifecycle(s.store, s.legacy, tx);
    ReplayProgressReflexive(s.replay);
    assert Environment(s, t);
    EnvironmentEvolves(s, t, 0);
    WorkerSideFacts(s);
    EnvironmentKeepsWorkers(s, t, 0);
    QuarantineStep(s, t, 0, tx);
  }

  lemma ReplayProgressReflexive(r: ReplayTables)
    ensures ReplayProgress(r, r)
  {
  }

  /** Dispatch bookkeeping leaves status, attempts and authority alone. */
  lemma DispatchStep(s: System, t: System, tx: ReplayTransaction)
    requires Inv(s) && (tx.RtLease? || tx.RtRelease? || tx.RtStamp?) && ExecuteReplay(s.replay, tx).Committed?
    requires t == s.(replay := ExecuteReplay(s.replay, tx).state, nextId := t.nextId, dispatchers := t.dispatchers)
    requires s.nextId <= t.nextId
    requires forall d :: d in t.dispatchers && t.dispatchers[d].Leased? ==>
      t.dispatchers[d].id == tx.id || (d in s.dispatchers && t.dispatchers[d] == s.dispatchers[d])
    ensures Inv(t)
  {
    hide Inv;
    ReplayFacts(s);
    assert Coherent(s.replay, tx.id);
    ReplayTransactionKeepsLifecycle(s.replay, tx);
    WorkerSideFacts(s);
    forall d | d in t.dispatchers && t.dispatchers[d].Leased? ensures t.dispatchers[d].id in t.replay.requests {
      assert RowProgress(s.replay, t.replay, t.dispatchers[d].id);
    }
    assert SameReplay(s, t, tx.id);
    ReplayOnlyStep(s, t, tx.id);
  }

  lemma DispatcherMoves(s: System, d: nat, next: Dispatcher)
    requires Inv(s) && !next.Leased?
    ensures Inv(s.(dispatchers := s.dispatchers[d := next]))
  {
    hide Inv;
    var t := s.(dispatchers := s.dispatchers[d := next]);
    EnvironmentEvolves(s, t, 0);
    WorkerSideFacts(s);
    EnvironmentKeepsWorkers(s, t, 0);
    OutboxFacts(s);
    SameOutboxJustified(s, t);
    QuietStep(s, t, 0);
  }

  lemma DispatchedStep(s: System, d: nat, tx: ReplayTransaction)
    requires Inv(s) && (tx.RtRelease? || tx.RtStamp?)
    ensures Inv(Dispatched(s, d, tx))
  {
    hide Inv;
    if ExecuteReplay(s.replay, tx).Committed? { DispatchStep(s, Dispatched(s, d, tx), tx); }
    else { DispatcherMoves(s, d, Waiting); }
  }

  lemma SendRequestStep(s: System, d: nat, partition: nat, acknowledged: bool)
    requires Inv(s) && d in s.dispatchers && s.dispatchers[d].Leased? && s.dispatchers[d].id in s.replay.requests
    requires partition < |s.topic|
    ensures Inv(DoSendRequest(s, d, partition, acknowledged))
  {
    hide Inv, Evolves, WorkersOk, GrantsOk, WorkersStep;
    var t := DoSendRequest(s, d, partition, acknowledged);
    var m := ReplayOrder(s.replay.requests[s.dispatchers[d].id].key, s.dispatchers[d].id);
    DeliverGrows(s.topic, partition, m);
    EnvironmentEvolves(s, t, 0);
    WorkerSideFacts(s);
    EnvironmentKeepsWorkers(s, t, 0);
    OutboxFacts(s);
    SameOutboxJustified(s, t);
    assert MessageOk(t, m);
    TopicStep(s, t, 0);
  }
}
