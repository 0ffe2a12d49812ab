/** Each part of the invariant survives a step that undoes nothing and justifies what it adds. */
module ProtocolKeeping {
  import opened Domain
  import opened ExecutionTables
  import opened ReplayTables
  import opened Protocol
  import opened ProtocolInvariant

  // ----- what a step adds -----

  ghost predicate NewMessagesOk(s: System, t: System) {
    forall p, i :: 0 <= p < |t.topic| && p < |s.topic| && |s.topic[p]| <= i < |t.topic[p]| ==> MessageOk(t, t.topic[p][i])
  }

  ghost predicate NewRowsPlaced(s: System, t: System) {
    forall k :: k in t.store.executions && k !in s.store.executions ==> RowPlaced(t, k)
  }

  ghost predicate SameReplay(s: System, t: System, id: nat) {
    && id in s.replay.requests && id in s.replay.replays && id in t.replay.replays
    && t.replay.replays[id].status == s.replay.replays[id].status
    && t.replay.replays[id].nextStage == s.replay.replays[id].nextStage
  }

  ghost predicate NewRequestsOk(s: System, t: System) {
    forall id :: id in t.replay.requests ==> SameReplay(s, t, id) || RequestOk(t, id)
  }

  ghost predicate NewGrantsOk(s: System, t: System) {
    forall g :: g in t.grants && g !in s.grants ==>
      GrantOk(t, g) && (forall h :: h in t.grants && t.grants[h].claimant == t.grants[g].claimant ==> h == g)
  }

  ghost predicate NewCallsOk(s: System, t: System) {
    && (forall i :: |s.log| <= i < |t.log| ==> CallOk(t, i))
    && (forall i, j :: 0 <= i < j < |t.log| && |s.log| <= j ==> t.log[i].token != t.log[j].token)
    && (forall k :: RecordedRejected(t.store, k) ==> RecordedRejected(s.store, k) || RejectedCallBefore(t.log, k, |t.log|))
  }

  ghost predicate OutboxStep(s: System, t: System) {
    && (forall r :: r in t.runs && r !in t.outbox ==> r in s.runs && (r in s.outbox ==> InTopic(t.topic, Ordinary(Key(r, 0)))))
    && (forall r :: r in t.outbox ==> r in t.runs)
    && (forall p :: p in t.processors ==> (p in s.processors && t.processors[p] == s.processors[p]) || ProcessorOk(t, t.processors[p]))
  }

  ghost predicate OffsetsStep(s: System, t: System) {
    && |t.committed| == |t.topic|
    && (forall p :: 0 <= p < |t.topic| ==> t.committed[p] <= |t.topic[p]|)
    && (forall p, i :: 0 <= p < |t.topic| && p < |s.committed| && s.committed[p] <= i < t.committed[p] && i < |t.topic[p]| ==>
         Resolved(t, t.topic[p][i]))
  }

  ghost predicate WorkersStep(s: System, t: System, actor: nat) {
    forall w :: w in t.workers ==> (w != actor && w in s.workers && t.workers[w] == s.workers[w]) || WorkerOk(t, w)
  }

  ghost predicate Justified(s: System, t: System, actor: nat) {
    && NewMessagesOk(s, t) && NewRowsPlaced(s, t) && NewRequestsOk(s, t) && NewGrantsOk(s, t) && NewCallsOk(s, t)
    && OutboxStep(s, t) && OffsetsStep(s, t) && WorkersStep(s, t, actor) && DispatchersOk(t)
  }

  // ----- keeping each part -----

  lemma LegacyKept(s: System, t: System, actor: nat)
    requires Evolves(s, t, actor) && LegacyOk(s) && Lifecycle(s.store, s.legacy)
    ensures LegacyOk(t)
  {
    forall k | k in t.legacy
      ensures HasAction(t, k)
      ensures ExecutionDone(t.store, k) && k.stage + 1 < t.runs[k.run] ==> Key(k.run, k.stage + 1) in t.legacy
    {
      assert k in s.legacy;
      assert k in s.store.executions && RowOk(s.store, s.legacy, k);
    }
  }

  lemma MessagesKept(s: System, t: System, actor: nat)
    requires Evolves(s, t, actor) && MessagesOk(s) && NewMessagesOk(s, t)
    ensures MessagesOk(t)
  {
    forall p, i | 0 <= p < |t.topic| && 0 <= i < |t.topic[p]| ensures MessageOk(t, t.topic[p][i]) {
      if i < |s.topic[p]| { MessageStable(s, t, actor, s.topic[p][i]); }
    }
  }

  lemma RowsKept(s: System, t: System, actor: nat)
    requires Evolves(s, t, actor) && RowsPlaced(s) && NewRowsPlaced(s, t)
    ensures RowsPlaced(t)
  {
    forall k | k in t.store.executions ensures RowPlaced(t, k) {
      if k in s.store.executions {
        assert RowPlaced(s, k);
        DoneBeforeStable(s, t, actor, k);
        if k !in s.legacy { InTopicStable(s.topic, t.topic, Ordinary(k)); }
      }
    }
  }

  lemma RequestStable(s: System, t: System, actor: nat, id: nat)
    requires Evolves(s, t, actor) && SameReplay(s, t, id) && RequestOk(s, id)
    ensures id in t.replay.requests && t.replay.requests[id] == s.replay.requests[id] && RequestOk(t, id)
  {
    assert RowProgress(s.replay, t.replay, id);
    var k := s.replay.requests[id].key;
    if s.replay.replays[id].status != Reserved { InTopicStable(s.topic, t.topic, ReplayOrder(k, id)); }
    assert RecordedRejected(t.store, k);
    forall j: nat | j < k.stage ensures ExecutionDone(t.store, Key(k.run, j)) {
      assert ExecutionDone(s.store, Key(k.run, j));
    }
  }

  lemma RequestsKept(s: System, t: System, actor: nat)
    requires Evolves(s, t, actor) && RequestsOk(s) && NewRequestsOk(s, t)
    ensures RequestsOk(t)
  {
    forall id | id in t.replay.requests ensures RequestOk(t, id) {
      if SameReplay(s, t, id) { RequestStable(s, t, actor, id); }
    }
  }

  lemma GrantStable(s: System, t: System, actor: nat, g: nat)
    requires Evolves(s, t, actor) && g in s.grants && GrantOk(s, g)
    ensures GrantOk(t, g)
  {
    if s.grants[g].claimant.ByReplay? { assert RowProgress(s.replay, t.replay, s.grants[g].claimant.request); }
  }

  lemma GrantsKept(s: System, t: System, actor: nat)
    requires Evolves(s, t, actor) && GrantsOk(s) && NewGrantsOk(s, t)
    ensures GrantsOk(t)
  {
    forall g | g in t.grants ensures GrantOk(t, g) {
      if g in s.grants { GrantStable(s, t, actor, g); }
    }
  }

  lemma LogKept(s: System, t: System, actor: nat)
    requires Evolves(s, t, actor) && LogOk(s) && NewCallsOk(s, t)
    ensures LogOk(t)
  {
    forall i | 0 <= i < |t.log| ensures CallOk(t, i) {
      if i < |s.log| {
        assert CallOk(s, i);
        if s.log[i].claimant.ByReplay? { RejectedCallStable(s, t, actor, s.log[i].claimant.key, i); }
      }
    }
    forall k | RecordedRejected(t.store, k) ensures RejectedCallBefore(t.log, k, |t.log|) {
      if RecordedRejected(s.store, k) { RejectedCallStable(s, t, actor, k, |s.log|); }
    }
    forall i, j | 0 <= i < j < |t.log| ensures t.log[i].token != t.log[j].token {
      if j < |s.log| { assert s.log[i].token != s.log[j].token; }
    }
  }

  lemma OutboxKept(s: System, t: System, actor: nat)
    requires Evolves(s, t, actor) && OutboxSideOk(s) && OutboxStep(s, t)
    ensures OutboxSideOk(t)
  {
    forall r | r in t.runs
      ensures r in t.outbox || InTopic(t.topic, Ordinary(Key(r, 0))) || Key(r, 0) in t.legacy
    {
      if r !in t.outbox && InTopic(s.topic, Ordinary(Key(r, 0))) { InTopicStable(s.topic, t.topic, Ordinary(Key(r, 0))); }
    }
    forall p | p in t.processors ensures ProcessorOk(t, t.processors[p]) {
      if p in s.processors && t.processors[p] == s.processors[p] { ProcessorStable(s, t, actor, s.processors[p]); }
    }
  }

  lemma ProcessorStable(s: System, t: System, actor: nat, p: Processor)
    requires Evolves(s, t, actor) && ProcessorOk(s, p)
    ensures ProcessorOk(t, p)
  {
    match p
    case Resting =>
    case Sending(rows, sent) =>
      forall i | 0 <= i < sent ensures InTopic(t.topic, Ordinary(Key(rows[i], 0))) {
        InTopicStable(s.topic, t.topic, Ordinary(Key(rows[i], 0)));
      }
    case Deleting(rows) =>
      forall i | 0 <= i < |rows| ensures InTopic(t.topic, Ordinary(Key(rows[i], 0))) {
        InTopicStable(s.topic, t.topic, Ordinary(Key(rows[i], 0)));
      }
  }

  lemma OffsetsKept(s: System, t: System, actor: nat)
    requires Evolves(s, t, actor) && OffsetsOk(s) && OffsetsStep(s, t)
    ensures OffsetsOk(t)
  {
    forall p, i | 0 <= p < |t.topic| && 0 <= i < t.committed[p] && i < |t.topic[p]| ensures Resolved(t, t.topic[p][i]) {
      if i < s.committed[p] { ResolvedStable(s, t, actor, s.topic[p][i]); }
    }
  }

  lemma WorkerStable(s: System, t: System, actor: nat, w: nat)
    requires Evolves(s, t, actor) && w != actor && w in s.workers && w in t.workers && t.workers[w] == s.workers[w]
    requires WorkerOk(s, w) && GrantsOk(s) && GrantsOk(t)
    ensures WorkerOk(t, w)
  {
    var x := s.workers[w];
    forall i | 0 <= i < x.position ensures Resolved(t, t.topic[x.partition][i]) {
      ResolvedStable(s, t, actor, s.topic[x.partition][i]);
    }
    if x.pc != Idle { PcStable(s, t, actor, w, s.topic[x.partition][x.position], x.pc); }
  }

  lemma WorkersKept(s: System, t: System, actor: nat)
    requires Evolves(s, t, actor) && WorkersOk(s) && GrantsOk(s) && GrantsOk(t) && WorkersStep(s, t, actor)
    ensures WorkersOk(t)
  {
    forall w | w in t.workers ensures WorkerOk(t, w) {
      if w != actor && w in s.workers && t.workers[w] == s.workers[w] { WorkerStable(s, t, actor, w); }
    }
  }

  /** The induction step, once: a justified step that undoes nothing keeps the invariant. */
  lemma InvariantKept(s: System, t: System, actor: nat)
    requires Inv(s) && Evolves(s, t, actor) && Justified(s, t, actor)
    requires Lifecycle(t.store, t.legacy) && ReplayLifecycle(t.replay)
    ensures Inv(t)
  {
    LegacyKept(s, t, actor);
    MessagesKept(s, t, actor);
    RowsKept(s, t, actor);
    RequestsKept(s, t, actor);
    GrantsKept(s, t, actor);
    LogKept(s, t, actor);
    OutboxKept(s, t, actor);
    OffsetsKept(s, t, actor);
    WorkersKept(s, t, actor);
  }

  // ----- shapes of steps -----

  /** A step that leaves tables, topic, grants and log alone undoes nothing. */
  lemma QuietStepEvolves(s: System, t: System, actor: nat)
    requires s.clock <= t.clock && s.nextId <= t.nextId && s.legacy == t.legacy && s.runs == t.runs
    requires s.topic == t.topic && s.store == t.store && s.replay == t.replay && s.grants == t.grants && s.log == t.log
    ensures Evolves(s, t, actor)
  {
  }

  /** A step of no worker makes no call and opens no attempt. */
  ghost predicate Environment(s: System, t: System) {
    && s.clock <= t.clock && s.nextId <= t.nextId && s.legacy == t.legacy
    && (forall r :: r in s.runs ==> r in t.runs && t.runs[r] == s.runs[r])
    && TopicGrows(s.topic, t.topic)
    && Progress(s.store, t.store) && t.store.attempts.Keys == s.store.attempts.Keys
    && ReplayProgress(s.replay, t.replay)
    && s.grants == t.grants && s.log == t.log && s.workers == t.workers
  }

  lemma EnvironmentEvolves(s: System, t: System, actor: nat)
    requires Environment(s, t)
    ensures Evolves(s, t, actor)
  {
  }

  lemma EnvironmentKeepsWorkers(s: System, t: System, actor: nat)
    requires Environment(s, t) && WorkersOk(s) && GrantsOk(s)
    ensures WorkersStep(s, t, actor) && NewGrantsOk(s, t)
  {
    EnvironmentEvolves(s, t, actor);
    GrantsKept(s, t, actor);
    forall w | w in t.workers ensures WorkerOk(t, w) {
      EnvironmentEvolves(s, t, w + 1);
      WorkerStable(s, t, w + 1, w);
    }
  }

  /** What a worker has behind it stays resolved. */
  lemma BehindStaysResolved(s: System, t: System, actor: nat, w: nat)
    requires w in s.workers && WorkerOk(s, w) && Evolves(s, t, actor)
    ensures forall i :: 0 <= i < s.workers[w].position ==> Resolved(t, t.topic[s.workers[w].partition][i])
  {
    var x := s.workers[w];
    forall i | 0 <= i < x.position ensures Resolved(t, t.topic[x.partition][i]) {
      ResolvedStable(s, t, actor, s.topic[x.partition][i]);
    }
  }

  /** The acting worker keeps its place: same partition, same position, everything before it resolved. */
  lemma ActorOk(s: System, t: System, w: nat, pc: Pc)
    requires w in s.workers && WorkerOk(s, w) && Evolves(s, t, w)
    requires w in t.workers && t.workers[w] == s.workers[w].(pc := pc)
    requires pc == Idle || (HasMessage(s, w) && PcOk(t, w, Current(s, w), pc))
    ensures WorkerOk(t, w)
  {
    BehindStaysResolved(s, t, w, w);
    if pc != Idle {
      var x := s.workers[w];
      assert t.topic[x.partition][x.position] == s.topic[x.partition][x.position];
    }
  }

  ghost predicate SameOutboxSide(s: System, t: System) {
    s.runs == t.runs && s.outbox == t.outbox && s.processors == t.processors
  }

  ghost predicate SameTopicSide(s: System, t: System) {
    s.topic == t.topic && s.committed == t.committed
  }

  lemma SameOutboxJustified(s: System, t: System)
    requires OutboxSideOk(s) && SameOutboxSide(s, t) && TopicGrows(s.topic, t.topic)
    ensures OutboxStep(s, t)
  {
  }

  lemma SameTopicJustified(s: System, t: System)
    requires OffsetsOk(s) && SameTopicSide(s, t)
    ensures NewMessagesOk(s, t) && OffsetsStep(s, t)
  {
  }

  lemma SameReplayJustified(s: System, t: System)
    requires ReplayLifecycle(s.replay) && s.replay == t.replay
    ensures NewRequestsOk(s, t)
  {
    forall id | id in t.replay.requests ensures SameReplay(s, t, id) { assert Coherent(s.replay, id); }
  }

  /** A step on the execution tables. */
  lemma StoreStep(s: System, t: System, actor: nat)
    requires Inv(s) && Evolves(s, t, actor)
    requires SameOutboxSide(s, t) && SameTopicSide(s, t) && s.replay == t.replay && s.log == t.log && s.dispatchers == t.dispatchers
    requires Lifecycle(t.store, t.legacy)
    requires NewRowsPlaced(s, t) && NewGrantsOk(s, t) && WorkersStep(s, t, actor)
    requires forall k :: RecordedRejected(t.store, k) ==> RecordedRejected(s.store, k) || RejectedCallBefore(t.log, k, |t.log|)
    ensures Inv(t)
  {
    SameOutboxJustified(s, t);
    SameTopicJustified(s, t);
    SameReplayJustified(s, t);
    InvariantKept(s, t, actor);
  }

  /** A step on the replay tables. */
  lemma ReplayStep(s: System, t: System, actor: nat)
    requires Inv(s) && Evolves(s, t, actor)
    requires SameOutboxSide(s, t) && SameTopicSide(s, t) && s.store == t.store && s.log == t.log
    requires ReplayLifecycle(t.replay)
    requires NewRequestsOk(s, t) && NewGrantsOk(s, t) && WorkersStep(s, t, actor) && DispatchersOk(t)
    ensures Inv(t)
  {
    SameOutboxJustified(s, t);
    SameTopicJustified(s, t);
    InvariantKept(s, t, actor);
  }

  /** A step that sends a message. */
  lemma TopicStep(s: System, t: System, actor: nat)
    requires Inv(s) && Evolves(s, t, actor)
    requires s.replay == t.replay && s.store == t.store && s.log == t.log && s.grants == t.grants
    requires s.runs == t.runs && s.outbox == t.outbox && s.committed == t.committed
    requires NewMessagesOk(s, t) && OutboxStep(s, t) && WorkersStep(s, t, actor) && DispatchersOk(t)
    ensures Inv(t)
  {
    SameReplayJustified(s, t);
    InvariantKept(s, t, actor);
  }

  /** A step on the call log. */
  lemma LogStep(s: System, t: System, actor: nat)
    requires Inv(s) && Evolves(s, t, actor)
    requires SameOutboxSide(s, t) && SameTopicSide(s, t) && s.replay == t.replay && s.store == t.store && s.grants == t.grants
    requires s.dispatchers == t.dispatchers
    requires NewCallsOk(s, t) && WorkersStep(s, t, actor)
    ensures Inv(t)
  {
    SameOutboxJustified(s, t);
    SameTopicJustified(s, t);
    SameReplayJustified(s, t);
    InvariantKept(s, t, actor);
  }

  /** A step that changes only the clock, outbox work and who is doing what. */
  lemma QuietStep(s: System, t: System, actor: nat)
    requires Inv(s) && Evolves(s, t, actor)
    requires SameTopicSide(s, t) && s.replay == t.replay && s.store == t.store && s.grants == t.grants && s.log == t.log
    requires OutboxStep(s, t) && WorkersStep(s, t, actor) && DispatchersOk(t)
    ensures Inv(t)
  {
    SameTopicJustified(s, t);
    SameReplayJustified(s, t);
    InvariantKept(s, t, actor);
  }
}
