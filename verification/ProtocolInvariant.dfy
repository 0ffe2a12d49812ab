/** What holds in every reachable state of the execution system, and what no event ever undoes. */
module ProtocolInvariant {
  import opened Domain
  import opened ExecutionTables
  import opened ReplayTables
  import opened Protocol

  // ----- knowledge that, once true, stays true -----

  ghost predicate InTopic(topic: seq<seq<Message>>, m: Message) {
    exists p, i :: 0 <= p < |topic| && 0 <= i < |topic[p]| && topic[p][i] == m
  }

  /** The stage's own execution succeeded. */
  ghost predicate ExecutionDone(t: Tables, k: Key) {
    k in t.executions && t.executions[k].status == Success
  }

  /** The stage failed, and a replay of it succeeded. */
  ghost predicate ReplayedBy(r: ReplayTables, k: Key, id: nat) {
    id in r.requests && r.requests[id].key == k && id in r.replays && r.replays[id].status == ReplaySuccess
  }

  ghost predicate Done(s: System, k: Key) {
    ExecutionDone(s.store, k) || exists id :: ReplayedBy(s.replay, k, id)
  }

  ghost predicate DoneBefore(s: System, k: Key) {
    forall j: nat :: j < k.stage ==> Done(s, Key(k.run, j))
  }

  ghost predicate FailedWithRecord(t: Tables, k: Key) {
    k in t.executions && t.executions[k].status == Failed && k in t.failures
  }

  /** The next stage, if there is one, has been handed to the topic. */
  ghost predicate HandedOn(s: System, k: Key) {
    k.run in s.runs && (k.stage + 1 < s.runs[k.run] ==> InTopic(s.topic, Ordinary(Key(k.run, k.stage + 1))))
  }

  /** A message that may be committed: its stage is settled and whatever follows is already in the topic. */
  ghost predicate Resolved(s: System, m: Message) {
    match m
    case Ordinary(k) => FailedWithRecord(s.store, k) || (Done(s, k) && HandedOn(s, k))
    case ReplayOrder(k, id) =>
      && id in s.replay.replays
      && (s.replay.replays[id].status in {ReplayFailed, ReplayUnknown}
          || (s.replay.replays[id].status == ReplaySuccess && HandedOn(s, k)))
  }

  /** The first call of a stage was durably recorded as rejected and its cooldown has passed. */
  ghost predicate Cooled(t: Tables, k: Key, now: Time) {
    var id := AttemptId(k, 1);
    && id in t.attempts && t.attempts[id].status == Ended(Rejected)
    && t.attempts[id].completedAt.Some? && t.attempts[id].retryAfter.Some?
    && t.attempts[id].completedAt.value + t.attempts[id].retryAfter.value * 1_000 <= now
  }

  ghost predicate RecordedRejected(t: Tables, k: Key) {
    AttemptId(k, 1) in t.attempts && t.attempts[AttemptId(k, 1)].status == Ended(Rejected)
  }

  ghost predicate RejectedCallBefore(log: seq<Call>, k: Key, n: nat) {
    exists i :: 0 <= i < n && i < |log| && log[i].claimant == ByMessage(k) && log[i].state == Reported(Rejected)
  }

  // ----- the invariant, table by table -----

  ghost predicate LegacyOk(s: System) {
    forall k :: k in s.legacy ==>
      && HasAction(s, k)
      && (ExecutionDone(s.store, k) && k.stage + 1 < s.runs[k.run] ==> Key(k.run, k.stage + 1) in s.legacy)
  }

  ghost predicate MessageOk(s: System, m: Message) {
    match m
    case Ordinary(k) => k.run in s.runs && (k.stage == 0 || k.stage < s.runs[k.run]) && DoneBefore(s, k)
    case ReplayOrder(k, id) => id in s.replay.requests && s.replay.requests[id].key == k
  }

  ghost predicate MessagesOk(s: System) {
    forall p, i :: 0 <= p < |s.topic| && 0 <= i < |s.topic[p]| ==> MessageOk(s, s.topic[p][i])
  }

  ghost predicate RowPlaced(s: System, k: Key) {
    HasAction(s, k) && DoneBefore(s, k) && (k in s.legacy || InTopic(s.topic, Ordinary(k)))
  }

  ghost predicate RowsPlaced(s: System) {
    forall k :: k in s.store.executions ==> RowPlaced(s, k)
  }

  ghost predicate RequestOk(s: System, id: nat)
    requires id in s.replay.requests
  {
    var k := s.replay.requests[id].key;
    && FailedWithRecord(s.store, k)
    && RecordedRejected(s.store, k)
    && (forall j: nat :: j < k.stage ==> ExecutionDone(s.store, Key(k.run, j)))
    && (id in s.replay.replays ==>
      && (s.replay.replays[id].status in {Running, ReplaySuccess} ==>
           k.run in s.runs && s.replay.replays[id].nextStage == Following(s, k))
      && (s.replay.replays[id].status != Reserved ==> InTopic(s.topic, ReplayOrder(k, id))))
  }

  ghost predicate RequestsOk(s: System) {
    forall id :: id in s.replay.requests ==> RequestOk(s, id)
  }

  ghost predicate GrantOk(s: System, token: nat)
    requires token in s.grants
  {
    && token < s.nextId && s.grants[token].at <= s.clock
    && match s.grants[token].claimant
       case ByMessage(k) => k in s.store.executions && s.store.executions[k].token == Some(token)
       case ByReplay(k, id) =>
         && id in s.replay.requests && s.replay.requests[id].key == k
         && id in s.replay.replays && s.replay.replays[id].status != Reserved
         && Cooled(s.store, k, s.grants[token].at)
  }

  ghost predicate GrantsOk(s: System) {
    && (forall token :: token in s.grants ==> GrantOk(s, token))
    && (forall a, b :: a in s.grants && b in s.grants && s.grants[a].claimant == s.grants[b].claimant ==> a == b)
  }

  ghost predicate CallOk(s: System, i: nat)
    requires i < |s.log|
  {
    var c := s.log[i];
    && c.token in s.grants && s.grants[c.token].claimant == c.claimant
    && s.grants[c.token].at <= c.at <= s.clock
    && (c.claimant.ByReplay? ==> RejectedCallBefore(s.log, c.claimant.key, i))
  }

  ghost predicate LogOk(s: System) {
    && (forall i :: 0 <= i < |s.log| ==> CallOk(s, i))
    && (forall i, j :: 0 <= i < j < |s.log| ==> s.log[i].token != s.log[j].token)
    && (forall k :: RecordedRejected(s.store, k) ==> RejectedCallBefore(s.log, k, |s.log|))
  }

  ghost predicate OutboxOk(s: System) {
    forall r :: r in s.runs ==> r in s.outbox || InTopic(s.topic, Ordinary(Key(r, 0))) || Key(r, 0) in s.legacy
  }

  ghost predicate ProcessorOk(s: System, p: Processor) {
    match p
    case Resting => true
    case Sending(rows, sent) =>
      && sent <= |rows| && (forall i :: 0 <= i < |rows| ==> rows[i] in s.runs)
      && (forall i :: 0 <= i < sent ==> InTopic(s.topic, Ordinary(Key(rows[i], 0))))
    case Deleting(rows) => forall i :: 0 <= i < |rows| ==> InTopic(s.topic, Ordinary(Key(rows[i], 0)))
  }

  ghost predicate OutboxSideOk(s: System) {
    && OutboxOk(s)
    && (forall r :: r in s.outbox ==> r in s.runs)
    && (forall p :: p in s.processors ==> ProcessorOk(s, s.processors[p]))
  }

  ghost predicate OffsetsOk(s: System) {
    && |s.committed| == |s.topic|
    && (forall p :: 0 <= p < |s.topic| ==> s.committed[p] <= |s.topic[p]|)
    && (forall p, i :: 0 <= p < |s.topic| && 0 <= i < s.committed[p] && i < |s.topic[p]| ==> Resolved(s, s.topic[p][i]))
  }

  // ----- what a worker knows at each await -----

  ghost predicate Holds(s: System, w: nat, token: nat, claimant: Claimant) {
    token in s.grants && s.grants[token].claimant == claimant && s.grants[token].worker == w
  }

  ghost predicate NotCalled(s: System, token: nat) {
    forall i :: 0 <= i < |s.log| ==> s.log[i].token != token
  }

  ghost predicate Called(s: System, token: nat, call: nat, state: CallState) {
    call < |s.log| && s.log[call].token == token && s.log[call].state == state
  }

  ghost predicate PcOk(s: System, w: nat, m: Message, pc: Pc) {
    match pc
    case Idle => true
    case Claiming(_) => m.Ordinary? && HasAction(s, m.key)
    case Existing(_) => m.Ordinary? && HasAction(s, m.key)
    case Quarantining(_, at, _) => m.Ordinary? && HasAction(s, m.key) && at <= s.clock
    case Raced => m.Ordinary? && HasAction(s, m.key)
    case Owner(token) =>
      m.Ordinary? && Holds(s, w, token, ByMessage(m.key)) && NotCalled(s, token) && AttemptId(m.key, 1) !in s.store.attempts
    case Begun(token) => m.Ordinary? && Holds(s, w, token, ByMessage(m.key)) && NotCalled(s, token)
    case InCall(token, c) => m.Ordinary? && Holds(s, w, token, ByMessage(m.key)) && Called(s, token, c, InFlight)
    case Finishing(token, c, report) =>
      && m.Ordinary? && Holds(s, w, token, ByMessage(m.key)) && Honest(report)
      && Called(s, token, c, Reported(OutcomeOf(report)))
    case ReplayOwner(token, id) =>
      m.ReplayOrder? && m.request == id && Holds(s, w, token, ByReplay(m.key, id)) && NotCalled(s, token)
    case ReplayInCall(token, id, c) =>
      m.ReplayOrder? && m.request == id && Holds(s, w, token, ByReplay(m.key, id)) && Called(s, token, c, InFlight)
    case ReplayFinishing(token, id, called, report) =>
      && m.ReplayOrder? && m.request == id && Holds(s, w, token, ByReplay(m.key, id)) && Honest(report)
      && (called.Some? ==> Called(s, token, called.value, Reported(OutcomeOf(report))))
      && (called.None? ==> NotCalled(s, token) && OutcomeOf(report) == NotAttempted)
    case Publishing(next, ack) =>
      && ack && m.key.run in s.runs && next == m.key.stage + 1 && next < s.runs[m.key.run]
      && Done(s, m.key)
      && (m.ReplayOrder? ==> ReplayedBy(s.replay, m.key, m.request))
    case Committing => Resolved(s, m)
  }

  ghost predicate WorkerOk(s: System, w: nat)
    requires w in s.workers
  {
    var x := s.workers[w];
    && x.partition < |s.topic| && x.position <= |s.topic[x.partition]|
    && (forall i :: 0 <= i < x.position ==> Resolved(s, s.topic[x.partition][i]))
    && (x.pc != Idle ==> x.position < |s.topic[x.partition]| && PcOk(s, w, s.topic[x.partition][x.position], x.pc))
  }

  ghost predicate WorkersOk(s: System) {
    forall w :: w in s.workers ==> WorkerOk(s, w)
  }

  ghost predicate DispatchersOk(s: System) {
    forall d :: d in s.dispatchers && s.dispatchers[d].Leased? ==> s.dispatchers[d].id in s.replay.requests
  }

  ghost predicate Inv(s: System) {
    && Lifecycle(s.store, s.legacy)
    && ReplayLifecycle(s.replay)
    && LegacyOk(s)
    && MessagesOk(s)
    && RowsPlaced(s)
    && RequestsOk(s)
    && GrantsOk(s)
    && LogOk(s)
    && OutboxSideOk(s)
    && OffsetsOk(s)
    && WorkersOk(s)
    && DispatchersOk(s)
  }

  // ----- what no event undoes -----

  ghost predicate TopicGrows(a: seq<seq<Message>>, b: seq<seq<Message>>) {
    && |a| == |b|
    && (forall p :: 0 <= p < |a| ==> |a[p]| <= |b[p]|)
    && (forall p, i :: 0 <= p < |a| && 0 <= i < |a[p]| ==> b[p][i] == a[p][i])
  }

  /** The token was granted to this worker. */
  ghost predicate Mine(s: System, actor: nat, token: nat) {
    token in s.grants && s.grants[token].worker == actor
  }

  /** The log only grows; calls only get answered; both only by the acting worker. */
  ghost predicate LogGrows(s: System, t: System, actor: nat) {
    && |s.log| <= |t.log|
    && (forall i :: 0 <= i < |s.log| ==>
         && t.log[i].token == s.log[i].token && t.log[i].claimant == s.log[i].claimant && t.log[i].at == s.log[i].at)
    && (forall i :: 0 <= i < |s.log| && t.log[i].state != s.log[i].state ==>
         s.log[i].state == InFlight && Mine(s, actor, s.log[i].token))
    && (forall i :: |s.log| <= i < |t.log| ==> Mine(t, actor, t.log[i].token))
  }

  ghost predicate AttemptsOnlyBy(s: System, t: System, actor: nat) {
    forall id :: id in t.store.attempts && id !in s.store.attempts ==>
      && id.key in t.store.executions
      && t.store.executions[id.key].token.Some? && Mine(t, actor, t.store.executions[id.key].token.value)
  }

  ghost predicate Evolves(s: System, t: System, actor: nat) {
    && s.clock <= t.clock && s.nextId <= t.nextId && s.legacy == t.legacy
    && (forall r :: r in s.runs ==> r in t.runs && t.runs[r] == s.runs[r])
    && TopicGrows(s.topic, t.topic)
    && Progress(s.store, t.store)
    && ReplayProgress(s.replay, t.replay)
    && (forall g :: g in s.grants ==> g in t.grants && t.grants[g] == s.grants[g])
    && LogGrows(s, t, actor)
    && AttemptsOnlyBy(s, t, actor)
  }

  // ----- stability -----

  lemma InTopicStable(a: seq<seq<Message>>, b: seq<seq<Message>>, m: Message)
    requires TopicGrows(a, b) && InTopic(a, m)
    ensures InTopic(b, m)
  {
    var p, i :| 0 <= p < |a| && 0 <= i < |a[p]| && a[p][i] == m;
    assert b[p][i] == m;
  }

  lemma ReplayedStable(r: ReplayTables, q: ReplayTables, k: Key, id: nat)
    requires ReplayProgress(r, q) && ReplayedBy(r, k, id)
    ensures ReplayedBy(q, k, id)
  {
    assert RowProgress(r, q, id);
  }

  lemma DoneStable(s: System, t: System, actor: nat, k: Key)
    requires Evolves(s, t, actor) && Done(s, k)
    ensures Done(t, k)
  {
    if !ExecutionDone(s.store, k) {
      var id :| ReplayedBy(s.replay, k, id);
      ReplayedStable(s.replay, t.replay, k, id);
    }
  }

  lemma DoneBeforeStable(s: System, t: System, actor: nat, k: Key)
    requires Evolves(s, t, actor) && DoneBefore(s, k)
    ensures DoneBefore(t, k)
  {
    forall j: nat | j < k.stage ensures Done(t, Key(k.run, j)) {
      DoneStable(s, t, actor, Key(k.run, j));
    }
  }

  lemma ResolvedStable(s: System, t: System, actor: nat, m: Message)
    requires Evolves(s, t, actor) && Resolved(s, m)
    ensures Resolved(t, m)
  {
    if HandedOn(s, m.key) {
      if m.key.stage + 1 < s.runs[m.key.run] {
        InTopicStable(s.topic, t.topic, Ordinary(Key(m.key.run, m.key.stage + 1)));
      }
      assert HandedOn(t, m.key);
    }
    match m
    case Ordinary(k) => if Done(s, k) { DoneStable(s, t, actor, k); }
    case ReplayOrder(k, id) => assert RowProgress(s.replay, t.replay, id);
  }

  lemma MessageStable(s: System, t: System, actor: nat, m: Message)
    requires Evolves(s, t, actor) && MessageOk(s, m)
    ensures MessageOk(t, m)
  {
    match m
    case Ordinary(k) => DoneBeforeStable(s, t, actor, k);
    case ReplayOrder(k, id) => assert RowProgress(s.replay, t.replay, id);
  }

  lemma RejectedCallStable(s: System, t: System, actor: nat, k: Key, n: nat)
    requires LogGrows(s, t, actor) && RejectedCallBefore(s.log, k, n)
    ensures RejectedCallBefore(t.log, k, n)
  {
    var i :| 0 <= i < n && i < |s.log| && s.log[i].claimant == ByMessage(k) && s.log[i].state == Reported(Rejected);
    assert t.log[i].claimant == ByMessage(k) && t.log[i].state == Reported(Rejected);
  }

  /** Knowledge of a worker survives the steps of everyone else. */
  lemma PcStable(s: System, t: System, actor: nat, w: nat, m: Message, pc: Pc)
    requires Evolves(s, t, actor) && w != actor && PcOk(s, w, m, pc)
    requires GrantsOk(s)
    requires forall g :: g in t.grants ==> GrantOk(t, g)
    ensures PcOk(t, w, m, pc)
  {
    match pc
    case Publishing(next, ack) =>
      DoneStable(s, t, actor, m.key);
      if m.ReplayOrder? { ReplayedStable(s.replay, t.replay, m.key, m.request); }
    case Committing => ResolvedStable(s, t, actor, m);
    case Owner(token) => TokenStable(s, t, actor, w, token);
      assert GrantOk(s, token);
    case Begun(token) => TokenStable(s, t, actor, w, token);
    case InCall(token, c) => TokenStable(s, t, actor, w, token);
    case Finishing(token, c, report) => TokenStable(s, t, actor, w, token);
    case ReplayOwner(token, id) => TokenStable(s, t, actor, w, token);
    case ReplayInCall(token, id, c) => TokenStable(s, t, actor, w, token);
    case ReplayFinishing(token, id, called, report) => TokenStable(s, t, actor, w, token);
    case _ =>
  }

  lemma TokenStable(s: System, t: System, actor: nat, w: nat, token: nat)
    requires Evolves(s, t, actor) && w != actor && token in s.grants && s.grants[token].worker == w
    ensures t.grants[token] == s.grants[token]
    ensures NotCalled(s, token) ==> NotCalled(t, token)
    ensures forall c, state :: Called(s, token, c, state) ==> Called(t, token, c, state)
  {
  }
}
