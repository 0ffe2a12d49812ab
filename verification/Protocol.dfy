/** The whole execution system as a transition system: ingestion, outbox, topic, workers, reconciler,
    replay requests, dispatcher, providers and time. Every database transaction is one event; a worker
    stops at every await, so any interleaving, crash or redelivery is a sequence of events. */
module Protocol {
  import opened Domain
  import opened ExecutionTables
  import opened ReplayTables
  import Policy = ReplayPolicy

  /** A message of the events topic. */
  datatype Message =
    | Ordinary(key: Key)
    | ReplayOrder(key: Key, request: nat)

  // ----- the worker -----

  datatype NextStage = Unspecified | Given(stage: Option<nat>)

  datatype Resolution = Resolution(ack: bool, advance: bool, nextStage: NextStage)

  /** Where a worker stands between two awaits while it handles the message at its position. */
  datatype Pc =
    | Idle
    | Claiming(fps: Fingerprints)
    | Existing(fps: Fingerprints)
    | Quarantining(seen: Option<nat>, at: Time, fps: Fingerprints)
    | Raced
    | Owner(token: nat)
    | Begun(token: nat)
    | InCall(token: nat, call: nat)
    | Finishing(token: nat, call: nat, report: Report)
    | ReplayOwner(token: nat, request: nat)
    | ReplayInCall(token: nat, request: nat, call: nat)
    | ReplayFinishing(token: nat, request: nat, called: Option<nat>, report: Report)
    | Publishing(next: nat, ack: bool)
    | Committing

  /** A consumer session: it reads one partition from the committed offset, one message at a time. */
  datatype Worker = Worker(partition: nat, position: nat, pc: Pc)

  datatype Processor =
    | Resting
    | Sending(rows: seq<nat>, sent: nat)
    | Deleting(rows: seq<nat>)

  datatype Dispatcher =
    | Waiting
    | Leased(id: nat, token: nat, attempts: nat)
    | Sent(id: nat, token: nat)

  // ----- history variables -----

  datatype Claimant = ByMessage(key: Key) | ByReplay(key: Key, request: nat)

  /** Who was granted a claim token, for what, and when. */
  datatype Grant = Grant(claimant: Claimant, worker: nat, at: Time)

  datatype CallState = InFlight | Reported(outcome: Outcome)

  /** One provider call. */
  datatype Call = Call(token: nat, claimant: Claimant, at: Time, state: CallState)

  datatype System = System(
    clock: Time,
    nextId: nat,                       // source of fresh tokens and row ids
    runs: map<nat, nat>,               // run -> number of actions, dense from stage 0
    outbox: set<nat>,
    store: Tables,
    replay: ReplayTables,
    topic: seq<seq<Message>>,
    committed: seq<nat>,
    workers: map<nat, Worker>,
    processors: map<nat, Processor>,
    dispatchers: map<nat, Dispatcher>,
    legacy: set<Key>,                  // rows older than claim tokens and failure records
    grants: map<nat, Grant>,
    log: seq<Call>)

  // ----- events -----

  datatype Event =
    | Tick(ms: nat)
    | Ingest(run: nat, actions: nat, authorized: bool)
    | ReadOutbox(proc: nat, rows: seq<nat>)
    | SendOutbox(proc: nat, partition: nat)
    | DeleteOutbox(proc: nat)
    | StopProcessor(proc: nat)
    | Assign(worker: nat, partition: nat)
    | Fetch(worker: nat, fps: Fingerprints, recovered: Option<nat>)
    | Insert(worker: nat, handlerVersion: Option<Hash>)
    | Find(worker: nat)
    | Fence(worker: nat)
    | Refuse(worker: nat)
    | Begin(worker: nat, provider: Provider)
    | Invoke(worker: nat)
    | Respond(worker: nat, report: Report)
    | Finish(worker: nat)
    | ClaimReplay(worker: nat, checks: ReplayChecks)
    | Decline(worker: nat)
    | Publish(worker: nat, partition: nat, acknowledged: bool)
    | Commit(worker: nat)
    | Drop(worker: nat)
    | Quarantine(key: Key, seen: Option<nat>, at: Time)
    | Repair(key: Key, seen: Option<nat>)
    | RequestReplay(id: nat, key: Key, approval: nat, expiresAt: int, authorized: bool, facts: Policy.Facts)
    | LeaseRequest(dispatcher: nat, id: nat)
    | SendRequest(dispatcher: nat, partition: nat, acknowledged: bool)
    | ReleaseRequest(dispatcher: nat)
    | StampRequest(dispatcher: nat)
    | StopDispatcher(dispatcher: nat)

  /** What a replay claim reads besides the tables modelled here. */
  datatype ReplayChecks = ReplayChecks(
    enabled: bool,
    authorized: bool,       // operators, approval, proposal and case bindings
    telegramAction: bool,
    identityProven: bool,
    facts: Policy.Facts)

  // ----- reading the tables -----

  function Deliver(topic: seq<seq<Message>>, partition: nat, m: Message): seq<seq<Message>>
    requires partition < |topic|
  {
    topic[partition := topic[partition] + [m]]
  }

  predicate HasMessage(s: System, w: nat) {
    && w in s.workers
    && s.workers[w].partition < |s.topic|
    && s.workers[w].position < |s.topic[s.workers[w].partition]|
  }

  function Current(s: System, w: nat): Message
    requires HasMessage(s, w)
  {
    s.topic[s.workers[w].partition][s.workers[w].position]
  }

  function At(s: System, w: nat, pc: Pc): System
    requires w in s.workers
  {
    s.(workers := s.workers[w := s.workers[w].(pc := pc)])
  }

  predicate HasAction(s: System, k: Key) {
    k.run in s.runs && k.stage < s.runs[k.run]
  }

  function Following(s: System, k: Key): Option<nat>
    requires k.run in s.runs
  {
    if k.stage + 1 < s.runs[k.run] then Some(k.stage + 1) else None
  }

  /** The settlement rule: publish the next stage if there is one, then commit; never commit unresolved. */
  function Settle(r: Resolution, ordinaryNext: Option<nat>): Pc {
    var next := if !r.advance then None else if r.nextStage.Given? then r.nextStage.stage else ordinaryNext;
    if next.Some? then Publishing(next.value, r.ack) else if r.ack then Committing else Idle
  }

  const ADVANCE := Resolution(true, true, Unspecified)
  const STOP := Resolution(true, false, Unspecified)
  const UNRESOLVED := Resolution(false, false, Unspecified)

  // ----- replay policy facts -----

  function AttemptFact(a: Attempt): Policy.AttemptFact {
    Policy.AttemptFact(
      if a.status.Started? then Unknown else a.status.outcome, a.provider, a.phase, a.providerStatus,
      if a.retryAfter.Some? then Some(Policy.Whole(a.retryAfter.value)) else None,
      if a.completedAt.Some? then Policy.At(a.completedAt.value) else Policy.Absent)
  }

  /** The attempts of an execution, latest first; numbers above one do not occur. */
  function AttemptFacts(t: Tables, k: Key): seq<Policy.AttemptFact> {
    (if AttemptId(k, 1) in t.attempts then [AttemptFact(t.attempts[AttemptId(k, 1)])] else [])
    + (if AttemptId(k, 0) in t.attempts then [AttemptFact(t.attempts[AttemptId(k, 0)])] else [])
  }

  predicate ConsistentEvidence(t: Tables, k: Key)
    requires k in t.executions && k in t.failures
  {
    var e, f := t.executions[k], t.failures[k];
    && e.outcome == Some(f.evidence.outcome)
    && e.actionFp.Some? && e.actionFp == f.actionFp && e.requestFp.Some? && e.requestFp == f.requestFp
    && (forall n | n in {0, 1} :: AttemptId(k, n) in t.attempts ==>
         var a := t.attempts[AttemptId(k, n)];
         Some(a.actionFp) == e.actionFp && Some(a.requestFp) == e.requestFp && a.safeCode == Some(TELEGRAM_RATE_LIMITED))
  }

  predicate EarlierSucceeded(t: Tables, k: Key) {
    forall e | e in t.executions && e.run == k.run && e.stage < k.stage :: t.executions[e].status == Success
  }

  predicate LaterExists(t: Tables, k: Key) {
    exists e | e in t.executions :: e.run == k.run && e.stage > k.stage
  }

  /** The replay requests of the same case, one of them possibly set aside. */
  function Siblings(t: ReplayTables, k: Key, exclude: Option<nat>): set<nat> {
    set r | r in t.requests && t.requests[r].key == k && exclude != Some(r)
  }

  /** The policy facts as the database holds them now; what other tables hold is taken from `facts`. */
  function CurrentFacts(t: Tables, r: ReplayTables, k: Key, exclude: Option<nat>, facts: Policy.Facts): Policy.Facts
    requires k in t.executions && k in t.failures
  {
    var e, f := t.executions[k], t.failures[k];
    facts.(
      evidenceComplete := facts.evidenceComplete && ConsistentEvidence(t, k),
      source := if f.source == FromReconciler then Policy.ReconciledExecutionRow else Policy.RetryRow,
      provenance := if f.source == FromReconciler then Policy.ReconciledExecution else Policy.Captured,
      provider := f.evidence.provider,
      phase := f.evidence.phase,
      safeCode := Some(f.evidence.safeCode),
      providerStatus := f.evidence.providerStatus,
      providerOutcome := if e.outcome == Some(Unknown) then Some(Unknown) else Some(f.evidence.outcome),
      attempts := AttemptFacts(t, k),
      historyTruncated := false,
      executionStatus := Some(match e.status
                              case Pending => Policy.StatePending
                              case Success => Policy.StateSuccess
                              case Failed => Policy.StateFailed),
      leaseUntil := e.leaseUntil,
      predecessorsSuccessful := EarlierSucceeded(t, k),
      incompatibleSuccessor := LaterExists(t, k),
      activeReplay := exists q | q in Siblings(r, k, exclude) :: q in r.replays && r.replays[q].status in {Reserved, Running},
      previousReplayCount := |Siblings(r, k, exclude)|)
  }

  ghost predicate PolicyAllows(t: Tables, r: ReplayTables, k: Key, exclude: Option<nat>, facts: Policy.Facts, now: Time)
    requires k in t.executions && k in t.failures
  {
    var e := Policy.Evaluate(CurrentFacts(t, r, k, exclude, facts), now);
    e.Decided? && e.verdict.status == Policy.RequiresApproval
  }

  // ----- the worker's steps -----

  predicate Recovers(s: System, k: Key, fps: Fingerprints, r: nat) {
    && r in s.replay.requests && r in s.replay.replays
    && s.replay.requests[r].key == k
    && s.replay.requests[r].actionFp == fps.action && s.replay.requests[r].requestFp == fps.request
    && k in s.store.executions && s.store.executions[k].status == Failed
  }

  /** Load the action and look for a replay that already settled the stage. */
  ghost function DoFetch(s: System, w: nat, fps: Fingerprints, recovered: Option<nat>): System
    requires HasMessage(s, w)
  {
    var m := Current(s, w);
    if !m.Ordinary? || !HasAction(s, m.key) then s
    else if recovered.Some? && Recovers(s, m.key, fps, recovered.value) then
      var row := s.replay.replays[recovered.value];
      match row.status
      case ReplaySuccess => At(s, w, Settle(Resolution(true, true, Given(row.nextStage)), Following(s, m.key)))
      case Running => s
      case _ => At(s, w, Claiming(fps))
    else if recovered.None? && !(exists r :: Recovers(s, m.key, fps, r)) then At(s, w, Claiming(fps))
    else s
  }

  function DoInsert(s: System, w: nat, handlerVersion: Option<Hash>): System
    requires HasMessage(s, w) && s.workers[w].pc.Claiming?
  {
    var k := Current(s, w).key;
    var fps := s.workers[w].pc.fps;
    match Create(s.store, k, s.nextId, s.clock, handlerVersion, fps)
    case Committed(store) =>
      At(s.(store := store, nextId := s.nextId + 1, grants := s.grants[s.nextId := Grant(ByMessage(k), w, s.clock)]),
         w, Owner(s.nextId))
    case _ => At(s, w, Existing(fps))
  }

  /** Read the execution another claim left: settled, still owned, or expired. */
  function DoFind(s: System, w: nat): System
    requires HasMessage(s, w) && (s.workers[w].pc.Existing? || s.workers[w].pc.Raced?)
  {
    var k := Current(s, w).key;
    if k !in s.store.executions || k.run !in s.runs then At(s, w, Idle)
    else
      var e := s.store.executions[k];
      match e.status
      case Success => At(s, w, Settle(ADVANCE, Following(s, k)))
      case Failed => At(s, w, if k in s.store.failures then Settle(STOP, None) else Idle)
      case Pending =>
        if s.workers[w].pc.Raced? || (e.leaseUntil.Some? && s.clock < e.leaseUntil.value) then At(s, w, Idle)
        else At(s, w, Quarantining(e.token, s.clock, s.workers[w].pc.fps))
  }

  function DoFence(s: System, w: nat): System
    requires HasMessage(s, w) && s.workers[w].pc.Quarantining?
  {
    var pc := s.workers[w].pc;
    match FenceExpired(s.store, Current(s, w).key, pc.seen, pc.at, s.nextId, FromOwner, Some(pc.fps))
    case Committed(store) => At(s.(store := store, nextId := s.nextId + 1), w, Settle(STOP, None))
    case _ => At(s, w, Raced)
  }

  function DoRefuse(s: System, w: nat): System
    requires HasMessage(s, w) && s.workers[w].pc.Owner?
  {
    match Execute(s.store, TxRefuse(Current(s, w).key, s.workers[w].pc.token, "unsupported_action_type", s.clock, s.nextId))
    case Committed(store) => At(s.(store := store, nextId := s.nextId + 1), w, Settle(STOP, None))
    case _ => At(s, w, Idle)
  }

  function DoBegin(s: System, w: nat, provider: Provider): System
    requires HasMessage(s, w) && s.workers[w].pc.Owner?
  {
    match Execute(s.store, TxStart(Current(s, w).key, s.workers[w].pc.token, provider))
    case Committed(store) => At(s.(store := store), w, Begun(s.workers[w].pc.token))
    case _ => At(s, w, Idle)
  }

  /** The provider call leaves the process; nothing durable marks this instant. */
  function DoInvoke(s: System, w: nat): System
    requires HasMessage(s, w)
  {
    match s.workers[w].pc
    case Begun(token) =>
      At(s.(log := s.log + [Call(token, ByMessage(Current(s, w).key), s.clock, InFlight)]), w, InCall(token, |s.log|))
    case ReplayOwner(token, request) =>
      At(s.(log := s.log + [Call(token, ByReplay(Current(s, w).key, request), s.clock, InFlight)]),
         w, ReplayInCall(token, request, |s.log|))
    case _ => s
  }

  /** A replay trusts an acceptance only from the provider it called. */
  function Trusted(report: Report): Report {
    if report.AcceptedBy? && report.provider != Telegram then FailedWith(OutcomeUnknown()) else report
  }

  predicate Honest(report: Report) {
    report.FailedWith? ==> report.evidence.outcome != Accepted
  }

  function DoRespond(s: System, w: nat, report: Report): System
    requires HasMessage(s, w)
  {
    match s.workers[w].pc
    case InCall(token, c) =>
      if c < |s.log| && Honest(report)
      then At(s.(log := s.log[c := s.log[c].(state := Reported(OutcomeOf(report)))]), w, Finishing(token, c, report)) else s
    case ReplayInCall(token, request, c) =>
      if c < |s.log| && Honest(report)
      then At(s.(log := s.log[c := s.log[c].(state := Reported(OutcomeOf(Trusted(report))))]),
              w, ReplayFinishing(token, request, Some(c), Trusted(report))) else s
    case _ => s
  }

  function DoFinish(s: System, w: nat): System
    requires HasMessage(s, w)
  {
    var k := Current(s, w).key;
    match s.workers[w].pc
    case Finishing(token, _, AcceptedBy(_, receipt)) =>
      (match Execute(s.store, TxSucceed(k, token, receipt, s.clock))
       case Committed(store) => At(s.(store := store), w, Settle(ADVANCE, if k.run in s.runs then Following(s, k) else None))
       case _ => At(s, w, Idle))
    case Finishing(token, _, FailedWith(evidence)) =>
      (match Execute(s.store, TxFail(k, token, evidence, s.clock, s.nextId))
       case Committed(store) => At(s.(store := store, nextId := s.nextId + 1), w, Settle(STOP, None))
       case _ => At(s, w, Idle))
    case ReplayFinishing(token, request, _, report) =>
      (match ExecuteReplay(s.replay, RtComplete(request, token, report, s.clock))
       case Committed(replay) =>
         At(s.(replay := replay), w,
            if report.AcceptedBy? then Settle(Resolution(true, true, Given(s.replay.replays[request].nextStage)), None)
            else Settle(STOP, None))
       case _ => At(s, w, Idle))
    case _ => s
  }

  /** The replay claim: one serializable transaction that revalidates everything before it grants ownership. */
  ghost function DoClaimReplay(s: System, w: nat, c: ReplayChecks): System
    requires HasMessage(s, w)
  {
    var m := Current(s, w);
    if !m.ReplayOrder? || !c.enabled then s
    else if m.request !in s.replay.requests || s.replay.requests[m.request].key != m.key || m.request !in s.replay.replays
    then At(s, w, Settle(STOP, None))
    else
      var id, request, row, k := m.request, s.replay.requests[m.request], s.replay.replays[m.request], m.key;
      match row.status
      case ReplaySuccess => At(s, w, Settle(Resolution(true, true, Given(row.nextStage)), None))
      case ReplayFailed => At(s, w, Settle(STOP, None))
      case ReplayUnknown => At(s, w, Settle(STOP, None))
      case Running => Ending(s, w, RtExpire(id, s.clock))
      case Reserved =>
        if !c.authorized || request.expiresAt <= s.clock || k !in s.store.executions || k !in s.store.failures then
          Ending(s, w, RtDeny(id, "replay_authority_invalid", s.clock))
        else if request.notBefore > s.clock then s
        else if !StillAllowed(s, id, c.facts) then
          Ending(s, w, RtDeny(id, "replay_policy_changed", s.clock))
        else if !c.telegramAction || k.run !in s.runs then s
        else if !c.identityProven then
          Ending(s, w, RtDeny(id, "replay_input_identity_unproven", s.clock))
        else
          match ExecuteReplay(s.replay, RtTake(id, s.nextId, Following(s, k), s.clock))
          case Committed(replay) =>
            At(s.(replay := replay, nextId := s.nextId + 1,
                  grants := s.grants[s.nextId := Grant(ByReplay(k, id), w, s.clock)]),
               w, ReplayOwner(s.nextId, id))
          case _ => s
  }

  /** A claim that ends the replay acknowledges its message; one that finds it busy leaves it. */
  function Ending(s: System, w: nat, tx: ReplayTransaction): System
    requires w in s.workers
  {
    match ExecuteReplay(s.replay, tx)
    case Committed(replay) => At(s.(replay := replay), w, Settle(STOP, None))
    case _ => s
  }

  /** The policy still allows exactly the call that was requested. */
  ghost predicate StillAllowed(s: System, id: nat, facts: Policy.Facts)
    requires id in s.replay.requests
    requires s.replay.requests[id].key in s.store.executions && s.replay.requests[id].key in s.store.failures
  {
    var request := s.replay.requests[id];
    var e := Policy.Evaluate(CurrentFacts(s.store, s.replay, request.key, Some(id), facts), s.clock);
    && e.Decided? && e.verdict.status == Policy.RequiresApproval
    && e.verdict.actionFingerprint == Some(request.actionFp) && e.verdict.requestFingerprint == Some(request.requestFp)
    && e.verdict.handlerVersion == Some(request.handlerVersion)
    && e.verdict.notBefore.Some? && e.verdict.notBefore.value <= s.clock
  }

  function DoDecline(s: System, w: nat): System
    requires HasMessage(s, w)
  {
    match s.workers[w].pc
    case ReplayOwner(token, request) =>
      At(s, w, ReplayFinishing(token, request, None, FailedWith(Denial("unsupported_action_type"))))
    case _ => s
  }

  function DoPublish(s: System, w: nat, partition: nat, acknowledged: bool): System
    requires HasMessage(s, w) && s.workers[w].pc.Publishing? && partition < |s.topic|
  {
    var pc := s.workers[w].pc;
    At(s.(topic := Deliver(s.topic, partition, Ordinary(Key(Current(s, w).key.run, pc.next)))),
       w, if acknowledged && pc.ack then Committing else Idle)
  }

  /** The committed offset moves to just past this message, wherever another session had moved it. */
  function DoCommit(s: System, w: nat): System
    requires HasMessage(s, w) && s.workers[w].partition < |s.committed|
  {
    var worker := s.workers[w];
    s.(committed := s.committed[worker.partition := worker.position + 1],
       workers := s.workers[w := Worker(worker.partition, worker.position + 1, Idle)])
  }

  // ----- requests -----

  /** The request row the current policy verdict supports, if it allows a replay now. */
  ghost function NewRequest(s: System, key: Key, approval: nat, expiresAt: int, facts: Policy.Facts): Option<Request> {
    if key !in s.store.executions || key !in s.store.failures || expiresAt <= s.clock
      || !PolicyAllows(s.store, s.replay, key, None, facts, s.clock) then None
    else
      var v := Policy.Evaluate(CurrentFacts(s.store, s.replay, key, None, facts), s.clock).verdict;
      if v.actionFingerprint.None? || v.requestFingerprint.None? || v.handlerVersion.None? || v.notBefore.None? then None
      else Some(Request(key, approval, v.actionFingerprint.value, v.requestFingerprint.value, v.handlerVersion.value,
                        v.notBefore.value, expiresAt))
  }

  ghost function DoRequest(s: System, id: nat, key: Key, approval: nat, expiresAt: int, facts: Policy.Facts): System {
    match NewRequest(s, key, approval, expiresAt, facts)
    case Some(request) =>
      (match ExecuteReplay(s.replay, RtReserve(id, request))
       case Committed(replay) => s.(replay := replay)
       case _ => s)
    case None => s
  }

  // ----- one event -----


  /** What one event does; an event that does not fit the state does nothing. */
  ghost function Apply(s: System, e: Event): System {
    match e
    case Tick(ms) => s.(clock := s.clock + ms)
    case Ingest(run, actions, authorized) =>
      if !authorized || run in s.runs then s else s.(runs := s.runs[run := actions], outbox := s.outbox + {run})
    case ReadOutbox(p, rows) =>
      if 0 < |rows| <= 10 && (forall r | r in rows :: r in s.outbox)
      then s.(processors := s.processors[p := Sending(rows, 0)]) else s
    case SendOutbox(p, partition) =>
      if p in s.processors && s.processors[p].Sending? && s.processors[p].sent < |s.processors[p].rows| && partition < |s.topic|
      then DoSendOutbox(s, p, partition) else s
    case DeleteOutbox(p) =>
      if p in s.processors && s.processors[p].Deleting?
      then s.(outbox := s.outbox - (set r | r in s.processors[p].rows), processors := s.processors[p := Resting]) else s
    case StopProcessor(p) => s.(processors := s.processors[p := Resting])
    case Assign(w, partition) =>
      if partition < |s.topic| && partition < |s.committed|
      then s.(workers := s.workers[w := Worker(partition, s.committed[partition], Idle)]) else s
    case Fetch(w, fps, recovered) =>
      if HasMessage(s, w) && s.workers[w].pc.Idle? then DoFetch(s, w, fps, recovered) else s
    case Insert(w, v) => if HasMessage(s, w) && s.workers[w].pc.Claiming? then DoInsert(s, w, v) else s
    case Find(w) =>
      if HasMessage(s, w) && (s.workers[w].pc.Existing? || s.workers[w].pc.Raced?) then DoFind(s, w) else s
    case Fence(w) => if HasMessage(s, w) && s.workers[w].pc.Quarantining? then DoFence(s, w) else s
    case Refuse(w) => if HasMessage(s, w) && s.workers[w].pc.Owner? then DoRefuse(s, w) else s
    case Begin(w, provider) => if HasMessage(s, w) && s.workers[w].pc.Owner? then DoBegin(s, w, provider) else s
    case Invoke(w) => if HasMessage(s, w) then DoInvoke(s, w) else s
    case Respond(w, report) => if HasMessage(s, w) then DoRespond(s, w, report) else s
    case Finish(w) => if HasMessage(s, w) then DoFinish(s, w) else s
    case ClaimReplay(w, checks) => if HasMessage(s, w) && s.workers[w].pc.Idle? then DoClaimReplay(s, w, checks) else s
    case Decline(w) => if HasMessage(s, w) then DoDecline(s, w) else s
    case Publish(w, partition, acknowledged) =>
      if HasMessage(s, w) && s.workers[w].pc.Publishing? && partition < |s.topic|
      then DoPublish(s, w, partition, acknowledged) else s
    case Commit(w) =>
      if HasMessage(s, w) && s.workers[w].pc.Committing? && s.workers[w].partition < |s.committed| then DoCommit(s, w) else s
    case Drop(w) => if w in s.workers then At(s, w, Idle) else s
    case Quarantine(key, seen, at) =>
      if at <= s.clock
      then (match Execute(s.store, TxFence(key, seen, at, s.nextId, FromReconciler, None))
            case Committed(store) => s.(store := store, nextId := s.nextId + 1)
            case _ => s) else s
    case Repair(key, seen) =>
      (match Execute(s.store, TxRepair(key, seen, s.nextId))
       case Committed(store) => s.(store := store, nextId := s.nextId + 1)
       case _ => s)
    case RequestReplay(id, key, approval, expiresAt, authorized, facts) =>
      if authorized then DoRequest(s, id, key, approval, expiresAt, facts) else s
    case LeaseRequest(d, id) =>
      (match ExecuteReplay(s.replay, RtLease(id, s.nextId, s.clock))
       case Committed(replay) =>
         s.(replay := replay, nextId := s.nextId + 1,
            dispatchers := s.dispatchers[d := Leased(id, s.nextId, replay.replays[id].dispatchAttempts)])
       case _ => s)
    case SendRequest(d, partition, acknowledged) =>
      if d in s.dispatchers && s.dispatchers[d].Leased? && s.dispatchers[d].id in s.replay.requests && partition < |s.topic|
      then DoSendRequest(s, d, partition, acknowledged) else s
    case ReleaseRequest(d) =>
      if d in s.dispatchers && s.dispatchers[d].Leased?
      then Dispatched(s, d, RtRelease(s.dispatchers[d].id, s.dispatchers[d].token, s.dispatchers[d].attempts, s.clock)) else s
    case StampRequest(d) =>
      if d in s.dispatchers && s.dispatchers[d].Sent?
      then Dispatched(s, d, RtStamp(s.dispatchers[d].id, s.dispatchers[d].token, s.clock)) else s
    case StopDispatcher(d) => s.(dispatchers := s.dispatchers[d := Waiting])
  }

  function DoSendOutbox(s: System, p: nat, partition: nat): System
    requires p in s.processors && s.processors[p].Sending? && s.processors[p].sent < |s.processors[p].rows|
    requires partition < |s.topic|
  {
    var rows, sent := s.processors[p].rows, s.processors[p].sent + 1;
    s.(topic := Deliver(s.topic, partition, Ordinary(Key(rows[sent - 1], 0))),
       processors := s.processors[p := if sent == |rows| then Deleting(rows) else Sending(rows, sent)])
  }

  function DoSendRequest(s: System, d: nat, partition: nat, acknowledged: bool): System
    requires d in s.dispatchers && s.dispatchers[d].Leased? && s.dispatchers[d].id in s.replay.requests && partition < |s.topic|
  {
    var leased := s.dispatchers[d];
    s.(topic := Deliver(s.topic, partition, ReplayOrder(s.replay.requests[leased.id].key, leased.id)),
       dispatchers := if acknowledged then s.dispatchers[d := Sent(leased.id, leased.token)] else s.dispatchers)
  }

  function Dispatched(s: System, d: nat, tx: ReplayTransaction): System {
    var rest := s.(dispatchers := s.dispatchers[d := Waiting]);
    match ExecuteReplay(s.replay, tx)
    case Committed(replay) => rest.(replay := replay)
    case _ => rest
  }

  /** The state after a run of events. */
  ghost function Run(s: System, events: seq<Event>): System {
    if events == [] then s else Apply(Run(s, events[..|events| - 1]), events[|events| - 1])
  }
}
