/** One stage from claim to offset: the worker's sequence over the store, and the settlement of its message. */
module Orchestration {
  import opened Domain
  import opened ExecutionTables
  import opened ExecutionStore
  import opened ReplayTables
  import opened ReplayStore
  import P = Protocol

  datatype ClaimDecision = ClaimGranted | ClaimSuccess | ClaimFailed(failureId: nat) | ActivePending | NotResolved

  /** What an existing execution means to a rival claim. */
  method ReadDecision(db: ExecutionDb, key: Key) returns (d: ClaimDecision)
    ensures d == ClaimSuccess <==> key in db.executions && db.executions[key].status == Success
    ensures d.ClaimFailed? <==> key in db.executions && db.executions[key].status == Failed && key in db.failures
    ensures d.ClaimFailed? ==> d.failureId == db.failures[key].id
    ensures d == ActivePending <==> key in db.executions && db.executions[key].status == Pending
    ensures d != ClaimGranted
  {
    if key !in db.executions { return NotResolved; }
    match db.executions[key].status
    case Success => return ClaimSuccess;
    case Failed => if key in db.failures { return ClaimFailed(db.failures[key].id); } else { return NotResolved; }
    case Pending => return ActivePending;
  }

  /** A claim owns exactly a stage nobody ever claimed; of an existing execution it reports the outcome, it leaves a live
      owner alone, and it quarantines one whose lease ran out. Whichever of these it is decides the answer. */
  method Claim(db: ExecutionDb, key: Key, fps: Fingerprints, token: nat, now: Time, version: Option<Hash>, failureId: nat)
    returns (d: ClaimDecision)
    modifies db
    ensures d == ClaimGranted <==> key !in old(db.executions)
    ensures d == ClaimGranted ==> Create(old(db.View()), key, token, now, version, fps) == Committed(db.View())
    ensures d == ClaimSuccess <==> Settled(old(db.View()), key, Success)
    ensures d == ActivePending <==>
      StillHeld(old(db.View()), key, now) || (OverdueRow(old(db.View()), key, now) && key in old(db.failures))
    ensures d == NotResolved <==> Settled(old(db.View()), key, Failed) && key !in old(db.failures)
    ensures d.ClaimFailed? <==> key in old(db.executions) && d !in {ClaimSuccess, ActivePending, NotResolved}
    ensures d.ClaimFailed? ==> FailureNamed(db, key, d.failureId)
    ensures d.ClaimFailed? && OverdueRow(old(db.View()), key, now) ==>
      d.failureId == failureId && QuarantinedRow(old(db.View()), db.View(), key, now, FromOwner, Some(fps))
    ensures d != ClaimGranted && !(d.ClaimFailed? && OverdueRow(old(db.View()), key, now)) ==> db.View() == old(db.View())
  {
    var claimed := db.Insert(key, token, now, version, fps);
    if claimed { return ClaimGranted; }
    d := ReadDecision(db, key);
    if d != ActivePending { return d; }
    var existing := db.executions[key];
    if existing.leaseUntil.Some? && existing.leaseUntil.value > now { return ActivePending; }
    var done := db.FenceExpired(key, existing.token, now, failureId, FromOwner, Some(fps));
    if done { return ClaimFailed(failureId); }
    d := ReadDecision(db, key);
  }

  predicate StillHeld(t: Tables, key: Key, now: Time) {
    key in t.executions && t.executions[key].status == Pending && !OverdueRow(t, key, now)
  }

  predicate Settled(t: Tables, key: Key, status: Status) {
    key in t.executions && t.executions[key].status == status
  }

  /** The expired owner's stage has failed for good with an unknown outcome, which its new failure record repeats, and no
      attempt of it is open any more; nothing else has changed. */
  ghost predicate QuarantinedRow(t: Tables, u: Tables, key: Key, at: Time, source: EvidenceSource, fallback: Option<Fingerprints>) {
    && OnlyTouches(t, u, key)
    && key in t.executions && key in u.executions && key in u.failures
    && u.executions[key].status == Failed && u.executions[key].outcome == Some(Unknown)
    && u.executions[key].token == t.executions[key].token && u.executions[key].leaseUntil == None
    && u.executions[key].completedAt == Some(at) && u.executions[key].requiresHuman
    && u.failures[key].evidence == Evidence(None, None, Unknown, "lease_expired", None, None, None) && u.failures[key].source == source
    && u.failures[key].attempt == (if SomeOpen(t, key) then 1 else 0)
    && u.failures[key].actionFp == (if t.executions[key].actionFp.Some? then t.executions[key].actionFp
                                    else if fallback.Some? then Some(fallback.value.action) else None)
    && u.failures[key].requestFp == (if t.executions[key].requestFp.Some? then t.executions[key].requestFp
                                     else if fallback.Some? then Some(fallback.value.request) else None)
    && (forall id :: id in u.attempts && id.key == key ==>
      && id in t.attempts
      && u.attempts[id].status == if t.attempts[id].status == Started then Ended(Unknown) else t.attempts[id].status)
  }

  predicate FailureNamed(db: ExecutionDb, key: Key, failureId: nat)
    reads db
  {
    && key in db.executions && db.executions[key].status == Failed
    && key in db.failures && db.failures[key].id == failureId
  }

  /** What a stage is claimed for: the fingerprints of its call, and the version of the handler. */
  datatype Call = Call(fps: Fingerprints, version: Option<Hash>)

  /** Row, attempt and failure record all name the call. */
  predicate NamesCall(t: Tables, key: Key, number: nat, call: Call) {
    && key in t.executions && t.executions[key].handlerVersion == call.version
    && t.executions[key].actionFp == Some(call.fps.action) && t.executions[key].requestFp == Some(call.fps.request)
    && (AttemptId(key, number) in t.attempts ==>
      t.attempts[AttemptId(key, number)].actionFp == call.fps.action && t.attempts[AttemptId(key, number)].requestFp == call.fps.request)
    && (key in t.failures ==> t.failures[key].actionFp == Some(call.fps.action) && t.failures[key].requestFp == Some(call.fps.request))
  }

  /** The stage is owned under a token, with its attempt open, and nothing else has changed. */
  ghost predicate Opened(t: Tables, u: Tables, key: Key, token: nat, call: Call) {
    && OnlyTouches(t, u, key) && Owned(u, key, token) && Open(u, AttemptId(key, 1)) && key !in u.failures
    && NamesCall(u, key, 1, call)
  }

  /** What this worker left behind: the stage ended under its token with the reported outcome, its one attempt and, unless
      it was accepted, its failure record repeat the report; nothing else has changed. */
  ghost predicate EndedAs(t: Tables, u: Tables, key: Key, token: nat, call: Call, number: nat, report: Report, at: Time) {
    var id, outcome := AttemptId(key, number), OutcomeOf(report);
    && OnlyTouches(t, u, key)
    && key in u.executions && id in u.attempts
    && NamesCall(u, key, number, call)
    && u.executions[key].token == Some(token) && u.executions[key].outcome == Some(outcome)
    && u.executions[key].status == (if outcome == Accepted then Success else Failed)
    && u.executions[key].completedAt == Some(at) && u.executions[key].leaseUntil == None
    && (u.executions[key].requiresHuman <==> outcome != Accepted)
    && u.attempts[id].completedAt == Some(at)
    && match report
       case AcceptedBy(_, receipt) =>
         u.attempts[id].status == Ended(Accepted) && u.attempts[id].receipt == SafeReceipt(receipt) && key !in u.failures
       case FailedWith(evidence) =>
         && Repeats(u.attempts[id], evidence.(receipt := SafeReceipt(evidence.receipt)))
         && key in u.failures && u.failures[key].attempt == number && u.failures[key].source == FromOwner
         && u.failures[key].evidence == evidence.(receipt := SafeReceipt(evidence.receipt))
  }

  /** A stage no trace of which is on record. */
  predicate Fresh(t: Tables, key: Key) {
    key !in t.executions && key !in t.failures && forall id | id in t.attempts :: id.key != key
  }

  lemma FreshRefused(t: Tables, u: Tables, key: Key, token: nat, now: Time, version: Option<Hash>, fps: Fingerprints, failureId: nat)
    requires Fresh(t, key) && Create(t, key, token, now, version, fps) == Committed(u)
    ensures var tx := PersistFailure(u, key, token, 0, Unsupported(), true, now, failureId);
      tx.Committed? && EndedAs(t, tx.state, key, token, Call(fps, version), 0, FailedWith(Unsupported()), now)
  {
  }

  lemma FreshBegins(t: Tables, u: Tables, key: Key, token: nat, now: Time, version: Option<Hash>, fps: Fingerprints, provider: Provider)
    requires Fresh(t, key) && Create(t, key, token, now, version, fps) == Committed(u)
    ensures var tx := StartAttempt(u, key, token, 1, provider);
      tx.Committed? && Opened(t, tx.state, key, token, Call(fps, version))
  {
  }

  lemma BeginsOnce(t: Tables, u: Tables, key: Key, token: nat, now: Time, version: Option<Hash>, fps: Fingerprints, provider: Provider)
    requires Create(t, key, token, now, version, fps) == Committed(u)
    ensures StartAttempt(u, key, token, 1, provider).Committed? <==> AttemptId(key, 1) !in t.attempts
  {
  }

  lemma BegunFails(t: Tables, u: Tables, key: Key, token: nat, call: Call, evidence: Evidence, now: Time, failureId: nat)
    requires Opened(t, u, key, token, call)
    requires evidence.outcome != Accepted
    ensures var tx := PersistFailure(u, key, token, 1, evidence, false, now, failureId);
      tx.Committed? && EndedAs(t, tx.state, key, token, call, 1, FailedWith(evidence), now)
  {
    hide OnlyTouches;
    var tx := TxFail(key, token, evidence, now, failureId);
    assert Execute(u, tx).Committed?;
    TouchesItsKey(u, tx);
    TouchesTwice(t, u, Execute(u, tx).state, key);
  }

  lemma TouchesTwice(t: Tables, u: Tables, v: Tables, key: Key)
    requires OnlyTouches(t, u, key) && OnlyTouches(u, v, key)
    ensures OnlyTouches(t, v, key)
  {
  }

  lemma BegunSucceeds(t: Tables, u: Tables, key: Key, token: nat, call: Call, provider: Provider, receipt: Option<string>, now: Time)
    requires Opened(t, u, key, token, call)
    ensures var tx := FinalizeSuccess(u, key, token, 1, receipt, now);
      tx.Committed? && EndedAs(t, tx.state, key, token, call, 1, AcceptedBy(provider, receipt), now)
  {
  }

  lemma Ends(u: Tables, key: Key, token: nat, number: nat, evidence: Evidence, create: bool, receipt: Option<string>, now: Time, failureId: nat)
    requires evidence.outcome != Accepted
    ensures var tx := PersistFailure(u, key, token, number, evidence, create, now, failureId);
      tx.Committed? ==> Settled(tx.state, key, Failed) && key in tx.state.failures && tx.state.executions[key].outcome == Some(evidence.outcome)
    ensures var tx := FinalizeSuccess(u, key, token, number, receipt, now);
      tx.Committed? ==> Settled(tx.state, key, Success)
  {
  }

  function Unsupported(): Evidence {
    Evidence(None, None, NotAttempted, "unsupported_action_type", None, None, None)
  }

  /** One worker alone with a stage. A stage on record is never called again: a success is acknowledged and advances, a
      failure on record and an expired owner stop it, a live owner and an older failure without a record leave it
      unresolved. A stage nobody claimed is called once if it has a handler, and ends as the report says. */
  method ExecuteStage(db: ExecutionDb, key: Key, fps: Fingerprints, handler: Option<Provider>, report: Report,
                      token: nat, now: Time, version: Option<Hash>, failureId: nat)
    returns (resolution: P.Resolution, called: bool)
    requires P.Honest(report)
    modifies db
    ensures called <==> key !in old(db.executions) && handler.Some? && AttemptId(key, 1) !in old(db.attempts)
    ensures resolution in {P.ADVANCE, P.STOP, P.UNRESOLVED}
    ensures Settled(old(db.View()), key, Success) ==> resolution == P.ADVANCE && db.View() == old(db.View())
    ensures Settled(old(db.View()), key, Failed) ==>
      resolution == (if key in old(db.failures) then P.STOP else P.UNRESOLVED) && db.View() == old(db.View())
    ensures StillHeld(old(db.View()), key, now) ==> resolution == P.UNRESOLVED && db.View() == old(db.View())
    ensures OverdueRow(old(db.View()), key, now) && key !in old(db.failures) ==>
      resolution == P.STOP && QuarantinedRow(old(db.View()), db.View(), key, now, FromOwner, Some(fps))
    ensures OverdueRow(old(db.View()), key, now) && key in old(db.failures) ==>
      resolution == P.UNRESOLVED && db.View() == old(db.View())
    ensures Fresh(old(db.View()), key) ==>
      && called == handler.Some?
      && resolution == (if called && report.AcceptedBy? then P.ADVANCE else P.STOP)
      && EndedAs(old(db.View()), db.View(), key, token, Call(fps, version), if called then 1 else 0,
                 if called then report
                 else FailedWith(Evidence(None, None, NotAttempted, "unsupported_action_type", None, None, None)), now)
    ensures resolution == P.ADVANCE && called ==> report.AcceptedBy?
    ensures resolution == P.ADVANCE ==> Settled(db.View(), key, Success)
    ensures resolution == P.STOP ==> Settled(db.View(), key, Failed) && key in db.failures
    ensures resolution == P.STOP && called ==> report.FailedWith? && db.executions[key].outcome == Some(report.evidence.outcome)
  {
    hide PersistFailure, FinalizeSuccess, StartAttempt, Create, OnlyTouches, EndedAs, Opened, QuarantinedRow;
    called := false;
    var claim := Claim(db, key, fps, token, now, version, failureId);
    if claim == ClaimSuccess { return P.ADVANCE, false; }
    if claim.ClaimFailed? { return P.STOP, false; }
    if claim != ClaimGranted { return P.UNRESOLVED, false; }

    ghost var t, u := old(db.View()), db.View();
    var saved: FinalizeDecision;
    if handler.None? {
      if Fresh(t, key) { FreshRefused(t, u, key, token, now, version, fps, failureId); }
      Ends(u, key, token, 0, Unsupported(), true, None, now, failureId);
      saved := db.PersistFailure(key, token, 0, Unsupported(), true, now, failureId);
      return if saved.FailedAs? then P.STOP else P.UNRESOLVED, false;
    }
    if Fresh(t, key) { FreshBegins(t, u, key, token, now, version, fps, handler.value); }
    BeginsOnce(t, u, key, token, now, version, fps, handler.value);
    saved := db.StartAttempt(key, token, 1, handler.value);
    if saved != Finalized { return P.UNRESOLVED, false; }
    called := true;
    u := db.View();
    match report {
      case FailedWith(evidence) =>
        if Fresh(t, key) { BegunFails(t, u, key, token, Call(fps, version), evidence, now, failureId); }
        Ends(u, key, token, 1, evidence, false, None, now, failureId);
        saved := db.PersistFailure(key, token, 1, evidence, false, now, failureId);
        resolution := if saved.FailedAs? then P.STOP else P.UNRESOLVED;
      case AcceptedBy(provider, receipt) =>
        if Fresh(t, key) { BegunSucceeds(t, u, key, token, Call(fps, version), provider, receipt, now); }
        Ends(u, key, token, 1, Unsupported(), false, receipt, now, failureId);
        saved := db.FinalizeSuccess(key, token, 1, receipt, now);
        resolution := if saved == Finalized then P.ADVANCE else P.UNRESOLVED;
    }
  }

  /** What the worker takes a replayed call for: it was delivered only when its own provider accepted it. */
  function Believed(handler: bool, report: Report): Report {
    if !handler then FailedWith(Evidence(Some(Telegram), Some(Send), NotAttempted, "unsupported_action_type", None, None, None))
    else if report.FailedWith? || report.provider == Telegram then report
    else FailedWith(Evidence(Some(Telegram), Some(Send), Unknown, "outcome_unknown", None, None, None))
  }

  /** The result of the call is on record, field by field, in row, attempt and, unless it was accepted, failure record;
      nothing else has changed. */
  ghost predicate ReplayEndedAs(t: ReplayTables, u: ReplayTables, id: nat, report: Report, at: Time) {
    var outcome := OutcomeOf(report);
    && OnlyTouchesReplay(t, u, id) && id in u.replays && id in u.attempts
    && u.replays[id].status == (match outcome
                                case Accepted => ReplaySuccess
                                case Unknown => ReplayUnknown
                                case _ => ReplayFailed)
    && u.replays[id].completedAt == Some(at) && u.replays[id].token == None && u.replays[id].leaseUntil == None
    && u.attempts[id].status == Ended(outcome) && u.attempts[id].completedAt == Some(at)
    && (id in u.failures <==> outcome != Accepted)
    && match report
       case AcceptedBy(provider, receipt) => u.attempts[id].provider == Some(provider) && u.attempts[id].receipt == SafeReceipt(receipt)
       case FailedWith(evidence) =>
         && Repeats(u.attempts[id], evidence.(receipt := SafeReceipt(evidence.receipt)))
         && (id in u.failures ==> u.failures[id].evidence == evidence.(receipt := SafeReceipt(evidence.receipt)))
  }

  lemma Taken(t: ReplayTables, u: ReplayTables, id: nat, token: nat, nextStage: Option<nat>, at: Time)
    requires TakenOver(t, u, id, token, nextStage, at)
    ensures id in u.replays && u.replays[id].nextStage == nextStage
  {
  }

  lemma CompletedAs(t: ReplayTables, u: ReplayTables, id: nat, token: nat, nextStage: Option<nat>, report: Report, at: Time, later: Time)
    requires TakenOver(t, u, id, token, nextStage, at) && P.Honest(report)
    ensures id !in t.failures && later < at + 120_000 ==>
      var tx := Complete(u, id, token, report, later);
      tx.Committed? && ReplayEndedAs(t, tx.state, id, report, later)
    ensures later >= at + 120_000 ==> !Complete(u, id, token, report, later).Committed?
    ensures Complete(u, id, token, report, later).Committed? && report.AcceptedBy? ==>
      var v := Complete(u, id, token, report, later).state;
      id in v.replays && v.replays[id].status == ReplaySuccess && v.replays[id].nextStage == nextStage
  {
  }

  /** A replay from claim to record. The provider is called exactly under a fresh claim and with a handler. A result inside
      the lease is recorded and acknowledged, and hands on the next stage exactly when it was delivered; one that comes after
      the lease ran out changes nothing and acknowledges nothing. Without a claim the answer is what is on record. */
  method ExecuteReplayStage(db: ReplayDb, id: nat, key: Key, enabled: bool, found: Findings, handler: bool, report: Report,
                            token: nat, claimedAt: Time, finishedAt: Time)
    returns (resolution: P.Resolution, called: bool)
    requires P.Honest(report)
    modifies db
    ensures var claims := enabled && Ready(old(db.View()), id, key, found, claimedAt) && id !in old(db.attempts);
      && called == (claims && handler)
      && (claims && id !in old(db.failures) && finishedAt < claimedAt + 120_000 ==>
        && ReplayEndedAs(old(db.View()), db.View(), id, Believed(handler, report), finishedAt)
        && resolution == if Believed(handler, report).AcceptedBy? then P.Resolution(true, true, P.Given(found.nextStage)) else P.STOP)
      && (claims && finishedAt >= claimedAt + 120_000 ==>
        && resolution == P.UNRESOLVED
        && TakenOver(old(db.View()), db.View(), id, token, found.nextStage, claimedAt))
    ensures enabled && Asked(old(db.View()), id, key) && old(db.replays)[id].status == ReplaySuccess ==>
      resolution == P.Resolution(true, true, P.Given(old(db.replays)[id].nextStage)) && db.View() == old(db.View())
    ensures enabled && Finishes(old(db.View()), id, key, found, claimedAt) ==> resolution == P.STOP
    ensures !enabled || Waits(old(db.View()), id, key, found, claimedAt) ==>
      resolution == P.UNRESOLVED && db.View() == old(db.View())
    ensures resolution.advance ==>
      && resolution.ack && id in db.replays && db.replays[id].status == ReplaySuccess
      && resolution.nextStage == P.Given(db.replays[id].nextStage)
  {
    hide TakenOver, EndedFor, ReplayEndedAs, Complete, Take;
    called := false;
    var claim := db.Claim(id, key, enabled, found, token, claimedAt);
    match claim
    case Succeeded(next) => return P.Resolution(true, true, P.Given(next)), false;
    case Terminated => return P.STOP, false;
    case Claimed =>
      ghost var t, u := old(db.View()), db.View();
      Taken(t, u, id, token, found.nextStage, claimedAt);
      var next := db.replays[id].nextStage;
      var evidence := FailedWith(Denial("unsupported_action_type"));
      if handler {
        called := true;
        evidence := P.Trusted(report);
      }
      CompletedAs(t, u, id, token, found.nextStage, evidence, claimedAt, finishedAt);
      var saved := db.Complete(id, token, evidence, finishedAt);
      return if saved && evidence.AcceptedBy? then P.Resolution(true, true, P.Given(next))
             else P.Resolution(saved, false, P.Unspecified), called;
    case _ => return P.UNRESOLVED, false;
  }

  // ----- settlement -----

  datatype Effect = SentStage(run: nat, stage: nat) | CommittedTo(partition: nat, offset: nat)

  class Transport {
    var effects: seq<Effect>

    constructor ()
      ensures effects == []
    {
      effects := [];
    }

    method Send(run: nat, stage: nat)
      modifies this
      ensures effects == old(effects) + [SentStage(run, stage)]
    {
      effects := effects + [SentStage(run, stage)];
    }

    method CommitOffsets(partition: nat, offset: nat)
      modifies this
      ensures effects == old(effects) + [CommittedTo(partition, offset)]
    {
      effects := effects + [CommittedTo(partition, offset)];
    }
  }

  /** The effects a resolution has: the next stage is handed on before the offset moves, and an unresolved message never
      moves it. */
  method SettleMessage(resolution: P.Resolution, run: nat, ordinaryNext: Option<nat>, partition: nat, offset: nat,
                       acknowledged: bool, transport: Transport) returns (threw: bool)
    modifies transport
    ensures old(transport.effects) <= transport.effects
    ensures var next := if !resolution.advance then None
                        else if resolution.nextStage.Given? then resolution.nextStage.stage else ordinaryNext;
      var commits := resolution.ack && (next.Some? ==> acknowledged);
      && transport.effects == old(transport.effects)
         + (if next.Some? then [SentStage(run, next.value)] else []) + (if commits then [CommittedTo(partition, offset + 1)] else [])
      && threw == !commits
      // The protocol's worker takes the same way.
      && P.Settle(resolution, ordinaryNext)
         == if next.Some? then P.Publishing(next.value, resolution.ack) else if resolution.ack then P.Committing else P.Idle
  {
    var nextStage := if !resolution.advance then None
                     else if resolution.nextStage.Given? then resolution.nextStage.stage else ordinaryNext;
    if nextStage.Some? {
      transport.Send(run, nextStage.value);
      if !acknowledged { return true; }
    }
    if !resolution.ack { return true; }
    transport.CommitOffsets(partition, offset + 1);
    return false;
  }
}
