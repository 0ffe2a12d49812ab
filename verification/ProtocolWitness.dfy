/** Runs that show the system does what its theorems allow: a delivery, and a second call as a cooled replay. */
module ProtocolWitness {
  import opened Domain
  import opened ExecutionTables
  import opened R = ReplayTables
  import opened Protocol
  import opened ProtocolTheorems
  import opened ReplayTheorems
  import Policy = ReplayPolicy

  const RUN: nat := 7
  const STAGE := Key(7, 0)
  const FPS := Fingerprints(11, 12)
  const TOKEN: nat := 0

  /** One topic partition, nothing done yet. */
  function Fresh(): System {
    System(0, 0, map[], {}, Tables(map[], map[], map[]), ReplayTables(map[], map[], map[], map[]), [[]], [0],
           map[], map[], map[], {}, map[], [])
  }

  lemma FreshIsInit()
    ensures Init(Fresh())
  {
  }

  ghost predicate Reaches(s: System) {
    exists events :: Run(Fresh(), events) == s
  }

  lemma ReachesNext(s: System, e: Event)
    requires Reaches(s)
    ensures Reaches(Apply(s, e))
  {
    hide Apply;
    var events :| Run(Fresh(), events) == s;
    assert (events + [e])[..|events|] == events;
    assert Run(Fresh(), events + [e]) == Apply(s, e);
  }

  lemma InvokeIs(s: System, w: nat)
    requires HasMessage(s, w)
    ensures Apply(s, Invoke(w)) == DoInvoke(s, w)
  {
    hide DoInvoke;
  }

  lemma RespondIs(s: System, w: nat, report: Report)
    requires HasMessage(s, w)
    ensures Apply(s, Respond(w, report)) == DoRespond(s, w, report)
  {
    hide DoRespond;
  }

  lemma CommitIs(s: System, w: nat)
    requires HasMessage(s, w) && s.workers[w].pc.Committing? && s.workers[w].partition < |s.committed|
    ensures Apply(s, Commit(w)) == DoCommit(s, w)
  {
    hide DoCommit;
  }

  // ----- ingestion and the outbox -----

  function Ingested(): System {
    Fresh().(runs := map[RUN := 1], outbox := {RUN})
  }

  function Sent(): System {
    Fresh().(runs := map[RUN := 1], topic := [[Ordinary(STAGE)]], processors := map[0 := Resting])
  }

  lemma ReachIngested()
    ensures Reaches(Ingested())
  {
    assert Run(Fresh(), []) == Fresh();
    ReachesNext(Fresh(), Ingest(RUN, 1, true));
    assert Apply(Fresh(), Ingest(RUN, 1, true)) == Ingested();
  }

  lemma ReachSent()
    ensures Reaches(Sent())
  {
    hide Reaches;
    ReachIngested();
    var read := Ingested().(processors := map[0 := Sending([RUN], 0)]);
    ReachesNext(Ingested(), ReadOutbox(0, [RUN]));
    assert Apply(Ingested(), ReadOutbox(0, [RUN])) == read;
    OutboxSent(read);
  }

  lemma OneDelivery(m: Message)
    ensures Deliver([[]], 0, m) == [[m]]
  {
    var topic: seq<seq<Message>> := [[]];
    assert topic[0] + [m] == [m];
    assert topic[0 := [m]] == [[m]];
  }

  lemma OutboxSent(read: System)
    requires read == Ingested().(processors := map[0 := Sending([RUN], 0)]) && Reaches(read)
    ensures Reaches(Sent())
  {
    hide Reaches;
    var sent := Ingested().(topic := [[Ordinary(STAGE)]], processors := map[0 := Deleting([RUN])]);
    ReachesNext(read, SendOutbox(0, 0));
    OneDelivery(Ordinary(STAGE));
    assert DoSendOutbox(read, 0, 0) == sent;
    assert Apply(read, SendOutbox(0, 0)) == sent;
    OutboxDeleted(sent);
  }

  lemma OutboxDeleted(sent: System)
    requires sent == Ingested().(topic := [[Ordinary(STAGE)]], processors := map[0 := Deleting([RUN])]) && Reaches(sent)
    ensures Reaches(Sent())
  {
    hide Reaches;
    ReachesNext(sent, DeleteOutbox(0));
    assert sent.outbox - (set r | r in [RUN]) == {};
    assert Apply(sent, DeleteOutbox(0)) == Sent();
  }

  // ----- one worker claims and calls -----

  function Assigned(pc: Pc): System {
    Sent().(workers := map[1 := Worker(0, 0, pc)])
  }

  function Row(): Execution {
    Execution(Pending, Some(TOKEN), Some(LEASE_MS), None, None, false, Some(13), Some(11), Some(12))
  }

  function OwnedBy(pc: Pc, attempts: map<AttemptId, Attempt>, log: seq<Call>): System {
    Assigned(pc).(store := Tables(map[STAGE := Row()], attempts, map[]), nextId := 1,
                  grants := map[TOKEN := Grant(ByMessage(STAGE), 1, 0)], log := log)
  }

  function OpenedAttempt(): Attempt {
    Attempt(AttemptStatus.Started, Some(Telegram), None, None, None, None, None, None, 11, 12)
  }

  function FirstCall(state: CallState): Call {
    Call(TOKEN, ByMessage(STAGE), 0, state)
  }

  lemma ReachClaiming()
    ensures Reaches(Assigned(Claiming(FPS)))
  {
    hide Reaches;
    ReachSent();
    ReachesNext(Sent(), Assign(1, 0));
    assert Apply(Sent(), Assign(1, 0)) == Assigned(Idle);
    ReachesNext(Assigned(Idle), Fetch(1, FPS, None));
    assert DoFetch(Assigned(Idle), 1, FPS, None) == Assigned(Claiming(FPS));
  }

  lemma ReachOwner()
    ensures Reaches(OwnedBy(Owner(TOKEN), map[], []))
  {
    hide Reaches;
    ReachClaiming();
    var s := Assigned(Claiming(FPS));
    ReachesNext(s, Insert(1, Some(13)));
    assert DoInsert(s, 1, Some(13)) == OwnedBy(Owner(TOKEN), map[], []);
  }

  lemma ReachBegun()
    ensures Reaches(OwnedBy(Begun(TOKEN), map[AttemptId(STAGE, 1) := OpenedAttempt()], []))
  {
    hide Reaches;
    ReachOwner();
    var s := OwnedBy(Owner(TOKEN), map[], []);
    ReachesNext(s, Begin(1, Telegram));
    assert DoBegin(s, 1, Telegram) == OwnedBy(Begun(TOKEN), map[AttemptId(STAGE, 1) := OpenedAttempt()], []);
  }

  lemma ReachInCall()
    ensures Reaches(OwnedBy(InCall(TOKEN, 0), map[AttemptId(STAGE, 1) := OpenedAttempt()], [FirstCall(InFlight)]))
  {
    hide Reaches, Apply;
    ReachBegun();
    var s := OwnedBy(Begun(TOKEN), map[AttemptId(STAGE, 1) := OpenedAttempt()], []);
    ReachesNext(s, Invoke(1));
    InvokeIs(s, 1);
    assert DoInvoke(s, 1) == OwnedBy(InCall(TOKEN, 0), map[AttemptId(STAGE, 1) := OpenedAttempt()], [FirstCall(InFlight)]);
  }

  function Answered(report: Report): System {
    OwnedBy(Finishing(TOKEN, 0, report), map[AttemptId(STAGE, 1) := OpenedAttempt()], [FirstCall(Reported(OutcomeOf(report)))])
  }

  lemma ReachAnswered(report: Report)
    requires Honest(report)
    ensures Reaches(Answered(report))
  {
    hide Reaches, Apply;
    ReachInCall();
    var s := OwnedBy(InCall(TOKEN, 0), map[AttemptId(STAGE, 1) := OpenedAttempt()], [FirstCall(InFlight)]);
    ReachesNext(s, Respond(1, report));
    RespondIs(s, 1, report);
    assert s.log[0 := s.log[0].(state := Reported(OutcomeOf(report)))] == [FirstCall(Reported(OutcomeOf(report)))];
    assert DoRespond(s, 1, report) == Answered(report);
  }

  // ----- a delivery -----

  const ACCEPTANCE := AcceptedBy(Telegram, None)

  function Delivered(pc: Pc, position: nat): System {
    Answered(ACCEPTANCE).(
      store := Tables(map[STAGE := Closed(Row(), Accepted, 0)],
                      map[AttemptId(STAGE, 1) := OpenedAttempt().(status := Ended(Accepted), phase := Some(Send), completedAt := Some(0))],
                      map[]),
      workers := map[1 := Worker(0, position, pc)], committed := [position])
  }

  lemma SuccessFinalizes()
    ensures Execute(Answered(ACCEPTANCE).store, TxSucceed(STAGE, TOKEN, None, 0)) == Committed(Delivered(Committing, 0).store)
  {
    var t := Answered(ACCEPTANCE).store;
    var row, attempt := Closed(Row(), Accepted, 0), Delivered(Committing, 0).store.attempts[AttemptId(STAGE, 1)];
    assert t.executions[STAGE := row] == map[STAGE := row];
    assert t.attempts[AttemptId(STAGE, 1) := attempt] == map[AttemptId(STAGE, 1) := attempt];
  }

  lemma ReachDelivered()
    ensures Reaches(Delivered(Committing, 0))
  {
    hide Reaches, Execute, Apply;
    ReachAnswered(ACCEPTANCE);
    SuccessFinalizes();
    var s := Answered(ACCEPTANCE);
    ReachesNext(s, Finish(1));
    assert DoFinish(s, 1) == Delivered(Committing, 0);
    FinishIs(s, 1);
  }

  lemma ReachCommitted()
    ensures Reaches(Delivered(Idle, 1))
  {
    hide Reaches, Apply;
    ReachDelivered();
    var s := Delivered(Committing, 0);
    ReachesNext(s, Commit(1));
    CommitIs(s, 1);
    assert DoCommit(s, 1) == Delivered(Idle, 1);
  }

  /** A run in which a stage is delivered and its offset passes. */
  lemma DeliveryHappens()
    ensures Init(Fresh())
    ensures exists events :: Run(Fresh(), events) == Delivered(Idle, 1)
    ensures Delivered(Idle, 1).log == [FirstCall(Reported(Accepted))] && Delivered(Idle, 1).committed == [1]
  {
    FreshIsInit();
    ReachCommitted();
  }

  // ----- a rejection, a cooldown and a replay -----

  const LIMITED := Evidence(Some(Telegram), Some(Send), Rejected, TELEGRAM_RATE_LIMITED, Some(429), Some(1), None)
  const REJECTION := FailedWith(LIMITED)
  const REPLAY: nat := 5
  const WANTED := Request(STAGE, 3, 11, 12, 13, 1_000, 100_000)

  function FailedStore(): Tables {
    Tables(map[STAGE := Closed(Row(), Rejected, 0)],
           map[AttemptId(STAGE, 1) := Settled(OpenedAttempt(), LIMITED, 0)],
           map[STAGE := Failure(1, 1, LIMITED, FromOwner, Some(11), Some(12))])
  }

  function FailedSystem(pc: Pc, position: nat): System {
    Answered(REJECTION).(store := FailedStore(), nextId := 2, workers := map[1 := Worker(0, position, pc)], committed := [position])
  }

  lemma FailureFinalizes()
    ensures Execute(Answered(REJECTION).store, TxFail(STAGE, TOKEN, LIMITED, 0, 1)) == Committed(FailedStore())
  {
    var t := Answered(REJECTION).store;
    var row, attempt := Closed(Row(), Rejected, 0), Settled(OpenedAttempt(), LIMITED, 0);
    assert t.executions[STAGE := row] == map[STAGE := row];
    assert t.attempts[AttemptId(STAGE, 1) := attempt] == map[AttemptId(STAGE, 1) := attempt];
  }

  lemma ReachFailed()
    ensures Reaches(FailedSystem(Committing, 0))
  {
    hide Reaches, Execute, Apply;
    ReachAnswered(REJECTION);
    FailureFinalizes();
    var s := Answered(REJECTION);
    ReachesNext(s, Finish(1));
    assert DoFinish(s, 1) == FailedSystem(Committing, 0);
    FinishIs(s, 1);
  }

  function Cooled(): System {
    FailedSystem(Idle, 1).(clock := 1_000)
  }

  lemma ReachCooled()
    ensures Reaches(Cooled())
  {
    hide Reaches;
    ReachFailed();
    var s := FailedSystem(Committing, 0);
    ReachesNext(s, Commit(1));
    assert DoCommit(s, 1) == FailedSystem(Idle, 1);
    ReachesNext(FailedSystem(Idle, 1), Tick(1_000));
    assert Apply(FailedSystem(Idle, 1), Tick(1_000)) == Cooled();
  }

  /** What other tables say of the case: an approved candidate with unchanged inputs and handler. */
  function CaseFacts(): Policy.Facts {
    Policy.Facts(Policy.ReplayCandidate, Policy.WaitThenReplay, Policy.F01, Policy.RetryRow, Policy.Captured, true,
      None, None, None, None, None, [], false, None, None, true, true, false, false, 0, true,
      Some(11), Some(12), Some(11), Some(12), Some(13), Some(13))
  }

  lemma PolicyAllowsIt(r: R.ReplayTables, exclude: Option<nat>)
    requires Siblings(r, STAGE, exclude) == {}
    ensures var e := Policy.Evaluate(CurrentFacts(FailedStore(), r, STAGE, exclude, CaseFacts()), 1_000);
      && e.Decided? && e.verdict.status == Policy.RequiresApproval && e.verdict.notBefore == Some(1_000)
      && e.verdict.actionFingerprint == Some(11) && e.verdict.requestFingerprint == Some(12)
      && e.verdict.handlerVersion == Some(13)
  {
    hide Policy.Reasons, CurrentFacts, Policy.Grounded, Policy.CooledDown, Policy.NotBefore;
    var f := CurrentFacts(FailedStore(), r, STAGE, exclude, CaseFacts());
    CaseIsGrounded(r, exclude);
    HistoryIsSafe();
    Policy.RequiresApprovalExactly(f, 1_000);
  }

  lemma CaseIsGrounded(r: R.ReplayTables, exclude: Option<nat>)
    requires Siblings(r, STAGE, exclude) == {}
    ensures var f := CurrentFacts(FailedStore(), r, STAGE, exclude, CaseFacts());
      && Policy.Grounded(f) && f.attempts == AttemptFacts(FailedStore(), STAGE)
      && f.actionFingerprint == Some(11) && f.requestFingerprint == Some(12) && f.handlerVersion == Some(13)
      && f.disposition == Policy.ReplayCandidate
  {
    hide Siblings, AttemptFacts, Policy.SafeHistory;
    HistoryIsSafe();
    EvidenceAgrees();
  }

  lemma EvidenceAgrees()
    ensures ConsistentEvidence(FailedStore(), STAGE)
    ensures EarlierSucceeded(FailedStore(), STAGE) && !LaterExists(FailedStore(), STAGE)
  {
  }

  lemma HistoryIsSafe()
    ensures var facts := AttemptFacts(FailedStore(), STAGE);
      Policy.SafeHistory(facts) && Policy.NotBefore(facts) == 1_000 && Policy.CooledDown(facts, 1_000)
  {
    var facts := AttemptFacts(FailedStore(), STAGE);
    assert facts == [AttemptFact(Settled(OpenedAttempt(), LIMITED, 0))];
  }

  function Requested(row: Replay): R.ReplayTables {
    ReplayTables(map[REPLAY := WANTED], map[REPLAY := row], map[], map[])
  }

  function ReservedRow(): Replay {
    Replay(Reserved, None, None, None, None, None, None, 0, None, None)
  }

  lemma ReachRequested()
    ensures Reaches(Cooled().(replay := Requested(ReservedRow())))
  {
    hide Reaches, Policy.Evaluate, CurrentFacts;
    ReachCooled();
    var s := Cooled();
    PolicyAllowsIt(s.replay, None);
    var e := RequestReplay(REPLAY, STAGE, 3, 100_000, true, CaseFacts());
    ReachesNext(s, e);
    assert NewRequest(s, STAGE, 3, 100_000, CaseFacts()) == Some(WANTED);
    assert ExecuteReplay(s.replay, RtReserve(REPLAY, WANTED)) == Committed(Requested(ReservedRow()));
    assert Apply(s, e) == DoRequest(s, REPLAY, STAGE, 3, 100_000, CaseFacts());
  }

  function LeasedRow(): Replay {
    ReservedRow().(dispatchToken := Some(2), dispatchLease := Some(121_000), dispatchAttempts := 1)
  }

  function Dispatching(d: Dispatcher, messages: seq<Message>): System {
    Cooled().(replay := Requested(LeasedRow()), nextId := 3, dispatchers := map[0 := d], topic := [messages])
  }

  lemma ReachLeased()
    ensures Reaches(Dispatching(Leased(REPLAY, 2, 1), [Ordinary(STAGE)]))
  {
    hide Reaches;
    ReachRequested();
    var s := Cooled().(replay := Requested(ReservedRow()));
    ReachesNext(s, LeaseRequest(0, REPLAY));
    assert s.replay.replays[REPLAY := LeasedRow()] == map[REPLAY := LeasedRow()];
    assert ExecuteReplay(s.replay, RtLease(REPLAY, 2, 1_000)) == Committed(Requested(LeasedRow()));
    assert Apply(s, LeaseRequest(0, REPLAY)) == Dispatching(Leased(REPLAY, 2, 1), [Ordinary(STAGE)]);
  }

  function Ordered(): System {
    Dispatching(Dispatcher.Sent(REPLAY, 2), [Ordinary(STAGE), ReplayOrder(STAGE, REPLAY)])
  }

  lemma ReachOrdered()
    ensures Reaches(Ordered())
  {
    hide Reaches;
    ReachLeased();
    var s := Dispatching(Leased(REPLAY, 2, 1), [Ordinary(STAGE)]);
    ReachesNext(s, SendRequest(0, 0, true));
    SecondDelivery(s.topic);
    assert DoSendRequest(s, 0, 0, true) == Ordered();
    assert Apply(s, SendRequest(0, 0, true)) == DoSendRequest(s, 0, 0, true);
  }

  lemma SecondDelivery(topic: seq<seq<Message>>)
    requires topic == [[Ordinary(STAGE)]]
    ensures Deliver(topic, 0, ReplayOrder(STAGE, REPLAY)) == [[Ordinary(STAGE), ReplayOrder(STAGE, REPLAY)]]
  {
    assert topic[0] + [ReplayOrder(STAGE, REPLAY)] == [Ordinary(STAGE), ReplayOrder(STAGE, REPLAY)];
  }

  function RunningRow(): Replay {
    LeasedRow().(status := Running, token := Some(3), leaseUntil := Some(121_000))
  }

  function Replaying(pc: Pc, log: seq<Call>): System {
    Ordered().(
      replay := ReplayTables(map[REPLAY := WANTED], map[REPLAY := RunningRow()], map[REPLAY := OpenAttempt(WANTED)], map[]),
      nextId := 4,
      grants := map[TOKEN := Grant(ByMessage(STAGE), 1, 0), 3 := Grant(ByReplay(STAGE, REPLAY), 1, 1_000)],
      workers := map[1 := Worker(0, 1, pc)], log := log)
  }

  const FIRST := FirstCall(Reported(Rejected))

  const CHECKS := ReplayChecks(true, true, true, true, CaseFacts())

  lemma ClaimTakes()
    ensures ExecuteReplay(Ordered().replay, RtTake(REPLAY, 3, None, 1_000)) == Committed(Replaying(Idle, []).replay)
  {
    var t := Ordered().replay;
    assert t.replays[REPLAY := RunningRow()] == map[REPLAY := RunningRow()];
    assert t.attempts[REPLAY := OpenAttempt(WANTED)] == map[REPLAY := OpenAttempt(WANTED)];
  }

  lemma StillAllowedNow()
    ensures StillAllowed(Ordered(), REPLAY, CaseFacts())
  {
    hide Policy.Evaluate, CurrentFacts;
    assert Siblings(Ordered().replay, STAGE, Some(REPLAY)) == {};
    PolicyAllowsIt(Ordered().replay, Some(REPLAY));
  }

  lemma ReachReplaying()
    ensures Reaches(Replaying(ReplayOwner(3, REPLAY), [FIRST]))
  {
    hide Reaches, StillAllowed, ExecuteReplay, Apply;
    ReachOrdered();
    StillAllowedNow();
    ClaimTakes();
    var s := Ordered();
    ReachesNext(s, ClaimReplay(1, CHECKS));
    assert DoClaimReplay(s, 1, CHECKS) == Replaying(ReplayOwner(3, REPLAY), [FIRST]);
    ClaimIs(s, 1, CHECKS);
  }

  function SecondCall(state: CallState): Call {
    Call(3, ByReplay(STAGE, REPLAY), 1_000, state)
  }

  lemma ReachSecondCall()
    ensures Reaches(Replaying(ReplayInCall(3, REPLAY, 1), [FIRST, SecondCall(InFlight)]))
  {
    hide Reaches, Apply;
    ReachReplaying();
    var s := Replaying(ReplayOwner(3, REPLAY), [FIRST]);
    ReachesNext(s, Invoke(1));
    assert DoInvoke(s, 1) == Replaying(ReplayInCall(3, REPLAY, 1), [FIRST, SecondCall(InFlight)]);
    InvokeIs(s, 1);
  }

  lemma ReachSecondAnswer()
    ensures Reaches(Replaying(ReplayFinishing(3, REPLAY, Some(1), ACCEPTANCE), [FIRST, SecondCall(Reported(Accepted))]))
  {
    hide Reaches, Apply;
    ReachSecondCall();
    var s := Replaying(ReplayInCall(3, REPLAY, 1), [FIRST, SecondCall(InFlight)]);
    ReachesNext(s, Respond(1, ACCEPTANCE));
    assert s.log[1 := s.log[1].(state := Reported(Accepted))] == [FIRST, SecondCall(Reported(Accepted))];
    assert DoRespond(s, 1, ACCEPTANCE)
      == Replaying(ReplayFinishing(3, REPLAY, Some(1), ACCEPTANCE), [FIRST, SecondCall(Reported(Accepted))]);
    RespondIs(s, 1, ACCEPTANCE);
  }

  /** A run in which a stage is called twice: rejected on the record first, then accepted as a replay after its cooldown. */
  lemma SecondCallHappens()
    ensures Init(Fresh())
    ensures exists events :: Run(Fresh(), events).log == [FirstCall(Reported(Rejected)), SecondCall(Reported(Accepted))]
  {
    FreshIsInit();
    ReachSecondAnswer();
  }
}
