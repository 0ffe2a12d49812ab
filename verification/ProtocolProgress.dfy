/** Nothing stands still: what one party, left alone for as long as it takes, makes of every state the others may have
    left behind. */
module ProtocolProgress {
  import opened Domain
  import opened ExecutionTables
  import opened ExecutionStore
  import opened R = ReplayTables
  import opened Protocol
  import opened ProtocolInvariant
  import opened ProtocolSteps
  import ProtocolTheorems
  import O = Orchestration
  import S = ReplayStore
  import Policy = ReplayPolicy

  lemma {:induction false} RunNext(s: System, e: Event, rest: seq<Event>)
    ensures Run(s, [e] + rest) == Run(Apply(s, e), rest)
  {
    hide Apply;
    if rest == [] {
      assert ([e] + rest)[..0] == [];
      assert [e] + rest == [e];
    } else {
      assert ([e] + rest)[..|rest|] == [e] + rest[..|rest| - 1];
      RunNext(s, e, rest[..|rest| - 1]);
    }
  }

  lemma {:induction false} RunBoth(s: System, a: seq<Event>, b: seq<Event>)
    ensures Run(s, a + b) == Run(Run(s, a), b)
    decreases |b|
  {
    hide Apply;
    if b == [] {
      assert a + b == a;
    } else {
      assert (a + b)[..|a + b| - 1] == a + b[..|b| - 1];
      RunBoth(s, a, b[..|b| - 1]);
    }
  }

  lemma RunTwo(s: System, d: Event, e: Event)
    ensures Run(s, [d, e]) == Apply(Apply(s, d), e)
  {
    hide Apply;
    assert [d, e] == [d] + [e];
    RunNext(s, d, [e]);
    RunNext(Apply(s, d), e, []);
    assert [e] + [] == [e];
  }

  lemma RunThree(s: System, d: Event, e: Event, f: Event)
    ensures Run(s, [d, e, f]) == Apply(Apply(Apply(s, d), e), f)
  {
    hide Apply;
    assert [d, e, f] == [d] + [e, f];
    RunNext(s, d, [e, f]);
    RunTwo(Apply(s, d), e, f);
  }

  // ----- settlement -----

  /** Publish the next stage, if there is one, and commit. */
  function Tail(w: nat, next: Option<nat>, partition: nat): seq<Event> {
    if next.Some? then [Publish(w, partition, true), Commit(w)] else [Commit(w)]
  }

  /** The offset has passed the worker's message, the next stage's message is in the topic, and the worker is idle behind it;
      nothing else has changed in the topic and among the workers. */
  ghost predicate Passed(s: System, t: System, w: nat, next: Option<nat>, partition: nat)
    requires HasMessage(s, w) && partition < |s.topic| && s.workers[w].partition < |s.committed|
  {
    && t.committed == s.committed[s.workers[w].partition := s.workers[w].position + 1]
    && t.topic == (if next.Some? then Deliver(s.topic, partition, Ordinary(Key(Current(s, w).key.run, next.value))) else s.topic)
    && t.workers == s.workers[w := Worker(s.workers[w].partition, s.workers[w].position + 1, Idle)]
    && t.runs == s.runs && t.outbox == s.outbox
  }

  /** Only the tables, the log and where the worker stands in its own step have changed. */
  ghost predicate Beside(s: System, u: System, w: nat) {
    && w in s.workers && w in u.workers && u.workers == s.workers[w := s.workers[w].(pc := u.workers[w].pc)]
    && u.topic == s.topic && u.committed == s.committed && u.clock == s.clock && u.runs == s.runs && u.outbox == s.outbox
  }

  ghost predicate SameRecords(s: System, t: System) {
    t.store == s.store && t.replay == s.replay && t.log == s.log && t.runs == s.runs && t.outbox == s.outbox
  }

  /** The tail of a step that began in an earlier state passes that state's message. */
  lemma TailPassesFrom(s: System, u: System, w: nat, next: Option<nat>, partition: nat)
    requires HasMessage(s, w) && partition < |s.topic| && s.workers[w].partition < |s.committed| && Beside(s, u, w)
    requires u.workers[w].pc == if next.Some? then Publishing(next.value, true) else Committing
    ensures Passed(s, Run(u, Tail(w, next, partition)), w, next, partition)
    ensures SameRecords(u, Run(u, Tail(w, next, partition)))
  {
    hide Run, Apply, Tail;
    TailPasses(u, w, next, partition);
  }

  lemma TailPasses(s: System, w: nat, next: Option<nat>, partition: nat)
    requires HasMessage(s, w) && partition < |s.topic| && s.workers[w].partition < |s.committed|
    requires s.workers[w].pc == if next.Some? then Publishing(next.value, true) else Committing
    ensures Passed(s, Run(s, Tail(w, next, partition)), w, next, partition)
    ensures SameRecords(s, Run(s, Tail(w, next, partition)))
  {
    hide Apply;
    if next.Some? {
      RunTwo(s, Publish(w, partition, true), Commit(w));
      PublishIs(s, w, partition);
      CommitIs(DoPublish(s, w, partition, true), w);
    } else {
      RunNext(s, Commit(w), []);
      assert [Commit(w)] + [] == [Commit(w)];
      CommitIs(s, w);
    }
  }

  lemma PublishIs(s: System, w: nat, partition: nat)
    requires HasMessage(s, w) && s.workers[w].pc.Publishing? && partition < |s.topic|
    ensures Apply(s, Publish(w, partition, true)) == DoPublish(s, w, partition, true)
  {
  }

  lemma CommitIs(s: System, w: nat)
    requires HasMessage(s, w) && s.workers[w].pc.Committing? && s.workers[w].partition < |s.committed|
    ensures Apply(s, Commit(w)) == DoCommit(s, w)
  {
  }

  // ----- a stage on record -----

  /** A replay of just this call, after the stage itself failed. */
  predicate IsReplayOf(s: System, r: nat, k: Key, fps: Fingerprints) {
    && r in s.replay.requests && s.replay.requests[r].key == k
    && s.replay.requests[r].actionFp == fps.action && s.replay.requests[r].requestFp == fps.request
    && r in s.replay.replays && k in s.store.executions && s.store.executions[k].status == Failed
  }

  /** A worker is about to handle the message of a stage, and no replay of it is to be taken into account. */
  ghost predicate AtStage(s: System, w: nat, k: Key, fps: Fingerprints) {
    && HasMessage(s, w) && s.workers[w].pc == Idle && Current(s, w) == Ordinary(k)
    && k.run in s.runs && k.stage < s.runs[k.run] && !(exists r :: IsReplayOf(s, r, k, fps))
  }

  lemma FetchClaims(s: System, w: nat, k: Key, fps: Fingerprints)
    requires AtStage(s, w, k, fps)
    ensures Apply(s, Fetch(w, fps, None)) == At(s, w, Claiming(fps))
  {
    assert forall r :: Recovers(s, k, fps, r) ==> IsReplayOf(s, r, k, fps);
  }

  lemma InsertFindsRow(s: System, w: nat, k: Key, fps: Fingerprints, v: Option<Hash>)
    requires HasMessage(s, w) && Current(s, w) == Ordinary(k) && s.workers[w].pc == Claiming(fps) && k in s.store.executions
    ensures Apply(s, Insert(w, v)) == At(s, w, Existing(fps))
  {
  }

  lemma FindIs(s: System, w: nat)
    requires HasMessage(s, w) && s.workers[w].pc.Existing?
    ensures Apply(s, Find(w)) == DoFind(s, w)
  {
  }

  lemma FenceIs(s: System, w: nat)
    requires HasMessage(s, w) && s.workers[w].pc.Quarantining?
    ensures Apply(s, Fence(w)) == DoFence(s, w)
  {
  }

  lemma AtTwice(s: System, w: nat, a: Pc, b: Pc)
    requires w in s.workers
    ensures At(At(s, w, a), w, b) == At(s, w, b)
  {
    assert At(At(s, w, a), w, b).workers == At(s, w, b).workers;
  }

  function LookUp(w: nat, fps: Fingerprints, v: Option<Hash>): seq<Event> {
    [Fetch(w, fps, None), Insert(w, v), Find(w)]
  }

  lemma LookUpFinds(s: System, w: nat, k: Key, fps: Fingerprints, v: Option<Hash>)
    requires AtStage(s, w, k, fps) && k in s.store.executions
    ensures Run(s, LookUp(w, fps, v)) == DoFind(At(s, w, Existing(fps)), w)
  {
    hide Apply, DoFind;
    RunThree(s, Fetch(w, fps, None), Insert(w, v), Find(w));
    FetchClaims(s, w, k, fps);
    InsertFindsRow(At(s, w, Claiming(fps)), w, k, fps, v);
    AtTwice(s, w, Claiming(fps), Existing(fps));
    FindIs(At(s, w, Existing(fps)), w);
  }

  /** A redelivered message of a stage that succeeded is passed on and committed; of one that failed, committed; of one that
      a live owner works on, or that failed before there were failure records, left exactly as it is. */
  lemma RecordedStageIsSettled(s: System, w: nat, k: Key, fps: Fingerprints, v: Option<Hash>, partition: nat)
    requires Inv(s) && AtStage(s, w, k, fps) && k in s.store.executions && partition < |s.topic|
    ensures s.workers[w].partition < |s.committed|
    ensures s.store.executions[k].status == Success ==>
      var t := Run(s, LookUp(w, fps, v) + Tail(w, Following(s, k), partition));
      Passed(s, t, w, Following(s, k), partition) && SameRecords(s, t)
    ensures s.store.executions[k].status == Failed && k in s.store.failures ==>
      var t := Run(s, LookUp(w, fps, v) + Tail(w, None, partition));
      Passed(s, t, w, None, partition) && SameRecords(s, t)
    ensures s.store.executions[k].status == Failed && k !in s.store.failures ==> Run(s, LookUp(w, fps, v)) == s
    ensures O.StillHeld(s.store, k, s.clock) ==> Run(s, LookUp(w, fps, v)) == s
  {
    hide Apply, Inv, Passed;
    OffsetFacts(s);
    WorkerFacts(s, w);
    LookUpFinds(s, w, k, fps, v);
    var u := Run(s, LookUp(w, fps, v));
    var next := if s.store.executions[k].status == Success then Following(s, k) else None;
    RunBoth(s, LookUp(w, fps, v), Tail(w, next, partition));
    match s.store.executions[k].status
    case Success => TailPassesFrom(s, u, w, next, partition);
    case Failed => if k in s.store.failures { TailPassesFrom(s, u, w, next, partition); } else { StaysIdle(s, w, Existing(fps)); }
    case Pending => StaysIdle(s, w, Existing(fps));
  }

  lemma StaysIdle(s: System, w: nat, pc: Pc)
    requires w in s.workers && s.workers[w].pc == Idle
    ensures At(At(s, w, pc), w, Idle) == s
  {
    assert At(At(s, w, pc), w, Idle).workers == s.workers;
  }

  /** The message of a stage whose owner let its lease run out is committed with the stage quarantined. */
  lemma OverdueStageIsQuarantined(s: System, w: nat, k: Key, fps: Fingerprints, v: Option<Hash>, partition: nat)
    requires Inv(s) && AtStage(s, w, k, fps) && OverdueRow(s.store, k, s.clock) && partition < |s.topic|
    ensures s.workers[w].partition < |s.committed|
    ensures var t := Run(s, LookUp(w, fps, v) + [Fence(w), Commit(w)]);
      && Passed(s, t, w, None, partition) && t.replay == s.replay && t.log == s.log
      && O.QuarantinedRow(s.store, t.store, k, s.clock, FromOwner, Some(fps))
  {
    hide Apply, Inv, FenceExpired, O.QuarantinedRow;
    OffsetFacts(s);
    WorkerFacts(s, w);
    RowFacts(s, k);
    LookUpFinds(s, w, k, fps, v);
    RunBoth(s, LookUp(w, fps, v), [Fence(w), Commit(w)]);
    var token := s.store.executions[k].token;
    AtTwice(s, w, Existing(fps), Quarantining(token, s.clock, fps));
    var u := At(s, w, Quarantining(token, s.clock, fps));
    assert Run(s, LookUp(w, fps, v)) == u;
    FenceQuarantines(s.store, k, token, s.clock, s.nextId, fps);
    RunTwo(u, Fence(w), Commit(w));
    FenceIs(u, w);
    CommitIs(DoFence(u, w), w);
  }

  lemma FenceQuarantines(t: Tables, k: Key, token: Option<nat>, at: Time, id: nat, fps: Fingerprints)
    requires OverdueRow(t, k, at) && t.executions[k].token == token && k !in t.failures
    ensures var tx := FenceExpired(t, k, token, at, id, FromOwner, Some(fps));
      tx.Committed? && O.QuarantinedRow(t, tx.state, k, at, FromOwner, Some(fps))
  {
  }

  // ----- a stage nobody claimed -----

  lemma InsertOwns(s: System, w: nat, k: Key, fps: Fingerprints, v: Option<Hash>)
    requires HasMessage(s, w) && Current(s, w) == Ordinary(k) && s.workers[w].pc == Claiming(fps)
    requires Create(s.store, k, s.nextId, s.clock, v, fps).Committed?
    ensures Apply(s, Insert(w, v)) == At(s.(
      store := Create(s.store, k, s.nextId, s.clock, v, fps).state, nextId := s.nextId + 1,
      grants := s.grants[s.nextId := Grant(ByMessage(k), w, s.clock)]), w, Owner(s.nextId))
  {
    hide Create;
  }

  lemma BeginIs(s: System, w: nat, k: Key, provider: Provider)
    requires HasMessage(s, w) && Current(s, w) == Ordinary(k) && s.workers[w].pc.Owner?
    requires StartAttempt(s.store, k, s.workers[w].pc.token, 1, provider).Committed?
    ensures Apply(s, Begin(w, provider)) ==
      At(s.(store := StartAttempt(s.store, k, s.workers[w].pc.token, 1, provider).state), w, Begun(s.workers[w].pc.token))
  {
    hide StartAttempt;
  }

  lemma RefuseIs(s: System, w: nat, k: Key)
    requires HasMessage(s, w) && Current(s, w) == Ordinary(k) && s.workers[w].pc.Owner?
    requires PersistFailure(s.store, k, s.workers[w].pc.token, 0, O.Unsupported(), true, s.clock, s.nextId).Committed?
    ensures Apply(s, Refuse(w)) == At(s.(
      store := PersistFailure(s.store, k, s.workers[w].pc.token, 0, O.Unsupported(), true, s.clock, s.nextId).state,
      nextId := s.nextId + 1), w, Committing)
  {
    hide PersistFailure;
  }

  lemma InvokeIs(s: System, w: nat)
    requires HasMessage(s, w)
    ensures Apply(s, Invoke(w)) == DoInvoke(s, w)
  {
    hide DoInvoke;
  }

  lemma RespondIs(s: System, w: nat, report: Report)
    requires HasMessage(s, w)
    ensures Apply(s, Respond(w, report)) == DoRespond(s, w, report)
  {
    hide DoRespond;
  }

  lemma FinishIs(s: System, w: nat)
    requires HasMessage(s, w)
    ensures Apply(s, Finish(w)) == DoFinish(s, w)
  {
    hide DoFinish;
  }

  /** A worker called for a stage: its token owns the row, whose attempt is open, and the call is in the log. */
  ghost predicate Calling(s: System, u: System, w: nat, k: Key, token: nat, call: O.Call) {
    && Beside(s, u, w) && u.workers[w].pc == Begun(token) && u.log == s.log && u.replay == s.replay
    && O.Opened(s.store, u.store, k, token, call)
  }

  lemma Untouched(t: Tables, legacy: set<Key>, k: Key)
    requires Lifecycle(t, legacy) && k !in t.executions
    ensures O.Fresh(t, k)
  {
    forall id | id in t.attempts ensures id.key != k { assert AttemptOk(t, legacy, id); }
  }

  function Opening(w: nat, fps: Fingerprints, v: Option<Hash>, provider: Provider): seq<Event> {
    [Fetch(w, fps, None), Insert(w, v), Begin(w, provider)]
  }

  lemma OpeningBegins(s: System, w: nat, k: Key, fps: Fingerprints, v: Option<Hash>, provider: Provider)
    requires Inv(s) && AtStage(s, w, k, fps) && k !in s.store.executions
    ensures Calling(s, Run(s, Opening(w, fps, v, provider)), w, k, s.nextId, O.Call(fps, v))
  {
    hide Apply, Inv, Create, StartAttempt, O.Opened;
    StoreFacts(s);
    Untouched(s.store, s.legacy, k);
    Created(s.store, k, s.nextId, s.clock, v, fps);
    var store := Create(s.store, k, s.nextId, s.clock, v, fps).state;
    O.FreshBegins(s.store, store, k, s.nextId, s.clock, v, fps, provider);
    RunThree(s, Fetch(w, fps, None), Insert(w, v), Begin(w, provider));
    FetchClaims(s, w, k, fps);
    InsertOwns(At(s, w, Claiming(fps)), w, k, fps, v);
    BeginIs(Apply(At(s, w, Claiming(fps)), Insert(w, v)), w, k, provider);
  }

  lemma Created(t: Tables, k: Key, token: nat, now: Time, v: Option<Hash>, fps: Fingerprints)
    requires k !in t.executions
    ensures Create(t, k, token, now, v, fps).Committed?
  {
  }

  /** The call was answered, and what the worker has in hand is the report. */
  ghost predicate Answered(s: System, u: System, w: nat, k: Key, token: nat, call: O.Call, report: Report) {
    && Beside(s, u, w) && u.workers[w].pc == Finishing(token, |s.log|, report) && u.replay == s.replay
    && u.log == s.log + [Call(token, ByMessage(k), s.clock, Reported(OutcomeOf(report)))]
    && O.Opened(s.store, u.store, k, token, call)
  }

  lemma InvokeCalls(s: System, w: nat, k: Key, token: nat)
    requires HasMessage(s, w) && Current(s, w) == Ordinary(k) && s.workers[w].pc == Begun(token)
    ensures DoInvoke(s, w) == At(s.(log := s.log + [Call(token, ByMessage(k), s.clock, InFlight)]), w, InCall(token, |s.log|))
  {
  }

  lemma RespondReports(s: System, w: nat, token: nat, c: nat, report: Report)
    requires HasMessage(s, w) && s.workers[w].pc == InCall(token, c) && c < |s.log| && Honest(report)
    ensures DoRespond(s, w, report)
      == At(s.(log := s.log[c := s.log[c].(state := Reported(OutcomeOf(report)))]), w, Finishing(token, c, report))
  {
  }

  lemma CallIsAnswered(s: System, u: System, w: nat, k: Key, token: nat, call: O.Call, report: Report)
    requires Calling(s, u, w, k, token, call) && HasMessage(s, w) && Current(s, w) == Ordinary(k) && Honest(report)
    ensures Answered(s, Apply(Apply(u, Invoke(w)), Respond(w, report)), w, k, token, call, report)
  {
    hide Apply, O.Opened, DoInvoke, DoRespond;
    InvokeIs(u, w);
    InvokeCalls(u, w, k, token);
    RespondIs(DoInvoke(u, w), w, report);
    RespondReports(DoInvoke(u, w), w, token, |u.log|, report);
    var sent := Call(token, ByMessage(k), s.clock, InFlight);
    assert (s.log + [sent])[|s.log| := sent.(state := Reported(OutcomeOf(report)))] == s.log + [sent.(state := Reported(OutcomeOf(report)))];
  }

  /** How the stage's row and the worker stand after the report is recorded. */
  lemma AnswerIsRecorded(s: System, u: System, w: nat, k: Key, token: nat, call: O.Call, report: Report)
    requires Answered(s, u, w, k, token, call, report) && HasMessage(s, w) && Current(s, w) == Ordinary(k) && Honest(report)
    requires k.run in s.runs
    ensures var t := Apply(u, Finish(w));
      && O.EndedAs(s.store, t.store, k, token, call, 1, report, s.clock)
      && t.log == u.log && t.replay == s.replay && Beside(s, t, w)
      && t.workers[w].pc ==
           if report.AcceptedBy? && Following(s, k).Some? then Publishing(Following(s, k).value, true) else Committing
  {
    hide Apply, PersistFailure, FinalizeSuccess, O.EndedAs, O.Opened;
    FinishIs(u, w);
    match report
    case AcceptedBy(provider, receipt) => O.BegunSucceeds(s.store, u.store, k, token, call, provider, receipt, s.clock);
    case FailedWith(evidence) => O.BegunFails(s.store, u.store, k, token, call, evidence, s.clock, u.nextId);
  }

  lemma AnsweredLog(s: System, u: System, w: nat, k: Key, token: nat, call: O.Call, report: Report)
    requires Answered(s, u, w, k, token, call, report)
    ensures u.log == s.log + [Call(token, ByMessage(k), s.clock, Reported(OutcomeOf(report)))]
  {
  }

  /** A stage nobody claimed is called once, ends as the provider reports, and its message is passed on and committed. */
  lemma FreshStageIsCalled(s: System, w: nat, k: Key, fps: Fingerprints, v: Option<Hash>, provider: Provider, report: Report,
                           partition: nat)
    requires Inv(s) && AtStage(s, w, k, fps) && k !in s.store.executions && Honest(report) && partition < |s.topic|
    ensures s.workers[w].partition < |s.committed|
    ensures var next := if report.AcceptedBy? then Following(s, k) else None;
      var t := Run(s, Opening(w, fps, v, provider) + [Invoke(w), Respond(w, report), Finish(w)] + Tail(w, next, partition));
      && Passed(s, t, w, next, partition) && t.replay == s.replay
      && O.EndedAs(s.store, t.store, k, s.nextId, O.Call(fps, v), 1, report, s.clock)
      && t.log == s.log + [Call(s.nextId, ByMessage(k), s.clock, Reported(OutcomeOf(report)))]
  {
    hide Apply, Inv, O.EndedAs, Calling, Answered;
    OffsetFacts(s);
    WorkerFacts(s, w);
    OpeningBegins(s, w, k, fps, v, provider);
    var next := if report.AcceptedBy? then Following(s, k) else None;
    var called := [Invoke(w), Respond(w, report), Finish(w)];
    var u := Run(s, Opening(w, fps, v, provider));
    RunThree(u, Invoke(w), Respond(w, report), Finish(w));
    CallIsAnswered(s, u, w, k, s.nextId, O.Call(fps, v), report);
    var answered := Apply(Apply(u, Invoke(w)), Respond(w, report));
    AnswerIsRecorded(s, answered, w, k, s.nextId, O.Call(fps, v), report);
    AnsweredLog(s, answered, w, k, s.nextId, O.Call(fps, v), report);
    RunBoth(s, Opening(w, fps, v, provider), called);
    RunBoth(s, Opening(w, fps, v, provider) + called, Tail(w, next, partition));
    TailPassesFrom(s, Run(u, called), w, next, partition);
  }

  /** A stage without a handler is recorded as not attempted, and its message is committed. */
  lemma FreshStageIsRefused(s: System, w: nat, k: Key, fps: Fingerprints, v: Option<Hash>, partition: nat)
    requires Inv(s) && AtStage(s, w, k, fps) && k !in s.store.executions && partition < |s.topic|
    ensures s.workers[w].partition < |s.committed|
    ensures var t := Run(s, [Fetch(w, fps, None), Insert(w, v), Refuse(w)] + Tail(w, None, partition));
      && Passed(s, t, w, None, partition) && t.replay == s.replay && t.log == s.log
      && O.EndedAs(s.store, t.store, k, s.nextId, O.Call(fps, v), 0,
                   FailedWith(Evidence(None, None, NotAttempted, "unsupported_action_type", None, None, None)), s.clock)
  {
    hide Apply, Inv, Create, PersistFailure, O.EndedAs;
    OffsetFacts(s);
    WorkerFacts(s, w);
    StoreFacts(s);
    Untouched(s.store, s.legacy, k);
    Created(s.store, k, s.nextId, s.clock, v, fps);
    var store := Create(s.store, k, s.nextId, s.clock, v, fps).state;
    O.FreshRefused(s.store, store, k, s.nextId, s.clock, v, fps, s.nextId + 1);
    var opening := [Fetch(w, fps, None), Insert(w, v), Refuse(w)];
    RunThree(s, Fetch(w, fps, None), Insert(w, v), Refuse(w));
    FetchClaims(s, w, k, fps);
    InsertOwns(At(s, w, Claiming(fps)), w, k, fps, v);
    RefuseIs(Apply(At(s, w, Claiming(fps)), Insert(w, v)), w, k);
    RunBoth(s, opening, Tail(w, None, partition));
    TailPassesFrom(s, Run(s, opening), w, None, partition);
  }

  /** A message of a stage whose replay succeeded hands on what the replay was to hand on, although the stage itself failed;
      while the replay runs, it stays. */
  lemma ReplayedStageIsSettled(s: System, w: nat, k: Key, fps: Fingerprints, r: nat, partition: nat)
    requires Inv(s) && HasMessage(s, w) && s.workers[w].pc == Idle && Current(s, w) == Ordinary(k) && HasAction(s, k)
    requires IsReplayOf(s, r, k, fps) && partition < |s.topic|
    ensures s.workers[w].partition < |s.committed|
    ensures s.replay.replays[r].status == ReplaySuccess ==>
      var next := s.replay.replays[r].nextStage;
      var t := Run(s, [Fetch(w, fps, Some(r))] + Tail(w, next, partition));
      Passed(s, t, w, next, partition) && SameRecords(s, t)
    ensures s.replay.replays[r].status == Running ==> Apply(s, Fetch(w, fps, Some(r))) == s
  {
    hide Inv, Apply;
    OffsetFacts(s);
    WorkerFacts(s, w);
    FetchRecovers(s, w, k, fps, r);
    var next := s.replay.replays[r].nextStage;
    RunNext(s, Fetch(w, fps, Some(r)), Tail(w, next, partition));
    if s.replay.replays[r].status == ReplaySuccess { TailPassesFrom(s, Apply(s, Fetch(w, fps, Some(r))), w, next, partition); }
  }

  /** A replay that was refused, failed or has not begun leaves the failed stage what it is: its message is committed. */
  lemma UnreplayedStageIsSettled(s: System, w: nat, k: Key, fps: Fingerprints, r: nat, v: Option<Hash>, partition: nat)
    requires Inv(s) && HasMessage(s, w) && s.workers[w].pc == Idle && Current(s, w) == Ordinary(k) && HasAction(s, k)
    requires IsReplayOf(s, r, k, fps) && partition < |s.topic| && s.replay.replays[r].status !in {ReplaySuccess, Running}
    ensures s.workers[w].partition < |s.committed|
    ensures var t := Run(s, [Fetch(w, fps, Some(r)), Insert(w, v), Find(w)] + Tail(w, None, partition));
      Passed(s, t, w, None, partition) && SameRecords(s, t)
  {
    hide Inv, Apply, DoFind, Passed;
    OffsetFacts(s);
    WorkerFacts(s, w);
    RequestFacts(s, r);
    var events := [Fetch(w, fps, Some(r)), Insert(w, v), Find(w)];
    RunThree(s, Fetch(w, fps, Some(r)), Insert(w, v), Find(w));
    FetchRecovers(s, w, k, fps, r);
    InsertFindsRow(At(s, w, Claiming(fps)), w, k, fps, v);
    AtTwice(s, w, Claiming(fps), Existing(fps));
    FindIs(At(s, w, Existing(fps)), w);
    FailedIsFound(s, w, k, fps);
    RunBoth(s, events, Tail(w, None, partition));
    TailPassesFrom(s, Run(s, events), w, None, partition);
  }

  lemma FailedIsFound(s: System, w: nat, k: Key, fps: Fingerprints)
    requires HasMessage(s, w) && Current(s, w) == Ordinary(k) && HasAction(s, k)
    requires k in s.store.executions && s.store.executions[k].status == Failed && k in s.store.failures
    ensures DoFind(At(s, w, Existing(fps)), w) == At(s, w, Committing)
  {
    AtTwice(s, w, Existing(fps), Committing);
  }

  lemma FetchRecovers(s: System, w: nat, k: Key, fps: Fingerprints, r: nat)
    requires HasMessage(s, w) && s.workers[w].pc == Idle && Current(s, w) == Ordinary(k) && HasAction(s, k) && IsReplayOf(s, r, k, fps)
    ensures s.replay.replays[r].status == ReplaySuccess ==>
      var next := s.replay.replays[r].nextStage;
      Apply(s, Fetch(w, fps, Some(r))) == At(s, w, if next.Some? then Publishing(next.value, true) else Committing)
    ensures s.replay.replays[r].status == Running ==> Apply(s, Fetch(w, fps, Some(r))) == s
    ensures s.replay.replays[r].status !in {ReplaySuccess, Running} ==> Apply(s, Fetch(w, fps, Some(r))) == At(s, w, Claiming(fps))
  {
  }

  // ----- a replay -----

  /** A worker is about to handle the message of a replay. */
  ghost predicate AtReplay(s: System, w: nat, k: Key, id: nat) {
    HasMessage(s, w) && s.workers[w].pc == Idle && Current(s, w) == ReplayOrder(k, id)
  }

  /** What the claim finds, with the policy evaluated on the tables as they are. */
  ghost function Found(s: System, k: Key, id: nat, c: ReplayChecks): S.Findings
    requires id in s.replay.requests
    requires s.replay.requests[id].key in s.store.executions && s.replay.requests[id].key in s.store.failures
  {
    S.Findings(c.authorized, StillAllowed(s, id, c.facts), c.telegramAction && k.run in s.runs, c.identityProven,
               if k.run in s.runs then Following(s, k) else None)
  }

  lemma ReplayIsOnRecord(s: System, w: nat, k: Key, id: nat)
    requires Inv(s) && AtReplay(s, w, k, id)
    ensures S.Asked(s.replay, id, k) && k in s.store.executions && k in s.store.failures && ReplayRowOk(s.replay, id)
    ensures s.workers[w].partition < |s.committed|
  {
    hide Inv, ReplayRowOk;
    MessageFacts(s, w);
    RequestFacts(s, id);
    OffsetFacts(s);
    WorkerFacts(s, w);
  }

  lemma ClaimIs(s: System, w: nat, k: Key, id: nat, c: ReplayChecks)
    requires AtReplay(s, w, k, id)
    ensures Apply(s, ClaimReplay(w, c)) == DoClaimReplay(s, w, c)
  {
    hide DoClaimReplay;
  }

  /** The message of a replay that is to end here, or has ended: the claim acknowledges it. */
  ghost predicate ClaimEnds(s: System, t: System, w: nat, next: Option<nat>) {
    && Beside(s, t, w) && t.workers[w].pc == (if next.Some? then Publishing(next.value, true) else Committing)
    && t.store == s.store && t.log == s.log
  }

  lemma ClaimOfEnded(s: System, w: nat, k: Key, id: nat, c: ReplayChecks)
    requires AtReplay(s, w, k, id) && S.Asked(s.replay, id, k) && c.enabled && Terminal(s.replay.replays[id].status)
    ensures var next := if s.replay.replays[id].status == ReplaySuccess then s.replay.replays[id].nextStage else None;
      var t := Apply(s, ClaimReplay(w, c));
      ClaimEnds(s, t, w, next) && t.replay == s.replay && t.outbox == s.outbox
  {
    hide Apply, StillAllowed, ExecuteReplay;
    ClaimIs(s, w, k, id, c);
  }

  lemma ClaimOfAbandoned(s: System, w: nat, k: Key, id: nat, c: ReplayChecks)
    requires AtReplay(s, w, k, id) && S.Asked(s.replay, id, k) && c.enabled && S.Abandoned(s.replay, id, s.clock)
    requires ReplayRowOk(s.replay, id)
    ensures var t := Apply(s, ClaimReplay(w, c));
      ClaimEnds(s, t, w, None) && S.EndedFor(s.replay, t.replay, id, Unknown, "outcome_unknown", s.clock)
  {
    hide Apply, StillAllowed, R.Record, S.EndedFor;
    ClaimIs(s, w, k, id, c);
    S.RecordEnds(s.replay, id, s.clock);
  }

  lemma ClaimOfRefused(s: System, w: nat, k: Key, id: nat, c: ReplayChecks)
    requires AtReplay(s, w, k, id) && S.Asked(s.replay, id, k) && c.enabled && ReplayRowOk(s.replay, id)
    requires k in s.store.executions && k in s.store.failures && S.Refusal(s.replay, id, k, Found(s, k, id, c), s.clock).Some?
    ensures var t := Apply(s, ClaimReplay(w, c));
      var why := S.Refusal(s.replay, id, k, Found(s, k, id, c), s.clock).value;
      ClaimEnds(s, t, w, None) && S.EndedFor(s.replay, t.replay, id, NotAttempted, why, s.clock)
  {
    hide Apply, StillAllowed, R.Deny, S.EndedFor;
    ClaimIs(s, w, k, id, c);
    S.DenyEnds(s.replay, id, S.Refusal(s.replay, id, k, Found(s, k, id, c), s.clock).value, s.clock);
  }

  /** A replay that waits, or is switched off, is left exactly as it is. */
  lemma WaitingReplayStays(s: System, w: nat, k: Key, id: nat, c: ReplayChecks)
    requires Inv(s) && AtReplay(s, w, k, id)
    ensures k in s.store.executions && k in s.store.failures && id in s.replay.requests && s.replay.requests[id].key == k
    ensures !c.enabled || S.Waits(s.replay, id, k, Found(s, k, id, c), s.clock) ==> Apply(s, ClaimReplay(w, c)) == s
  {
    hide Apply, Inv, StillAllowed, R.Record;
    ReplayIsOnRecord(s, w, k, id);
    ClaimIs(s, w, k, id, c);
  }

  /** The message of a replay that has ended is committed; after a success the next stage is handed on once more. */
  lemma EndedReplayIsSettled(s: System, w: nat, k: Key, id: nat, c: ReplayChecks, partition: nat)
    requires Inv(s) && AtReplay(s, w, k, id) && c.enabled && partition < |s.topic|
    requires id in s.replay.replays && Terminal(s.replay.replays[id].status)
    ensures s.workers[w].partition < |s.committed|
    ensures var next := if s.replay.replays[id].status == ReplaySuccess then s.replay.replays[id].nextStage else None;
      var t := Run(s, [ClaimReplay(w, c)] + Tail(w, next, partition));
      Passed(s, t, w, next, partition) && SameRecords(s, t)
  {
    hide Apply, Inv, ReplayRowOk;
    ReplayIsOnRecord(s, w, k, id);
    var next := if s.replay.replays[id].status == ReplaySuccess then s.replay.replays[id].nextStage else None;
    RunNext(s, ClaimReplay(w, c), Tail(w, next, partition));
    ClaimOfEnded(s, w, k, id, c);
    TailPassesFrom(s, Apply(s, ClaimReplay(w, c)), w, next, partition);
  }

  /** The message of a replay whose owner let its lease run out is committed with the replay's outcome unknown. */
  lemma AbandonedReplayIsEnded(s: System, w: nat, k: Key, id: nat, c: ReplayChecks, partition: nat)
    requires Inv(s) && AtReplay(s, w, k, id) && c.enabled && partition < |s.topic| && S.Abandoned(s.replay, id, s.clock)
    ensures s.workers[w].partition < |s.committed|
    ensures var t := Run(s, [ClaimReplay(w, c)] + Tail(w, None, partition));
      && Passed(s, t, w, None, partition) && t.log == s.log
      && S.EndedFor(s.replay, t.replay, id, Unknown, "outcome_unknown", s.clock)
  {
    hide Apply, Inv, S.EndedFor, ReplayRowOk;
    ReplayIsOnRecord(s, w, k, id);
    RunNext(s, ClaimReplay(w, c), Tail(w, None, partition));
    ClaimOfAbandoned(s, w, k, id, c);
    TailPassesFrom(s, Apply(s, ClaimReplay(w, c)), w, None, partition);
  }

  /** The message of a replay that is refused is committed with the reason on record, and nothing is called. */
  lemma RefusedReplayIsEnded(s: System, w: nat, k: Key, id: nat, c: ReplayChecks, partition: nat)
    requires Inv(s) && AtReplay(s, w, k, id) && c.enabled && partition < |s.topic|
    ensures s.workers[w].partition < |s.committed|
    ensures S.Asked(s.replay, id, k) && k in s.store.executions && k in s.store.failures
    ensures var why := S.Refusal(s.replay, id, k, Found(s, k, id, c), s.clock);
      why.Some? ==>
        var t := Run(s, [ClaimReplay(w, c)] + Tail(w, None, partition));
        && Passed(s, t, w, None, partition) && t.log == s.log
        && S.EndedFor(s.replay, t.replay, id, NotAttempted, why.value, s.clock)
  {
    hide Apply, Inv, StillAllowed, S.EndedFor, ReplayRowOk;
    ReplayIsOnRecord(s, w, k, id);
    if S.Refusal(s.replay, id, k, Found(s, k, id, c), s.clock).Some? {
      RunNext(s, ClaimReplay(w, c), Tail(w, None, partition));
      ClaimOfRefused(s, w, k, id, c);
      TailPassesFrom(s, Apply(s, ClaimReplay(w, c)), w, None, partition);
    }
  }

  /** A worker owns the replay and has answered or not yet made its call. */
  ghost predicate Replaying(s: System, u: System, w: nat, id: nat, token: nat, next: Option<nat>) {
    && Beside(s, u, w) && u.workers[w].pc == ReplayOwner(token, id) && u.log == s.log
    && u.store == s.store && S.TakenOver(s.replay, u.replay, id, token, next, s.clock)
  }

  lemma ReadyReplayIsClaimed(s: System, w: nat, k: Key, id: nat, c: ReplayChecks)
    requires AtReplay(s, w, k, id) && c.enabled && S.Asked(s.replay, id, k) && ReplayRowOk(s.replay, id)
    requires k in s.store.executions && k in s.store.failures
    requires S.Ready(s.replay, id, k, Found(s, k, id, c), s.clock)
    ensures k.run in s.runs && Replaying(s, Apply(s, ClaimReplay(w, c)), w, id, s.nextId, Following(s, k))
  {
    hide Apply, StillAllowed, R.Take, S.TakenOver;
    ClaimIs(s, w, k, id, c);
    S.TakeTakes(s.replay, id, s.nextId, Following(s, k), s.clock);
  }

  ghost predicate Replayed(s: System, u: System, w: nat, k: Key, id: nat, token: nat, report: Report, next: Option<nat>) {
    && Beside(s, u, w) && u.workers[w].pc == ReplayFinishing(token, id, Some(|s.log|), O.Believed(true, report)) && u.store == s.store
    && u.log == s.log + [Call(token, ByReplay(k, id), s.clock, Reported(OutcomeOf(O.Believed(true, report))))]
    && S.TakenOver(s.replay, u.replay, id, token, next, s.clock)
  }

  lemma InvokeReplays(s: System, w: nat, k: Key, id: nat, token: nat)
    requires HasMessage(s, w) && Current(s, w) == ReplayOrder(k, id) && s.workers[w].pc == ReplayOwner(token, id)
    ensures DoInvoke(s, w)
      == At(s.(log := s.log + [Call(token, ByReplay(k, id), s.clock, InFlight)]), w, ReplayInCall(token, id, |s.log|))
  {
  }

  lemma RespondToReplay(s: System, w: nat, id: nat, token: nat, c: nat, report: Report)
    requires HasMessage(s, w) && s.workers[w].pc == ReplayInCall(token, id, c) && c < |s.log| && Honest(report)
    ensures var believed := O.Believed(true, report);
      DoRespond(s, w, report) == At(s.(log := s.log[c := s.log[c].(state := Reported(OutcomeOf(believed)))]), w,
                                    ReplayFinishing(token, id, Some(c), believed))
  {
  }

  lemma ReplayIsAnswered(s: System, u: System, w: nat, k: Key, id: nat, token: nat, report: Report, next: Option<nat>)
    requires Replaying(s, u, w, id, token, next) && HasMessage(s, w) && Current(s, w) == ReplayOrder(k, id) && Honest(report)
    ensures Replayed(s, Apply(Apply(u, Invoke(w)), Respond(w, report)), w, k, id, token, report, next)
  {
    hide Apply, S.TakenOver, DoInvoke, DoRespond, O.Believed;
    InvokeIs(u, w);
    InvokeReplays(u, w, k, id, token);
    RespondIs(DoInvoke(u, w), w, report);
    RespondToReplay(DoInvoke(u, w), w, id, token, |u.log|, report);
    var sent, outcome := Call(token, ByReplay(k, id), s.clock, InFlight), Reported(OutcomeOf(O.Believed(true, report)));
    assert (s.log + [sent])[|s.log| := sent.(state := outcome)] == s.log + [sent.(state := outcome)];
  }

  lemma ReportIsWritten(s: System, w: nat, id: nat, token: nat, called: Option<nat>, report: Report)
    requires HasMessage(s, w) && s.workers[w].pc == ReplayFinishing(token, id, called, report) && id in s.replay.replays
    requires R.Complete(s.replay, id, token, report, s.clock).Committed?
    ensures var next := if report.AcceptedBy? then s.replay.replays[id].nextStage else None;
      DoFinish(s, w) == At(s.(replay := R.Complete(s.replay, id, token, report, s.clock).state), w,
                           if next.Some? then Publishing(next.value, true) else Committing)
  {
    hide R.Complete;
  }

  lemma BelievedIsHonest(report: Report)
    requires Honest(report)
    ensures Honest(O.Believed(true, report))
  {
  }

  lemma ReplayIsRecorded(s: System, u: System, w: nat, k: Key, id: nat, token: nat, report: Report, next: Option<nat>)
    requires Replayed(s, u, w, k, id, token, report, next) && HasMessage(s, w) && Current(s, w) == ReplayOrder(k, id)
    requires id !in s.replay.failures && Honest(report)
    ensures var t := Apply(u, Finish(w));
      && O.ReplayEndedAs(s.replay, t.replay, id, O.Believed(true, report), s.clock) && t.log == u.log
      && ClaimEnds(s, t.(log := s.log), w, if O.Believed(true, report).AcceptedBy? then next else None)
  {
    hide Apply, S.TakenOver, R.Complete, O.ReplayEndedAs, DoFinish, O.Believed;
    FinishIs(u, w);
    BelievedIsHonest(report);
    O.Taken(s.replay, u.replay, id, token, next, s.clock);
    O.CompletedAs(s.replay, u.replay, id, token, next, O.Believed(true, report), s.clock, s.clock);
    ReportIsWritten(u, w, id, token, Some(|s.log|), O.Believed(true, report));
  }

  /** A replay that may run is called once, ends as its provider reports, and its message is passed on and committed. */
  lemma ReadyReplayIsCalled(s: System, w: nat, k: Key, id: nat, c: ReplayChecks, report: Report, partition: nat)
    requires Inv(s) && AtReplay(s, w, k, id) && c.enabled && Honest(report) && partition < |s.topic|
    ensures s.workers[w].partition < |s.committed| && k in s.store.executions && k in s.store.failures
    ensures id in s.replay.requests && s.replay.requests[id].key == k
    ensures S.Ready(s.replay, id, k, Found(s, k, id, c), s.clock) ==> k.run in s.runs
    ensures S.Ready(s.replay, id, k, Found(s, k, id, c), s.clock) ==>
      var believed := O.Believed(true, report);
      var next := if believed.AcceptedBy? then Following(s, k) else None;
      var t := Run(s, [ClaimReplay(w, c)] + [Invoke(w), Respond(w, report), Finish(w)] + Tail(w, next, partition));
      && Passed(s, t, w, next, partition) && t.store == s.store
      && O.ReplayEndedAs(s.replay, t.replay, id, believed, s.clock)
      && t.log == s.log + [Call(s.nextId, ByReplay(k, id), s.clock, Reported(OutcomeOf(believed)))]
  {
    hide Apply, Inv, StillAllowed, O.ReplayEndedAs, Replaying, ReplayRowOk;
    ReplayIsOnRecord(s, w, k, id);
    if S.Ready(s.replay, id, k, Found(s, k, id, c), s.clock) {
      NotFailedYet(s.replay, id);
      ReadyReplayIsClaimed(s, w, k, id, c);
      var u := Apply(s, ClaimReplay(w, c));
      var called := [Invoke(w), Respond(w, report), Finish(w)];
      var next := if O.Believed(true, report).AcceptedBy? then Following(s, k) else None;
      ReplayIsAnswered(s, u, w, k, id, s.nextId, report, Following(s, k));
      var answered := Apply(Apply(u, Invoke(w)), Respond(w, report));
      ReplayIsRecorded(s, answered, w, k, id, s.nextId, report, Following(s, k));
      RunThree(u, Invoke(w), Respond(w, report), Finish(w));
      RunNext(s, ClaimReplay(w, c), called);
      RunBoth(s, [ClaimReplay(w, c)] + called, Tail(w, next, partition));
      TailPassesFrom(s, Apply(answered, Finish(w)), w, next, partition);
    }
  }

  /** A replay for which this worker has no handler ends not attempted, without a call. */
  lemma ReplayWithoutHandlerIsRefused(s: System, w: nat, k: Key, id: nat, c: ReplayChecks, report: Report, partition: nat)
    requires Inv(s) && AtReplay(s, w, k, id) && c.enabled && partition < |s.topic|
    ensures s.workers[w].partition < |s.committed| && k in s.store.executions && k in s.store.failures
    ensures id in s.replay.requests && s.replay.requests[id].key == k
    ensures S.Ready(s.replay, id, k, Found(s, k, id, c), s.clock) ==>
      var t := Run(s, [ClaimReplay(w, c), Decline(w), Finish(w)] + Tail(w, None, partition));
      && Passed(s, t, w, None, partition) && t.store == s.store && t.log == s.log
      && O.ReplayEndedAs(s.replay, t.replay, id, O.Believed(false, report), s.clock)
  {
    hide Apply, Inv, StillAllowed, O.ReplayEndedAs, Replaying, ReplayRowOk;
    ReplayIsOnRecord(s, w, k, id);
    if S.Ready(s.replay, id, k, Found(s, k, id, c), s.clock) {
      NotFailedYet(s.replay, id);
      ReadyReplayIsClaimed(s, w, k, id, c);
      var u := Apply(s, ClaimReplay(w, c));
      var events := [ClaimReplay(w, c), Decline(w), Finish(w)];
      DeclinedReplayEnds(s, u, w, k, id, s.nextId, report, Following(s, k));
      RunThree(s, ClaimReplay(w, c), Decline(w), Finish(w));
      RunBoth(s, events, Tail(w, None, partition));
      TailPassesFrom(s, Run(s, events), w, None, partition);
    }
  }

  lemma DeclineIs(s: System, w: nat)
    requires HasMessage(s, w)
    ensures Apply(s, Decline(w)) == DoDecline(s, w)
  {
    hide DoDecline;
  }

  lemma DeclinedReplayEnds(s: System, u: System, w: nat, k: Key, id: nat, token: nat, report: Report, next: Option<nat>)
    requires Replaying(s, u, w, id, token, next) && HasMessage(s, w) && Current(s, w) == ReplayOrder(k, id) && id !in s.replay.failures
    ensures var t := Apply(Apply(u, Decline(w)), Finish(w));
      O.ReplayEndedAs(s.replay, t.replay, id, O.Believed(false, report), s.clock) && ClaimEnds(s, t, w, None)
  {
    hide Apply, S.TakenOver, R.Complete, O.ReplayEndedAs, DoDecline, DoFinish;
    var believed := O.Believed(false, report);
    DeclineIs(u, w);
    DeclineGivesUp(u, w, id, token, report);
    FinishIs(At(u, w, ReplayFinishing(token, id, None, believed)), w);
    O.Taken(s.replay, u.replay, id, token, next, s.clock);
    O.CompletedAs(s.replay, u.replay, id, token, next, believed, s.clock, s.clock);
    ReportIsWritten(At(u, w, ReplayFinishing(token, id, None, believed)), w, id, token, None, believed);
  }

  lemma DeclineGivesUp(s: System, w: nat, id: nat, token: nat, report: Report)
    requires HasMessage(s, w) && s.workers[w].pc == ReplayOwner(token, id)
    ensures DoDecline(s, w) == At(s, w, ReplayFinishing(token, id, None, O.Believed(false, report)))
  {
  }

  /** A session begins at the committed offset of its partition, and one that drops its message stays in front of it: whatever
      a crash interrupts is delivered again. */
  lemma SessionsBeginAtOffset(s: System, w: nat, partition: nat)
    requires partition < |s.topic| && partition < |s.committed|
    ensures Apply(s, Assign(w, partition)) == s.(workers := s.workers[w := Worker(partition, s.committed[partition], Idle)])
    ensures w in s.workers ==>
      Apply(s, Drop(w)) == s.(workers := s.workers[w := Worker(s.workers[w].partition, s.workers[w].position, Idle)])
  {
  }

  /** A webhook's run and its outbox row appear together, once. */
  lemma RunIsIngested(s: System, run: nat, actions: nat)
    ensures run !in s.runs ==>
      Apply(s, Ingest(run, actions, true)) == s.(runs := s.runs[run := actions], outbox := s.outbox + {run})
    ensures run in s.runs ==> Apply(s, Ingest(run, actions, true)) == s
    ensures Apply(s, Ingest(run, actions, false)) == s
  {
  }

  lemma NotFailedYet(t: R.ReplayTables, id: nat)
    requires id in t.replays && t.replays[id].status == Reserved && ReplayRowOk(t, id)
    ensures id !in t.failures
  {
  }

  // ----- outbox and dispatcher -----

  /** A run in the outbox gets its first message into the topic, and only then leaves the outbox. */
  lemma OutboxRunIsSent(s: System, p: nat, run: nat, partition: nat)
    requires run in s.outbox && partition < |s.topic|
    ensures var sent := Run(s, [ReadOutbox(p, [run]), SendOutbox(p, partition)]);
      sent.topic == Deliver(s.topic, partition, Ordinary(Key(run, 0))) && sent.outbox == s.outbox
    ensures var t := Run(s, [ReadOutbox(p, [run]), SendOutbox(p, partition), DeleteOutbox(p)]);
      && t.topic == Deliver(s.topic, partition, Ordinary(Key(run, 0))) && t.outbox == s.outbox - {run} && t.store == s.store
      && t.workers == s.workers && t.runs == s.runs
  {
    hide Apply;
    RunTwo(s, ReadOutbox(p, [run]), SendOutbox(p, partition));
    RunThree(s, ReadOutbox(p, [run]), SendOutbox(p, partition), DeleteOutbox(p));
    ReadIs(s, p, run);
    var u := s.(processors := s.processors[p := Sending([run], 0)]);
    SendIs(u, p, run, partition);
    DeleteIs(Apply(u, SendOutbox(p, partition)), p, run);
  }

  lemma ReadIs(s: System, p: nat, run: nat)
    requires run in s.outbox
    ensures Apply(s, ReadOutbox(p, [run])) == s.(processors := s.processors[p := Sending([run], 0)])
  {
  }

  lemma SendIs(s: System, p: nat, run: nat, partition: nat)
    requires p in s.processors && s.processors[p] == Sending([run], 0) && partition < |s.topic|
    ensures Apply(s, SendOutbox(p, partition)) ==
      s.(topic := Deliver(s.topic, partition, Ordinary(Key(run, 0))), processors := s.processors[p := Deleting([run])])
  {
  }

  lemma DeleteIs(s: System, p: nat, run: nat)
    requires p in s.processors && s.processors[p] == Deleting([run])
    ensures Apply(s, DeleteOutbox(p)) == s.(outbox := s.outbox - {run}, processors := s.processors[p := Resting])
  {
    assert (set r | r in [run]) == {run};
  }

  /** A request is due while its replay waits unpublished inside its window, and neither a dispatcher's claim nor a backoff
      runs; one that is not due is left as it is. */
  lemma DueExactly(s: System, d: nat, id: nat)
    requires id in s.replay.requests && id in s.replay.replays
    ensures var request, row := s.replay.requests[id], s.replay.replays[id];
      DispatchDue(s.replay, id, s.clock) <==>
        && row.status == Reserved && row.publishedAt == None && request.notBefore <= s.clock < request.expiresAt
        && (row.dispatchLease == None || row.dispatchLease.value <= s.clock)
        && (row.nextDispatch == None || row.nextDispatch.value <= s.clock)
    ensures !DispatchDue(s.replay, id, s.clock) ==> Apply(s, LeaseRequest(d, id)) == s
    ensures DispatchDue(s.replay, id, s.clock) ==>
      var t := Apply(s, LeaseRequest(d, id));
      && id in t.replay.replays && t.replay.replays[id].dispatchLease == Some(s.clock + 120_000)
      && t.replay.replays[id].dispatchToken == Some(s.nextId)
  {
  }

  /** A dispatcher holds a request that is due, and its message has been sent. */
  ghost predicate Ordered(s: System, u: System, d: nat, id: nat, partition: nat, acknowledged: bool)
    requires id in s.replay.requests && id in s.replay.replays && partition < |s.topic|
  {
    var tries := s.replay.replays[id].dispatchAttempts + 1;
    && u.topic == Deliver(s.topic, partition, ReplayOrder(s.replay.requests[id].key, id)) && u.clock == s.clock
    && d in u.dispatchers
    && u.dispatchers[d] == (if acknowledged then Sent(id, s.nextId) else Leased(id, s.nextId, tries))
    && id in u.replay.replays && u.replay.replays[id].dispatchToken == Some(s.nextId)
    && u.replay.replays[id].publishedAt == s.replay.replays[id].publishedAt
  }

  lemma DueIsOrdered(s: System, d: nat, id: nat, partition: nat, acknowledged: bool)
    requires DispatchDue(s.replay, id, s.clock) && partition < |s.topic|
    ensures Ordered(s, Apply(Apply(s, LeaseRequest(d, id)), SendRequest(d, partition, acknowledged)), d, id, partition, acknowledged)
  {
    hide Apply;
    LeaseIs(s, d, id);
    OrderIs(Apply(s, LeaseRequest(d, id)), d, partition, acknowledged);
  }

  /** A replay request that is due gets its message into the topic and is stamped; when the send is not acknowledged it is
      due again after its backoff. */
  lemma DueRequestIsDispatched(s: System, d: nat, id: nat, partition: nat)
    requires DispatchDue(s.replay, id, s.clock) && partition < |s.topic|
    ensures var t := Run(s, [LeaseRequest(d, id), SendRequest(d, partition, true), StampRequest(d)]);
      && t.topic == Deliver(s.topic, partition, ReplayOrder(s.replay.requests[id].key, id))
      && id in t.replay.replays && t.replay.replays[id].publishedAt == Some(s.clock)
    ensures var t := Run(s, [LeaseRequest(d, id), SendRequest(d, partition, false), ReleaseRequest(d)]);
      && id in t.replay.replays && t.replay.replays[id].publishedAt == None
      && t.replay.replays[id].nextDispatch == Some(s.clock + DispatchBackoff(s.replay.replays[id].dispatchAttempts + 1))
  {
    hide Apply, DispatchBackoff;
    RunThree(s, LeaseRequest(d, id), SendRequest(d, partition, true), StampRequest(d));
    RunThree(s, LeaseRequest(d, id), SendRequest(d, partition, false), ReleaseRequest(d));
    DueIsOrdered(s, d, id, partition, true);
    DueIsOrdered(s, d, id, partition, false);
    StampIs(Apply(Apply(s, LeaseRequest(d, id)), SendRequest(d, partition, true)), d);
    ReleaseIs(Apply(Apply(s, LeaseRequest(d, id)), SendRequest(d, partition, false)), d);
  }

  lemma LeaseIs(s: System, d: nat, id: nat)
    requires DispatchDue(s.replay, id, s.clock)
    ensures var replay := LeaseDispatch(s.replay, id, s.nextId, s.clock).state;
      Apply(s, LeaseRequest(d, id)) == s.(replay := replay, nextId := s.nextId + 1,
        dispatchers := s.dispatchers[d := Leased(id, s.nextId, s.replay.replays[id].dispatchAttempts + 1)])
  {
  }

  lemma OrderIs(s: System, d: nat, partition: nat, acknowledged: bool)
    requires d in s.dispatchers && s.dispatchers[d].Leased? && s.dispatchers[d].id in s.replay.requests && partition < |s.topic|
    ensures Apply(s, SendRequest(d, partition, acknowledged)) == DoSendRequest(s, d, partition, acknowledged)
  {
  }

  lemma StampIs(s: System, d: nat)
    requires d in s.dispatchers && s.dispatchers[d].Sent?
    ensures Apply(s, StampRequest(d)) == Dispatched(s, d, RtStamp(s.dispatchers[d].id, s.dispatchers[d].token, s.clock))
  {
    hide Dispatched;
  }

  lemma ReleaseIs(s: System, d: nat)
    requires d in s.dispatchers && s.dispatchers[d].Leased?
    ensures Apply(s, ReleaseRequest(d)) ==
      Dispatched(s, d, RtRelease(s.dispatchers[d].id, s.dispatchers[d].token, s.dispatchers[d].attempts, s.clock))
  {
    hide Dispatched;
  }

  // ----- requests and the reconciler -----

  /** An attempt on record that was rejected for its rate, and whose wait is over. */
  predicate Waited(a: Attempt, now: Time) {
    && a.status == Ended(Rejected) && a.provider == Some(Telegram) && a.phase == Some(Send) && a.providerStatus == Some(429)
    && a.retryAfter.Some? && 1 <= a.retryAfter.value <= 86_400
    && a.completedAt.Some? && a.completedAt.value + a.retryAfter.value * 1_000 <= now
    && a.completedAt.value + a.retryAfter.value * 1_000 <= 8_640_000_000_000_000
  }

  /** What other tables must say, which the execution system does not hold. */
  predicate OthersAllow(f: Policy.Facts) {
    && f.disposition == Policy.ReplayCandidate && f.kind == Policy.WaitThenReplay && f.taxonomy == Policy.F01
    && f.evidenceComplete && f.orderValid && f.inputValid
    && f.actionFingerprint.Some? && f.actionFingerprint == f.currentActionFingerprint
    && f.requestFingerprint.Some? && f.requestFingerprint == f.currentRequestFingerprint
    && f.handlerVersion.Some? && f.handlerVersion == f.currentHandlerVersion
  }

  /** In terms of rows, the policy allows a replay exactly of a stage that failed for good with a captured rate limit, on
      record in execution, failure and attempts alike and waited out, after successes and before nothing, and without any
      other request. */
  lemma RowsAllowExactly(t: Tables, r: R.ReplayTables, k: Key, exclude: Option<nat>, facts: Policy.Facts, now: Time)
    requires k in t.executions && k in t.failures
    ensures PolicyAllows(t, r, k, exclude, facts, now) <==>
      var e, f, first, zeroth := t.executions[k], t.failures[k], AttemptId(k, 1), AttemptId(k, 0);
      && OthersAllow(facts) && ConsistentEvidence(t, k)
      && e.status == Failed && e.leaseUntil == None && e.outcome != Some(Unknown)
      && f.source == FromOwner && f.evidence.provider == Some(Telegram) && f.evidence.phase == Some(Send)
      && f.evidence.safeCode == "telegram_http_429" && f.evidence.providerStatus == Some(429) && f.evidence.outcome == Rejected
      && (first in t.attempts || zeroth in t.attempts)
      && (first in t.attempts ==> Waited(t.attempts[first], now)) && (zeroth in t.attempts ==> Waited(t.attempts[zeroth], now))
      && (forall o :: o in t.executions && o.run == k.run && o.stage < k.stage ==> t.executions[o].status == Success)
      && (forall o :: o in t.executions && o.run == k.run ==> o.stage <= k.stage)
      && (forall q :: q in r.requests && r.requests[q].key == k ==> exclude == Some(q))
  {
    hide Policy.Evaluate, Policy.Answers, ConsistentEvidence, Policy.SafeHistory, Policy.CooledDown, Policy.NotBefore, Waited, AttemptFacts;
    Policy.RequiresApprovalExactly(CurrentFacts(t, r, k, exclude, facts), now);
    AttemptsAllow(t, k, now);
    NoSiblings(r, k, exclude);
  }

  lemma NoSiblings(r: R.ReplayTables, k: Key, exclude: Option<nat>)
    ensures |Siblings(r, k, exclude)| == 0 <==> forall q :: q in r.requests && r.requests[q].key == k ==> exclude == Some(q)
  {
    if q :| q in r.requests && r.requests[q].key == k && exclude != Some(q) { assert q in Siblings(r, k, exclude); }
    if |Siblings(r, k, exclude)| != 0 {
      var q :| q in Siblings(r, k, exclude);
    }
  }

  lemma AttemptsAllow(t: Tables, k: Key, now: Time)
    ensures var facts, first, zeroth := AttemptFacts(t, k), AttemptId(k, 1), AttemptId(k, 0);
      Policy.SafeHistory(facts) && Policy.CooledDown(facts, now) && Policy.NotBefore(facts) <= Policy.MAX_DATE_MS <==>
        && (first in t.attempts || zeroth in t.attempts)
        && (first in t.attempts ==> Waited(t.attempts[first], now)) && (zeroth in t.attempts ==> Waited(t.attempts[zeroth], now))
  {
    var facts, first, zeroth := AttemptFacts(t, k), AttemptId(k, 1), AttemptId(k, 0);
    if first in t.attempts { assert AttemptFact(t.attempts[first]) in facts; }
    if zeroth in t.attempts { assert AttemptFact(t.attempts[zeroth]) in facts; }
    assert forall a :: a in facts ==>
      || (first in t.attempts && a == AttemptFact(t.attempts[first]))
      || (zeroth in t.attempts && a == AttemptFact(t.attempts[zeroth]));
    forall id | id in t.attempts
      ensures Waited(t.attempts[id], now) <==>
        (var a := AttemptFact(t.attempts[id]);
         Policy.SafeAttempt(a) && Policy.Deadline(a) <= now && Policy.Deadline(a) <= Policy.MAX_DATE_MS)
    {
    }
  }

  /** A request the policy allows on the tables as they are, for a stage and under an approval nobody used, is stored with
      what the policy names, and its replay waits. */
  lemma AllowedRequestIsStored(s: System, id: nat, key: Key, approval: nat, expiresAt: int, facts: Policy.Facts)
    requires key in s.store.executions && key in s.store.failures
    requires PolicyAllows(s.store, s.replay, key, None, facts, s.clock) && s.clock < expiresAt
    requires id !in s.replay.requests && id !in s.replay.replays
    requires forall r :: r in s.replay.requests ==> s.replay.requests[r].key != key && s.replay.requests[r].approval != approval
    ensures var t := Apply(s, RequestReplay(id, key, approval, expiresAt, true, facts));
      var v := Policy.Evaluate(CurrentFacts(s.store, s.replay, key, None, facts), s.clock).verdict;
      && v.actionFingerprint.Some? && v.requestFingerprint.Some? && v.handlerVersion.Some? && v.notBefore.Some?
      && t.replay.requests == s.replay.requests[id := Request(
           key, approval, v.actionFingerprint.value, v.requestFingerprint.value, v.handlerVersion.value, v.notBefore.value, expiresAt)]
      && id in t.replay.replays && t.replay.replays[id].status == Reserved && t.replay.replays[id].publishedAt == None
  {
    hide Apply, Policy.Evaluate, CurrentFacts, Policy.Answers;
    RequestIs(s, id, key, approval, expiresAt, facts);
    AllowedNames(CurrentFacts(s.store, s.replay, key, None, facts), s.clock);
  }

  lemma AllowedNames(f: Policy.Facts, now: Time)
    requires Policy.Evaluate(f, now).Decided? && Policy.Evaluate(f, now).verdict.status == Policy.RequiresApproval
    ensures var v := Policy.Evaluate(f, now).verdict;
      && v.actionFingerprint.Some? && v.requestFingerprint.Some? && v.handlerVersion.Some?
      && v.notBefore.Some? && v.notBefore.value <= now
  {
    Policy.RequiresApprovalExactly(f, now);
  }

  lemma RequestIs(s: System, id: nat, key: Key, approval: nat, expiresAt: int, facts: Policy.Facts)
    ensures Apply(s, RequestReplay(id, key, approval, expiresAt, true, facts)) == DoRequest(s, id, key, approval, expiresAt, facts)
  {
    hide DoRequest;
  }

  /** The reconciler settles what nobody else does: it quarantines an expired owner, and gives an old failure its record. */
  lemma NeglectedStageIsReconciled(s: System, k: Key)
    requires Inv(s)
    ensures OverdueRow(s.store, k, s.clock) ==>
      O.QuarantinedRow(s.store, Apply(s, Quarantine(k, s.store.executions[k].token, s.clock)).store, k, s.clock, FromReconciler, None)
    ensures Unrecorded(s.store, k) ==> RepairedRow(s.store, Apply(s, Repair(k, s.store.executions[k].token)).store, k)
  {
    hide Inv, O.QuarantinedRow, RepairedRow, Execute, Apply;
    if k in s.store.executions {
      var token := s.store.executions[k].token;
      ReconcilerIs(s, k, token);
      RowFacts(s, k);
      if OverdueRow(s.store, k, s.clock) { ReconcilerQuarantines(s.store, k, token, s.clock, s.nextId); }
      if Unrecorded(s.store, k) { ReconcilerRepairs(s.store, k, token, s.nextId); }
    }
  }

  /** An old failure has its record: that nobody knows what the call did. */
  ghost predicate RepairedRow(t: Tables, u: Tables, k: Key) {
    && OnlyTouches(t, u, k) && k in u.executions && u.executions[k].status == Failed && u.executions[k].requiresHuman
    && k in u.failures && u.failures[k].source == FromReconciler
    && u.failures[k].evidence.safeCode == "missing_failure_record" && u.failures[k].evidence.outcome == Unknown
  }

  lemma ReconcilerRepairs(t: Tables, k: Key, token: Option<nat>, id: nat)
    requires Unrecorded(t, k) && t.executions[k].token == token
    ensures var tx := Execute(t, TxRepair(k, token, id)); tx.Committed? && RepairedRow(t, tx.state, k)
  {
  }

  lemma ReconcilerIs(s: System, k: Key, token: Option<nat>)
    ensures Execute(s.store, TxFence(k, token, s.clock, s.nextId, FromReconciler, None)).Committed? ==>
      Apply(s, Quarantine(k, token, s.clock)).store == Execute(s.store, TxFence(k, token, s.clock, s.nextId, FromReconciler, None)).state
    ensures Execute(s.store, TxRepair(k, token, s.nextId)).Committed? ==>
      Apply(s, Repair(k, token)).store == Execute(s.store, TxRepair(k, token, s.nextId)).state
  {
    hide Execute;
  }

  lemma ReconcilerQuarantines(t: Tables, k: Key, token: Option<nat>, at: Time, id: nat)
    requires OverdueRow(t, k, at) && t.executions[k].token == token && k !in t.failures
    ensures var tx := Execute(t, TxFence(k, token, at, id, FromReconciler, None));
      tx.Committed? && O.QuarantinedRow(t, tx.state, k, at, FromReconciler, None)
  {
  }

  // ----- a whole run -----

  /** An idle worker at the end of its partition. */
  predicate AtEnd(s: System, w: nat) {
    && w in s.workers && s.workers[w].pc == Idle && s.workers[w].partition < |s.topic|
    && s.workers[w].position == |s.topic[s.workers[w].partition]|
  }

  /** The stages of a run from one on have all succeeded. */
  ghost predicate SucceededFrom(t: Tables, run: nat, from: nat, actions: nat) {
    forall n: nat :: from <= n < actions ==> ExecutionDone(t, Key(run, n))
  }

  predicate NobodyClaimedFrom(t: Tables, run: nat, from: nat) {
    forall k | k in t.executions :: k.run == run ==> k.stage < from
  }

  /** A worker that is handed a stage nobody claimed, with its message last in the partition, can carry the rest of the run to
      its end by itself. */
  lemma {:induction false} RestCanComplete(s: System, w: nat, run: nat, stage: nat, fps: Fingerprints, receipt: Option<string>)
    returns (events: seq<Event>)
    requires Inv(s) && HasMessage(s, w) && s.workers[w].pc == Idle && Current(s, w) == Ordinary(Key(run, stage))
    requires s.workers[w].position + 1 == |s.topic[s.workers[w].partition]|
    requires run in s.runs && stage < s.runs[run] && NobodyClaimedFrom(s.store, run, stage)
    ensures var t := Run(s, events);
      && SucceededFrom(t.store, run, stage, s.runs[run]) && AtEnd(t, w) && t.runs == s.runs && t.outbox == s.outbox
      && t.workers[w].partition == s.workers[w].partition && t.workers[w].partition < |t.committed|
      && t.committed[t.workers[w].partition] == t.workers[w].position
    decreases s.runs[run] - stage
  {
    hide Inv, Apply, O.EndedAs;
    var k, p, report := Key(run, stage), s.workers[w].partition, AcceptedBy(Telegram, receipt);
    var next := Following(s, k);
    var here := Opening(w, fps, None, Telegram) + [Invoke(w), Respond(w, report), Finish(w)] + Tail(w, next, p);
    var t := Run(s, here);
    FreshStageIsCalled(s, w, k, fps, None, Telegram, report, p);
    ProtocolTheorems.RunKeeps(s, here);
    SuccessIs(s.store, t.store, k, s.nextId, O.Call(fps, None), report, s.clock);
    if next.Some? {
      var rest := RestCanComplete(t, w, run, stage + 1, fps, receipt);
      RunBoth(s, here, rest);
      ProtocolTheorems.RunsOnlyMoveForward(t, rest);
      StillDone(t.store, Run(t, rest).store, k);
      return here + rest;
    }
    return here;
  }

  lemma SuccessIs(t: Tables, u: Tables, k: Key, token: nat, call: O.Call, report: Report, at: Time)
    requires O.EndedAs(t, u, k, token, call, 1, report, at) && report.AcceptedBy?
    ensures ExecutionDone(u, k)
    ensures NobodyClaimedFrom(t, k.run, k.stage) ==> NobodyClaimedFrom(u, k.run, k.stage + 1)
  {
  }

  lemma StillDone(t: Tables, u: Tables, k: Key)
    requires ExecutionDone(t, k) && Progress(t, u)
    ensures ExecutionDone(u, k)
  {
  }

  /** Whatever else is going on, a run that waits in the outbox can be carried to its end by one processor and one worker:
      every stage succeeds, every message of it is committed, and the outbox is rid of it. */
  lemma IngestedRunCanComplete(s: System, w: nat, p: nat, run: nat, fps: Fingerprints, receipt: Option<string>)
    returns (events: seq<Event>)
    requires Inv(s) && AtEnd(s, w) && run in s.outbox && run in s.runs && s.runs[run] > 0 && NobodyClaimedFrom(s.store, run, 0)
    ensures var t := Run(s, events);
      && SucceededFrom(t.store, run, 0, s.runs[run]) && run !in t.outbox && AtEnd(t, w)
      && t.workers[w].partition < |t.committed| && t.committed[t.workers[w].partition] == t.workers[w].position
  {
    hide Inv, Apply;
    var partition := s.workers[w].partition;
    var ship := [ReadOutbox(p, [run]), SendOutbox(p, partition), DeleteOutbox(p)];
    OutboxRunIsSent(s, p, run, partition);
    ProtocolTheorems.RunKeeps(s, ship);
    var rest := RestCanComplete(Run(s, ship), w, run, 0, fps, receipt);
    RunBoth(s, ship, rest);
    return ship + rest;
  }
}
