/** What is promised of replays in every run of the execution system. */
module ReplayTheorems {
  import opened Domain
  import opened ExecutionTables
  import opened ReplayTables
  import opened Protocol
  import opened ProtocolInvariant
  import opened ProtocolTheorems

  predicate Succeeded(s: System, id: nat) {
    id in s.replay.replays && s.replay.replays[id].status == ReplaySuccess
  }

  /** The worker whose event this is holds the replay's current token, inside its lease, with an accepted call. */
  ghost predicate OwnerCompletes(s: System, e: Event, id: nat) {
    && e.Finish? && HasMessage(s, e.worker)
    && var pc := s.workers[e.worker].pc;
    && pc.ReplayFinishing? && pc.request == id && pc.report.AcceptedBy?
    && HoldsLease(s.replay, id, pc.token, s.clock)
    && pc.called.Some? && Called(s, pc.token, pc.called.value, Reported(Accepted))
  }

  lemma FinishSucceeds(s: System, w: nat, id: nat)
    requires Inv(s) && HasMessage(s, w) && id in s.replay.replays && !Succeeded(s, id)
    requires Succeeded(DoFinish(s, w), id)
    ensures OwnerCompletes(s, Finish(w), id) && DoFinish(s, w).store == s.store
  {
    hide Inv, ExecuteReplay, Execute, ReplayLifecycle;
    ReplayFactsOf(s);
    match s.workers[w].pc
    case ReplayFinishing(token, request, called, report) =>
      WorkerFactsOf(s, w);
      var tx := RtComplete(request, token, report, s.clock);
      if ExecuteReplay(s.replay, tx).Committed? { SuccessOnlyByOwner(s.replay, tx, id); }
    case _ =>
  }

  lemma ReplayFactsOf(s: System)
    requires Inv(s)
    ensures ReplayLifecycle(s.replay)
  {
  }

  lemma WorkerFactsOf(s: System, w: nat)
    requires Inv(s) && HasMessage(s, w) && s.workers[w].pc.ReplayFinishing?
    ensures var pc := s.workers[w].pc;
      && Honest(pc.report)
      && (pc.called.Some? ==> Called(s, pc.token, pc.called.value, Reported(OutcomeOf(pc.report))))
      && (pc.called.None? ==> OutcomeOf(pc.report) == NotAttempted)
  {
    hide Lifecycle, ReplayLifecycle, LegacyOk, MessagesOk, RowsPlaced, RequestsOk, GrantsOk, LogOk, OutboxSideOk, OffsetsOk;
    assert WorkerOk(s, w);
  }

  /** A transaction that is not an owner's completion makes no replay succeed. */
  lemma OthersDoNotSucceed(s: System, tx: ReplayTransaction, id: nat)
    requires Inv(s) && !tx.RtComplete? && id in s.replay.replays && !Succeeded(s, id)
    ensures ExecuteReplay(s.replay, tx).Committed? ==>
      id !in ExecuteReplay(s.replay, tx).state.replays || ExecuteReplay(s.replay, tx).state.replays[id].status != ReplaySuccess
  {
    hide Inv, ExecuteReplay, ReplayLifecycle;
    ReplayFactsOf(s);
    if ExecuteReplay(s.replay, tx).Committed? && id in ExecuteReplay(s.replay, tx).state.replays
      && ExecuteReplay(s.replay, tx).state.replays[id].status == ReplaySuccess {
      SuccessOnlyByOwner(s.replay, tx, id);
    }
  }

  lemma EndingDoesNotSucceed(s: System, w: nat, tx: ReplayTransaction, id: nat)
    requires Inv(s) && w in s.workers && !tx.RtComplete? && id in s.replay.replays && !Succeeded(s, id)
    ensures !Succeeded(Ending(s, w, tx), id)
  {
    hide Inv, ExecuteReplay;
    OthersDoNotSucceed(s, tx, id);
  }

  lemma TakeDoesNotSucceed(s: System, id: nat, tx: ReplayTransaction)
    requires Inv(s) && tx.RtTake? && id in s.replay.replays && !Succeeded(s, id)
    ensures ExecuteReplay(s.replay, tx).Committed? ==> !Succeeded(s.(replay := ExecuteReplay(s.replay, tx).state), id)
  {
    hide Inv, ExecuteReplay;
    OthersDoNotSucceed(s, tx, id);
  }

  lemma ClaimDoesNotSucceed(s: System, w: nat, c: ReplayChecks, id: nat)
    requires Inv(s) && HasMessage(s, w) && id in s.replay.replays && !Succeeded(s, id)
    ensures !Succeeded(DoClaimReplay(s, w, c), id)
  {
    hide Inv, ExecuteReplay, StillAllowed, Ending, Settle;
    var m := Current(s, w);
    if m.ReplayOrder? {
      EndingDoesNotSucceed(s, w, RtExpire(m.request, s.clock), id);
      EndingDoesNotSucceed(s, w, RtDeny(m.request, "replay_authority_invalid", s.clock), id);
      EndingDoesNotSucceed(s, w, RtDeny(m.request, "replay_policy_changed", s.clock), id);
      EndingDoesNotSucceed(s, w, RtDeny(m.request, "replay_input_identity_unproven", s.clock), id);
      if m.key.run in s.runs { TakeDoesNotSucceed(s, id, RtTake(m.request, s.nextId, Following(s, m.key), s.clock)); }
    }
  }

  lemma RequestDoesNotSucceed(s: System, e: Event, id: nat)
    requires Inv(s) && id in s.replay.replays && !Succeeded(s, id) && e.RequestReplay?
    ensures !Succeeded(Apply(s, e), id)
  {
    hide Inv, ExecuteReplay, NewRequest;
    var request := NewRequest(s, e.key, e.approval, e.expiresAt, e.facts);
    if request.Some? { OthersDoNotSucceed(s, RtReserve(e.id, request.value), id); }
  }

  lemma LeaseDoesNotSucceed(s: System, e: Event, id: nat)
    requires Inv(s) && id in s.replay.replays && !Succeeded(s, id) && e.LeaseRequest?
    ensures !Succeeded(Apply(s, e), id)
  {
    hide Inv, ExecuteReplay;
    OthersDoNotSucceed(s, RtLease(e.id, s.nextId, s.clock), id);
  }

  lemma DispatchedDoesNotSucceed(s: System, d: nat, tx: ReplayTransaction, id: nat)
    requires Inv(s) && id in s.replay.replays && !Succeeded(s, id) && !tx.RtComplete?
    ensures !Succeeded(Dispatched(s, d, tx), id)
  {
    hide Inv, ExecuteReplay;
    OthersDoNotSucceed(s, tx, id);
  }

  lemma DispatchDoesNotSucceed(s: System, e: Event, id: nat)
    requires Inv(s) && id in s.replay.replays && !Succeeded(s, id) && (e.ReleaseRequest? || e.StampRequest?)
    ensures !Succeeded(Apply(s, e), id)
  {
    hide Inv, ExecuteReplay, Dispatched;
    if e.dispatcher in s.dispatchers {
      match s.dispatchers[e.dispatcher]
      case Leased(r, token, attempts) => DispatchedDoesNotSucceed(s, e.dispatcher, RtRelease(r, token, attempts, s.clock), id);
      case Sent(r, token) => DispatchedDoesNotSucceed(s, e.dispatcher, RtStamp(r, token, s.clock), id);
      case Waiting =>
    }
  }

  lemma ReplayEventDoesNotSucceed(s: System, e: Event, id: nat)
    requires Inv(s) && id in s.replay.replays && !Succeeded(s, id)
    requires e.RequestReplay? || e.LeaseRequest? || e.ReleaseRequest? || e.StampRequest? || e.ClaimReplay?
    ensures !Succeeded(Apply(s, e), id)
  {
    hide Inv, Apply;
    match e
    case RequestReplay(_, _, _, _, _, _) => RequestDoesNotSucceed(s, e, id);
    case LeaseRequest(_, _) => LeaseDoesNotSucceed(s, e, id);
    case ClaimReplay(w, c) =>
      ClaimIs(s, w, c);
      if HasMessage(s, w) { ClaimDoesNotSucceed(s, w, c, id); }
    case _ => DispatchDoesNotSucceed(s, e, id);
  }

  lemma ClaimIs(s: System, w: nat, c: ReplayChecks)
    ensures Apply(s, ClaimReplay(w, c))
      == if HasMessage(s, w) && s.workers[w].pc.Idle? then DoClaimReplay(s, w, c) else s
  {
    hide DoClaimReplay;
  }

  lemma ClaimStepsKeepReplays(s: System, w: nat, version: Option<Hash>)
    requires HasMessage(s, w)
    ensures s.workers[w].pc.Claiming? ==> DoInsert(s, w, version).replay == s.replay
    ensures s.workers[w].pc.Quarantining? ==> DoFence(s, w).replay == s.replay
  {
    hide Create, FenceExpired, Settle;
  }

  lemma OwnerStepsKeepReplays(s: System, w: nat, provider: Provider)
    requires HasMessage(s, w) && s.workers[w].pc.Owner?
    ensures DoRefuse(s, w).replay == s.replay && DoBegin(s, w, provider).replay == s.replay
  {
    hide Execute, Settle;
  }

  lemma ReconcilerKeepsReplays(s: System, e: Event)
    requires e.Quarantine? || e.Repair?
    ensures Apply(s, e).replay == s.replay
  {
    hide Execute;
  }

  lemma StoreEventKeepsReplays(s: System, e: Event)
    requires e.Insert? || e.Fence? || e.Refuse? || e.Begin?
    ensures Apply(s, e).replay == s.replay
  {
    hide DoInsert, DoFence, DoRefuse, DoBegin;
    match e
    case Insert(w, v) => if HasMessage(s, w) { ClaimStepsKeepReplays(s, w, v); }
    case Fence(w) => if HasMessage(s, w) { ClaimStepsKeepReplays(s, w, None); }
    case Refuse(w) => if HasMessage(s, w) && s.workers[w].pc.Owner? { OwnerStepsKeepReplays(s, w, Telegram); }
    case Begin(w, provider) => if HasMessage(s, w) && s.workers[w].pc.Owner? { OwnerStepsKeepReplays(s, w, provider); }
  }

  /** Worker steps other than finishing, and everything that is not about replays, leave the replay tables alone. */
  lemma OtherEventKeepsReplays(s: System, e: Event)
    requires !(e.RequestReplay? || e.LeaseRequest? || e.ReleaseRequest? || e.StampRequest? || e.ClaimReplay? || e.Finish?)
    ensures Apply(s, e).replay == s.replay
  {
    hide Apply;
    if e.Insert? || e.Fence? || e.Refuse? || e.Begin? { StoreEventKeepsReplays(s, e); }
    else if e.Quarantine? || e.Repair? { ReconcilerKeepsReplays(s, e); }
    else if e.Fetch? || e.Find? { ReadingForward(s, e); }
    else if e.Invoke? || e.Respond? || e.Decline? { CallingForward(s, e); }
    else if e.Publish? || e.Commit? || e.Drop? || e.Assign? { OffsetsForward(s, e); }
    else { OutsideForward(s, e); }
  }

  /** In every run, a replay that succeeds does so in one step: its current owner, inside its lease, records the acceptance its
      provider call reported; no original execution row changes with it. */
  lemma SuccessIsTheOwners(s: System, events: seq<Event>, e: Event, id: nat)
    requires Init(s)
    requires id in Run(s, events).replay.replays && !Succeeded(Run(s, events), id)
    requires Succeeded(Apply(Run(s, events), e), id)
    ensures OwnerCompletes(Run(s, events), e, id)
    ensures Apply(Run(s, events), e).store == Run(s, events).store
  {
    hide Inv, Init, Run, DoFinish, DoClaimReplay, Apply;
    Reachable(s, events);
    var t := Run(s, events);
    if e.Finish? {
      FinishIs(t, e.worker);
      if HasMessage(t, e.worker) { FinishSucceeds(t, e.worker, id); }
    } else if e.RequestReplay? || e.LeaseRequest? || e.ReleaseRequest? || e.StampRequest? || e.ClaimReplay? {
      ReplayEventDoesNotSucceed(t, e, id);
    } else {
      OtherEventKeepsReplays(t, e);
    }
  }

  lemma FinishIs(s: System, w: nat)
    ensures Apply(s, Finish(w)) == if HasMessage(s, w) then DoFinish(s, w) else s
  {
    hide DoFinish;
  }

  /** In every reachable state: a replay that ended has exactly one attempt, finished with the outcome its status says; one
      that ended otherwise than in success has exactly one failure record that agrees, and one that has not ended has none. */
  lemma ReplayLifecycleHolds(s: System, events: seq<Event>, id: nat)
    requires Init(s) && id in Run(s, events).replay.replays
    ensures var r := Run(s, events).replay;
      && id in r.requests
      && (Terminal(r.replays[id].status) ==>
           && id in r.attempts && r.attempts[id].status.Ended?
           && StatusFor(r.attempts[id].status.outcome) == r.replays[id].status
           && r.replays[id].token == None)
      && (id in r.failures <==> r.replays[id].status in {ReplayFailed, ReplayUnknown})
      && (id in r.failures ==> id in r.attempts && r.attempts[id].status == Ended(r.failures[id].evidence.outcome))
      && (r.replays[id].status == Running ==> id in r.attempts && r.attempts[id].status == Started)
  {
    hide Inv, Init, Run;
    Reachable(s, events);
    ReplayFactsOf(Run(s, events));
    assert Coherent(Run(s, events).replay, id);
  }
}
