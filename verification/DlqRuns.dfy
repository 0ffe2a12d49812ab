/** Every interleaving of publishers, crashes and time over the failure records. */
module DlqRuns {
  import opened Domain
  import opened DlqPublisher

  /** Where a publisher stands between two awaits. */
  datatype Pc =
    | Idle
    | Looking(at: Time, candidates: seq<nat>)
    | Owning(id: nat, token: nat)
    | Ready(id: nat, token: nat, attempts: nat)
    | Refused(id: nat, token: nat, attempts: nat)
    | Acked(id: nat, token: nat)

  datatype Dispatch = Dispatch(id: nat, token: nat, acknowledged: bool)

  datatype Stamp = Stamp(id: nat, token: nat)

  /** Who claimed which record under a token. */
  datatype Grant = Grant(publisher: nat, id: nat)

  /** The tables, the publishers, and the history of claims, sends and stamps. */
  datatype System = System(clock: Time, nextToken: nat, rows: map<nat, Row>, publishers: map<nat, Pc>,
                           grants: map<nat, Grant>, sends: seq<Dispatch>, stamps: seq<Stamp>)

  datatype Event =
    | Tick(ms: nat)
    | Appear(id: nat)
    | Look(p: nat, candidates: seq<nat>)
    | Claim(p: nat)
    | Read(p: nat)
    | Deliver(p: nat, acknowledged: bool)
    | Release(p: nat)
    | Settle(p: nat)
    | Crash(p: nat)

  function At(s: System, p: nat, pc: Pc): System {
    s.(publishers := s.publishers[p := pc])
  }

  function DoClaim(s: System, p: nat, at: Time, candidates: seq<nat>): System
    requires candidates != []
  {
    var c := candidates[0];
    if c in s.rows && Due(s.rows[c], at)
    then At(s.(rows := s.rows[c := Claimed(s.rows[c], s.nextToken, at)], nextToken := s.nextToken + 1,
               grants := s.grants[s.nextToken := Grant(p, c)]), p, Owning(c, s.nextToken))
    else At(s, p, if |candidates| == 1 then Idle else Looking(at, candidates[1..]))
  }

  function Apply(s: System, e: Event): System {
    match e
    case Tick(ms) => s.(clock := s.clock + ms)
    case Appear(id) => if id in s.rows then s else s.(rows := s.rows[id := UNTOUCHED])
    case Crash(p) => At(s, p, Idle)
    case Look(p, candidates) =>
      if p in s.publishers && s.publishers[p].Idle? && 0 < |candidates| <= 10
      then At(s, p, Looking(s.clock, candidates)) else s
    case _ =>
      if e.p !in s.publishers then s else
        match (e, s.publishers[e.p])
        case (Claim(p), Looking(at, candidates)) => if candidates == [] then s else DoClaim(s, p, at, candidates)
        case (Read(p), Owning(id, token)) => if id in s.rows then At(s, p, Ready(id, token, s.rows[id].attempts)) else s
        case (Deliver(p, ok), Ready(id, token, attempts)) =>
          At(s.(sends := s.sends + [Dispatch(id, token, ok)]), p, if ok then Acked(id, token) else Refused(id, token, attempts))
        case (Release(p), Refused(id, token, attempts)) =>
          At(if id in s.rows && Holds(s.rows[id], token)
             then s.(rows := s.rows[id := Released(s.rows[id], attempts, s.clock)]) else s, p, Idle)
        case (Settle(p), Acked(id, token)) =>
          At(if id in s.rows && Holds(s.rows[id], token)
             then s.(rows := s.rows[id := Stamped(s.rows[id], s.clock)], stamps := s.stamps + [Stamp(id, token)]) else s, p, Idle)
        case _ => s
  }

  function Run(s: System, events: seq<Event>): System {
    if events == [] then s else Apply(Run(s, events[..|events| - 1]), events[|events| - 1])
  }

  // ----- the invariant -----

  ghost predicate AckedSend(sends: seq<Dispatch>, id: nat, token: nat) {
    exists i :: 0 <= i < |sends| && sends[i] == Dispatch(id, token, true)
  }

  ghost predicate StampOf(stamps: seq<Stamp>, id: nat) {
    exists i :: 0 <= i < |stamps| && stamps[i].id == id
  }

  ghost predicate Granted(s: System, token: nat, p: nat, id: nat) {
    token in s.grants && s.grants[token] == Grant(p, id)
  }

  /** A row is published exactly if it was stamped; until then it is due again within the lease. */
  ghost predicate RowOk(s: System, id: nat)
    requires id in s.rows
  {
    var r := s.rows[id];
    && (r.published.Some? <==> StampOf(s.stamps, id))
    && (r.published.Some? ==> r.token == None && r.leaseUntil == None && r.nextAttempt == None)
    && (r.token.Some? ==> r.token.value in s.grants && s.grants[r.token.value].id == id)
    && (r.leaseUntil.Some? ==> r.leaseUntil.value <= s.clock + CLAIM_LEASE_MS)
    && (r.nextAttempt.Some? ==> r.nextAttempt.value <= s.clock + MAX_BACKOFF_MS)
  }

  /** A publisher works on the record it claimed, under the token it claimed it with. */
  ghost predicate PublisherOk(s: System, p: nat)
    requires p in s.publishers
  {
    match s.publishers[p]
    case Idle => true
    case Looking(at, _) => at <= s.clock
    case Owning(id, token) => Granted(s, token, p, id)
    case Ready(id, token, _) => Granted(s, token, p, id)
    case Refused(id, token, _) => Granted(s, token, p, id)
    case Acked(id, token) => Granted(s, token, p, id) && AckedSend(s.sends, id, token)
  }

  ghost predicate StampsOk(s: System) {
    && (forall i :: 0 <= i < |s.stamps| ==> s.stamps[i].id in s.rows && AckedSend(s.sends, s.stamps[i].id, s.stamps[i].token))
    && (forall i, k :: 0 <= i < k < |s.stamps| ==> s.stamps[i].id != s.stamps[k].id)
  }

  ghost predicate Inv(s: System) {
    && (forall id :: id in s.rows ==> RowOk(s, id))
    && (forall p :: p in s.publishers ==> PublisherOk(s, p))
    && (forall token :: token in s.grants ==> token < s.nextToken)
    && StampsOk(s)
  }

  ghost predicate Init(s: System) {
    && (forall id :: id in s.rows ==> s.rows[id] == UNTOUCHED)
    && (forall p :: p in s.publishers ==> s.publishers[p] == Idle)
    && s.grants == map[] && s.sends == [] && s.stamps == []
  }

  lemma InitHolds(s: System)
    requires Init(s)
    ensures Inv(s)
  {
  }

  /** History only grows. */
  ghost predicate Grows(s: System, t: System) {
    && s.clock <= t.clock && s.sends <= t.sends
    && (forall token :: token in s.grants ==> token in t.grants && t.grants[token] == s.grants[token])
  }

  lemma AckedStays(s: System, t: System, id: nat, token: nat)
    requires Grows(s, t) && AckedSend(s.sends, id, token)
    ensures AckedSend(t.sends, id, token)
  {
    var i :| 0 <= i < |s.sends| && s.sends[i] == Dispatch(id, token, true);
    assert t.sends[i] == s.sends[i];
  }

  /** A step that changes one publisher and at most one row keeps the invariant if both are right afterwards. */
  lemma StepKeeps(s: System, t: System, p: nat, id: nat)
    requires Inv(s) && Grows(s, t) && StampsOk(t) && (forall token :: token in t.grants ==> token < t.nextToken)
    requires forall q :: q in t.publishers && q != p ==> q in s.publishers && t.publishers[q] == s.publishers[q]
    requires p in t.publishers ==> PublisherOk(t, p)
    requires forall k :: k in t.rows && k != id ==> k in s.rows && t.rows[k] == s.rows[k]
    requires forall k :: k != id ==> (StampOf(s.stamps, k) <==> StampOf(t.stamps, k))
    requires id in t.rows ==> RowOk(t, id)
    ensures Inv(t)
  {
    hide StampOf, StampsOk, AckedSend;
    forall k | k in t.rows ensures RowOk(t, k) { if k != id { assert RowOk(s, k); } }
    forall q | q in t.publishers ensures PublisherOk(t, q) {
      if q != p {
        assert PublisherOk(s, q);
        if t.publishers[q].Acked? { AckedStays(s, t, t.publishers[q].id, t.publishers[q].token); }
      }
    }
  }

  lemma ClaimKeeps(s: System, p: nat)
    requires Inv(s)
    ensures Inv(Apply(s, Claim(p)))
  {
    hide StampOf, AckedSend;
    if p in s.publishers && s.publishers[p].Looking? && s.publishers[p].candidates != [] {
      var c, t := s.publishers[p].candidates[0], Apply(s, Claim(p));
      assert PublisherOk(s, p);
      assert c in s.rows ==> RowOk(s, c);
      StepKeeps(s, t, p, c);
    }
  }

  lemma QuietKeeps(s: System, e: Event)
    requires Inv(s) && (e.Crash? || e.Look? || e.Read?)
    ensures Inv(Apply(s, e))
  {
    hide StampOf, AckedSend;
    var t := Apply(s, e);
    if t != s {
      assert e.p in s.publishers ==> PublisherOk(s, e.p);
      if id :| id in t.rows { assert RowOk(s, id); StepKeeps(s, t, e.p, id); } else { StepKeeps(s, t, e.p, 0); }
    }
  }

  lemma TimeKeeps(s: System, e: Event)
    requires Inv(s) && (e.Tick? || e.Appear?)
    ensures Inv(Apply(s, e))
  {
    hide StampsOk, AckedSend;
    var t := Apply(s, e);
    assert StampsOk(t) by { StampsStay(s, t); }
    forall id | id in t.rows ensures RowOk(t, id) {
      if id in s.rows { assert RowOk(s, id); } else { NoStampYet(s, id); }
    }
    forall q | q in t.publishers ensures PublisherOk(t, q) { assert PublisherOk(s, q); }
  }

  lemma NoStampYet(s: System, id: nat)
    requires StampsOk(s) && id !in s.rows
    ensures !StampOf(s.stamps, id)
  {
  }

  lemma StampsStay(s: System, t: System)
    requires StampsOk(s) && t.stamps == s.stamps && Grows(s, t)
    requires forall id :: id in s.rows ==> id in t.rows
    ensures StampsOk(t)
  {
    hide AckedSend;
    forall i | 0 <= i < |t.stamps| ensures AckedSend(t.sends, t.stamps[i].id, t.stamps[i].token) {
      AckedStays(s, t, t.stamps[i].id, t.stamps[i].token);
    }
  }

  lemma DeliverKeeps(s: System, p: nat, ok: bool)
    requires Inv(s)
    ensures Inv(Apply(s, Deliver(p, ok)))
  {
    hide StampOf, StampsOk;
    var t := Apply(s, Deliver(p, ok));
    if t != s {
      var id := s.publishers[p].id;
      StampsStay(s, t);
      assert PublisherOk(s, p);
      assert t.sends[|s.sends|] == Dispatch(id, s.publishers[p].token, ok);
      assert id in s.rows ==> RowOk(s, id);
      StepKeeps(s, t, p, id);
    }
  }

  lemma ReleaseKeeps(s: System, p: nat)
    requires Inv(s)
    ensures Inv(Apply(s, Release(p)))
  {
    hide StampOf, StampsOk, AckedSend, Delay;
    var t := Apply(s, Release(p));
    if t != s {
      var id := s.publishers[p].id;
      DelaysGrow(s.publishers[p].attempts, s.publishers[p].attempts);
      StampsStay(s, t);
      assert id in s.rows ==> RowOk(s, id);
      StepKeeps(s, t, p, id);
    }
  }

  lemma SettleKeeps(s: System, p: nat)
    requires Inv(s)
    ensures Inv(Apply(s, Settle(p)))
  {
    hide AckedSend, StampsOk, StampOf;
    var t := Apply(s, Settle(p));
    if t != s {
      var id, token := s.publishers[p].id, s.publishers[p].token;
      assert PublisherOk(s, p);
      assert id in s.rows ==> RowOk(s, id);
      if id in s.rows && Holds(s.rows[id], token) {
        NewStamp(s, t, id, token);
      } else {
        StampsStay(s, t);
      }
      StepKeeps(s, t, p, id);
    }
  }

  lemma NewStamp(s: System, t: System, id: nat, token: nat)
    requires StampsOk(s) && Grows(s, t) && t.stamps == s.stamps + [Stamp(id, token)] && !StampOf(s.stamps, id)
    requires id in t.rows && AckedSend(s.sends, id, token) && forall k :: k in s.rows ==> k in t.rows
    ensures StampsOk(t) && StampOf(t.stamps, id)
    ensures forall k :: k != id ==> (StampOf(s.stamps, k) <==> StampOf(t.stamps, k))
  {
    hide AckedSend;
    assert t.stamps[|s.stamps|].id == id;
    AckedStays(s, t, id, token);
    forall i | 0 <= i < |s.stamps| ensures AckedSend(t.sends, t.stamps[i].id, t.stamps[i].token) {
      AckedStays(s, t, t.stamps[i].id, t.stamps[i].token);
    }
    forall k | k != id && StampOf(s.stamps, k) ensures StampOf(t.stamps, k) {
      var i :| 0 <= i < |s.stamps| && s.stamps[i].id == k;
      assert t.stamps[i].id == k;
    }
  }

  lemma ApplyKeeps(s: System, e: Event)
    requires Inv(s)
    ensures Inv(Apply(s, e))
  {
    hide Inv, Apply;
    match e
    case Claim(p) => ClaimKeeps(s, p);
    case Deliver(p, ok) => DeliverKeeps(s, p, ok);
    case Release(p) => ReleaseKeeps(s, p);
    case Settle(p) => SettleKeeps(s, p);
    case Tick(_) => TimeKeeps(s, e);
    case Appear(_) => TimeKeeps(s, e);
    case _ => QuietKeeps(s, e);
  }

  lemma {:induction false} RunKeeps(s: System, events: seq<Event>)
    requires Inv(s)
    ensures Inv(Run(s, events))
  {
    hide Inv, Apply;
    if events != [] {
      RunKeeps(s, events[..|events| - 1]);
      ApplyKeeps(Run(s, events[..|events| - 1]), events[|events| - 1]);
    }
  }

  lemma Reachable(s: System, events: seq<Event>)
    requires Init(s)
    ensures Inv(Run(s, events))
  {
    InitHolds(s);
    RunKeeps(s, events);
  }

  // ----- what is promised of every run -----

  /** A record counts as published only after an acknowledged send of its id by the publisher that stamped it, and one
      stamp ever wins. */
  lemma PublishedOnceAfterAcknowledgement(s: System, events: seq<Event>)
    requires Init(s)
    ensures var t := Run(s, events);
      && (forall id :: id in t.rows && t.rows[id].published.Some? ==>
           exists i :: 0 <= i < |t.stamps| && t.stamps[i].id == id && AckedSend(t.sends, id, t.stamps[i].token))
      && (forall i, k :: 0 <= i < k < |t.stamps| ==> t.stamps[i].id != t.stamps[k].id)
      && (forall i :: 0 <= i < |t.stamps| ==> t.stamps[i].id in t.rows && t.rows[t.stamps[i].id].published.Some?)
  {
    hide Init, Run, AckedSend;
    Reachable(s, events);
    var t := Run(s, events);
    forall id | id in t.rows && t.rows[id].published.Some?
      ensures exists i :: 0 <= i < |t.stamps| && t.stamps[i].id == id && AckedSend(t.sends, id, t.stamps[i].token)
    {
      assert RowOk(t, id);
    }
    forall i | 0 <= i < |t.stamps| ensures t.rows[t.stamps[i].id].published.Some? { assert RowOk(t, t.stamps[i].id); }
  }

  /** A published record never changes again: nobody claims it, releases it or stamps it a second time. */
  lemma {:induction false} PublishedIsFinal(s: System, events: seq<Event>, id: nat)
    requires id in s.rows && s.rows[id].published.Some?
    ensures id in Run(s, events).rows && Run(s, events).rows[id] == s.rows[id]
  {
    if events != [] { PublishedIsFinal(s, events[..|events| - 1], id); }
  }

  /** A publisher whose claim was taken over by another changes nothing of the record any more, wherever it stands. */
  lemma StalePublisherIsHarmless(s: System, events: seq<Event>, e: Event, id: nat, token: nat)
    requires Init(s) && (e.Release? || e.Settle? || e.Read? || e.Deliver?)
    requires id in Run(s, events).rows && Run(s, events).rows[id].token == Some(token)
    requires token in Run(s, events).grants && Run(s, events).grants[token].publisher != e.p
    ensures id in Apply(Run(s, events), e).rows && Apply(Run(s, events), e).rows[id] == Run(s, events).rows[id]
  {
    hide Init, Run, AckedSend, StampOf, StampsOk;
    Reachable(s, events);
    var t := Run(s, events);
    if e.p in t.publishers { assert PublisherOk(t, e.p); }
  }

  /** No record is forgotten: whatever happened to its publishers, an unpublished one is due within two minutes. */
  lemma UnpublishedIsDueAgain(s: System, events: seq<Event>, id: nat)
    requires Init(s) && id in Run(s, events).rows && Run(s, events).rows[id].published.None?
    ensures Due(Run(s, events).rows[id], Run(s, events).clock + 120_000)
  {
    hide Init, Run;
    Reachable(s, events);
    assert RowOk(Run(s, events), id);
  }

  // ----- what one publisher alone makes of a record -----

  lemma RunMore(s: System, events: seq<Event>, e: Event)
    ensures Run(s, events + [e]) == Apply(Run(s, events), e)
  {
    assert (events + [e])[..|events|] == events;
  }

  /** An idle publisher that comes across a record: one that is not published, whose next attempt and whose last claim are
      over, is claimed for two minutes; any other is left as it is. */
  lemma RecordIsClaimed(s: System, p: nat, id: nat)
    requires p in s.publishers && s.publishers[p] == Idle && id in s.rows
    ensures var r, t := s.rows[id], Run(s, [Look(p, [id]), Claim(p)]);
      && p in t.publishers && t.sends == s.sends && t.clock == s.clock
      && (if r.published.None? && (r.nextAttempt.None? || r.nextAttempt.value <= s.clock)
             && (r.leaseUntil.None? || r.leaseUntil.value <= s.clock)
          then t.publishers[p] == Owning(id, s.nextToken) && t.rows == s.rows[id := r.(
            token := Some(s.nextToken), leaseUntil := Some(s.clock + 120_000), attempts := r.attempts + 1)]
          else t.publishers[p] == Idle && t.rows == s.rows)
  {
    RunMore(s, [], Look(p, [id]));
    RunMore(s, [Look(p, [id])], Claim(p));
    assert [] + [Look(p, [id])] == [Look(p, [id])];
    assert [Look(p, [id])] + [Claim(p)] == [Look(p, [id]), Claim(p)];
  }

  /** A candidate that is not due any more is passed over for the next one. */
  lemma OthersArePassedOver(s: System, p: nat, at: Time, id: nat, rest: seq<nat>)
    requires p in s.publishers && s.publishers[p] == Looking(at, [id] + rest) && !(id in s.rows && Due(s.rows[id], at))
    ensures Apply(s, Claim(p)) == s.(publishers := s.publishers[p := if rest == [] then Idle else Looking(at, rest)])
  {
    assert ([id] + rest)[1..] == rest;
  }

  /** A publisher that owns a record sends it once: acknowledged, the record is published; refused, it is free again and due
      after its delay. */
  lemma OwnedRecordIsSent(s: System, p: nat, id: nat, token: nat)
    requires p in s.publishers && s.publishers[p] == Owning(id, token)
    requires id in s.rows && s.rows[id].published.None? && s.rows[id].token == Some(token)
    ensures var t := Run(s, [Read(p), Deliver(p, true), Settle(p)]);
      && t.rows == s.rows[id := Row(Some(s.clock), None, None, None, s.rows[id].attempts)]
      && t.sends == s.sends + [Dispatch(id, token, true)] && t.stamps == s.stamps + [Stamp(id, token)]
    ensures var t := Run(s, [Read(p), Deliver(p, false), Release(p)]);
      && t.rows == s.rows[id := Row(None, None, None, Some(s.clock + Delay(s.rows[id].attempts)), s.rows[id].attempts)]
      && t.sends == s.sends + [Dispatch(id, token, false)] && t.stamps == s.stamps
  {
    hide Delay;
    SendIs(s, p, id, token, true);
    SendIs(s, p, id, token, false);
    RunMore(s, [Read(p), Deliver(p, true)], Settle(p));
    RunMore(s, [Read(p), Deliver(p, false)], Release(p));
    assert [Read(p), Deliver(p, true)] + [Settle(p)] == [Read(p), Deliver(p, true), Settle(p)];
    assert [Read(p), Deliver(p, false)] + [Release(p)] == [Read(p), Deliver(p, false), Release(p)];
  }

  lemma SendIs(s: System, p: nat, id: nat, token: nat, acknowledged: bool)
    requires p in s.publishers && s.publishers[p] == Owning(id, token) && id in s.rows
    ensures Run(s, [Read(p), Deliver(p, acknowledged)]) == s.(
      sends := s.sends + [Dispatch(id, token, acknowledged)],
      publishers := s.publishers[p := if acknowledged then Acked(id, token) else Refused(id, token, s.rows[id].attempts)])
  {
    var read := At(s, p, Ready(id, token, s.rows[id].attempts));
    RunMore(s, [], Read(p));
    RunMore(s, [Read(p)], Deliver(p, acknowledged));
    assert [] + [Read(p)] == [Read(p)] && [Read(p)] + [Deliver(p, acknowledged)] == [Read(p), Deliver(p, acknowledged)];
    assert Apply(s, Read(p)) == read;
    var sent := Apply(read, Deliver(p, acknowledged));
    assert sent.publishers == s.publishers[p := sent.publishers[p]];
  }
}
