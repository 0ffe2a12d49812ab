/** The daily request allowance: starts serialized by one lock, each a look-up and an insertion between which every other
    transaction may run. */
module RequestAllowance {
  import opened Domain
  import opened Investigations
  import R = InvestigationRuns

  /** A row of the investigation table, in the order of insertion. */
  datatype Entry = Entry(job: nat, owner: nat, actor: nat, at: Time)

  /** The queue, the start that holds the lock, and the history of insertions. */
  datatype Desk = Desk(system: R.System, pending: Option<Pending>, entered: seq<Entry>)

  /** A start looks up, inserts or is given up; anything else is a transaction of the queue. */
  datatype Act =
    | LookUp(p: Pending)
    | Insert
    | Abandon
    | Else(e: R.Event)

  function EntryOf(p: Pending): Entry {
    Entry(p.id, p.binding.owner, p.binding.actor, p.now)
  }

  predicate FreeFor(d: Desk, p: Pending) {
    Free(d.system.tables, p.id, p.binding, p.key)
  }

  function Apply(d: Desk, a: Act): Desk {
    match a
    case LookUp(p) =>
      if d.pending.None? && p.now <= d.system.clock && MayPend(d.system.tables, d.system.limits, p)
      then d.(pending := Some(p)) else d
    case Insert =>
      if d.pending.None? then d
      else
        var p := d.pending.value;
        Desk(R.Apply(d.system, R.RequestJob(p.id, p.binding, p.key, p.now)), None,
             if FreeFor(d, p) then d.entered + [EntryOf(p)] else d.entered)
    case Abandon => d.(pending := None)
    case Else(e) => if e.RequestJob? then d else d.(system := R.Apply(d.system, e))
  }

  function Run(d: Desk, acts: seq<Act>): Desk {
    if acts == [] then d else Apply(Run(d, acts[..|acts| - 1]), acts[|acts| - 1])
  }

  predicate Init(d: Desk) {
    R.Init(d.system) && d.pending == None && d.entered == []
  }

  // ----- counting rows -----

  predicate InSpan(at: Time, after: int, until: Option<int>) {
    at > after && (until.None? || at <= until.value)
  }

  predicate Counts(e: Entry, who: Who, after: int, until: Option<int>) {
    For(who, e.owner, e.actor) && InSpan(e.at, after, until)
  }

  /** The rows created for someone after one instant and not after another. */
  function Entered(es: seq<Entry>, who: Who, after: int, until: Option<int>): nat {
    if es == [] then 0
    else Entered(es[..|es| - 1], who, after, until) + if Counts(es[|es| - 1], who, after, until) then 1 else 0
  }

  function OutsideRows(outside: seq<Outside>, after: int, until: Option<int>): nat {
    |set i | 0 <= i < |outside| && InSpan(outside[i].at, after, until)|
  }

  function Allowance(l: Limits, who: Who): nat
    requires !who.Anyone?
  {
    if who.Owner? then l.ownerRequests else l.operatorRequests
  }

  /** In the day that begins after an instant, the rows created for someone stay within the allowance, together with the
      evaluation's of that day. */
  predicate DayWithin(d: Desk, who: Who, after: int)
    requires !who.Anyone?
  {
    var rows := Entered(d.entered, who, after, Some(after + DAY_MS));
    rows == 0 || rows + OutsideRows(d.system.tables.outside, after, Some(after + DAY_MS)) <= Allowance(d.system.limits, who)
  }

  ghost predicate EveryDayWithin(d: Desk) {
    forall who: Who, after: int :: !who.Anyone? ==> DayWithin(d, who, after)
  }

  /** The i-th row found room in the allowances of its owner and its operator when it was inserted. */
  predicate HadRoom(d: Desk, i: nat)
    requires i < |d.entered|
  {
    var e, before, outside := d.entered[i], d.entered[..i], d.system.tables.outside;
    && Entered(before, Owner(e.owner), e.at - DAY_MS, None) + OutsideRows(outside, e.at - DAY_MS, None) < d.system.limits.ownerRequests
    && Entered(before, Operator(e.actor), e.at - DAY_MS, None) + OutsideRows(outside, e.at - DAY_MS, None) < d.system.limits.operatorRequests
  }

  ghost predicate AllHadRoom(d: Desk) {
    forall i :: 0 <= i < |d.entered| ==> HadRoom(d, i)
  }

  // ----- the history matches the table -----

  ghost predicate Matches(d: Desk) {
    && (forall i, k :: 0 <= i < k < |d.entered| ==> d.entered[i].job != d.entered[k].job)
    && (forall i :: 0 <= i < |d.entered| ==> Stored(d.system.tables, d.entered[i]))
    && (forall id :: id in d.system.tables.jobs ==> exists i :: 0 <= i < |d.entered| && d.entered[i].job == id)
  }

  predicate Stored(t: Tables, e: Entry) {
    && e.job in t.jobs && t.jobs[e.job].createdAt == e.at
    && t.jobs[e.job].binding.owner == e.owner && t.jobs[e.job].binding.actor == e.actor
  }

  function Matching(es: seq<Entry>, who: Who, after: int): set<nat> {
    set i | 0 <= i < |es| && Counts(es[i], who, after, None) :: es[i].job
  }

  lemma MatchingLast(es: seq<Entry>, who: Who, after: int)
    requires es != []
    ensures var n := |es| - 1;
      Matching(es, who, after) == Matching(es[..n], who, after) + if Counts(es[n], who, after, None) then {es[n].job} else {}
  {
    hide Counts;
    var n := |es| - 1;
    var rest := es[..n];
    forall job ensures job in Matching(es, who, after)
      <==> job in Matching(rest, who, after) || (Counts(es[n], who, after, None) && job == es[n].job)
    {
      if job in Matching(es, who, after) {
        var i :| 0 <= i < |es| && Counts(es[i], who, after, None) && es[i].job == job;
        if i < n { assert rest[i] == es[i]; }
      }
      if job in Matching(rest, who, after) {
        var i :| 0 <= i < n && Counts(rest[i], who, after, None) && rest[i].job == job;
        assert es[i] == rest[i];
      }
    }
  }

  lemma {:induction false} MatchingCount(es: seq<Entry>, who: Who, after: int)
    requires forall i, k :: 0 <= i < k < |es| ==> es[i].job != es[k].job
    ensures |Matching(es, who, after)| == Entered(es, who, after, None)
    decreases |es|
  {
    hide Counts;
    if es != [] {
      var n := |es| - 1;
      MatchingCount(es[..n], who, after);
      MatchingLast(es, who, after);
      LastIsNew(es, who, after);
    }
  }

  lemma LastIsNew(es: seq<Entry>, who: Who, after: int)
    requires es != [] && forall i, k :: 0 <= i < k < |es| ==> es[i].job != es[k].job
    ensures es[|es| - 1].job !in Matching(es[..|es| - 1], who, after)
  {
    hide Counts;
  }

  /** The count the look-up takes is the count of the history. */
  lemma RequestsCounted(d: Desk, who: Who, after: int)
    requires Matches(d)
    ensures RequestsSince(d.system.tables, who, after) == Entered(d.entered, who, after, None) + OutsideRows(d.system.tables.outside, after, None)
  {
    var t := d.system.tables;
    MatchingCount(d.entered, who, after);
    var rows := set id | id in t.jobs && t.jobs[id].createdAt > after && For(who, t.jobs[id].binding.owner, t.jobs[id].binding.actor);
    assert rows == Matching(d.entered, who, after);
    OutsideCounted(t.outside, after);
  }

  lemma OutsideCounted(outside: seq<Outside>, after: int)
    ensures |set i | 0 <= i < |outside| && outside[i].at > after| == OutsideRows(outside, after, None)
  {
    assert (set i | 0 <= i < |outside| && outside[i].at > after)
      == set i | 0 <= i < |outside| && InSpan(outside[i].at, after, None);
  }

  // ----- the invariant -----

  /** What a look-up found still stands at the insertion, except that an active investigation may have ended. */
  ghost predicate PendingOk(d: Desk) {
    d.pending.Some? ==>
      var t, p := d.system.tables, d.pending.value;
      p.now <= d.system.clock &&
      match p.grounds
      case SawRequest(j) => j in t.jobs && SameRequest(t.jobs[j], p.binding, p.key)
      case SawActive(j) => j in t.jobs && t.jobs[j].binding.caseId == p.binding.caseId
      case Checked => MayStart(t, d.system.limits, p.binding, p.now)
  }

  ghost predicate Inv(d: Desk) {
    Matches(d) && PendingOk(d)
  }

  /** No row appeared, and none changed what a look-up reads of it but its status. */
  ghost predicate SameRows(t: Tables, u: Tables) {
    && u.jobs.Keys == t.jobs.Keys && u.outside == t.outside
    && (forall id :: id in t.jobs ==>
      && u.jobs[id].binding == t.jobs[id].binding && u.jobs[id].key == t.jobs[id].key
      && u.jobs[id].createdAt == t.jobs[id].createdAt)
  }

  lemma OthersKeepRows(s: R.System, e: R.Event)
    requires !e.RequestJob?
    ensures SameRows(s.tables, R.Apply(s, e).tables)
    ensures R.Apply(s, e).limits == s.limits && R.Apply(s, e).clock >= s.clock
  {
    hide Fits, Live;
    var t, u := s.tables, R.Apply(s, e).tables;
    forall id ensures id in u.jobs.Keys <==> id in t.jobs.Keys { }
  }

  lemma SameCounts(t: Tables, u: Tables, who: Who, after: int)
    requires SameRows(t, u)
    ensures RequestsSince(t, who, after) == RequestsSince(u, who, after)
  {
    assert forall id :: id in t.jobs <==> id in u.jobs by { assert t.jobs.Keys == u.jobs.Keys; }
    assert (set id | id in t.jobs && t.jobs[id].createdAt > after && For(who, t.jobs[id].binding.owner, t.jobs[id].binding.actor))
      == set id | id in u.jobs && u.jobs[id].createdAt > after && For(who, u.jobs[id].binding.owner, u.jobs[id].binding.actor);
  }

  lemma ElseKeeps(d: Desk, e: R.Event)
    requires Inv(d) && !e.RequestJob?
    ensures Inv(Apply(d, Else(e)))
    ensures Apply(d, Else(e)).system.limits == d.system.limits
    ensures Apply(d, Else(e)).system.tables.outside == d.system.tables.outside
  {
    hide R.Apply, RequestsSince;
    var t, u := d.system.tables, R.Apply(d.system, e).tables;
    OthersKeepRows(d.system, e);
    RowsKeepMatch(d, Apply(d, Else(e)));
    if d.pending.Some? {
      var p := d.pending.value;
      SameCounts(t, u, Owner(p.binding.owner), p.now - DAY_MS);
      SameCounts(t, u, Operator(p.binding.actor), p.now - DAY_MS);
    }
  }

  lemma RowsKeepMatch(d: Desk, f: Desk)
    requires Matches(d) && f.entered == d.entered && SameRows(d.system.tables, f.system.tables)
    ensures Matches(f)
  {
    forall id | id in f.system.tables.jobs ensures exists i :: 0 <= i < |f.entered| && f.entered[i].job == id {
      assert id in d.system.tables.jobs.Keys;
    }
    forall i | 0 <= i < |f.entered| ensures Stored(f.system.tables, f.entered[i]) {
      assert Stored(d.system.tables, d.entered[i]);
    }
  }

  lemma InsertKeeps(d: Desk)
    requires Inv(d)
    ensures Inv(Apply(d, Insert))
    ensures Apply(d, Insert).system.limits == d.system.limits
    ensures Apply(d, Insert).system.tables.outside == d.system.tables.outside
  {
    hide MayStart;
    var f := Apply(d, Insert);
    if d.pending.Some? {
      var p := d.pending.value;
      if FreeFor(d, p) { InsertMatches(d, f, p); }
    }
  }

  lemma InsertMatches(d: Desk, f: Desk, p: Pending)
    requires Matches(d) && p.id !in d.system.tables.jobs
    requires f.entered == d.entered + [EntryOf(p)]
    requires f.system.tables.jobs == d.system.tables.jobs[p.id := Job(p.binding, p.key, Queued, [Queued], None, None, 0, p.now, None)]
    ensures Matches(f)
  {
    forall i | 0 <= i < |f.entered| ensures Stored(f.system.tables, f.entered[i]) {
      if i < |d.entered| { assert Stored(d.system.tables, d.entered[i]); }
    }
    forall id | id in f.system.tables.jobs ensures exists i :: 0 <= i < |f.entered| && f.entered[i].job == id {
      if id == p.id {
        assert f.entered[|d.entered|].job == id;
      } else {
        var i :| 0 <= i < |d.entered| && d.entered[i].job == id;
        assert f.entered[i].job == id;
      }
    }
  }

  lemma ApplyKeeps(d: Desk, a: Act)
    requires Inv(d)
    ensures Inv(Apply(d, a))
    ensures Apply(d, a).system.limits == d.system.limits
    ensures Apply(d, a).system.tables.outside == d.system.tables.outside
  {
    hide MayStart, R.Apply, RequestsSince;
    match a
    case Insert => InsertKeeps(d);
    case Else(e) => if !e.RequestJob? { ElseKeeps(d, e); }
    case _ =>
  }

  lemma {:induction false} RunKeeps(d: Desk, acts: seq<Act>)
    requires Inv(d)
    ensures Inv(Run(d, acts))
    ensures Run(d, acts).system.limits == d.system.limits
    ensures Run(d, acts).system.tables.outside == d.system.tables.outside
  {
    hide Inv, Apply;
    if acts != [] {
      RunKeeps(d, acts[..|acts| - 1]);
      ApplyKeeps(Run(d, acts[..|acts| - 1]), acts[|acts| - 1]);
    }
  }

  // ----- what goes past the allowance -----

  /** The insertion of a request whose look-up found an active investigation that has ended meanwhile. */
  predicate EndedSince(d: Desk, a: Act) {
    && a.Insert? && d.pending.Some? && d.pending.value.grounds.SawActive?
    && var j := d.pending.value.grounds.job;
       j in d.system.tables.jobs && !Active(d.system.tables.jobs[j].status)
  }

  /** Such an insertion, when its place is free and the allowance nobody looks at is used up. */
  predicate Overruns(d: Desk, a: Act) {
    && EndedSince(d, a)
    && FreeFor(d, d.pending.value)
    && !MayStart(d.system.tables, d.system.limits, d.pending.value.binding, d.pending.value.now)
  }

  ghost predicate NeverOverruns(d: Desk, acts: seq<Act>) {
    forall k :: 0 <= k < |acts| ==> !Overruns(Run(d, acts[..k]), acts[k])
  }

  /** A free place means the request is new and the case has no active investigation: only an ending explains what a
      look-up saw and the insertion does not. */
  lemma FreePlaceWasChecked(d: Desk)
    requires Inv(d) && d.pending.Some? && FreeFor(d, d.pending.value)
    ensures EndedSince(d, Insert) || MayStart(d.system.tables, d.system.limits, d.pending.value.binding, d.pending.value.now)
  {
    hide MayStart;
  }

  /** A new row had room exactly when its insertion overran nothing. */
  lemma NewRowHasRoom(d: Desk)
    requires Inv(d) && d.pending.Some? && FreeFor(d, d.pending.value)
    ensures var f := Apply(d, Insert); |f.entered| == |d.entered| + 1 && (HadRoom(f, |d.entered|) <==> !Overruns(d, Insert))
  {
    hide RequestsSince, Free, Inv, Matches, Entered, OutsideRows;
    var p, f := d.pending.value, Apply(d, Insert);
    FreePlaceWasChecked(d);
    InsertKeeps(d);
    assert f.entered[..|d.entered|] == d.entered;
    assert Matches(d) by { InvMatches(d); }
    RequestsCounted(d, Owner(p.binding.owner), p.now - DAY_MS);
    RequestsCounted(d, Operator(p.binding.actor), p.now - DAY_MS);
  }

  lemma InvMatches(d: Desk)
    requires Inv(d)
    ensures Matches(d)
  {
  }

  /** Rows keep the room they had. */
  lemma RoomIsKept(d: Desk, a: Act, i: nat)
    requires Inv(d) && i < |d.entered|
    ensures i < |Apply(d, a).entered| && (HadRoom(Apply(d, a), i) <==> HadRoom(d, i))
  {
    hide Free, R.Apply, Inv;
    ApplyKeeps(d, a);
    assert Apply(d, a).entered[..i] == d.entered[..i];
  }

  lemma StepHasRoom(d: Desk, a: Act)
    requires Inv(d)
    ensures AllHadRoom(Apply(d, a)) <==> AllHadRoom(d) && !Overruns(d, a)
  {
    hide HadRoom, MayStart, Inv, Free, R.Apply;
    var f := Apply(d, a);
    forall i | 0 <= i < |d.entered| ensures i < |f.entered| && (HadRoom(f, i) <==> HadRoom(d, i)) { RoomIsKept(d, a, i); }
    if a.Insert? && d.pending.Some? && FreeFor(d, d.pending.value) { NewRowHasRoom(d); }
  }

  /** Every row of a run found room in its allowance exactly when no insertion of the run overran it. */
  lemma {:induction false} RoomExactly(d: Desk, acts: seq<Act>)
    requires Inv(d) && d.entered == []
    ensures AllHadRoom(Run(d, acts)) <==> NeverOverruns(d, acts)
  {
    hide HadRoom, Inv, Apply, Overruns;
    if acts != [] {
      var n := |acts| - 1;
      RoomExactly(d, acts[..n]);
      RunKeeps(d, acts[..n]);
      StepHasRoom(Run(d, acts[..n]), acts[n]);
      assert forall k :: 0 <= k < n ==> acts[..n][..k] == acts[..k] && acts[..n][k] == acts[k];
    }
  }

  // ----- room and days -----

  lemma {:induction false} WiderSpan(es: seq<Entry>, who: Who, after: int, until: int, earlier: int)
    requires earlier <= after
    ensures Entered(es, who, after, Some(until)) <= Entered(es, who, earlier, None)
  {
    if es != [] { WiderSpan(es[..|es| - 1], who, after, until, earlier); }
  }

  lemma WiderOutside(outside: seq<Outside>, after: int, until: int, earlier: int)
    requires earlier <= after
    ensures OutsideRows(outside, after, Some(until)) <= OutsideRows(outside, earlier, None)
  {
    R.Subset(set i | 0 <= i < |outside| && InSpan(outside[i].at, after, Some(until)),
             set i | 0 <= i < |outside| && InSpan(outside[i].at, earlier, None));
  }

  /** The row inserted last in a day counted all the others of that day, whatever the order of the times. */
  lemma {:induction false} RoomFillsDay(d: Desk, who: Who, after: int)
    requires AllHadRoom(d) && !who.Anyone?
    ensures DayWithin(d, who, after)
    decreases |d.entered|
  {
    hide HadRoom;
    if d.entered != [] {
      var n := |d.entered| - 1;
      if Counts(d.entered[n], who, after, Some(after + DAY_MS)) {
        LastFillsDay(d, who, after);
      } else {
        var shorter := d.(entered := d.entered[..n]);
        forall i | 0 <= i < n ensures HadRoom(shorter, i) { PrefixRoom(d, n, i); }
        RoomFillsDay(shorter, who, after);
      }
    }
  }

  lemma PrefixRoom(d: Desk, n: nat, i: nat)
    requires i < n <= |d.entered| && HadRoom(d, i)
    ensures HadRoom(d.(entered := d.entered[..n]), i)
  {
    assert d.entered[..n][..i] == d.entered[..i];
  }

  lemma LastFillsDay(d: Desk, who: Who, after: int)
    requires d.entered != [] && !who.Anyone?
    requires HadRoom(d, |d.entered| - 1) && Counts(d.entered[|d.entered| - 1], who, after, Some(after + DAY_MS))
    ensures DayWithin(d, who, after)
  {
    var n := |d.entered| - 1;
    var e := d.entered[n];
    WiderSpan(d.entered[..n], who, after, after + DAY_MS, e.at - DAY_MS);
    WiderOutside(d.system.tables.outside, after, after + DAY_MS, e.at - DAY_MS);
  }

  /** Starts carry times in the order in which they held the lock, and the evaluation made its reservations before them. */
  ghost predicate Orderly(d: Desk) {
    && (forall i, k :: 0 <= i < k < |d.entered| ==> d.entered[i].at <= d.entered[k].at)
    && (forall i, k :: 0 <= i < |d.entered| && 0 <= k < |d.system.tables.outside| ==>
          d.system.tables.outside[k].at <= d.entered[i].at)
  }

  lemma {:induction false} UntilTheLast(es: seq<Entry>, who: Who, after: int, until: int)
    requires forall i :: 0 <= i < |es| ==> es[i].at <= until
    ensures Entered(es, who, after, None) == Entered(es, who, after, Some(until))
  {
    if es != [] { UntilTheLast(es[..|es| - 1], who, after, until); }
  }

  lemma {:induction false} PrefixEntered(es: seq<Entry>, n: nat, who: Who, after: int, until: Option<int>)
    requires n <= |es|
    ensures Entered(es[..n], who, after, until) <= Entered(es, who, after, until)
    decreases |es|
  {
    if n < |es| {
      PrefixEntered(es[..|es| - 1], n, who, after, until);
      assert es[..|es| - 1][..n] == es[..n];
    } else {
      assert es[..n] == es;
    }
  }

  /** The day that ends with a row, when it stays within an allowance, left the row room in it. */
  lemma DayLeavesRoom(d: Desk, i: nat, who: Who)
    requires Orderly(d) && i < |d.entered| && !who.Anyone? && For(who, d.entered[i].owner, d.entered[i].actor)
    requires DayWithin(d, who, d.entered[i].at - DAY_MS)
    ensures Entered(d.entered[..i], who, d.entered[i].at - DAY_MS, None)
      + OutsideRows(d.system.tables.outside, d.entered[i].at - DAY_MS, None) < Allowance(d.system.limits, who)
  {
    var es, at, outside := d.entered, d.entered[i].at, d.system.tables.outside;
    UntilTheLast(es[..i], who, at - DAY_MS, at);
    PrefixEntered(es, i + 1, who, at - DAY_MS, Some(at));
    assert es[..i + 1][..i] == es[..i];
    assert (set k | 0 <= k < |outside| && InSpan(outside[k].at, at - DAY_MS, None))
      == set k | 0 <= k < |outside| && InSpan(outside[k].at, at - DAY_MS, Some(at));
  }

  lemma OrderlyDaysLeaveRoom(d: Desk)
    requires Orderly(d) && EveryDayWithin(d)
    ensures AllHadRoom(d)
  {
    hide DayWithin, Orderly;
    forall i | 0 <= i < |d.entered| ensures HadRoom(d, i) {
      DayLeavesRoom(d, i, Owner(d.entered[i].owner));
      DayLeavesRoom(d, i, Operator(d.entered[i].actor));
    }
  }

  // ----- whole runs -----

  lemma InitInv(d: Desk)
    requires Init(d)
    ensures Inv(d) && AllHadRoom(d)
  {
  }

  /** The rows created for an owner or an operator in any day stay within the allowance as long as no ending of the case's
      active investigation separates a look-up from an insertion into an allowance that is used up. */
  lemma AllowanceHolds(d: Desk, acts: seq<Act>)
    requires Init(d) && NeverOverruns(d, acts)
    ensures EveryDayWithin(Run(d, acts))
  {
    hide Apply, Inv, DayWithin, HadRoom;
    InitInv(d);
    RoomExactly(d, acts);
    forall who: Who, after: int | !who.Anyone? ensures DayWithin(Run(d, acts), who, after) { RoomFillsDay(Run(d, acts), who, after); }
  }

  /** The condition is exact: when the starts carry their times in order, any such insertion exceeds the allowance of a day. */
  lemma AllowanceExactly(d: Desk, acts: seq<Act>)
    requires Init(d) && Orderly(Run(d, acts))
    ensures EveryDayWithin(Run(d, acts)) <==> NeverOverruns(d, acts)
  {
    hide Apply, Inv, Overruns, AllHadRoom, EveryDayWithin, Orderly;
    InitInv(d);
    RoomExactly(d, acts);
    if NeverOverruns(d, acts) { AllowanceHolds(d, acts); }
    if EveryDayWithin(Run(d, acts)) { OrderlyDaysLeaveRoom(Run(d, acts)); }
  }

  /** Nothing but starts runs between a look-up and what becomes of it. */
  ghost predicate AtomicStarts(d: Desk, acts: seq<Act>) {
    forall k :: 0 <= k < |acts| && acts[k].Else? ==> Run(d, acts[..k]).pending.None?
  }

  predicate StillStands(d: Desk) {
    d.pending.Some? && d.pending.value.grounds.SawActive? ==>
      var j := d.pending.value.grounds.job; j in d.system.tables.jobs && Active(d.system.tables.jobs[j].status)
  }

  lemma {:induction false} AtomicLookUpsStand(d: Desk, acts: seq<Act>)
    requires Init(d) && AtomicStarts(d, acts)
    ensures StillStands(Run(d, acts))
  {
    hide MayStart, R.Apply, Repeated;
    if acts != [] {
      var n := |acts| - 1;
      assert forall k :: 0 <= k < n ==> acts[..n][..k] == acts[..k] && acts[..n][k] == acts[k];
      AtomicLookUpsStand(d, acts[..n]);
    }
  }

  /** With both halves of every start in one step the allowance holds in every run. */
  lemma AtomicStartsHold(d: Desk, acts: seq<Act>)
    requires Init(d) && AtomicStarts(d, acts)
    ensures EveryDayWithin(Run(d, acts))
  {
    hide Apply, EveryDayWithin, FreeFor, MayStart, Init;
    forall k | 0 <= k < |acts| ensures !Overruns(Run(d, acts[..k]), acts[k]) {
      assert forall i :: 0 <= i < k ==> acts[..k][..i] == acts[..i] && acts[..k][i] == acts[i];
      AtomicLookUpsStand(d, acts[..k]);
    }
    AllowanceHolds(d, acts);
  }
}
