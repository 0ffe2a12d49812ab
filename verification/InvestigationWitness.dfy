/** Concrete runs of the investigation queue in which what a reader may expect of it does not happen. */
module InvestigationWitness {
  import opened Domain
  import opened Investigations
  import R = InvestigationRuns
  import A = RequestAllowance

  const ONE_OF_EACH := Limits(1, 1, 1, 1, 1, 1, 1, 1, 1, 1, 1)
  const WHO := Binding(0, 0, 0, 5, 6, 0)
  const START := R.System(0, 0, ONE_OF_EACH, Tables(map[], [], map[], []))

  function Asked(key: nat): Job {
    Job(WHO, key, Queued, [Queued], None, None, 0, 0, None)
  }

  const CLAIMED := Job(WHO, 1, Investigating, [Queued, Investigating], Some(0), Some(LEASE_MS), 1, 0, None)
  const RESERVED := Reservation(1, 5, 6, 1, 1, 0)
  const WORKING := Tables(map[1 := CLAIMED], [RESERVED], map[], [])
  const GIVEN_UP := Tables(map[1 := Released(CLAIMED, Errored)], [RESERVED], map[], [])

  lemma Requested()
    ensures R.Apply(START, R.RequestJob(1, WHO, 1, 0)) == START.(tables := START.tables.(jobs := map[1 := Asked(1)]))
  {
  }

  lemma Polled()
    ensures R.Apply(START.(tables := START.tables.(jobs := map[1 := Asked(1)])), R.Poll(Some(1), 0)) == R.System(0, 1, ONE_OF_EACH, WORKING)
  {
    var t := START.tables.(jobs := map[1 := Asked(1)]);
    assert ExpireExhausted(t, 0).jobs == t.jobs;
    forall who ensures Live(t, who, 0) == {} { }
    assert Eligible(t, ONE_OF_EACH, 1, 0);
    assert [Queued] + [Investigating] == [Queued, Investigating];
    assert Take(t, ONE_OF_EACH, 1, 0, 0).jobs == WORKING.jobs;
    assert Take(t, ONE_OF_EACH, 1, 0, 0).budget == WORKING.budget;
  }

  lemma GaveUp(clock: Time)
    ensures R.Apply(R.System(clock, 1, ONE_OF_EACH, WORKING), R.GiveUp(1, 0)) == R.System(clock, 1, ONE_OF_EACH, GIVEN_UP)
  {
  }

  lemma QueueStep(events: seq<R.Event>, n: nat)
    requires 0 < n <= |events|
    ensures R.Run(START, events[..n]) == R.Apply(R.Run(START, events[..n - 1]), events[n - 1])
  {
    assert events[..n][..n - 1] == events[..n - 1];
  }

  lemma DeskStep(d: A.Desk, acts: seq<A.Act>, n: nat)
    requires 0 < n <= |acts|
    ensures A.Run(d, acts[..n]) == A.Apply(A.Run(d, acts[..n - 1]), acts[n - 1])
  {
    assert acts[..n][..n - 1] == acts[..n - 1];
  }

  // ----- an owner whose lease has run out -----

  const LATE := [R.RequestJob(1, WHO, 1, 0), R.Poll(Some(1), 0), R.Tick(LEASE_MS)]

  /** When its ninety seconds are over the owner of an investigation can no longer propose, and still ends it in error. */
  lemma ExpiredOwnerFails(content: Hash)
    ensures R.Init(START)
    ensures var s := R.Run(START, LATE);
      && s.tables == WORKING && s.tables.jobs[1].leaseUntil == Some(s.clock)
      && Finish(s.tables, 1, 0, content, s.clock) == Stale
    ensures R.Run(START, LATE + [R.GiveUp(1, 0)]).tables == GIVEN_UP && GIVEN_UP.jobs[1].status == Errored
  {
    hide R.Apply;
    var late := LATE + [R.GiveUp(1, 0)];
    QueueStep(late, 1);
    QueueStep(late, 2);
    QueueStep(late, 3);
    QueueStep(late, 4);
    Requested();
    Polled();
    Ticked();
    assert late[..3] == LATE && late[..4] == late;
    GaveUp(LEASE_MS);
  }

  lemma Ticked()
    ensures R.Apply(R.System(0, 1, ONE_OF_EACH, WORKING), R.Tick(LEASE_MS)) == R.System(LEASE_MS, 1, ONE_OF_EACH, WORKING)
  {
  }

  // ----- an investigation that ends between the look-up and the insertion of the next -----

  const FIRST := Pending(1, WHO, 1, 0, Checked)
  const SECOND := Pending(2, WHO, 2, 0, SawActive(1))

  const RACE := [
    A.LookUp(FIRST), A.Insert, A.Else(R.Poll(Some(1), 0)),
    A.LookUp(SECOND), A.Else(R.GiveUp(1, 0)), A.Insert]

  const ENTERED := [A.Entry(1, 5, 6, 0), A.Entry(2, 5, 6, 0)]

  /** With an allowance of one a day, two investigations of one owner and one operator are stored within the day. */
  lemma AllowanceIsExceeded()
    ensures var d := A.Desk(START, None, []);
      && A.Init(d)
      && A.Run(d, RACE).entered == ENTERED
      && A.Run(d, RACE).system.tables.jobs.Keys == {1, 2}
      && !A.DayWithin(A.Run(d, RACE), Owner(5), -1) && !A.DayWithin(A.Run(d, RACE), Operator(6), -1)
  {
    hide R.Apply, A.Apply;
    var d := A.Desk(START, None, []);
    var working := A.Desk(R.System(0, 1, ONE_OF_EACH, WORKING), None, ENTERED[..1]);
    FirstIsStored(d);
    DeskStep(d, RACE, 4);
    DeskStep(d, RACE, 5);
    DeskStep(d, RACE, 6);
    assert RACE[..6] == RACE;
    SecondIsStored(working);
    assert A.Run(d, RACE).entered == ENTERED;
    DayIsFull();
  }

  lemma FirstIsStored(d: A.Desk)
    requires d == A.Desk(START, None, [])
    ensures A.Run(d, RACE[..3]) == A.Desk(R.System(0, 1, ONE_OF_EACH, WORKING), None, ENTERED[..1])
  {
    hide R.Apply;
    DeskStep(d, RACE, 1);
    DeskStep(d, RACE, 2);
    DeskStep(d, RACE, 3);
    NothingStored();
    Requested();
    Polled();
  }

  lemma NothingStored()
    ensures MayPend(START.tables, ONE_OF_EACH, FIRST) && Free(START.tables, 1, WHO, 1)
  {
    NoneSince(START.tables, Owner(5), -DAY_MS);
    NoneSince(START.tables, Operator(6), -DAY_MS);
  }

  lemma NoneSince(t: Tables, who: Who, after: int)
    ensures t.jobs == map[] && t.outside == [] ==> RequestsSince(t, who, after) == 0
  {
    var rows := set id | id in t.jobs && t.jobs[id].createdAt > after && For(who, t.jobs[id].binding.owner, t.jobs[id].binding.actor);
    var others := set i | 0 <= i < |t.outside| && t.outside[i].at > after;
    if t.jobs == map[] && t.outside == [] {
      assert rows == {};
      assert others == {};
    }
  }

  lemma SecondIsStored(d: A.Desk)
    requires d == A.Desk(R.System(0, 1, ONE_OF_EACH, WORKING), None, ENTERED[..1])
    ensures var found := A.Apply(d, RACE[3]);
      var ended := A.Apply(found, RACE[4]);
      && ended.system.tables == GIVEN_UP
      && A.Apply(ended, RACE[5]).entered == ENTERED
      && A.Apply(ended, RACE[5]).system.tables.jobs.Keys == {1, 2}
      && A.Apply(ended, RACE[5]).system.limits == ONE_OF_EACH
  {
    assert ActiveFor(WORKING.jobs[1], WHO.caseId);
    GaveUp(0);
    assert Free(GIVEN_UP, 2, WHO, 2);
  }

  lemma DayIsFull()
    ensures A.Entered(ENTERED, Owner(5), -1, Some(-1 + DAY_MS)) == 2
    ensures A.Entered(ENTERED, Operator(6), -1, Some(-1 + DAY_MS)) == 2
  {
    var one := ENTERED[..1];
    assert one[..0] == [];
    assert A.Entered(one, Owner(5), -1, Some(-1 + DAY_MS)) == 1;
    assert A.Entered(one, Operator(6), -1, Some(-1 + DAY_MS)) == 1;
  }
}
