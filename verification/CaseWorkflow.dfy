/** The case workflow: a versioned row per case and an append-only log of the transitions that led to it. */
module CaseWorkflow {
  import opened Domain

  datatype Queue = Support | OwnerQueue | Engineering | ResolvedQueue

  datatype Status = NeedingSupport | AwaitingOwner | RepairSubmitted | Escalated | FindingsReturned | ResolvedStatus

  datatype Action = RequestOwnerRepair | SubmitRepair | Escalate | ReturnFindings | Resolve | DecisionHandoff

  datatype Place = Place(queue: Queue, status: Status)

  const START := Place(Support, NeedingSupport)

  predicate Resolved(p: Place) {
    p.queue == ResolvedQueue || p.status == ResolvedStatus
  }

  /** The columns a transition may set or leave as they are. */
  datatype Detail = Instructions | RepairNote | EscalationReason | Findings | ResolutionReason | Engineer
                  | ActiveInvestigation | ActiveProposal

  datatype Workflow = Workflow(owner: nat, place: Place, version: nat, details: map<Detail, string>, resolvedAt: Option<Time>)

  datatype Event = Event(id: string, caseId: nat, owner: nat, actor: nat, action: Action, from: Place, to: Place, at: Time)

  datatype Tables = Tables(cases: set<nat>, workflows: map<nat, Workflow>, log: seq<Event>)

  datatype Input = Input(caseId: nat, owner: nat, actor: nat, action: Action, to: Place, expectedVersion: Option<nat>,
                         details: map<Detail, string>, idempotencyKey: Option<string>)

  datatype Outcome = Recorded(tables: Tables, event: Event) | VersionConflict | ConstraintViolated

  // ----- transactions -----

  /** The case's row, created at the start if there is none; a case that does not exist has no row. */
  function GetOrCreate(t: Tables, caseId: nat, owner: nat): Option<Tables> {
    if caseId in t.workflows then Some(t)
    else if caseId !in t.cases then None
    else Some(t.(workflows := t.workflows[caseId := Workflow(owner, START, 1, map[], None)]))
  }

  predicate Logged(log: seq<Event>, id: string) {
    exists e | e in log :: e.id == id
  }

  function Find(log: seq<Event>, id: string): Event
    requires Logged(log, id)
  {
    if log[0].id == id then log[0] else Find(log[1..], id)
  }

  /** An empty key is not looked up, although it still becomes the event's id. */
  predicate LookedUp(key: Option<string>) {
    key.Some? && key.value != ""
  }

  /** The locked part of a transition: version check, event, row. */
  function Append(t: Tables, input: Input, freshId: string, now: Time): Outcome {
    match GetOrCreate(t, input.caseId, input.owner)
    case None => ConstraintViolated
    case Some(u) =>
      var current := u.workflows[input.caseId];
      var id := input.idempotencyKey.GetOr(freshId);
      if input.expectedVersion.Some? && input.expectedVersion.value != current.version then VersionConflict
      else if Logged(u.log, id) then ConstraintViolated
      else
        var event := Event(id, input.caseId, input.owner, input.actor, input.action, current.place, input.to, now);
        Recorded(u.(
          log := u.log + [event],
          workflows := u.workflows[input.caseId := current.(
            place := input.to, version := current.version + 1, details := current.details + input.details,
            resolvedAt := if Resolved(input.to) then Some(now) else None)]), event)
  }

  /** A transition. The key is looked up before the row is locked, so a rival may record it in between (`raced`). */
  function Transition(t: Tables, input: Input, freshId: string, now: Time, raced: bool): Outcome {
    if LookedUp(input.idempotencyKey) && !raced && Logged(t.log, input.idempotencyKey.value) then
      match GetOrCreate(t, input.caseId, input.owner)
      case None => ConstraintViolated
      case Some(u) => Recorded(u, Find(t.log, input.idempotencyKey.value))
    else Append(t, input, freshId, now)
  }

  // ----- the log determines the row -----

  function CaseLog(log: seq<Event>, caseId: nat): seq<Event> {
    if log == [] then []
    else CaseLog(log[..|log| - 1], caseId) + if log[|log| - 1].caseId == caseId then [log[|log| - 1]] else []
  }

  /** Each event starts where the one before it ended, the first at the start. */
  ghost predicate Chained(log: seq<Event>) {
    && (log != [] ==> log[0].from == START)
    && (forall i :: 0 < i < |log| ==> log[i].from == log[i - 1].to)
  }

  function LastPlace(log: seq<Event>): Place {
    if log == [] then START else log[|log| - 1].to
  }

  ghost predicate CaseOk(t: Tables, caseId: nat) {
    var log := CaseLog(t.log, caseId);
    && Chained(log)
    && (caseId !in t.workflows ==> log == [])
    && (caseId in t.workflows ==>
      var w := t.workflows[caseId];
      && caseId in t.cases
      && w.version == 1 + |log|
      && w.place == LastPlace(log)
      && (w.resolvedAt.Some? <==> Resolved(w.place))
      && (w.resolvedAt.Some? ==> log != [] && w.resolvedAt.value == log[|log| - 1].at))
  }

  ghost predicate UniqueIds(log: seq<Event>) {
    forall i, k :: 0 <= i < k < |log| ==> log[i].id != log[k].id
  }

  ghost predicate Inv(t: Tables) {
    (forall c: nat :: CaseOk(t, c)) && UniqueIds(t.log)
  }

  lemma AppendedCaseLog(log: seq<Event>, e: Event, caseId: nat)
    ensures CaseLog(log + [e], caseId) == CaseLog(log, caseId) + if e.caseId == caseId then [e] else []
  {
    assert (log + [e])[..|log|] == log;
  }

  lemma CreateKeeps(t: Tables, caseId: nat, owner: nat)
    requires Inv(t) && GetOrCreate(t, caseId, owner).Some?
    ensures Inv(GetOrCreate(t, caseId, owner).value)
  {
    hide CaseLog;
    var u := GetOrCreate(t, caseId, owner).value;
    forall c: nat ensures CaseOk(u, c) { assert CaseOk(t, c); }
  }

  lemma AppendKeepsCase(t: Tables, input: Input, freshId: string, now: Time, c: nat)
    requires Inv(t) && input.caseId in t.workflows && Append(t, input, freshId, now).Recorded?
    ensures CaseOk(Append(t, input, freshId, now).tables, c)
  {
    hide CaseLog;
    var r := Append(t, input, freshId, now);
    assert CaseOk(t, c) && CaseOk(t, input.caseId);
    AppendedCaseLog(t.log, r.event, c);
  }

  lemma AppendKeeps(t: Tables, input: Input, freshId: string, now: Time)
    requires Inv(t) && Append(t, input, freshId, now).Recorded?
    ensures Inv(Append(t, input, freshId, now).tables)
  {
    hide CaseOk;
    CreateKeeps(t, input.caseId, input.owner);
    var u := GetOrCreate(t, input.caseId, input.owner).value;
    forall c: nat ensures CaseOk(Append(t, input, freshId, now).tables, c) { AppendKeepsCase(u, input, freshId, now, c); }
  }

  /** Every transition that commits keeps each row equal to what its log says. */
  lemma TransitionKeeps(t: Tables, input: Input, freshId: string, now: Time, raced: bool)
    requires Inv(t) && Transition(t, input, freshId, now, raced).Recorded?
    ensures Inv(Transition(t, input, freshId, now, raced).tables)
  {
    hide Inv, Append;
    if Transition(t, input, freshId, now, raced) == Append(t, input, freshId, now) {
      AppendKeeps(t, input, freshId, now);
    } else {
      CreateKeeps(t, input.caseId, input.owner);
    }
  }

  // ----- what a transition does, in terms of what was asked -----

  function VersionOf(t: Tables, caseId: nat): nat {
    if caseId in t.workflows then t.workflows[caseId].version else 1
  }

  function PlaceOf(t: Tables, caseId: nat): Place {
    if caseId in t.workflows then t.workflows[caseId].place else Place(Support, NeedingSupport)
  }

  predicate Answered(t: Tables, input: Input, raced: bool) {
    input.idempotencyKey.Some? && input.idempotencyKey.value != "" && !raced && Logged(t.log, input.idempotencyKey.value)
  }

  /** Of a case that exists: a key already recorded is answered without a change, a stale version is a conflict, an id already
      in the log violates a constraint, and everything else is recorded; a case that does not exist is refused. */
  lemma TransitionExactly(t: Tables, input: Input, freshId: string, now: Time, raced: bool)
    ensures var id := if input.idempotencyKey.Some? then input.idempotencyKey.value else freshId;
      var r := Transition(t, input, freshId, now, raced);
      var known := input.caseId in t.cases || input.caseId in t.workflows;
      var stale := input.expectedVersion.Some? && input.expectedVersion.value != VersionOf(t, input.caseId);
      && (r == VersionConflict <==> known && !Answered(t, input, raced) && stale)
      && (r == ConstraintViolated <==> !known || (!Answered(t, input, raced) && !stale && Logged(t.log, id)))
  {
  }

  /** What is recorded is what was asked: the event says who moved the case from where it was to where it is to be, the row
      is there, at the next version, with the given details over the ones it had, and resolved exactly if that place is; the
      other cases are as before. */
  lemma RecordsWhatWasAsked(t: Tables, input: Input, freshId: string, now: Time, raced: bool)
    requires Transition(t, input, freshId, now, raced).Recorded? && !Answered(t, input, raced)
    ensures var u, event := Transition(t, input, freshId, now, raced).tables, Transition(t, input, freshId, now, raced).event;
      && event == Event(if input.idempotencyKey.Some? then input.idempotencyKey.value else freshId, input.caseId, input.owner,
                        input.actor, input.action, PlaceOf(t, input.caseId), input.to, now)
      && u.log == t.log + [event] && u.cases == t.cases
      && u.workflows - {input.caseId} == t.workflows - {input.caseId} && input.caseId in u.workflows
      && var row := u.workflows[input.caseId];
      && row.place == input.to && row.version == VersionOf(t, input.caseId) + 1
      && row.owner == (if input.caseId in t.workflows then t.workflows[input.caseId].owner else input.owner)
      && row.resolvedAt == (if input.to.queue == ResolvedQueue || input.to.status == ResolvedStatus then Some(now) else None)
      && forall d ::
        && (d in row.details <==> d in input.details || (input.caseId in t.workflows && d in t.workflows[input.caseId].details))
        && (d in row.details ==>
             row.details[d] == if d in input.details then input.details[d] else t.workflows[input.caseId].details[d])
  {
  }

  // ----- runs -----

  datatype Step =
    | OpenCase(caseId: nat)
    | Touch(caseId: nat, owner: nat)
    | Move(input: Input, freshId: string, now: Time, raced: bool)

  function Apply(t: Tables, s: Step): Tables {
    match s
    case OpenCase(c) => t.(cases := t.cases + {c})
    case Touch(c, owner) => GetOrCreate(t, c, owner).GetOr(t)
    case Move(input, freshId, now, raced) =>
      var r := Transition(t, input, freshId, now, raced);
      if r.Recorded? then r.tables else t
  }

  function Run(t: Tables, steps: seq<Step>): Tables {
    if steps == [] then t else Apply(Run(t, steps[..|steps| - 1]), steps[|steps| - 1])
  }

  const EMPTY := Tables({}, map[], [])

  lemma ApplyKeeps(t: Tables, s: Step)
    requires Inv(t)
    ensures Inv(Apply(t, s))
    ensures t.log <= Apply(t, s).log
  {
    hide CaseLog, Chained, UniqueIds;
    match s
    case OpenCase(c) => forall k: nat ensures CaseOk(Apply(t, s), k) { assert CaseOk(t, k); }
    case Touch(c, owner) => if GetOrCreate(t, c, owner).Some? { CreateKeeps(t, c, owner); }
    case Move(input, freshId, now, raced) =>
      if Transition(t, input, freshId, now, raced).Recorded? { TransitionKeeps(t, input, freshId, now, raced); }
  }

  lemma {:induction false} RunKeeps(t: Tables, steps: seq<Step>)
    requires Inv(t)
    ensures Inv(Run(t, steps)) && t.log <= Run(t, steps).log
  {
    hide Inv, Apply;
    if steps != [] {
      RunKeeps(t, steps[..|steps| - 1]);
      ApplyKeeps(Run(t, steps[..|steps| - 1]), steps[|steps| - 1]);
    }
  }

  /** After any interleaving, a row's version is one more than the events of its case, the events chain from the start to
      the row's place, and the row carries a resolution time exactly if that place is resolved. */
  lemma LogRefinesState(steps: seq<Step>, caseId: nat)
    ensures var t := Run(EMPTY, steps); var log := CaseLog(t.log, caseId);
      && Chained(log)
      && (caseId in t.workflows ==>
        && t.workflows[caseId].version == 1 + |log| && t.workflows[caseId].place == LastPlace(log)
        && (t.workflows[caseId].resolvedAt.Some? <==> Resolved(LastPlace(log))))
  {
    hide Run, CaseLog, Chained;
    EmptyOk();
    RunKeeps(EMPTY, steps);
    assert CaseOk(Run(EMPTY, steps), caseId);
  }

  /** Where a case was last asked to be, and the details it was last given, over the transitions that were recorded. */
  function Told(steps: seq<Step>, caseId: nat): (Place, map<Detail, string>) {
    if steps == [] then (Place(Support, NeedingSupport), map[])
    else
      var earlier, step := steps[..|steps| - 1], steps[|steps| - 1];
      var (place, details) := Told(earlier, caseId);
      if step.Move? && step.input.caseId == caseId && |Run(EMPTY, steps).log| > |Run(EMPTY, earlier).log|
      then (step.input.to, details + step.input.details) else (place, details)
  }

  /** In every run a row is where its last recorded transition asked for, with each detail as it was last given. */
  lemma {:induction false} RowTellsWhatWasAsked(steps: seq<Step>, caseId: nat)
    ensures var t := Run(EMPTY, steps);
      if caseId in t.workflows
      then t.workflows[caseId].place == Told(steps, caseId).0 && t.workflows[caseId].details == Told(steps, caseId).1
      else Told(steps, caseId) == (START, map[])
  {
    if steps != [] {
      var earlier, step := steps[..|steps| - 1], steps[|steps| - 1];
      RowTellsWhatWasAsked(earlier, caseId);
      StepTells(Run(EMPTY, earlier), step, caseId);
    }
  }

  /** A step leaves a case where it was, or creates its row at the start, unless it records a transition of it. */
  lemma StepTells(t: Tables, s: Step, caseId: nat)
    ensures var u := Apply(t, s);
      if s.Move? && s.input.caseId == caseId && |u.log| > |t.log| then
        && caseId in u.workflows && u.workflows[caseId].place == s.input.to
        && u.workflows[caseId].details == (if caseId in t.workflows then t.workflows[caseId].details else map[]) + s.input.details
      else if caseId in u.workflows then
        && u.workflows[caseId].place == PlaceOf(t, caseId)
        && u.workflows[caseId].details == if caseId in t.workflows then t.workflows[caseId].details else map[]
      else caseId !in t.workflows
  {
  }

  /** A case that is looked at for the first time gets its row, at the start. */
  lemma TouchCreates(t: Tables, caseId: nat, owner: nat)
    ensures Apply(t, Touch(caseId, owner)) ==
      if caseId in t.cases && caseId !in t.workflows
      then t.(workflows := t.workflows[caseId := Workflow(owner, Place(Support, NeedingSupport), 1, map[], None)]) else t
  {
  }

  lemma EmptyOk()
    ensures Inv(EMPTY)
  {
  }

  /** One idempotency key adds at most one event, in any run, for any case. */
  lemma OneEventPerKey(steps: seq<Step>, i: nat, k: nat)
    requires i < |Run(EMPTY, steps).log| && k < |Run(EMPTY, steps).log|
    requires Run(EMPTY, steps).log[i].id == Run(EMPTY, steps).log[k].id
    ensures i == k
  {
    hide Run, CaseOk;
    EmptyOk();
    RunKeeps(EMPTY, steps);
  }

  /** Once a key is in the log, every later transition under it, whatever it asks for, leaves the log and every existing row
      as they are; unless it raced, it is answered with the recorded event. */
  lemma RecordedKeyIsNoOp(t: Tables, input: Input, freshId: string, now: Time, raced: bool)
    requires LookedUp(input.idempotencyKey) && Logged(t.log, input.idempotencyKey.value)
    ensures var u := Apply(t, Move(input, freshId, now, raced));
      u.log == t.log && forall c :: c in t.workflows ==> c in u.workflows && u.workflows[c] == t.workflows[c]
    ensures !raced && input.caseId in t.cases ==>
      Transition(t, input, freshId, now, raced).Recorded?
      && Transition(t, input, freshId, now, raced).event == Find(t.log, input.idempotencyKey.value)
  {
  }

  /** The key was recorded for another case. */
  predicate RecordedElsewhere(t: Tables, key: string, caseId: nat) {
    exists e | e in t.log :: e.id == key && e.caseId != caseId
  }

  /** A transition is answered with an event of its own case exactly unless its key is looked up and was recorded for
      another case: the look-up goes by the key alone. */
  lemma OwnEventExactly(t: Tables, input: Input, freshId: string, now: Time, raced: bool)
    requires Inv(t) && Transition(t, input, freshId, now, raced).Recorded?
    ensures Transition(t, input, freshId, now, raced).event.caseId == input.caseId
      <==> !(LookedUp(input.idempotencyKey) && !raced && RecordedElsewhere(t, input.idempotencyKey.value, input.caseId))
  {
    hide CaseOk;
    if LookedUp(input.idempotencyKey) && !raced {
      var key := input.idempotencyKey.value;
      forall e | e in t.log && e.id == key ensures Find(t.log, key) == e { FindsTheOnly(t.log, e); }
      if Logged(t.log, key) { FindsLogged(t.log, key); }
    }
  }

  lemma {:induction false} FindsLogged(log: seq<Event>, id: string)
    requires Logged(log, id)
    ensures Find(log, id) in log && Find(log, id).id == id
  {
    if log[0].id != id { FindsLogged(log[1..], id); }
  }

  lemma {:induction false} FindsTheOnly(log: seq<Event>, e: Event)
    requires UniqueIds(log) && e in log
    ensures Find(log, e.id) == e
  {
    if log[0] != e { FindsTheOnly(log[1..], e); }
  }

  const ESCALATED := Place(Engineering, Escalated)

  function Escalation(caseId: nat): Input {
    Input(caseId, 3, 5, Escalate, ESCALATED, None, map[], Some("key"))
  }

  const FIRST_CASE := [OpenCase(1), OpenCase(2), Move(Escalation(1), "", 0, false)]

  /** Two cases are to be escalated under the same key: the second is answered with the event of the first, and stays at the
      start. */
  lemma AnotherCasesEvent()
    ensures var r := Transition(Run(EMPTY, FIRST_CASE), Escalation(2), "", 1, false);
      && r.Recorded? && r.event.caseId == 1 != Escalation(2).caseId
      && {1, 2} <= r.tables.workflows.Keys && r.tables.workflows[2].place == START && r.tables.workflows[1].place == ESCALATED
      && CaseLog(r.tables.log, 2) == []
  {
    var two := Tables({1, 2}, map[], []);
    assert FIRST_CASE[..2][..1] == FIRST_CASE[..1] && FIRST_CASE[..1][..0] == [];
    assert Run(EMPTY, FIRST_CASE[..1]) == Apply(EMPTY, OpenCase(1));
    assert Run(EMPTY, FIRST_CASE[..2]) == two;
    var event := Event("key", 1, 3, 5, Escalate, START, ESCALATED, 0);
    var t := Run(EMPTY, FIRST_CASE);
    assert t == Apply(two, FIRST_CASE[2]);
    assert t.log == [event];
    assert Find(t.log, "key") == event;
  }

  lemma {:induction false} VersionsOnlyGrow(t: Tables, steps: seq<Step>, caseId: nat)
    requires caseId in t.workflows
    ensures caseId in Run(t, steps).workflows
    ensures t.workflows[caseId].version <= Run(t, steps).workflows[caseId].version
  {
    if steps != [] { VersionsOnlyGrow(t, steps[..|steps| - 1], caseId); }
  }

  /** Of two transitions that expect the same version of a case, at most one is recorded, however far apart they are. */
  lemma OneWinnerPerVersion(t: Tables, a: Input, b: Input, ids: (string, string), times: (Time, Time), steps: seq<Step>)
    requires a.caseId == b.caseId && a.expectedVersion.Some? && a.expectedVersion == b.expectedVersion
    requires Append(t, a, ids.0, times.0).Recorded?
    ensures Append(Run(Append(t, a, ids.0, times.0).tables, steps), b, ids.1, times.1) == VersionConflict
  {
    VersionsOnlyGrow(Append(t, a, ids.0, times.0).tables, steps, a.caseId);
  }

  // ----- the service as it runs -----

  class CaseWorkflowService {
    var cases: set<nat>
    var workflows: map<nat, Workflow>
    var log: seq<Event>

    constructor ()
      ensures View() == EMPTY
    {
      cases, workflows, log := {}, map[], [];
    }

    function View(): Tables
      reads this
    {
      Tables(cases, workflows, log)
    }

    method GetOrCreateWorkflow(caseId: nat, owner: nat) returns (found: bool)
      modifies `workflows
      ensures found == GetOrCreate(old(View()), caseId, owner).Some?
      ensures View() == GetOrCreate(old(View()), caseId, owner).GetOr(old(View()))
    {
      if caseId in workflows { return true; }
      if caseId !in cases { return false; }
      workflows := workflows[caseId := Workflow(owner, START, 1, map[], None)];
      return true;
    }

    /** The locked part: on a conflict everything is undone, including a row created on the way. */
    method AppendEvent(input: Input, freshId: string, now: Time) returns (r: Outcome)
      modifies this
      ensures r == Append(old(View()), input, freshId, now)
      ensures View() == if r.Recorded? then r.tables else old(View())
    {
      var saved := workflows;
      var found := GetOrCreateWorkflow(input.caseId, input.owner);
      if !found { return ConstraintViolated; }
      var current := workflows[input.caseId];
      if input.expectedVersion.Some? && current.version != input.expectedVersion.value {
        workflows := saved;
        return VersionConflict;
      }
      var id := input.idempotencyKey.GetOr(freshId);
      if Logged(log, id) {
        workflows := saved;
        return ConstraintViolated;
      }
      var event := Event(id, input.caseId, input.owner, input.actor, input.action, current.place, input.to, now);
      log := log + [event];
      workflows := workflows[input.caseId := current.(
        place := input.to, version := current.version + 1, details := current.details + input.details,
        resolvedAt := if Resolved(input.to) then Some(now) else None)];
      return Recorded(View(), event);
    }

    method TransitionCase(input: Input, freshId: string, now: Time) returns (r: Outcome)
      modifies this
      ensures r == Transition(old(View()), input, freshId, now, false)
      ensures View() == if r.Recorded? then r.tables else old(View())
    {
      if LookedUp(input.idempotencyKey) && Logged(log, input.idempotencyKey.value) {
        var event := Find(log, input.idempotencyKey.value);
        var found := GetOrCreateWorkflow(input.caseId, input.owner);
        return if found then Recorded(View(), event) else ConstraintViolated;
      }
      r := AppendEvent(input, freshId, now);
    }
  }
}
