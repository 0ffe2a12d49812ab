/** The resumable event stream: batches by cursor over a retained history, frames to a client that may reconnect. */
module EventStream {
  import opened Domain

  const RETENTION_MS := 604_800_000
  const BATCH := 64
  const HEARTBEAT_MS := 10_000

  /** An event row of one investigation; its sequence number is its position plus one. */
  datatype Row = Row(status: nat, at: Time)

  /** The investigation's events so far: the current sequence number is their count, the current status that of the last. */
  type History = h: seq<Row> | |h| > 0 witness [Row(0, 0)]

  datatype Frame =
    | Snapshot(id: nat, status: nat)
    | Milestone(id: nat, status: nat)
    | Heartbeat

  predicate Retained(r: Row, now: Time) {
    r.at > now - RETENTION_MS
  }

  /** The sequence number of the first retained event. */
  function First(h: seq<Row>, now: Time, i: nat := 0): Option<nat>
    requires i <= |h|
    decreases |h| - i
  {
    if i == |h| then None else if Retained(h[i], now) then Some(i + 1) else First(h, now, i + 1)
  }

  /** The retained events after a sequence number, in order, at most n of them. */
  function After(h: seq<Row>, now: Time, cursor: nat, n: nat): seq<Frame>
    decreases |h| - cursor
  {
    if cursor >= |h| || n == 0 then []
    else if Retained(h[cursor], now) then [Milestone(cursor + 1, h[cursor].status)] + After(h, now, cursor + 1, n - 1)
    else After(h, now, cursor + 1, n)
  }

  predicate Expired(h: History, now: Time, cursor: Option<nat>) {
    || cursor.None?
    || cursor.value > |h|
    || (cursor.value < |h| && (First(h, now).None? || cursor.value < First(h, now).value - 1))
  }

  /** One batch: a snapshot when the cursor cannot be resumed from, else the events that follow it. */
  function Batch(h: History, now: Time, cursor: Option<nat>): (frames: seq<Frame>)
    ensures |frames| <= BATCH
  {
    if Expired(h, now, cursor) then [Snapshot(|h|, h[|h| - 1].status)]
    else AfterIsShort(h, now, cursor.value, BATCH); After(h, now, cursor.value, BATCH)
  }

  lemma {:induction false} AfterIsShort(h: seq<Row>, now: Time, cursor: nat, n: nat)
    ensures |After(h, now, cursor, n)| <= n
    decreases |h| - cursor
  {
    if cursor < |h| && n > 0 {
      if Retained(h[cursor], now) { AfterIsShort(h, now, cursor + 1, n - 1); } else { AfterIsShort(h, now, cursor + 1, n); }
    }
  }

  // ----- no event is skipped silently, none is delivered twice -----

  ghost predicate NonDecreasing(h: seq<Row>) {
    forall i, k :: 0 <= i <= k < |h| ==> h[i].at <= h[k].at
  }

  function Next(cursor: Option<nat>, f: Frame): Option<nat> {
    if f.Heartbeat? then cursor else Some(f.id)
  }

  /** Where a client stands after some frames. */
  function CursorAfter(cursor: Option<nat>, frames: seq<Frame>): Option<nat> {
    if frames == [] then cursor else Next(CursorAfter(cursor, frames[..|frames| - 1]), frames[|frames| - 1])
  }

  /** A milestone follows the frame before it without a gap and tells that event's status; a snapshot tells the state at one
      of the sequence numbers that were current. */
  ghost predicate Follows(h: seq<Row>, current: set<nat>, cursor: Option<nat>, f: Frame) {
    match f
    case Milestone(id, status) => cursor.Some? && id == cursor.value + 1 && 1 <= id <= |h| && status == h[id - 1].status
    case Snapshot(id, status) => id in current && 1 <= id <= |h| && status == h[id - 1].status
    case Heartbeat => true
  }

  ghost predicate Linked(h: seq<Row>, current: set<nat>, cursor: Option<nat>, frames: seq<Frame>) {
    forall i :: 0 <= i < |frames| ==> Follows(h, current, CursorAfter(cursor, frames[..i]), frames[i])
  }

  lemma {:induction false} FirstIsLeast(h: seq<Row>, now: Time, i: nat)
    requires i <= |h|
    ensures First(h, now, i).None? <==> forall k :: i <= k < |h| ==> !Retained(h[k], now)
    ensures First(h, now, i).Some? ==>
      var f := First(h, now, i).value;
      i < f <= |h| && Retained(h[f - 1], now) && forall k :: i <= k < f - 1 ==> !Retained(h[k], now)
    decreases |h| - i
  {
    if i < |h| && !Retained(h[i], now) { FirstIsLeast(h, now, i + 1); }
  }

  /** A cursor cannot be resumed from exactly when there is none, it is ahead of the history, or the event after it has
      left the retention period. */
  lemma ExpiredExactly(h: History, now: Time, cursor: Option<nat>)
    requires NonDecreasing(h)
    ensures Expired(h, now, cursor)
      <==> cursor.None? || cursor.value > |h| || (cursor.value < |h| && !Retained(h[cursor.value], now))
  {
    FirstIsLeast(h, now, 0);
    if cursor.Some? && cursor.value < |h| && First(h, now).Some? {
      var f := First(h, now).value;
      if cursor.value >= f - 1 { assert h[f - 1].at <= h[cursor.value].at; }
    }
  }

  /** Resumed events are the ones right after the cursor, one by one. */
  lemma {:induction false} AfterIsContiguous(h: seq<Row>, now: Time, cursor: nat, n: nat)
    requires NonDecreasing(h) && (cursor < |h| ==> Retained(h[cursor], now))
    ensures var frames := After(h, now, cursor, n);
      && |frames| == (if cursor >= |h| then 0 else if |h| - cursor < n then |h| - cursor else n)
      && forall i :: 0 <= i < |frames| ==> frames[i] == Milestone(cursor + 1 + i, h[cursor + i].status)
    decreases |h| - cursor
  {
    if cursor < |h| && n > 0 {
      if cursor + 1 < |h| { assert h[cursor].at <= h[cursor + 1].at; }
      AfterIsContiguous(h, now, cursor + 1, n - 1);
    }
  }

  lemma MilestonesAdvance(cursor: nat, frames: seq<Frame>, n: nat)
    requires n <= |frames| && forall i :: 0 <= i < |frames| ==> frames[i].Milestone? && frames[i].id == cursor + 1 + i
    ensures CursorAfter(Some(cursor), frames[..n]) == Some(cursor + n)
  {
    if n > 0 { assert frames[..n][..n - 1] == frames[..n - 1]; }
  }

  /** One batch continues from its cursor, and moves it whenever there is anything new. */
  lemma BatchIsLinked(h: History, now: Time, cursor: Option<nat>)
    requires NonDecreasing(h)
    ensures Linked(h, {|h|}, cursor, Batch(h, now, cursor))
    ensures cursor != Some(|h|) ==> Batch(h, now, cursor) != []
    ensures |Batch(h, now, cursor)| < BATCH ==> CursorAfter(cursor, Batch(h, now, cursor)) == Some(|h|)
  {
    hide First, Linked, CursorAfter, Follows;
    ExpiredExactly(h, now, cursor);
    if Expired(h, now, cursor) {
      SnapshotIsLinked(h, cursor);
    } else {
      AfterIsContiguous(h, now, cursor.value, BATCH);
      MilestonesAreLinked(h, cursor.value, After(h, now, cursor.value, BATCH));
    }
  }

  lemma SnapshotIsLinked(h: History, cursor: Option<nat>)
    ensures Linked(h, {|h|}, cursor, [Snapshot(|h|, h[|h| - 1].status)])
    ensures CursorAfter(cursor, [Snapshot(|h|, h[|h| - 1].status)]) == Some(|h|)
  {
    assert [Snapshot(|h|, h[|h| - 1].status)][..0] == [];
  }

  lemma MilestonesAreLinked(h: History, cursor: nat, frames: seq<Frame>)
    requires cursor + |frames| <= |h|
    requires forall i :: 0 <= i < |frames| ==> frames[i] == Milestone(cursor + 1 + i, h[cursor + i].status)
    ensures Linked(h, {|h|}, Some(cursor), frames)
    ensures CursorAfter(Some(cursor), frames) == Some(cursor + |frames|)
  {
    hide CursorAfter;
    forall i | 0 <= i < |frames| ensures Follows(h, {|h|}, CursorAfter(Some(cursor), frames[..i]), frames[i]) {
      MilestonesAdvance(cursor, frames, i);
    }
    MilestonesAdvance(cursor, frames, |frames|);
    assert frames[..|frames|] == frames;
  }

  lemma {:induction false} CursorAfterBoth(cursor: Option<nat>, a: seq<Frame>, b: seq<Frame>)
    ensures CursorAfter(cursor, a + b) == CursorAfter(CursorAfter(cursor, a), b)
    decreases |b|
  {
    if b == [] {
      assert a + b == a;
    } else {
      assert (a + b)[..|a + b| - 1] == a + b[..|b| - 1];
      CursorAfterBoth(cursor, a, b[..|b| - 1]);
    }
  }

  /** Frames linked over a history stay linked when it grows. */
  lemma LinkedGrows(h: seq<Row>, g: seq<Row>, small: set<nat>, large: set<nat>, cursor: Option<nat>, frames: seq<Frame>)
    requires Linked(h, small, cursor, frames) && h <= g && small <= large
    ensures Linked(g, large, cursor, frames)
  {
    hide CursorAfter;
  }

  lemma LinkedBoth(h: seq<Row>, current: set<nat>, cursor: Option<nat>, a: seq<Frame>, b: seq<Frame>)
    requires Linked(h, current, cursor, a) && Linked(h, current, CursorAfter(cursor, a), b)
    ensures Linked(h, current, cursor, a + b)
  {
    hide CursorAfter, Follows;
    var both := a + b;
    forall i | 0 <= i < |both| ensures Follows(h, current, CursorAfter(cursor, both[..i]), both[i]) {
      if i < |a| {
        assert both[..i] == a[..i];
      } else {
        assert both[..i] == a + b[..i - |a|];
        CursorAfterBoth(cursor, a, b[..i - |a|]);
      }
    }
  }

  /** A client that loses the connection has a prefix of what was written; that is linked as well. */
  lemma LinkedPrefix(h: seq<Row>, current: set<nat>, cursor: Option<nat>, frames: seq<Frame>, n: nat)
    requires Linked(h, current, cursor, frames) && n <= |frames|
    ensures Linked(h, current, cursor, frames[..n])
  {
    hide CursorAfter, Follows;
    forall i | 0 <= i < n ensures Follows(h, current, CursorAfter(cursor, frames[..n][..i]), frames[..n][i]) {
      assert frames[..n][..i] == frames[..i];
    }
  }

  // ----- the loop -----

  /** What one turn of the loop finds: the clock before it, the history and the database's time at the query, the clock
      after it. */
  datatype Turn = Turn(now: Time, history: History, dbNow: Time, later: Time)

  ghost predicate Growing(turns: seq<Turn>) {
    && (forall i :: 0 <= i < |turns| ==> NonDecreasing(turns[i].history))
    && (forall i, k :: 0 <= i <= k < |turns| ==> turns[i].history <= turns[k].history)
  }

  ghost function Currents(turns: seq<Turn>): set<nat> {
    set i | 0 <= i < |turns| :: |turns[i].history|
  }

  /** What a connection writes from a turn on, with the cursor and the time of the next heartbeat the loop has come to. */
  function WrittenFrom(turns: seq<Turn>, i: nat, cursor: Option<nat>, expiresAt: Time, heartbeatAt: Time): seq<Frame>
    requires i <= |turns|
    decreases |turns| - i
  {
    if i == |turns| || turns[i].now >= expiresAt then []
    else
      var turn := turns[i];
      var batch := Batch(turn.history, turn.dbNow, cursor);
      var beats := turn.later >= heartbeatAt;
      batch + (if beats then [Heartbeat] else [])
      + WrittenFrom(turns, i + 1, CursorAfter(cursor, batch), expiresAt, if beats then turn.later + HEARTBEAT_MS else heartbeatAt)
  }

  function Written(turns: seq<Turn>, cursor: Option<nat>, startedAt: Time, expiresAt: Time): seq<Frame> {
    if startedAt >= expiresAt then [] else WrittenFrom(turns, 0, cursor, expiresAt, startedAt + HEARTBEAT_MS)
  }

  /** Every turn found a part of one history, and what it found current is among some counts. */
  ghost predicate Within(turns: seq<Turn>, h: seq<Row>, current: set<nat>) {
    forall i :: 0 <= i < |turns| ==> FoundIn(turns[i], h, current)
  }

  ghost predicate FoundIn(turn: Turn, h: seq<Row>, current: set<nat>) {
    NonDecreasing(turn.history) && turn.history <= h && |turn.history| in current
  }

  lemma GrowingIsWithin(turns: seq<Turn>)
    requires Growing(turns) && turns != []
    ensures Within(turns, turns[|turns| - 1].history, Currents(turns))
  {
  }

  lemma {:induction false} WrittenIsLinked(turns: seq<Turn>, h: seq<Row>, current: set<nat>, i: nat, cursor: Option<nat>,
                                           expiresAt: Time, heartbeatAt: Time)
    requires Within(turns, h, current) && i <= |turns|
    ensures Linked(h, current, cursor, WrittenFrom(turns, i, cursor, expiresAt, heartbeatAt))
    decreases |turns| - i
  {
    hide Linked, CursorAfter, Batch;
    if i == |turns| || turns[i].now >= expiresAt {
      NothingLinked(h, current, cursor);
    } else {
      var turn := turns[i];
      var batch := Batch(turn.history, turn.dbNow, cursor);
      var beat := if turn.later >= heartbeatAt then [Heartbeat] else [];
      var next := if turn.later >= heartbeatAt then turn.later + HEARTBEAT_MS else heartbeatAt;
      assert FoundIn(turn, h, current);
      BatchIsLinked(turn.history, turn.dbNow, cursor);
      LinkedGrows(turn.history, h, {|turn.history|}, current, cursor, batch);
      if beat != [] { BeatIsLinked(h, current, cursor, batch); } else { assert batch + beat == batch; }
      WrittenIsLinked(turns, h, current, i + 1, CursorAfter(cursor, batch), expiresAt, next);
      LinkedBoth(h, current, cursor, batch + beat, WrittenFrom(turns, i + 1, CursorAfter(cursor, batch), expiresAt, next));
    }
  }

  /** One connection: whatever history and clock do meanwhile, the frames written are linked from the client's cursor on,
      and the loop keeps the cursor at the last frame's id. */
  method StreamInvestigationEvents(turns: seq<Turn>, cursorAtStart: Option<nat>, startedAt: Time, expiresAt: Time)
    returns (frames: seq<Frame>, cursor: Option<nat>)
    requires Growing(turns)
    ensures frames == Written(turns, cursorAtStart, startedAt, expiresAt)
    ensures turns != [] ==> Linked(turns[|turns| - 1].history, Currents(turns), cursorAtStart, frames)
    ensures turns == [] || startedAt >= expiresAt ==> frames == []
    ensures cursor == CursorAfter(cursorAtStart, frames)
  {
    hide Linked, CursorAfter, Batch, WrittenFrom;
    NoFrames(cursorAtStart);
    frames, cursor := [], cursorAtStart;
    if turns != [] {
      GrowingIsWithin(turns);
      WrittenIsLinked(turns, turns[|turns| - 1].history, Currents(turns), 0, cursorAtStart, expiresAt, startedAt + HEARTBEAT_MS);
      NothingLinked(turns[|turns| - 1].history, Currents(turns), cursorAtStart);
    } else {
      NothingLeft(turns, 0, cursorAtStart, expiresAt, startedAt + HEARTBEAT_MS);
    }
    if startedAt >= expiresAt { return; }
    var heartbeatAt: Time := startedAt + HEARTBEAT_MS;
    var i := 0;
    while i < |turns| && turns[i].now < expiresAt
      invariant 0 <= i <= |turns|
      invariant frames + WrittenFrom(turns, i, cursor, expiresAt, heartbeatAt) == Written(turns, cursorAtStart, startedAt, expiresAt)
      invariant cursor == CursorAfter(cursorAtStart, frames)
    {
      TurnIsWritten(turns, i, cursor, expiresAt, heartbeatAt, cursorAtStart, frames);
      var batch := Batch(turns[i].history, turns[i].dbNow, cursor);
      frames, cursor := WriteBatch(cursorAtStart, frames, cursor, batch);
      if turns[i].later >= heartbeatAt {
        OneMoreFrame(cursorAtStart, frames, Heartbeat);
        frames := frames + [Heartbeat];
        heartbeatAt := turns[i].later + HEARTBEAT_MS;
      }
      i := i + 1;
    }
    NothingLeft(turns, i, cursor, expiresAt, heartbeatAt);
  }

  lemma NothingLeft(turns: seq<Turn>, i: nat, cursor: Option<nat>, expiresAt: Time, heartbeatAt: Time)
    requires i <= |turns| && (i == |turns| || turns[i].now >= expiresAt)
    ensures WrittenFrom(turns, i, cursor, expiresAt, heartbeatAt) == []
  {
  }

  /** One turn of the loop moves a batch, and a heartbeat when it is due, from what is to be written to what is written. */
  lemma TurnIsWritten(turns: seq<Turn>, i: nat, cursor: Option<nat>, expiresAt: Time, heartbeatAt: Time,
                      cursorAtStart: Option<nat>, frames: seq<Frame>)
    requires i < |turns| && turns[i].now < expiresAt && cursor == CursorAfter(cursorAtStart, frames)
    ensures var batch := Batch(turns[i].history, turns[i].dbNow, cursor);
      var beats := turns[i].later >= heartbeatAt;
      var written := if beats then frames + batch + [Heartbeat] else frames + batch;
      frames + WrittenFrom(turns, i, cursor, expiresAt, heartbeatAt)
      == written + WrittenFrom(turns, i + 1, CursorAfter(cursorAtStart, written), expiresAt,
                               if beats then turns[i].later + HEARTBEAT_MS else heartbeatAt)
  {
    hide CursorAfter, Batch;
    var batch := Batch(turns[i].history, turns[i].dbNow, cursor);
    CursorAfterBoth(cursorAtStart, frames, batch);
    OneMoreFrame(cursorAtStart, frames + batch, Heartbeat);
  }

  lemma BeatIsLinked(h: seq<Row>, current: set<nat>, cursor: Option<nat>, frames: seq<Frame>)
    requires Linked(h, current, cursor, frames)
    ensures Linked(h, current, cursor, frames + [Heartbeat])
    ensures CursorAfter(cursor, frames + [Heartbeat]) == CursorAfter(cursor, frames)
  {
    LinkedBoth(h, current, cursor, frames, [Heartbeat]);
    assert (frames + [Heartbeat])[..|frames|] == frames;
  }

  /** The frames of one batch, written one by one while the cursor follows. */
  method WriteBatch(cursorAtStart: Option<nat>, before: seq<Frame>, cursorBefore: Option<nat>, batch: seq<Frame>)
    returns (frames: seq<Frame>, cursor: Option<nat>)
    requires cursorBefore == CursorAfter(cursorAtStart, before)
    ensures frames == before + batch && cursor == CursorAfter(cursorAtStart, frames)
  {
    hide CursorAfter;
    frames, cursor := before, cursorBefore;
    assert before + batch[..0] == before;
    var k := 0;
    while k < |batch|
      invariant 0 <= k <= |batch| && frames == before + batch[..k]
      invariant cursor == CursorAfter(cursorAtStart, frames)
    {
      OneMoreFrame(cursorAtStart, frames, batch[k]);
      assert frames + [batch[k]] == before + batch[..k + 1];
      frames := frames + [batch[k]];
      cursor := Next(cursor, batch[k]);
      k := k + 1;
    }
    assert batch[..|batch|] == batch;
  }

  lemma OneMoreFrame(cursor: Option<nat>, frames: seq<Frame>, f: Frame)
    ensures CursorAfter(cursor, frames + [f]) == Next(CursorAfter(cursor, frames), f)
  {
    assert (frames + [f])[..|frames|] == frames;
  }

  // ----- the numbers of the stream -----

  /** An event is kept for seven days, a batch brings at most 64, and it brings as many as there are. */
  lemma BatchSizes(h: History, now: Time, cursor: nat)
    requires NonDecreasing(h) && cursor <= |h| && (cursor < |h| ==> h[cursor].at > now - 604_800_000)
    ensures |Batch(h, now, Some(cursor))| == if |h| - cursor < 64 then |h| - cursor else 64
  {
    ExpiredExactly(h, now, Some(cursor));
    AfterIsContiguous(h, now, cursor, 64);
  }

  lemma TooOldForAnEvent(h: History, now: Time, cursor: nat)
    requires NonDecreasing(h) && cursor < |h| && h[cursor].at <= now - 604_800_000
    ensures Batch(h, now, Some(cursor)) == [Snapshot(|h|, h[|h| - 1].status)]
  {
    ExpiredExactly(h, now, Some(cursor));
  }

  /** A turn begins before the end of the connection, writes its batch, and a heartbeat when ten seconds have passed since the
      last one. */
  lemma HeartbeatIsDue(turn: Turn, cursor: Option<nat>, startedAt: Time, expiresAt: Time)
    ensures Written([turn], cursor, startedAt, expiresAt) ==
      if startedAt >= expiresAt || turn.now >= expiresAt then []
      else Batch(turn.history, turn.dbNow, cursor) + if turn.later >= startedAt + 10_000 then [Heartbeat] else []
  {
    hide Batch, CursorAfter;
    var next := if turn.later >= startedAt + HEARTBEAT_MS then turn.later + HEARTBEAT_MS else startedAt + HEARTBEAT_MS;
    NothingLeft([turn], 1, CursorAfter(cursor, Batch(turn.history, turn.dbNow, cursor)), expiresAt, next);
    var frames := Batch(turn.history, turn.dbNow, cursor) + if turn.later >= startedAt + 10_000 then [Heartbeat] else [];
    assert frames + [] == frames;
  }

  // ----- many connections -----

  /** A connection, and how many of the frames it wrote reached the client before it was lost. */
  datatype Connection = Connection(turns: seq<Turn>, startedAt: Time, expiresAt: Time, arrived: nat)

  function Received(c: Connection, cursor: Option<nat>): seq<Frame> {
    var frames := Written(c.turns, cursor, c.startedAt, c.expiresAt);
    if c.arrived < |frames| then frames[..c.arrived] else frames
  }

  /** All a client receives over its connections, each of which it resumes from the last frame it has. */
  function Experience(cs: seq<Connection>, cursor: Option<nat>): seq<Frame> {
    if cs == [] then []
    else
      var before := Experience(cs[..|cs| - 1], cursor);
      before + Received(cs[|cs| - 1], CursorAfter(cursor, before))
  }

  function AllTurns(cs: seq<Connection>): seq<Turn> {
    if cs == [] then [] else AllTurns(cs[..|cs| - 1]) + cs[|cs| - 1].turns
  }

  lemma ReceivedIsLinked(c: Connection, h: seq<Row>, current: set<nat>, cursor: Option<nat>)
    requires Within(c.turns, h, current)
    ensures Linked(h, current, cursor, Received(c, cursor))
  {
    hide Linked, WrittenFrom;
    var frames := Written(c.turns, cursor, c.startedAt, c.expiresAt);
    NothingLinked(h, current, cursor);
    WrittenIsLinked(c.turns, h, current, 0, cursor, c.expiresAt, c.startedAt + HEARTBEAT_MS);
    if c.arrived < |frames| { LinkedPrefix(h, current, cursor, frames, c.arrived); }
  }

  lemma {:induction false} ExperienceIsLinked(cs: seq<Connection>, h: seq<Row>, current: set<nat>, cursor: Option<nat>)
    requires Within(AllTurns(cs), h, current)
    ensures Linked(h, current, cursor, Experience(cs, cursor))
  {
    hide Linked, CursorAfter, FoundIn, Received;
    if cs == [] {
      NothingLinked(h, current, cursor);
    } else {
      var n, turns := |cs| - 1, AllTurns(cs);
      var earlier := AllTurns(cs[..n]);
      assert forall i :: 0 <= i < |earlier| ==> earlier[i] == turns[i];
      assert forall i :: 0 <= i < |cs[n].turns| ==> cs[n].turns[i] == turns[|earlier| + i];
      ExperienceIsLinked(cs[..n], h, current, cursor);
      var before := Experience(cs[..n], cursor);
      ReceivedIsLinked(cs[n], h, current, CursorAfter(cursor, before));
      LinkedBoth(h, current, cursor, before, Received(cs[n], CursorAfter(cursor, before)));
    }
  }

  /** A client's whole experience, however often it reconnects, however much of a connection's tail is lost and however the
      history grows meanwhile: each milestone it ever sees has the id after the frame before it, unless a snapshot of a then
      current state came between; so nothing is skipped silently and nothing comes twice. */
  lemma ReconnectsStayLinked(cs: seq<Connection>, cursor: Option<nat>)
    requires Growing(AllTurns(cs)) && AllTurns(cs) != []
    ensures var turns := AllTurns(cs); Linked(turns[|turns| - 1].history, Currents(turns), cursor, Experience(cs, cursor))
  {
    hide AllTurns, Linked, Experience;
    var turns := AllTurns(cs);
    GrowingIsWithin(turns);
    ExperienceIsLinked(cs, turns[|turns| - 1].history, Currents(turns), cursor);
  }

  lemma NothingLinked(h: seq<Row>, current: set<nat>, cursor: Option<nat>)
    ensures Linked(h, current, cursor, [])
  {
  }

  lemma NoFrames(cursor: Option<nat>)
    ensures CursorAfter(cursor, []) == cursor
  {
  }

  /** With no snapshot among them, milestones count up one by one from the cursor: none is missing and none is repeated. */
  lemma {:induction false} MilestonesCountUp(h: seq<Row>, current: set<nat>, cursor: nat, frames: seq<Frame>)
    requires Linked(h, current, Some(cursor), frames)
    requires forall f :: f in frames ==> f.Milestone?
    ensures forall i :: 0 <= i < |frames| ==> frames[i] == Milestone(cursor + 1 + i, if cursor + i < |h| then h[cursor + i].status else 0)
    ensures CursorAfter(Some(cursor), frames) == Some(cursor + |frames|)
    ensures cursor + |frames| <= |h| || frames == []
  {
    hide Linked, CursorAfter;
    NoFrames(Some(cursor));
    if frames != [] {
      var n := |frames| - 1;
      LinkedPrefix(h, current, Some(cursor), frames, n);
      MilestonesCountUp(h, current, cursor, frames[..n]);
      LastFollows(h, current, Some(cursor), frames);
      assert frames[n] in frames;
      assert frames == frames[..n] + [frames[n]];
      OneMoreFrame(Some(cursor), frames[..n], frames[n]);
    }
  }

  lemma LastFollows(h: seq<Row>, current: set<nat>, cursor: Option<nat>, frames: seq<Frame>)
    requires Linked(h, current, cursor, frames) && frames != []
    ensures Follows(h, current, CursorAfter(cursor, frames[..|frames| - 1]), frames[|frames| - 1])
  {
    hide CursorAfter, Follows;
  }
}
