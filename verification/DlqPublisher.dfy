/** Publication of failure records: any number of publishers, each under its own short claim, at least once each. */
module DlqPublisher {
  import opened Domain
  import opened ExecutionStore

  const CLAIM_LEASE_MS := 120_000
  const MAX_BACKOFF_MS := 60_000

  /** The publication columns of a failure record. */
  datatype Row = Row(
    published: Option<Time>,
    token: Option<nat>,
    leaseUntil: Option<Time>,
    nextAttempt: Option<Time>,
    attempts: nat)

  const UNTOUCHED := Row(None, None, None, None, 0)

  predicate Due(r: Row, now: Time) {
    && r.published.None?
    && (r.nextAttempt.None? || r.nextAttempt.value <= now)
    && (r.leaseUntil.None? || r.leaseUntil.value <= now)
  }

  function Claimed(r: Row, token: nat, at: Time): Row {
    r.(token := Some(token), leaseUntil := Some(at + CLAIM_LEASE_MS), attempts := r.attempts + 1)
  }

  predicate Holds(r: Row, token: nat) {
    r.published.None? && r.token == Some(token)
  }

  /** The wait after a failed send, by how often the row was claimed. */
  function Delay(attempts: nat): nat {
    var retries := if attempts < 1 then 0 else attempts - 1;
    var exponential := 1_000 * PowerOfTwo(if retries < 6 then retries else 6);
    if exponential < MAX_BACKOFF_MS then exponential else MAX_BACKOFF_MS
  }

  function Released(r: Row, attempts: nat, at: Time): Row {
    r.(token := None, leaseUntil := None, nextAttempt := Some(at + Delay(attempts)))
  }

  function Stamped(r: Row, at: Time): Row {
    r.(published := Some(at), token := None, leaseUntil := None, nextAttempt := None)
  }

  /** Retry delays never shrink as attempts grow, and stay between a second and a minute. */
  lemma DelaysGrow(m: nat, n: nat)
    requires m <= n
    ensures 1_000 <= Delay(m) <= Delay(n) <= 60_000
  {
    var a, b := if m < 1 then 0 else m - 1, if n < 1 then 0 else n - 1;
    PowersGrow(if a < 6 then a else 6, if b < 6 then b else 6);
  }

  /** One second after the first failure, twice as long after each further one, at most a minute. */
  lemma DelayDoubles(n: nat)
    ensures Delay(0) == Delay(1) == 1_000
    ensures n >= 1 ==> Delay(n + 1) == if 2 * Delay(n) < 60_000 then 2 * Delay(n) else 60_000
  {
    if 1 <= n <= 7 {
      assert PowerOfTwo(6) == 64;
      assert PowerOfTwo(n) == 2 * PowerOfTwo(n - 1);
    } else if n > 7 {
      assert PowerOfTwo(6) == 64;
    }
  }

  // ----- what is sent -----

  datatype Outcomes = SaysRejected | SaysNotAttempted | SaysUnknown

  /** A stored record as it is read back: columns that older rows may lack or hold anything in. */
  datatype FailureRow = FailureRow(id: nat, run: nat, stage: RawNumber, attempt: RawNumber, outcome: Option<string>,
                                   safeCode: Option<string>, source: Option<string>, createdAt: Option<Time>)

  datatype FailureEvent = FailureEvent(id: nat, run: nat, stage: nat, attempt: nat, outcome: Outcomes, safeCode: string,
                                       source: string, failedAt: Time)

  predicate SafeCode(s: string) {
    1 <= |s| <= 64 && forall c | c in s :: SafeCodeChar(c)
  }

  lemma SafeCodeExactly(s: string)
    ensures SafeCode(s) <==> 1 <= |s| <= 64 && forall c :: c in s ==> 'a' <= c <= 'z' || '0' <= c <= '9' || c == '_'
  {
  }

  predicate KnownSource(s: string) {
    s in {"captured", "reconciled_execution", "legacy_unknown"}
  }

  function Count(n: RawNumber): nat {
    if n.Integer? && n.n >= 0 then n.n else 0
  }

  /** Whatever is stored, what is sent names the same failure, is well formed, and never claims a delivery; a well-formed
      record is sent as it is. */
  method EventFrom(row: FailureRow, now: Time) returns (e: FailureEvent)
    ensures e.id == row.id && e.run == row.run
    ensures SafeCode(e.safeCode) && KnownSource(e.source)
    ensures e.stage == if row.stage.Integer? && row.stage.n >= 0 then row.stage.n else 0
    ensures e.attempt == if row.attempt.Integer? && row.attempt.n >= 0 then row.attempt.n else 0
    ensures e.outcome == SaysRejected <==> row.outcome == Some("rejected")
    ensures e.outcome == SaysNotAttempted <==> row.outcome == Some("not_attempted")
    ensures e.safeCode == if row.safeCode.Some? && SafeCode(row.safeCode.value) then row.safeCode.value else "legacy_unknown"
    ensures e.source in {"captured", "reconciled_execution", "legacy_unknown"}
    ensures e.source == if row.source.Some? && KnownSource(row.source.value) then row.source.value else "legacy_unknown"
    ensures e.failedAt == row.createdAt.GetOr(now)
  {
    hide SafeCode;
    SafeCodeExactly("legacy_unknown");
    SafeCodeExactly("");
    var outcome := match row.outcome
      case Some(o) => if o == "rejected" then SaysRejected else if o == "not_attempted" then SaysNotAttempted else SaysUnknown
      case None => SaysUnknown;
    var code := row.safeCode.GetOr("");
    var source := row.source.GetOr("");
    e := FailureEvent(row.id, row.run, Count(row.stage), Count(row.attempt), outcome,
                      if SafeCode(code) then code else "legacy_unknown",
                      if KnownSource(source) then source else "legacy_unknown",
                      row.createdAt.GetOr(now));
  }

  // ----- one publisher, as it runs -----

  datatype Publication = Nothing | Published | RetryScheduled | Lost

  /** One due record was claimed and stamped, and nothing else changed. */
  ghost predicate PublishedAs(before: map<nat, Row>, now: map<nat, Row>, id: nat, at: Time, later: Time) {
    && id in before && Due(before[id], at)
    && now == before[id := Row(Some(later), None, None, None, before[id].attempts + 1)]
  }

  /** One due record was claimed and released again with its next attempt after the delay, and nothing else changed. */
  ghost predicate RescheduledAs(before: map<nat, Row>, now: map<nat, Row>, id: nat, at: Time, later: Time) {
    && id in before && Due(before[id], at)
    && now == before[id := Row(None, None, None, Some(later + Delay(before[id].attempts + 1)), before[id].attempts + 1)]
  }

  class RetryTable {
    var rows: map<nat, Row>
    var acknowledged: seq<nat>

    constructor (rows: map<nat, Row>)
      ensures this.rows == rows && acknowledged == []
    {
      this.rows, acknowledged := rows, [];
    }

    /** The first candidate that is still due is claimed; the others are left alone. */
    method ClaimNext(candidates: seq<nat>, firstToken: nat, at: Time) returns (claimed: Option<nat>, token: nat)
      modifies `rows
      ensures claimed.None? ==> rows == old(rows) && forall c :: c in candidates && c in rows ==> !Due(rows[c], at)
      ensures claimed.Some? ==>
        && claimed.value in candidates && claimed.value in old(rows) && Due(old(rows)[claimed.value], at)
        && firstToken <= token && rows == old(rows)[claimed.value := Claimed(old(rows)[claimed.value], token, at)]
    {
      var i := 0;
      while i < |candidates|
        invariant 0 <= i <= |candidates| && rows == old(rows)
        invariant forall k :: 0 <= k < i ==> candidates[k] !in rows || !Due(rows[candidates[k]], at)
      {
        token := firstToken + i;
        var c := candidates[i];
        if c in rows && Due(rows[c], at) {
          rows := rows[c := Claimed(rows[c], token, at)];
          return Some(c), token;
        }
        i := i + 1;
      }
      return None, firstToken;
    }

    /** One publication: stamped only after the send was acknowledged, rescheduled when it was not. */
    method PublishNext(candidates: seq<nat>, firstToken: nat, at: Time, acks: bool, later: Time) returns (r: Publication)
      modifies this
      ensures r == Nothing <==> forall c :: c in candidates && c in old(rows) ==> !Due(old(rows)[c], at)
      ensures r == Nothing ==> rows == old(rows)
      ensures r != Lost
      ensures r == Published ==> acks && exists id :: PublishedAs(old(rows), rows, id, at, later) && id in acknowledged
      ensures r == RetryScheduled ==> !acks && exists id :: RescheduledAs(old(rows), rows, id, at, later)
      ensures |acknowledged| == |old(acknowledged)| + if r == Published then 1 else 0
    {
      var claimed, token := ClaimNext(candidates, firstToken, at);
      if claimed.None? { return Nothing; }
      var id := claimed.value;
      var row := rows[id];
      if !acks {
        if !Holds(rows[id], token) { return Lost; }
        rows := rows[id := Released(rows[id], row.attempts, later)];
        assert RescheduledAs(old(rows), rows, id, at, later);
        return RetryScheduled;
      }
      acknowledged := acknowledged + [id];
      if !Holds(rows[id], token) { return Lost; }
      rows := rows[id := Stamped(rows[id], later)];
      assert PublishedAs(old(rows), rows, id, at, later);
      return Published;
    }
  }
}
