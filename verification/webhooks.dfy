/** The queue of pending webhooks, drained by any number of workers under a lease. */
module Webhooks {
  import opened Domain
  import Database

  const BATCH := 50
  const LEASE_SECS := 600.0
  const MAX_ATTEMPTS := 8

  datatype Row = Row(nextAttempt: real, attempts: nat, wellFormed: bool)

  /** What a drainer reads when it leases a row; it works from this copy. */
  datatype Leased = Leased(id: Id, attempts: nat, wellFormed: bool)

  /** A drainer with the rows that it still has to dispatch; the first one is in work since
      `startedAt`, and `done` rows are behind it. */
  datatype Drainer = Drainer(leasedAt: real, startedAt: real, queue: seq<Leased>, done: nat)

  datatype Outcome = Sent | Malformed | Refused

  /** `seen` and `log` record which rows ever existed and how each attempt on them ended. */
  datatype State = State(
    now: real,
    rows: map<Id, Row>,
    drainers: map<Id, Drainer>,
    seen: set<Id>,
    log: seq<(Id, Outcome)>)

  const START := State(0.0, map[], map[], {}, [])

  datatype Step =
    | Enqueue(id: Id, wellFormed: bool)
    | Pass(seconds: real)
    | Lease(drainer: Id, ids: seq<Id>)
    | Finish(drainer: Id, outcome: Outcome)
    | Crash(drainer: Id)

  // ── Steps ─────────────────────────────────────────────────────────────────

  function Pow2(n: nat): nat {
    if n == 0 then 1 else 2 * Pow2(n - 1)
  }

  function Backoff(attempts: nat): nat {
    if Pow2(attempts) < 3600 then Pow2(attempts) else 3600
  }

  predicate IsDue(rows: map<Id, Row>, id: Id, now: real) {
    id in rows && rows[id].nextAttempt <= now
  }

  predicate Distinct(ids: seq<Id>) {
    forall i, j | 0 <= i < j < |ids| :: ids[i] != ids[j]
  }

  function LeaseRows(rows: map<Id, Row>, ids: seq<Id>, now: real): map<Id, Row> {
    map id | id in rows :: if id in ids then rows[id].(nextAttempt := now + LEASE_SECS) else rows[id]
  }

  function Copies(rows: map<Id, Row>, ids: seq<Id>): seq<Leased>
    requires forall id | id in ids :: id in rows
  {
    seq(|ids|, i requires 0 <= i < |ids| => Leased(ids[i], rows[ids[i]].attempts, rows[ids[i]].wellFormed))
  }

  /** What is written for a dispatched row. The update finds no row to write when the row is gone. */
  function Record(rows: map<Id, Row>, row: Leased, outcome: Outcome, now: real): map<Id, Row> {
    var attempts := row.attempts + 1;
    if !outcome.Refused? || attempts >= MAX_ATTEMPTS then rows - {row.id}
    else if row.id in rows then
      rows[row.id := rows[row.id].(attempts := attempts, nextAttempt := now + Backoff(attempts) as real)]
    else rows
  }

  predicate IsIdle(s: State, d: Id) {
    d in s.drainers ==> s.drainers[d].queue == []
  }

  /** The row in work has taken less than `perRow` seconds so far. */
  predicate InTime(d: Drainer, now: real, perRow: real) {
    d.queue != [] ==> now < d.startedAt + perRow
  }

  /** The timing assumption is in `Pass`: no drainer spends `perRow` seconds on any row. */
  predicate Enabled(s: State, step: Step, perRow: real) {
    match step
    case Enqueue(id, _) => id !in s.seen
    case Pass(seconds) =>
      seconds >= 0.0 && forall d | d in s.drainers :: InTime(s.drainers[d], s.now + seconds, perRow)
    case Lease(d, ids) =>
      IsIdle(s, d) && |ids| <= BATCH && Distinct(ids) && forall id | id in ids :: IsDue(s.rows, id, s.now)
    case Finish(d, outcome) =>
      && d in s.drainers && s.drainers[d].queue != []
      && (outcome.Malformed? <==> !s.drainers[d].queue[0].wellFormed)
    case Crash(d) => d in s.drainers
  }

  function Next(s: State, step: Step, perRow: real): State {
    if !Enabled(s, step, perRow) then s else
      match step
      case Enqueue(id, wellFormed) =>
        s.(rows := s.rows[id := Row(s.now, 0, wellFormed)], seen := s.seen + {id})
      case Pass(seconds) => s.(now := s.now + seconds)
      case Lease(d, ids) =>
        s.(rows := LeaseRows(s.rows, ids, s.now),
           drainers := s.drainers[d := Drainer(s.now, s.now, Copies(s.rows, ids), 0)])
      case Finish(d, outcome) =>
        var drainer := s.drainers[d];
        s.(rows := Record(s.rows, drainer.queue[0], outcome, s.now),
           drainers := s.drainers[d := drainer.(startedAt := s.now, queue := drainer.queue[1..], done := drainer.done + 1)],
           log := s.log + [(drainer.queue[0].id, outcome)])
      case Crash(d) => s.(drainers := s.drainers - {d})
  }

  function Run(s: State, steps: seq<Step>, perRow: real): State
    decreases |steps|
  {
    if steps == [] then s else Run(Next(s, steps[0], perRow), steps[1..], perRow)
  }

  // ── Nobody shares a row ───────────────────────────────────────────────────

  ghost predicate Holds(s: State, d: Id, i: int) {
    d in s.drainers && 0 <= i < |s.drainers[d].queue|
  }

  /** No row is in the hands of two drainers, nor twice in those of one. */
  ghost predicate Exclusive(s: State) {
    forall d, i, e, j | Holds(s, d, i) && Holds(s, e, j) && s.drainers[d].queue[i].id == s.drainers[e].queue[j].id ::
      d == e && i == j
  }

  /** A held row is leased until the lease ends, and its copy is up to date. */
  predicate LeaseFits(rows: map<Id, Row>, row: Leased, leasedAt: real) {
    && row.id in rows
    && rows[row.id].nextAttempt == leasedAt + LEASE_SECS
    && rows[row.id].attempts == row.attempts
    && rows[row.id].wellFormed == row.wellFormed
  }

  ghost predicate LeasesFit(s: State) {
    forall d, i | Holds(s, d, i) :: LeaseFits(s.rows, s.drainers[d].queue[i], s.drainers[d].leasedAt)
  }

  /** The rows behind a drainer took less than `perRow` seconds each, all of them together. */
  predicate BatchFits(d: Drainer, now: real, perRow: real) {
    && d.done + |d.queue| <= BATCH
    && InTime(d, now, perRow)
    && (d.queue != [] ==> d.startedAt <= d.leasedAt + perRow * d.done as real)
  }

  ghost predicate BatchesFit(s: State, perRow: real) {
    forall d | d in s.drainers :: BatchFits(s.drainers[d], s.now, perRow)
  }

  lemma NonNegativeProduct(a: real, b: real)
    requires a >= 0.0 && b >= 0.0
    ensures a * b >= 0.0
  {
  }

  lemma TurnsFitTheLease(perRow: real, turns: nat)
    requires perRow <= 12.0 && turns <= BATCH
    ensures perRow * turns as real <= LEASE_SECS
  {
    var n := turns as real;
    NonNegativeProduct(12.0 - perRow, n);
    assert (12.0 - perRow) * n == 12.0 * n - perRow * n;
  }

  lemma OneTurnMore(perRow: real, turns: nat)
    ensures perRow * (turns + 1) as real == perRow * turns as real + perRow
  {
    assert (turns + 1) as real == turns as real + 1.0;
  }

  /** The lease outlasts a batch, so that a row in work is never due. */
  lemma HeldIsNotDue(s: State, perRow: real, d: Id, i: int)
    requires perRow <= 12.0 && LeasesFit(s) && BatchesFit(s, perRow) && Holds(s, d, i)
    ensures !IsDue(s.rows, s.drainers[d].queue[i].id, s.now)
  {
    var drainer := s.drainers[d];
    assert BatchFits(drainer, s.now, perRow);
    OneTurnMore(perRow, drainer.done);
    TurnsFitTheLease(perRow, drainer.done + 1);
    assert LeaseFits(s.rows, drainer.queue[i], drainer.leasedAt);
  }

  ghost predicate Leasing(s: State, perRow: real) {
    Exclusive(s) && LeasesFit(s) && BatchesFit(s, perRow)
  }

  /** What the drainers other than `d` hold is what they held, at other places perhaps, and
      their rows are untouched. */
  lemma OthersUntouched(s: State, d: Id, ids: seq<Id>, perRow: real, e: Id, j: int)
    requires 0.0 < perRow <= 12.0 && Leasing(s, perRow) && Enabled(s, Lease(d, ids), perRow)
    requires e != d && Holds(Next(s, Lease(d, ids), perRow), e, j)
    ensures var t := Next(s, Lease(d, ids), perRow);
            && Holds(s, e, j) && t.drainers[e] == s.drainers[e] && s.drainers[e].queue[j].id !in ids
            && LeaseFits(t.rows, t.drainers[e].queue[j], t.drainers[e].leasedAt)
  {
    hide Exclusive;
    var t := Next(s, Lease(d, ids), perRow);
    assert t.drainers[e] == s.drainers[e];
    assert Holds(s, e, j);
    HeldIsNotDue(s, perRow, e, j);
    assert LeaseFits(s.rows, s.drainers[e].queue[j], s.drainers[e].leasedAt);
  }

  lemma LeasedFits(s: State, d: Id, ids: seq<Id>, perRow: real, j: int)
    requires Enabled(s, Lease(d, ids), perRow) && Holds(Next(s, Lease(d, ids), perRow), d, j)
    ensures var t := Next(s, Lease(d, ids), perRow);
            && |t.drainers[d].queue| == |ids| && t.drainers[d].queue[j].id == ids[j]
            && LeaseFits(t.rows, t.drainers[d].queue[j], t.drainers[d].leasedAt)
  {
    assert IsDue(s.rows, ids[j], s.now);
  }

  lemma LeaseKeepsLeasing(s: State, d: Id, ids: seq<Id>, perRow: real)
    requires 0.0 < perRow <= 12.0 && Leasing(s, perRow) && Enabled(s, Lease(d, ids), perRow)
    ensures Leasing(Next(s, Lease(d, ids), perRow), perRow)
  {
    hide Leasing, LeaseFits;
    var t := Next(s, Lease(d, ids), perRow);
    forall e, j | Holds(t, e, j)
      ensures LeaseFits(t.rows, t.drainers[e].queue[j], t.drainers[e].leasedAt)
      ensures e != d ==> Holds(s, e, j) && t.drainers[e] == s.drainers[e] && s.drainers[e].queue[j].id !in ids
      ensures e == d ==> |t.drainers[d].queue| == |ids| && t.drainers[e].queue[j].id == ids[j]
    {
      if e == d {
        LeasedFits(s, d, ids, perRow, j);
      } else {
        OthersUntouched(s, d, ids, perRow, e, j);
      }
    }
    LeaseKeepsExclusive(s, t, d, ids, perRow);
    LeaseKeepsBatches(s, d, ids, perRow);
    LeasingFrom(t, perRow);
  }

  lemma LeasingFrom(s: State, perRow: real)
    requires Exclusive(s) && BatchesFit(s, perRow)
    requires forall d, i | Holds(s, d, i) :: LeaseFits(s.rows, s.drainers[d].queue[i], s.drainers[d].leasedAt)
    ensures Leasing(s, perRow)
  {
    hide Exclusive, BatchesFit, LeaseFits;
  }

  lemma LeaseKeepsExclusive(s: State, t: State, d: Id, ids: seq<Id>, perRow: real)
    requires Leasing(s, perRow) && Distinct(ids)
    requires forall e, j | Holds(t, e, j) && e != d ::
               Holds(s, e, j) && t.drainers[e] == s.drainers[e] && s.drainers[e].queue[j].id !in ids
    requires forall j | Holds(t, d, j) :: |t.drainers[d].queue| == |ids| && t.drainers[d].queue[j].id == ids[j]
    ensures Exclusive(t)
  {
    hide LeasesFit, BatchesFit;
  }

  lemma LeaseKeepsBatches(s: State, d: Id, ids: seq<Id>, perRow: real)
    requires 0.0 < perRow && Leasing(s, perRow) && Enabled(s, Lease(d, ids), perRow)
    ensures BatchesFit(Next(s, Lease(d, ids), perRow), perRow)
  {
    hide Exclusive, LeasesFit, LeaseRows;
    assert perRow * 0 as real == 0.0;
  }

  /** After a finished row the others keep their places, one further in front for `d`. */
  lemma FinishMovesUp(s: State, d: Id, outcome: Outcome, perRow: real, e: Id, j: int)
    requires Leasing(s, perRow) && Enabled(s, Finish(d, outcome), perRow)
    requires Holds(Next(s, Finish(d, outcome), perRow), e, j)
    ensures var t, was := Next(s, Finish(d, outcome), perRow), if e == d then j + 1 else j;
            && Holds(s, e, was) && t.drainers[e].queue[j] == s.drainers[e].queue[was]
            && t.drainers[e].leasedAt == s.drainers[e].leasedAt
            && LeaseFits(t.rows, t.drainers[e].queue[j], t.drainers[e].leasedAt)
  {
    hide BatchesFit, Backoff;
    var was := if e == d then j + 1 else j;
    assert Holds(s, d, 0) && Holds(s, e, was);
    assert s.drainers[e].queue[was].id != s.drainers[d].queue[0].id;
    assert LeaseFits(s.rows, s.drainers[e].queue[was], s.drainers[e].leasedAt);
    RecordElsewhere(s.rows, s.drainers[d].queue[0], outcome, s.now, s.drainers[e].queue[was].id);
  }

  lemma RecordElsewhere(rows: map<Id, Row>, row: Leased, outcome: Outcome, now: real, id: Id)
    requires id != row.id
    ensures id in Record(rows, row, outcome, now) <==> id in rows
    ensures id in rows ==> Record(rows, row, outcome, now)[id] == rows[id]
  {
    hide Backoff;
  }

  lemma FinishKeepsExclusive(s: State, t: State, d: Id, perRow: real)
    requires Leasing(s, perRow)
    requires forall e, j | Holds(t, e, j) ::
               && Holds(s, e, if e == d then j + 1 else j)
               && t.drainers[e].queue[j] == s.drainers[e].queue[if e == d then j + 1 else j]
    ensures Exclusive(t)
  {
    hide LeasesFit, BatchesFit;
  }

  lemma FinishKeepsBatches(s: State, d: Id, outcome: Outcome, perRow: real)
    requires Leasing(s, perRow) && Enabled(s, Finish(d, outcome), perRow)
    requires 0.0 < perRow
    ensures BatchesFit(Next(s, Finish(d, outcome), perRow), perRow)
  {
    hide Exclusive, LeasesFit, Record;
    assert BatchFits(s.drainers[d], s.now, perRow);
    OneTurnMore(perRow, s.drainers[d].done);
  }

  lemma FinishKeepsLeasing(s: State, d: Id, outcome: Outcome, perRow: real)
    requires 0.0 < perRow && Leasing(s, perRow) && Enabled(s, Finish(d, outcome), perRow)
    ensures Leasing(Next(s, Finish(d, outcome), perRow), perRow)
  {
    hide Leasing, LeaseFits, Next, Enabled;
    var t := Next(s, Finish(d, outcome), perRow);
    forall e, j | Holds(t, e, j)
      ensures Holds(s, e, if e == d then j + 1 else j)
      ensures t.drainers[e].queue[j] == s.drainers[e].queue[if e == d then j + 1 else j]
      ensures LeaseFits(t.rows, t.drainers[e].queue[j], t.drainers[e].leasedAt)
    {
      FinishMovesUp(s, d, outcome, perRow, e, j);
    }
    FinishKeepsExclusive(s, t, d, perRow);
    FinishKeepsBatches(s, d, outcome, perRow);
    LeasingFrom(t, perRow);
  }

  lemma OthersKeepLeasing(s: State, step: Step, perRow: real)
    requires Leasing(s, perRow) && (step.Enqueue? || step.Pass? || step.Crash?) && s.rows.Keys <= s.seen
    ensures Leasing(Next(s, step, perRow), perRow)
  {
    var t := Next(s, step, perRow);
    forall e, j | Holds(t, e, j)
      ensures Holds(s, e, j) && t.drainers[e] == s.drainers[e]
      ensures LeaseFits(t.rows, t.drainers[e].queue[j], t.drainers[e].leasedAt)
    {
      assert Holds(s, e, j);
      assert LeaseFits(s.rows, s.drainers[e].queue[j], s.drainers[e].leasedAt);
    }
  }

  // ── How a row leaves the table ────────────────────────────────────────────

  function Count(log: seq<(Id, Outcome)>, id: Id, outcome: Outcome): nat {
    if log == [] then 0
    else Count(log[..|log| - 1], id, outcome) + (if log[|log| - 1] == (id, outcome) then 1 else 0)
  }

  lemma CountSnoc(log: seq<(Id, Outcome)>, entry: (Id, Outcome), id: Id, outcome: Outcome)
    ensures Count(log + [entry], id, outcome) == Count(log, id, outcome) + (if entry == (id, outcome) then 1 else 0)
  {
  }

  /** A row in the table has had as many failures as it has attempts, and neither of the
      final outcomes; a row that is gone ended in one of three ways. */
  ghost predicate Accounted(s: State, id: Id) {
    var delivered, malformed, failed := Count(s.log, id, Sent), Count(s.log, id, Malformed), Count(s.log, id, Refused);
    if id !in s.seen then
      id !in s.rows && delivered == malformed == failed == 0
    else if id in s.rows then
      delivered == malformed == 0 && failed == s.rows[id].attempts < MAX_ATTEMPTS
    else
      || (delivered == 1 && malformed == 0 && failed < MAX_ATTEMPTS)
      || (delivered == 0 && malformed == 1 && failed < MAX_ATTEMPTS)
      || (delivered == 0 && malformed == 0 && failed == MAX_ATTEMPTS)
  }

  ghost predicate AllAccounted(s: State) {
    forall id :: Accounted(s, id)
  }

  /** What one more outcome for `row` does to the account of a row. */
  lemma OutcomeAccounts(s: State, t: State, row: Leased, outcome: Outcome, id: Id)
    requires Accounted(s, id) && row.id in s.rows && s.rows[row.id].attempts == row.attempts && row.id in s.seen
    requires t.seen == s.seen && t.log == s.log + [(row.id, outcome)] && t.rows == Record(s.rows, row, outcome, s.now)
    ensures Accounted(t, id)
  {
    hide Count, Backoff;
    CountSnoc(s.log, (row.id, outcome), id, Sent);
    CountSnoc(s.log, (row.id, outcome), id, Malformed);
    CountSnoc(s.log, (row.id, outcome), id, Refused);
    if id != row.id {
      RecordElsewhere(s.rows, row, outcome, s.now, id);
    }
  }

  lemma FinishAccounts(s: State, d: Id, outcome: Outcome, perRow: real, id: Id)
    requires Leasing(s, perRow) && AllAccounted(s) && Enabled(s, Finish(d, outcome), perRow)
    ensures Accounted(Next(s, Finish(d, outcome), perRow), id)
  {
    hide Count, Record, Exclusive, BatchesFit;
    var row := s.drainers[d].queue[0];
    assert Holds(s, d, 0) && LeaseFits(s.rows, row, s.drainers[d].leasedAt);
    assert Accounted(s, id) && Accounted(s, row.id);
    OutcomeAccounts(s, Next(s, Finish(d, outcome), perRow), row, outcome, id);
  }

  lemma StepKeepsAll(s: State, step: Step, perRow: real)
    requires 0.0 < perRow <= 12.0 && Leasing(s, perRow) && AllAccounted(s)
    ensures Leasing(Next(s, step, perRow), perRow) && AllAccounted(Next(s, step, perRow))
  {
    hide Leasing, Count;
    if Enabled(s, step, perRow) {
      forall id
        ensures Accounted(Next(s, step, perRow), id)
      {
        assert Accounted(s, id);
        if step.Finish? {
          FinishAccounts(s, step.drainer, step.outcome, perRow, id);
        }
      }
      match step
      case Lease(d, ids) => LeaseKeepsLeasing(s, d, ids, perRow);
      case Finish(d, outcome) => FinishKeepsLeasing(s, d, outcome, perRow);
      case _ =>
        assert forall id | id in s.rows :: Accounted(s, id);
        OthersKeepLeasing(s, step, perRow);
    }
  }

  lemma {:induction false} RunKeepsAll(s: State, steps: seq<Step>, perRow: real)
    requires 0.0 < perRow <= 12.0 && Leasing(s, perRow) && AllAccounted(s)
    ensures Leasing(Run(s, steps, perRow), perRow) && AllAccounted(Run(s, steps, perRow))
    decreases |steps|
  {
    hide Leasing, AllAccounted, Next;
    if steps != [] {
      StepKeepsAll(s, steps[0], perRow);
      RunKeepsAll(Next(s, steps[0], perRow), steps[1..], perRow);
    }
  }

  lemma StartIsFine(perRow: real)
    ensures Leasing(START, perRow) && AllAccounted(START)
  {
  }

  /** With less than twelve seconds on each row no two drainers ever work on one row. */
  lemma NeverSharedWithinTwelveSeconds(steps: seq<Step>, perRow: real)
    requires 0.0 < perRow <= 12.0
    ensures Exclusive(Run(START, steps, perRow))
  {
    hide AllAccounted, Run;
    StartIsFine(perRow);
    RunKeepsAll(START, steps, perRow);
  }

  /** A row that was ever queued is still there, was delivered once, was malformed, or
      has failed exactly eight times. */
  lemma NoRowIsLost(steps: seq<Step>, perRow: real, id: Id)
    requires 0.0 < perRow <= 12.0 && id in Run(START, steps, perRow).seen
    ensures var s := Run(START, steps, perRow);
            || (id in s.rows && Count(s.log, id, Refused) == s.rows[id].attempts < 8)
            || (id !in s.rows && Count(s.log, id, Sent) == 1)
            || (id !in s.rows && Count(s.log, id, Malformed) == 1)
            || (id !in s.rows && Count(s.log, id, Refused) == 8)
  {
    hide Leasing, Run, Count;
    StartIsFine(perRow);
    RunKeepsAll(START, steps, perRow);
    assert Accounted(Run(START, steps, perRow), id);
  }

  /** The cap of one hour is never reached: giving up comes first. */
  lemma BackoffIsNeverCapped(attempts: nat)
    requires attempts < MAX_ATTEMPTS
    ensures Backoff(attempts) == Pow2(attempts) <= 128
  {
    PowGrows(attempts, 7);
    assert Pow2(7) == 128;
  }

  /** The first failure waits for two seconds, and each further one twice as long as the one
      before; the eighth is the last. */
  lemma WaitsDouble(attempts: nat)
    requires 1 <= attempts
    ensures Backoff(1) == 2
    ensures attempts + 1 < 8 ==> Backoff(attempts + 1) == 2 * Backoff(attempts)
    ensures attempts >= MAX_ATTEMPTS <==> attempts >= 8
  {
    if attempts + 1 < 8 {
      BackoffIsNeverCapped(attempts);
      BackoffIsNeverCapped(attempts + 1);
    }
    assert Pow2(1) == 2 * Pow2(0);
  }

  lemma {:induction false} PowGrows(a: nat, b: nat)
    requires a <= b
    ensures Pow2(a) <= Pow2(b)
    decreases b
  {
    if a < b {
      PowGrows(a, b - 1);
    }
  }

  // ── A single drainer ──────────────────────────────────────────────────────

  /** What a dispatch leaves of a leased row: nothing when it was sent, malformed or refused for
      the eighth time, or was gone before; otherwise the row with one attempt more, which waits
      for twice as long as after the attempt before. */
  ghost predicate SettledAs(was: map<Id, Row>, rows: map<Id, Row>, row: Leased, outcome: Outcome, now: real) {
    if row.id in was && outcome.Refused? && row.attempts + 1 < 8
    then && row.id in rows
         && rows[row.id] == was[row.id].(attempts := row.attempts + 1, nextAttempt := now + Pow2(row.attempts + 1) as real)
    else row.id !in rows
  }

  function OutcomeOf(row: Leased, sent: bool): Outcome {
    if !row.wellFormed then Malformed else if sent then Sent else Refused
  }

  /** A batch holds distinct due rows, those that have waited longest, and all if they fit. */
  ghost predicate IsBatch(rows: map<Id, Row>, ids: seq<Id>, now: real) {
    && |ids| <= 50 && Distinct(ids)
    && (forall id | id in ids :: id in rows && rows[id].nextAttempt <= now)
    && (forall a, b | a in ids && b !in ids && b in rows && rows[b].nextAttempt <= now ::
          rows[a].nextAttempt <= rows[b].nextAttempt)
    && (|ids| < 50 ==> forall id | id in rows && rows[id].nextAttempt <= now :: id in ids)
  }

  class Queue {
    var rows: map<Id, Row>

    constructor ()
      ensures rows == map[]
    {
      rows := map[];
    }

    method Earliest(candidates: set<Id>) returns (first: Id)
      requires candidates != {} && candidates <= rows.Keys
      ensures first in candidates && forall id | id in candidates :: rows[first].nextAttempt <= rows[id].nextAttempt
    {
      first :| first in candidates;
      var todo := candidates - {first};
      while todo != {}
        invariant todo <= candidates && first in candidates
        invariant forall id | id in candidates - todo :: rows[first].nextAttempt <= rows[id].nextAttempt
        decreases |todo|
      {
        var id :| id in todo;
        todo := todo - {id};
        if rows[id].nextAttempt < rows[first].nextAttempt {
          first := id;
        }
      }
    }

    method FirstDue(now: real) returns (ids: seq<Id>)
      ensures IsBatch(rows, ids, now)
    {
      var due := set id | id in rows && IsDue(rows, id, now);
      ids := [];
      while |ids| < BATCH && due != {}
        invariant |ids| <= BATCH && Distinct(ids) && due <= rows.Keys
        invariant forall id | IsDue(rows, id, now) :: id in ids || id in due
        invariant forall id | id in due :: IsDue(rows, id, now) && id !in ids
        invariant forall id | id in ids :: IsDue(rows, id, now)
        invariant forall a, b | a in ids && b in due :: rows[a].nextAttempt <= rows[b].nextAttempt
        decreases |due|
      {
        var id := Earliest(due);
        due := due - {id};
        ids := ids + [id];
      }
    }

    /** Leases the due rows that have waited longest, as many as fit in a batch. */
    method LeaseDue(now: real) returns (ids: seq<Id>, leased: seq<Leased>)
      modifies this`rows
      ensures IsBatch(old(rows), ids, now)
      ensures rows == LeaseRows(old(rows), ids, now) && leased == Copies(old(rows), ids)
      ensures rows.Keys == old(rows).Keys
      ensures forall id | id in rows ::
                rows[id] == if id in ids then old(rows)[id].(nextAttempt := now + 600.0) else old(rows)[id]
    {
      ids := FirstDue(now);
      leased := Copies(rows, ids);
      rows := LeaseRows(rows, ids, now);
    }

    method Settle(row: Leased, outcome: Outcome, now: real)
      modifies this`rows
      ensures rows == Record(old(rows), row, outcome, now)
      ensures SettledAs(old(rows), rows, row, outcome, now)
      ensures rows - {row.id} == old(rows) - {row.id}
    {
      var attempts := row.attempts + 1;
      if !outcome.Refused? || attempts >= MAX_ATTEMPTS {
        rows := rows - {row.id};
      } else if row.id in rows {
        BackoffIsNeverCapped(attempts);
        rows := rows[row.id := rows[row.id].(attempts := attempts, nextAttempt := now + Backoff(attempts) as real)];
      }
    }

    /** Dispatches a leased batch in order; `sent` tells which dispatches got through. */
    method Dispatch(leased: seq<Leased>, sent: seq<bool>, times: seq<real>)
      requires |leased| == |sent| == |times|
      requires forall i, j | 0 <= i < j < |leased| :: leased[i].id != leased[j].id
      modifies this`rows
      ensures forall i | 0 <= i < |leased| ::
                SettledAs(old(rows), rows, leased[i], OutcomeOf(leased[i], sent[i]), times[i])
      ensures forall id | (forall i | 0 <= i < |leased| :: leased[i].id != id) ::
                (id in rows <==> id in old(rows)) && (id in rows ==> rows[id] == old(rows)[id])
    {
      ghost var before := rows;
      for i := 0 to |leased|
        invariant forall j | 0 <= j < i ::
                    SettledAs(before, rows, leased[j], OutcomeOf(leased[j], sent[j]), times[j])
        invariant forall id | (forall j | 0 <= j < i :: leased[j].id != id) ::
                    (id in rows <==> id in before) && (id in rows ==> rows[id] == before[id])
      {
        ghost var was := rows;
        Settle(leased[i], OutcomeOf(leased[i], sent[i]), times[i]);
        forall id | id != leased[i].id
          ensures (id in rows <==> id in was) && (id in rows ==> rows[id] == was[id])
        {
          assert id in rows - {leased[i].id} <==> id in was - {leased[i].id};
        }
      }
    }
  }

  // ── Twelve seconds is the limit ───────────────────────────────────────────

  function IdsFrom(low: nat, high: nat): (ids: set<Id>)
    ensures forall id :: id in ids <==> low <= id < high
    decreases high
  {
    if low >= high then {} else IdsFrom(low, high - 1) + {high - 1}
  }

  function Queued(n: nat): State {
    State(0.0, map id | id in IdsFrom(0, n) :: Row(0.0, 0, true), map[], IdsFrom(0, n), [])
  }

  function Sends(n: nat): seq<(Id, Outcome)> {
    seq(n, i => (i, Sent))
  }

  /** The clock after `n` rows of `each` seconds. */
  function Clock(n: nat, each: real): real {
    if n == 0 then 0.0 else Clock(n - 1, each) + each
  }

  lemma {:induction false} ClockIsProduct(n: nat, each: real)
    ensures Clock(n, each) == each * n as real
  {
    if n > 0 {
      ClockIsProduct(n - 1, each);
      OneTurnMore(each, n - 1);
    }
  }

  /** One drainer leased a full batch and has sent `n` rows of it, each in `each` seconds. */
  function Sending(n: nat, each: real): State
    requires n <= BATCH
  {
    State(Clock(n, each), map id | id in IdsFrom(n, BATCH) :: Row(LEASE_SECS, 0, true),
          map[1 := Drainer(0.0, Clock(n, each), seq(BATCH - n, i requires 0 <= i => Leased(n + i, 0, true)), n)],
          IdsFrom(0, BATCH), Sends(n))
  }

  lemma {:induction false} RunSnoc(s: State, steps: seq<Step>, last: Step, perRow: real)
    ensures Run(s, steps + [last], perRow) == Next(Run(s, steps, perRow), last, perRow)
    decreases |steps|
  {
    hide Next;
    if steps == [] {
      assert steps + [last] == [last];
      assert Run(Next(s, last, perRow), [], perRow) == Next(s, last, perRow);
    } else {
      assert (steps + [last])[1..] == steps[1..] + [last];
      RunSnoc(Next(s, steps[0], perRow), steps[1..], last, perRow);
    }
  }

  lemma {:induction false} QueueUp(n: nat, perRow: real) returns (steps: seq<Step>)
    ensures Run(START, steps, perRow) == Queued(n)
  {
    if n == 0 {
      steps := [];
    } else {
      var before := QueueUp(n - 1, perRow);
      RunSnoc(START, before, Enqueue(n - 1, true), perRow);
      steps := before + [Enqueue(n - 1, true)];
    }
  }

  lemma LeaseAll(perRow: real, each: real)
    requires perRow > 0.0
    ensures Next(Queued(BATCH), Lease(1, seq(BATCH, i => i)), perRow) == Sending(0, each)
  {
    hide IdsFrom;
    var ids := seq(BATCH, i => i);
    forall id | id in IdsFrom(0, BATCH)
      ensures id in ids
    {
      assert ids[id] == id;
    }
    var t := Next(Queued(BATCH), Lease(1, ids), perRow);
    Database.SameRows(t.rows, Sending(0, each).rows);
    assert Copies(Queued(BATCH).rows, ids) == Sending(0, each).drainers[1].queue;
    Database.SameRows(t.drainers, Sending(0, each).drainers);
  }

  /** The drainer takes `each` seconds for its next row and sends it. */
  lemma SendOne(n: nat, perRow: real, each: real)
    requires n < BATCH && 0.0 < each < perRow
    ensures Next(Next(Sending(n, each), Pass(each), perRow), Finish(1, Sent), perRow) == Sending(n + 1, each)
  {
    hide IdsFrom;
    assert Sends(n) + [(n, Sent)] == Sends(n + 1);
    var waited := Sending(n, each).(now := Clock(n + 1, each));
    assert Next(Sending(n, each), Pass(each), perRow) == waited;
    var t := Next(waited, Finish(1, Sent), perRow);
    Database.SameRows(t.rows, Sending(n + 1, each).rows);
    assert Sending(n, each).drainers[1].queue[1..] == Sending(n + 1, each).drainers[1].queue;
    Database.SameRows(t.drainers, Sending(n + 1, each).drainers);
  }

  lemma {:induction false} SendMany(n: nat, perRow: real, each: real) returns (steps: seq<Step>)
    requires 0.0 < each < perRow && n <= BATCH
    ensures Run(START, steps, perRow) == Sending(n, each)
  {
    hide Next, Sending;
    if n == 0 {
      var before := QueueUp(BATCH, perRow);
      LeaseAll(perRow, each);
      RunSnoc(START, before, Lease(1, seq(BATCH, i => i)), perRow);
      steps := before + [Lease(1, seq(BATCH, i => i))];
    } else {
      var before := SendMany(n - 1, perRow, each);
      SendOne(n - 1, perRow, each);
      RunSnoc(START, before, Pass(each), perRow);
      RunSnoc(START, before + [Pass(each)], Finish(1, Sent), perRow);
      steps := before + [Pass(each)] + [Finish(1, Sent)];
    }
  }

  /** When the lease ends the last row of the batch is in work, within its time. */
  lemma LastRowOutlastsLease(perRow: real, each: real)
    requires 12.0 < each < perRow && each <= 12.2
    ensures Next(Sending(49, each), Pass(LEASE_SECS - Clock(49, each)), perRow) == Sending(49, each).(now := LEASE_SECS)
    ensures 0.0 < LEASE_SECS - Clock(49, each) < each
  {
    hide IdsFrom, Clock;
    ClockIsProduct(49, each);
  }

  lemma SharedRow(perRow: real, each: real)
    requires perRow > 0.0
    ensures !Exclusive(Next(Sending(49, each).(now := LEASE_SECS), Lease(2, [49]), perRow))
  {
    hide IdsFrom, Clock;
    var shared := Next(Sending(49, each).(now := LEASE_SECS), Lease(2, [49]), perRow);
    assert Holds(shared, 1, 0) && Holds(shared, 2, 0);
    assert shared.drainers[1].queue[0].id == 49 == shared.drainers[2].queue[0].id;
  }

  /** Slower dispatches outlast the lease: with `each` seconds on each row, between twelve and
      `perRow`, the last row of a batch is leased again while it is still in work. */
  lemma SlowDrainerShares(perRow: real) returns (each: real, steps: seq<Step>)
    requires perRow > 12.0
    ensures 12.0 < each < perRow
    ensures !Exclusive(Run(START, steps, perRow))
  {
    hide Next, Run, Sending, Exclusive, Clock;
    each := if perRow > 12.2 then 12.1 else (12.0 + perRow) / 2.0;
    var before := SendMany(49, perRow, each);
    var rest := Pass(LEASE_SECS - Clock(49, each));
    LastRowOutlastsLease(perRow, each);
    SharedRow(perRow, each);
    RunSnoc(START, before, rest, perRow);
    RunSnoc(START, before + [rest], Lease(2, [49]), perRow);
    steps := before + [rest] + [Lease(2, [49])];
  }

  /** The lease protects a batch exactly when no row takes twelve seconds. */
  lemma ExclusiveIffTwelveSeconds(perRow: real)
    requires perRow > 0.0
    ensures (forall steps :: Exclusive(Run(START, steps, perRow))) <==> perRow <= 12.0
  {
    hide Exclusive, Run;
    if perRow <= 12.0 {
      forall steps
        ensures Exclusive(Run(START, steps, perRow))
      {
        NeverSharedWithinTwelveSeconds(steps, perRow);
      }
    } else {
      var each, steps := SlowDrainerShares(perRow);
    }
  }
}
