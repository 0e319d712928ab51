/** The staggered contract poller: every tick polls the slice of due characters whose
    cursors are earliest, and moves their cursors one jittered interval ahead. */
module Polling {
  import opened Domain

  /** When a character is to be polled next; `None` is a cursor that was never set. */
  type Cursors = map<Id, Option<int>>

  // ── Slice size and jitter ─────────────────────────────────────────────────

  function CeilDiv(n: nat, d: nat): (q: nat)
    requires d > 0
    ensures n <= q * d < n + d
  {
    (n + d - 1) / d
  }

  function SliceSize(eligible: nat, tick: nat, interval: nat): nat
    requires interval > 0
  {
    if CeilDiv(eligible * tick, interval) > 1 then CeilDiv(eligible * tick, interval) else 1
  }

  /** The slice is the least, from one on, with which as many ticks as fit in an interval go
      through everybody. */
  lemma SliceIsLeast(eligible: nat, tick: nat, interval: nat, slice: nat)
    requires interval > 0
    ensures SliceSize(eligible, tick, interval) >= 1
    ensures SliceSize(eligible, tick, interval) <= slice <==> slice >= 1 && slice * interval >= eligible * tick
  {
    hide CeilDiv;
    var least := CeilDiv(eligible * tick, interval);
    if slice >= least {
      ScaleUp(least, slice, interval);
    } else {
      ScaleUp(slice + 1, least, interval);
      assert (slice + 1) * interval == slice * interval + interval;
    }
  }

  function JitterSpan(interval: nat): nat {
    if interval / 10 > 1 then interval / 10 else 1
  }

  /** At most a tenth of the interval either way, but at least a second. */
  function Jitter(interval: nat, draw: nat): int {
    if interval == 0 then 0 else draw % (2 * JitterSpan(interval) + 1) - JitterSpan(interval)
  }

  lemma JitterIsSmall(interval: nat, draw: nat)
    ensures -(JitterSpan(interval) as int) <= Jitter(interval, draw) <= JitterSpan(interval)
    ensures interval >= 10 ==> -(interval as int) <= 10 * Jitter(interval, draw) <= interval
    ensures interval < 10 ==> -1 <= Jitter(interval, draw) <= 1
  {
  }

  /** Every shift within the span is drawn. */
  lemma JitterTakesEveryShift(interval: nat, shift: int)
    requires interval >= 10 && -(interval / 10) <= shift <= interval / 10
    ensures exists draw: nat :: Jitter(interval, draw) == shift
  {
    assert Jitter(interval, shift + JitterSpan(interval)) == shift;
  }

  /** Advancing a cursor moves it past the present, whatever is drawn, exactly for
      intervals of at least two seconds. */
  lemma AlwaysAheadIffTwoSeconds(interval: nat)
    ensures (forall draw: nat :: interval + Jitter(interval, draw) > 0) <==> interval >= 2
  {
    if interval >= 2 {
      forall draw: nat
        ensures interval + Jitter(interval, draw) > 0
      {
        JitterIsSmall(interval, draw);
      }
    } else {
      assert interval + Jitter(interval, 0) <= 0;
    }
  }

  // ── One tick ──────────────────────────────────────────────────────────────

  predicate IsDue(cursors: Cursors, c: Id, now: int) {
    c in cursors && (cursors[c].None? || cursors[c].value <= now)
  }

  function DueSet(cursors: Cursors, now: int): set<Id> {
    set c | c in cursors && IsDue(cursors, c, now)
  }

  /** The order of the query: unset cursors first. */
  predicate NoLater(a: Option<int>, b: Option<int>) {
    a.None? || (b.Some? && a.value <= b.value)
  }

  /** The query picks as many due characters as the slice allows, earliest cursors first;
      characters with equal cursors come in any order. */
  ghost predicate Selects(cursors: Cursors, now: int, slice: nat, picked: set<Id>) {
    && picked <= DueSet(cursors, now)
    && |picked| <= slice
    && (|picked| < slice ==> picked == DueSet(cursors, now))
    && forall a, b | a in picked && b in DueSet(cursors, now) - picked :: NoLater(cursors[a], cursors[b])
  }

  /** The cursor of a poll that ended `elapsed` seconds after its tick began. */
  function NextPoll(now: int, elapsed: nat, interval: nat, draw: nat): int {
    now + elapsed + interval + Jitter(interval, draw)
  }

  /** A cursor that was advanced at some moment after the tick began. */
  ghost predicate AdvancedFrom(cursor: Option<int>, now: int, interval: nat) {
    exists elapsed: nat, draw: nat :: cursor == Some(NextPoll(now, elapsed, interval, draw))
  }

  /** A poll may end before it advances the cursor: without budget, without a token, or on an
      error. `failing` holds the characters to which that may happen. */
  ghost predicate IsTick(
      before: Cursors, after: Cursors, now: int, slice: nat, interval: nat, failing: set<Id>, picked: set<Id>)
  {
    && Selects(before, now, slice, picked)
    && after.Keys == before.Keys
    && forall c | c in before ::
         || (c in picked && AdvancedFrom(after[c], now, interval))
         || ((c in picked ==> c in failing) && after[c] == before[c])
  }

  lemma AdvancedIsAhead(cursor: Option<int>, now: int, interval: nat)
    requires interval >= 2 && AdvancedFrom(cursor, now, interval)
    ensures cursor.Some? && cursor.value > now
  {
  }

  class Poller {
    var cursors: Cursors
    const interval: nat

    constructor (cursors: Cursors, interval: nat)
      ensures this.cursors == cursors && this.interval == interval
    {
      this.cursors, this.interval := cursors, interval;
    }

    /** One of the earliest of the candidates. */
    method Earliest(candidates: set<Id>) returns (first: Id)
      requires candidates != {} && candidates <= cursors.Keys
      ensures first in candidates && forall c | c in candidates :: NoLater(cursors[first], cursors[c])
    {
      first :| first in candidates;
      var todo := candidates - {first};
      while todo != {}
        invariant todo <= candidates && first in candidates
        invariant forall c | c in candidates - todo :: NoLater(cursors[first], cursors[c])
        decreases |todo|
      {
        var c :| c in todo;
        todo := todo - {c};
        if !NoLater(cursors[first], cursors[c]) {
          first := c;
        }
      }
    }

    method Select(now: int, slice: nat) returns (picked: set<Id>)
      ensures Selects(cursors, now, slice, picked)
      ensures forall c | c in picked :: c in cursors && (cursors[c].None? || cursors[c].value <= now)
      ensures |picked| < slice ==> forall c | c in cursors && (cursors[c].None? || cursors[c].value <= now) :: c in picked
    {
      var due := DueSet(cursors, now);
      picked := {};
      while |picked| < slice && due - picked != {}
        invariant picked <= due && |picked| <= slice
        invariant forall a, b | a in picked && b in due - picked :: NoLater(cursors[a], cursors[b])
        decreases |due - picked|
      {
        var first := Earliest(due - picked);
        ghost var before := due - picked;
        picked := picked + {first};
        assert due - picked == before - {first};
      }
      if |picked| < slice {
        assert picked == due;
      }
    }

    /** Polls the slice. A poll ends some seconds after the tick began and draws a jitter, or it
        is one of the failed ones and leaves the cursor alone. */
    method Tick(now: int, slice: nat, elapsed: map<Id, nat>, draws: map<Id, nat>, failed: set<Id>) returns (picked: set<Id>)
      requires elapsed.Keys >= cursors.Keys && draws.Keys >= cursors.Keys
      modifies this`cursors
      ensures IsTick(old(cursors), cursors, now, slice, interval, failed, picked)
      ensures forall c | c in picked - failed :: AdvancedFrom(cursors[c], now, interval)
      ensures forall c | c in picked - failed ::
                && cursors[c].Some?
                && var late := cursors[c].value - (now + elapsed[c] + interval);
                   -1 <= late <= 1 || -(interval as int) <= 10 * late <= interval
    {
      picked := Select(now, slice);
      ghost var before := cursors;
      var todo := picked;
      while todo != {}
        invariant todo <= picked && cursors.Keys == before.Keys
        invariant forall c | c in before ::
                    if c in picked && c !in todo && c !in failed
                    then cursors[c] == Some(NextPoll(now, elapsed[c], interval, draws[c]))
                    else cursors[c] == before[c]
        decreases |todo|
      {
        var c :| c in todo;
        todo := todo - {c};
        if c !in failed {
          cursors := cursors[c := Some(NextPoll(now, elapsed[c], interval, draws[c]))];
        }
      }
      forall c | c in picked - failed
        ensures AdvancedFrom(cursors[c], now, interval)
        ensures cursors[c].value - (now + elapsed[c] + interval) == Jitter(interval, draws[c])
        ensures -1 <= Jitter(interval, draws[c]) <= 1 || -(interval as int) <= 10 * Jitter(interval, draws[c]) <= interval
      {
        JitterIsSmall(interval, draws[c]);
      }
    }
  }

  // ── Nobody waits for long ─────────────────────────────────────────────────

  /** The other characters that a tick may pick before `c`. */
  function Ahead(cursors: Cursors, c: Id): set<Id>
    requires c in cursors
  {
    set d | d in cursors && d != c && NoLater(cursors[d], cursors[c])
  }

  lemma SubsetSize(a: set<Id>, b: set<Id>)
    requires a <= b
    ensures |a| <= |b| && |b - a| == |b| - |a|
  {
  }

  /** A tick that passes over a due character shortens the queue before it by the picked
      characters whose polls cannot fail. */
  lemma TickShortensQueue(
      before: Cursors, after: Cursors, now: int, slice: nat, interval: nat, failing: set<Id>, picked: set<Id>, c: Id)
    requires interval >= 2 && IsTick(before, after, now, slice, interval, failing, picked)
    requires IsDue(before, c, now) && c !in picked
    ensures c in after && after[c] == before[c]
    ensures |Ahead(after, c)| + slice <= |Ahead(before, c)| + |failing|
  {
    assert c in DueSet(before, now) - picked;
    assert picked <= Ahead(before, c);
    forall d | d in before && d in Ahead(after, c)
      ensures d in Ahead(before, c) - (picked - failing)
    {
      if d in picked && after[d] != before[d] {
        AdvancedIsAhead(after[d], now, interval);
      } else if d in picked - failing {
        AdvancedIsAhead(after[d], now, interval);
      }
    }
    assert Ahead(after, c) <= Ahead(before, c) - (picked - failing);
    SubsetSize(Ahead(after, c), Ahead(before, c) - (picked - failing));
    SubsetSize(picked - failing, Ahead(before, c));
    SubsetSize(picked * failing, failing);
    SubsetSize(picked - failing, picked);
    assert picked - (picked - failing) == picked * failing;
  }

  /** A run of ticks over a fixed population: `states[j]` is before the tick at `nows[j]`. */
  ghost predicate IsRun(
      states: seq<Cursors>, nows: seq<int>, picks: seq<set<Id>>, slice: nat, interval: nat, failing: set<Id>)
  {
    && |states| == |picks| + 1 && |nows| == |picks|
    && (forall j, k | 0 <= j <= k < |nows| :: nows[j] <= nows[k])
    && forall j | 0 <= j < |picks| :: IsTick(states[j], states[j + 1], nows[j], slice, interval, failing, picks[j])
  }

  lemma {:induction false} QueueAfter(
      states: seq<Cursors>, nows: seq<int>, picks: seq<set<Id>>, slice: nat, interval: nat, failing: set<Id>, c: Id, k: nat)
    requires interval >= 2 && |failing| <= slice && IsRun(states, nows, picks, slice, interval, failing)
    requires k <= |picks| && |picks| > 0 && IsDue(states[0], c, nows[0])
    requires forall j | 0 <= j < k :: c !in picks[j]
    ensures c in states[k] && states[k][c] == states[0][c]
    ensures |Ahead(states[k], c)| + k * (slice - |failing|) < |states[0]|
  {
    if k == 0 {
      assert Ahead(states[0], c) <= states[0].Keys - {c};
      SubsetSize(Ahead(states[0], c), states[0].Keys - {c});
    } else {
      QueueAfter(states, nows, picks, slice, interval, failing, c, k - 1);
      TickShortensQueue(states[k - 1], states[k], nows[k - 1], slice, interval, failing, picks[k - 1], c);
      assert k * (slice - |failing|) == (k - 1) * (slice - |failing|) + (slice - |failing|);
    }
  }

  /** While fewer polls fail than fit in a slice, every due character is picked within as many
      ticks as it takes to go through the population with the rest of the slice, whatever is
      drawn and however ties are broken. */
  lemma DueIsPickedInTime(
      states: seq<Cursors>, nows: seq<int>, picks: seq<set<Id>>, slice: nat, interval: nat, failing: set<Id>, c: Id)
    requires interval >= 2 && |failing| < slice && IsRun(states, nows, picks, slice, interval, failing)
    requires |picks| > 0 && IsDue(states[0], c, nows[0])
    requires |picks| >= CeilDiv(|states[0]|, slice - |failing|)
    ensures exists j | 0 <= j < CeilDiv(|states[0]|, slice - |failing|) :: c in picks[j]
  {
    var rounds := CeilDiv(|states[0]|, slice - |failing|);
    if forall j | 0 <= j < rounds :: c !in picks[j] {
      QueueAfter(states, nows, picks, slice, interval, failing, c, rounds);
    }
  }

  lemma ScaleUp(a: nat, b: nat, c: nat)
    requires a <= b
    ensures a * c <= b * c
  {
  }

  lemma CancelFactor(a: nat, b: nat, c: nat)
    requires c > 0 && a * c <= b * c
    ensures a <= b
  {
  }

  lemma CeilDivIsLeast(n: nat, d: nat, q: nat)
    requires d > 0 && n <= q * d
    ensures CeilDiv(n, d) <= q
  {
    if CeilDiv(n, d) > q {
      assert (q + 1) * d == q * d + d;
      ScaleUp(q + 1, CeilDiv(n, d), d);
    }
  }

  /** That many ticks fit in one interval: everybody is polled about once per interval,
      however many characters there are. */
  lemma WithinOneInterval(eligible: nat, tick: nat, interval: nat)
    requires tick > 0 && interval > 0
    ensures CeilDiv(eligible, SliceSize(eligible, tick, interval)) <= CeilDiv(interval, tick)
  {
    hide CeilDiv;
    var slice, rounds := SliceSize(eligible, tick, interval), CeilDiv(interval, tick);
    ScaleUp(CeilDiv(eligible * tick, interval), slice, interval);
    ScaleUp(interval, rounds * tick, slice);
    assert eligible * tick <= slice * interval == interval * slice <= rounds * tick * slice == (rounds * slice) * tick;
    CancelFactor(eligible, rounds * slice, tick);
    CeilDivIsLeast(eligible, slice, rounds);
  }

  // ── When somebody starves ─────────────────────────────────────────────────

  /** In every run over a population of this size, each due character whose polls do not fail
      is picked within the first `rounds` ticks. */
  ghost predicate PickedWithin(rounds: nat, population: nat, slice: nat, interval: nat, failing: set<Id>) {
    forall states, nows, picks, c |
      && IsRun(states, nows, picks, slice, interval, failing) && |states[0]| == population
      && |picks| > 0 && |picks| >= rounds && IsDue(states[0], c, nows[0]) && c !in failing ::
      exists j | 0 <= j < rounds :: c in picks[j]
  }

  ghost predicate HasBound(population: nat, slice: nat, interval: nat, failing: set<Id>) {
    exists rounds: nat :: PickedWithin(rounds, population, slice, interval, failing)
  }

  ghost predicate NobodyStarves(slice: nat, interval: nat, failing: set<Id>) {
    forall population: nat :: HasBound(population, slice, interval, failing)
  }

  lemma {:induction false} Unused(ids: set<Id>) returns (unused: Id)
    ensures forall id | id in ids :: id < unused
    decreases |ids|
  {
    if ids == {} {
      unused := 0;
    } else {
      var id :| id in ids;
      var other := Unused(ids - {id});
      unused := if id < other then other else id + 1;
      assert forall d | d in ids :: d == id || d in ids - {id};
    }
  }

  lemma {:induction false} SomeOf(ids: set<Id>, n: nat) returns (some: set<Id>)
    requires n <= |ids|
    ensures some <= ids && |some| == n
    decreases |ids|
  {
    if n == |ids| {
      some := ids;
    } else {
      var id :| id in ids;
      some := SomeOf(ids - {id}, n);
    }
  }

  /** The failing characters, none of which was ever polled to the end, and one that is due. */
  function Unpolled(failing: set<Id>, c: Id): Cursors {
    map d | d in failing + {c} :: if d == c then Some(0) else None
  }

  /** A slice of failing characters is a tick that changes nothing. */
  lemma FailingTick(failing: set<Id>, c: Id, now: int, slice: nat, interval: nat, picked: set<Id>)
    requires c !in failing && now >= 0 && picked <= failing && |picked| == slice
    ensures IsTick(Unpolled(failing, c), Unpolled(failing, c), now, slice, interval, failing, picked)
  {
  }

  /** A run of any length in which a due character is never picked: the slice is taken up by
      characters whose polls fail. */
  lemma StarvingRun(failing: set<Id>, slice: nat, interval: nat, ticks: nat)
    returns (states: seq<Cursors>, nows: seq<int>, picks: seq<set<Id>>, c: Id)
    requires slice <= |failing|
    ensures IsRun(states, nows, picks, slice, interval, failing)
    ensures |picks| == ticks && |states[0]| == |failing| + 1
    ensures c !in failing && IsDue(states[0], c, 0)
    ensures forall j | 0 <= j < ticks :: nows[j] == 0 && c !in picks[j]
  {
    c := Unused(failing);
    var picked := SomeOf(failing, slice);
    var cursors := Unpolled(failing, c);
    states := seq(ticks + 1, _ => cursors);
    nows := seq(ticks, _ => 0);
    picks := seq(ticks, _ => picked);
    FailingTick(failing, c, 0, slice, interval, picked);
    assert cursors.Keys == failing + {c};
    assert |cursors| == |cursors.Keys|;
  }

  lemma FewFailHasBound(population: nat, slice: nat, interval: nat, failing: set<Id>)
    requires interval >= 2 && |failing| < slice
    ensures HasBound(population, slice, interval, failing)
  {
    hide IsTick;
    var rounds := CeilDiv(population, slice - |failing|);
    forall states, nows, picks, c |
      && IsRun(states, nows, picks, slice, interval, failing) && |states[0]| == population
      && |picks| > 0 && |picks| >= rounds && IsDue(states[0], c, nows[0]) && c !in failing
      ensures exists j | 0 <= j < rounds :: c in picks[j]
    {
      DueIsPickedInTime(states, nows, picks, slice, interval, failing, c);
    }
    assert PickedWithin(rounds, population, slice, interval, failing);
  }

  lemma ManyFailHasNone(slice: nat, interval: nat, failing: set<Id>)
    requires slice <= |failing|
    ensures !HasBound(|failing| + 1, slice, interval, failing)
  {
    hide IsTick;
    if HasBound(|failing| + 1, slice, interval, failing) {
      var rounds: nat :| PickedWithin(rounds, |failing| + 1, slice, interval, failing);
      var states, nows, picks, c := StarvingRun(failing, slice, interval, rounds + 1);
    }
  }

  /** There is a bound for every population exactly when the polls that may fail are fewer
      than the slice. */
  lemma NobodyStarvesIffFewFail(slice: nat, interval: nat, failing: set<Id>)
    requires interval >= 2 && slice > 0
    ensures NobodyStarves(slice, interval, failing) <==> |failing| < slice
  {
    hide IsTick;
    if |failing| < slice {
      forall population: nat
        ensures HasBound(population, slice, interval, failing)
      {
        FewFailHasBound(population, slice, interval, failing);
      }
    } else {
      ManyFailHasNone(slice, interval, failing);
    }
  }
}
