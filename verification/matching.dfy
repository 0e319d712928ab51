/** Matching a contract with the pending reimbursements of its parties: how much of what
    was bought does the contract hand over? */
module Matching {
  import opened Domain
  import opened Sums
  import Database

  /** Quantities by item type. */
  type Totals = map<Id, int>

  function Get(totals: Totals, t: Id): int {
    if t in totals then totals[t] else 0
  }

  // ── Totals of a contract ──────────────────────────────────────────────────

  function Added(totals: Totals, record: (Id, int)): Totals {
    totals[record.0 := Get(totals, record.0) + record.1]
  }

  function TotalsOf(records: seq<(Id, int)>): Totals {
    if records == [] then map[] else Added(TotalsOf(records[..|records| - 1]), records[|records| - 1])
  }

  function QtyOf(records: seq<(Id, int)>, t: Id): int {
    if records == [] then 0 else
      QtyOf(records[..|records| - 1], t) + (if records[|records| - 1].0 == t then records[|records| - 1].1 else 0)
  }

  lemma {:induction false} TotalsAreSums(records: seq<(Id, int)>)
    ensures forall t :: t in TotalsOf(records) <==> exists r | r in records :: r.0 == t
    ensures forall t :: Get(TotalsOf(records), t) == QtyOf(records, t)
    decreases |records|
  {
    if records != [] {
      var init, last := records[..|records| - 1], records[|records| - 1];
      TotalsAreSums(init);
      assert records == init + [last];
      assert last in records;
    }
  }

  lemma QtySnoc(records: seq<(Id, int)>, last: (Id, int), t: Id)
    ensures QtyOf(records + [last], t) == QtyOf(records, t) + (if last.0 == t then last.1 else 0)
  {
    assert (records + [last])[..|records|] == records;
  }

  lemma {:induction false} QtyWithout(records: seq<(Id, int)>, i: nat, t: Id)
    requires i < |records|
    ensures QtyOf(records, t) == QtyOf(records[..i] + records[i + 1..], t) + (if records[i].0 == t then records[i].1 else 0)
    decreases |records|
  {
    hide QtyOf;
    var init, last := records[..|records| - 1], records[|records| - 1];
    assert records == init + [last];
    QtySnoc(init, last, t);
    if i == |init| {
      assert records[..i] + records[i + 1..] == init;
    } else {
      QtyWithout(init, i, t);
      assert records[..i] + records[i + 1..] == (init[..i] + init[i + 1..]) + [last];
      QtySnoc(init[..i] + init[i + 1..], last, t);
    }
  }

  lemma MultisetWithout(records: seq<(Id, int)>, i: nat)
    requires i < |records|
    ensures multiset(records[..i] + records[i + 1..]) == multiset(records) - multiset{records[i]}
  {
    assert records == records[..i] + [records[i]] + records[i + 1..];
  }

  lemma {:induction false} QtyOfPermutation(a: seq<(Id, int)>, b: seq<(Id, int)>, t: Id)
    requires multiset(a) == multiset(b)
    ensures QtyOf(a, t) == QtyOf(b, t)
    decreases |a|
  {
    if a == [] {
      assert |multiset(b)| == |b|;
    } else {
      hide QtyOf;
      var init, last := a[..|a| - 1], a[|a| - 1];
      assert a == init + [last];
      assert last in multiset(b);
      var i :| 0 <= i < |b| && b[i] == last;
      MultisetWithout(b, i);
      QtyOfPermutation(init, b[..i] + b[i + 1..], t);
      QtySnoc(init, last, t);
      QtyWithout(b, i, t);
    }
  }

  /** The totals do not depend on the order in which the records come. */
  lemma TotalsOfPermutation(a: seq<(Id, int)>, b: seq<(Id, int)>)
    requires multiset(a) == multiset(b)
    ensures TotalsOf(a) == TotalsOf(b)
  {
    hide TotalsOf, QtyOf;
    TotalsAreSums(a);
    TotalsAreSums(b);
    assert forall r :: r in a <==> r in multiset(a);
    assert forall r :: r in b <==> r in multiset(b);
    forall t
      ensures Get(TotalsOf(a), t) == Get(TotalsOf(b), t)
    {
      QtyOfPermutation(a, b, t);
    }
    forall t | t in TotalsOf(a)
      ensures TotalsOf(a)[t] == TotalsOf(b)[t]
    {
      assert Get(TotalsOf(a), t) == Get(TotalsOf(b), t);
    }
    assert TotalsOf(a).Keys == TotalsOf(b).Keys;
    Database.SameRows(TotalsOf(a), TotalsOf(b));
  }

  // ── The score ─────────────────────────────────────────────────────────────

  datatype Score = Score(value: real, exact: bool)

  function CoveredQty(c: Totals, f: Totals, t: Id): int {
    if Get(c, t) < Get(f, t) then Get(c, t) else Get(f, t)
  }

  function CoveredAt(c: Totals, f: Totals): Id -> int {
    (t: Id) => CoveredQty(c, f, t)
  }

  function BoughtAt(f: Totals): Id -> int {
    (t: Id) => Get(f, t)
  }

  ghost function Covered(c: Totals, f: Totals): int {
    SetSum(f.Keys, CoveredAt(c, f))
  }

  ghost function Bought(f: Totals): int {
    SetSum(f.Keys, BoughtAt(f))
  }

  /** What the program keeps of the fulfilments: types with a positive quantity. */
  predicate IsPositive(f: Totals) {
    f != map[] && forall t | t in f :: f[t] > 0
  }

  predicate IsNonNegative(c: Totals) {
    forall t | t in c :: c[t] >= 0
  }

  /** No score without fulfilments; otherwise the covered share of what was bought. */
  ghost function ScoreOf(c: Totals, f: Totals): Option<Score>
    requires f == map[] || Bought(f) != 0
  {
    if f == map[] then None
    else Some(Score(Covered(c, f) as real / Bought(f) as real, Covered(c, f) == Bought(f) && c.Keys <= f.Keys))
  }

  function Nothing(): Id -> int {
    (t: Id) => 0
  }

  lemma SomeKey(f: Totals) returns (t: Id)
    requires f != map[]
    ensures t in f
  {
    assert f.Keys != {};
    t :| t in f.Keys;
  }

  lemma BoughtIsPositive(f: Totals)
    requires IsPositive(f)
    ensures Bought(f) > 0
  {
    hide SetSum;
    var t := SomeKey(f);
    SetSumRemove(f.Keys, BoughtAt(f), t);
    SetSumOfZeros(f.Keys - {t}, Nothing());
    assert Get(f, t) == f[t];
    forall k | k in f.Keys - {t}
      ensures Nothing()(k) <= BoughtAt(f)(k)
    {
    }
    SetSumMonotone(f.Keys - {t}, Nothing(), BoughtAt(f));
  }

  /** Of each type at most what was bought is covered. */
  lemma CoveredAtMost(c: Totals, f: Totals, t: Id)
    requires IsPositive(f) && IsNonNegative(c) && t in f
    ensures Nothing()(t) <= CoveredAt(c, f)(t) <= BoughtAt(f)(t)
    ensures CoveredAt(c, f)(t) == BoughtAt(f)(t) <==> t in c && c[t] >= f[t]
  {
  }

  /** Of each type the contract covers as much as it hands over and as was bought, whichever is
      less, and the score is the share of the whole. */
  lemma CoversTheLesser(c: Totals, f: Totals, t: Id)
    requires IsPositive(f) && t in f
    ensures CoveredAt(c, f)(t) <= f[t] && (t in c ==> CoveredAt(c, f)(t) <= c[t])
    ensures CoveredAt(c, f)(t) == f[t] || CoveredAt(c, f)(t) == (if t in c then c[t] else 0)
    ensures t !in c ==> CoveredAt(c, f)(t) == 0
    ensures Bought(f) > 0 && ScoreOf(c, f).value.value * Bought(f) as real == SetSum(f.Keys, CoveredAt(c, f)) as real
  {
    hide SetSum;
    BoughtIsPositive(f);
    QuotientTimesDivisor(Covered(c, f) as real, Bought(f) as real);
  }

  lemma CoveredInRange(c: Totals, f: Totals)
    requires IsPositive(f) && IsNonNegative(c)
    ensures 0 <= Covered(c, f) <= Bought(f)
    ensures Covered(c, f) == Bought(f) <==> forall t | t in f :: t in c && c[t] >= f[t]
  {
    hide SetSum, CoveredAt, BoughtAt;
    forall t | t in f.Keys
      ensures Nothing()(t) <= CoveredAt(c, f)(t) <= BoughtAt(f)(t)
      ensures CoveredAt(c, f)(t) == BoughtAt(f)(t) <==> t in c && c[t] >= f[t]
    {
      CoveredAtMost(c, f, t);
    }
    SetSumMonotone(f.Keys, Nothing(), CoveredAt(c, f));
    SetSumOfZeros(f.Keys, Nothing());
    SetSumMonotone(f.Keys, CoveredAt(c, f), BoughtAt(f));
  }

  lemma Ratio(a: int, b: int)
    requires 0 <= a <= b && b > 0
    ensures 0.0 <= a as real / b as real <= 1.0 && (a as real / b as real == 1.0 <==> a == b)
  {
  }

  /** A score is a share, and it is whole exactly when everything bought is covered. */
  lemma ScoreIsAShare(c: Totals, f: Totals)
    requires IsPositive(f) && IsNonNegative(c)
    ensures Bought(f) > 0 && 0.0 <= ScoreOf(c, f).value.value <= 1.0
    ensures ScoreOf(c, f).value.value == 1.0 <==> forall t | t in f :: t in c && c[t] >= f[t]
  {
    hide Bought, Covered;
    BoughtIsPositive(f);
    CoveredInRange(c, f);
    Ratio(Covered(c, f), Bought(f));
  }

  /** A match is exact exactly when contract and fulfilments have the same types and the
      contract hands over at least what was bought of each. */
  lemma ExactIffSameTypesAndCovered(c: Totals, f: Totals)
    requires IsPositive(f) && IsNonNegative(c)
    ensures Bought(f) > 0 && (ScoreOf(c, f).value.exact <==> c.Keys == f.Keys && forall t | t in f :: c[t] >= f[t])
  {
    hide Bought, Covered;
    BoughtIsPositive(f);
    CoveredInRange(c, f);
    if c.Keys <= f.Keys && forall t | t in f :: t in c {
      assert c.Keys == f.Keys;
    }
  }

  lemma RatioMonotone(a: int, a': int, b: int)
    requires a <= a' && b > 0
    ensures a as real / b as real <= a' as real / b as real
  {
  }

  /** A contract that hands over more never scores less. */
  lemma ScoreIsMonotone(c: Totals, more: Totals, f: Totals)
    requires IsPositive(f) && forall t | t in f :: Get(c, t) <= Get(more, t)
    ensures Bought(f) > 0 && ScoreOf(c, f).value.value <= ScoreOf(more, f).value.value
  {
    hide Bought, SetSum;
    BoughtIsPositive(f);
    forall t | t in f.Keys
      ensures CoveredAt(c, f)(t) <= CoveredAt(more, f)(t)
    {
      assert Get(c, t) <= Get(more, t);
    }
    SetSumMonotone(f.Keys, CoveredAt(c, f), CoveredAt(more, f));
    RatioMonotone(Covered(c, f), Covered(more, f), Bought(f));
  }

  lemma QuotientTimesDivisor(a: real, b: real)
    requires b > 0.0
    ensures a / b * b == a
  {
  }

  lemma AtLeastHalf(q: real, b: real, product: real)
    requires b > 0.0 && product == q * b
    ensures q >= 0.5 <==> 2.0 * product >= b
  {
    RealDistributes(q, b);
    if q >= 0.5 {
      RealProduct(q - 0.5, b);
    } else {
      RealProduct(0.5 - q, b);
    }
  }

  lemma RealDistributes(q: real, b: real)
    ensures (q - 0.5) * b == q * b - 0.5 * b
    ensures (0.5 - q) * b == 0.5 * b - q * b
  {
  }

  lemma RealProduct(x: real, y: real)
    requires x >= 0.0 && y > 0.0
    ensures x * y >= 0.0 && (x > 0.0 ==> x * y > 0.0)
  {
  }

  /** The threshold of one half asks that the contract covers half of what was bought. */
  lemma SuggestedIffHalfCovered(c: Totals, f: Totals)
    requires IsPositive(f)
    ensures Bought(f) > 0 && ScoreOf(c, f).Some? && (ScoreOf(c, f).value.value >= 0.5 <==> 2 * Covered(c, f) >= Bought(f))
  {
    hide Bought, Covered;
    BoughtIsPositive(f);
    var covered, bought := Covered(c, f) as real, Bought(f) as real;
    QuotientTimesDivisor(covered, bought);
    AtLeastHalf(covered / bought, bought, covered);
  }

  // ── The loops ─────────────────────────────────────────────────────────────

  method ContractTotals(records: seq<(Id, int)>) returns (totals: Totals)
    ensures totals == TotalsOf(records)
  {
    totals := map[];
    for i := 0 to |records|
      invariant totals == TotalsOf(records[..i])
    {
      assert records[..i + 1][..i] == records[..i];
      var before := if records[i].0 in totals then totals[records[i].0] else 0;
      totals := totals[records[i].0 := before + records[i].1];
    }
    assert records[..|records|] == records;
  }

  method ScoreMatch(c: Totals, f: Totals) returns (score: Option<Score>)
    requires f == map[] || IsPositive(f)
    ensures f == map[] || Bought(f) != 0
    ensures score == ScoreOf(c, f)
  {
    hide SetSum;
    if f == map[] {
      return None;
    }
    BoughtIsPositive(f);
    var sum, covered, todo := 0, 0, f.Keys;
    SetSumOfZeros<Id>({}, BoughtAt(f));
    SetSumOfZeros<Id>({}, CoveredAt(c, f));
    while todo != {}
      invariant todo <= f.Keys
      invariant sum + SetSum(todo, BoughtAt(f)) == Bought(f)
      invariant covered + SetSum(todo, CoveredAt(c, f)) == Covered(c, f)
      decreases |todo|
    {
      var t :| t in todo;
      SetSumRemove(todo, BoughtAt(f), t);
      SetSumRemove(todo, CoveredAt(c, f), t);
      var available := if t in c then c[t] else 0;
      sum := sum + f[t];
      covered := covered + (if available < f[t] then available else f[t]);
      todo := todo - {t};
    }
    var surplus := exists t | t in c :: t !in f;
    score := Some(Score(covered as real / sum as real, covered == sum && !surplus));
  }

  /** What was bought under a reimbursement, by type: the rows with a positive quantity. */
  function BoughtUnder(rows: seq<(Id, Id, int)>, id: Id): Totals {
    if rows == [] then map[] else
      var before, last := BoughtUnder(rows[..|rows| - 1], id), rows[|rows| - 1];
      if last.0 == id && last.2 > 0 then before[last.1 := last.2] else before
  }

  /** Which rows count: those of the reimbursement with a positive quantity, and for a type that
      comes more than once the last of them. */
  lemma {:induction false} BoughtUnderIsLast(rows: seq<(Id, Id, int)>, id: Id, t: Id)
    ensures t in BoughtUnder(rows, id) <==> exists qty :: (id, t, qty) in rows && qty > 0
    ensures forall j | 0 <= j < |rows| && rows[j].0 == id && rows[j].1 == t && rows[j].2 > 0
                       && (forall m | j < m < |rows| && rows[m].0 == id && rows[m].1 == t :: rows[m].2 <= 0) ::
              t in BoughtUnder(rows, id) && BoughtUnder(rows, id)[t] == rows[j].2
    decreases |rows|
  {
    if rows != [] {
      var init, last := rows[..|rows| - 1], rows[|rows| - 1];
      BoughtUnderIsLast(init, id, t);
      assert rows == init + [last];
      assert last == (last.0, last.1, last.2) && last in rows;
      assert forall j | 0 <= j < |init| :: rows[j] == init[j];
    }
  }

  method GroupRows(rows: seq<(Id, Id, int)>) returns (byId: map<Id, Totals>)
    ensures forall id :: (if id in byId then byId[id] else map[]) == BoughtUnder(rows, id)
    ensures forall id | id in byId :: IsPositive(byId[id])
  {
    byId := map[];
    for i := 0 to |rows|
      invariant forall id :: (if id in byId then byId[id] else map[]) == BoughtUnder(rows[..i], id)
      invariant forall id | id in byId :: IsPositive(byId[id])
    {
      assert rows[..i + 1][..i] == rows[..i];
      var (id, t, qty) := rows[i];
      if qty > 0 {
        var before := if id in byId then byId[id] else map[];
        var after := before[t := qty];
        assert t in after;
        byId := byId[id := after];
      }
    }
    assert rows[..|rows|] == rows;
  }

  /** The suggestions of a contract: the reimbursements that it covers by half or more. */
  method Suggest(records: seq<(Id, int)>, rows: seq<(Id, Id, int)>) returns (suggested: map<Id, Score>)
    ensures forall id :: id in suggested <==>
              records != [] && BoughtUnder(rows, id) != map[]
              && 2 * Covered(TotalsOf(records), BoughtUnder(rows, id)) >= Bought(BoughtUnder(rows, id))
    ensures forall id | id in suggested ::
              Bought(BoughtUnder(rows, id)) != 0
              && ScoreOf(TotalsOf(records), BoughtUnder(rows, id)) == Some(suggested[id])
  {
    hide Bought, Covered, ScoreOf, BoughtUnder;
    suggested := map[];
    var c := ContractTotals(records);
    if c == map[] {
      NoRecords(records);
      return;
    }
    SomeRecords(records);
    var byId := GroupRows(rows);
    var todo := byId.Keys;
    while todo != {}
      invariant todo <= byId.Keys
      invariant forall id :: id in suggested <==> id in byId && id !in todo && 2 * Covered(c, byId[id]) >= Bought(byId[id])
      invariant forall id | id in suggested :: Bought(byId[id]) != 0 && ScoreOf(c, byId[id]) == Some(suggested[id])
      decreases |todo|
    {
      var id :| id in todo;
      todo := todo - {id};
      var score := ScoreMatch(c, byId[id]);
      SuggestedIffHalfCovered(c, byId[id]);
      if score.Some? && score.value.value >= 0.5 {
        suggested := suggested[id := score.value];
      }
    }
  }

  lemma NoRecords(records: seq<(Id, int)>)
    requires TotalsOf(records) == map[]
    ensures records == []
  {
  }

  lemma SomeRecords(records: seq<(Id, int)>)
    requires TotalsOf(records) != map[]
    ensures records != []
  {
  }
}
