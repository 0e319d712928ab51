/** What a parsed paste guarantees: every line lands once, pastes merge, and a parsed
    paste survives being written out and parsed again. */
module MultiBuyProofs {
  import opened Domain
  import opened Text
  import opened MultiBuy

  // ── Where lines land ──────────────────────────────────────────────────────

  lemma {:induction false} NumbersTell(items: seq<Item>, key: string, n: nat)
    requires |items| < U32_MAX
    ensures n in Numbers(items, key) <==> 1 <= n <= |items| && IsUnder(items[n - 1], key)
    decreases |items|
  {
    if items != [] {
      NumbersTell(items[..|items| - 1], key, n);
    }
  }

  lemma {:induction false} ErrorsTell(lines: seq<string>, items: seq<Item>)
    requires |lines| == |items| < U32_MAX
    ensures forall e | e in Errors(lines, items) ::
              1 <= e.number <= |items| && items[e.number - 1] == Bad(e.reason) && e.raw == lines[e.number - 1]
    ensures forall i | 0 <= i < |items| && items[i].Bad? ::
              LineError(i + 1, lines[i], items[i].reason) in Errors(lines, items)
    ensures forall x, y | 0 <= x < y < |Errors(lines, items)| :: Errors(lines, items)[x].number < Errors(lines, items)[y].number
    decreases |items|
  {
    if items != [] {
      ErrorsTell(lines[..|items| - 1], items[..|items| - 1]);
      assert forall e | e in Errors(lines[..|items| - 1], items[..|items| - 1]) :: e.number < |items|;
    }
  }

  ghost predicate InEntry(p: Paste, e: nat, n: nat) {
    e < |p.entries| && n in p.entries[e].numbers
  }

  ghost predicate InError(p: Paste, x: nat, n: nat) {
    x < |p.errors| && p.errors[x].number == n
  }

  /** No entry collects so many lines that it stops listing their numbers. */
  ghost predicate ListsAllNumbers(items: seq<Item>) {
    forall key :: |Numbers(items, key)| <= 1024
  }

  lemma EntryNumbers(items: seq<Item>, e: nat, n: nat)
    requires e < |Keys(items)| && |items| < U32_MAX && ListsAllNumbers(items)
    ensures n in Entries(items)[e].numbers <==> 1 <= n <= |items| && IsUnder(items[n - 1], Keys(items)[e])
  {
    NumbersTell(items, Keys(items)[e], n);
  }

  lemma {:induction false} GoodHasKey(items: seq<Item>, i: nat)
    requires i < |items| && items[i].Good?
    ensures items[i].key in Keys(items)
    decreases |items|
  {
    if i < |items| - 1 {
      GoodHasKey(items[..|items| - 1], i);
    }
  }

  /** Line `n` is listed by exactly one entry. */
  ghost predicate InOneEntry(p: Paste, n: nat) {
    exists e :: InEntry(p, e, n) && forall f | InEntry(p, f, n) :: f == e
  }

  ghost predicate InOneError(p: Paste, n: nat) {
    exists x :: InError(p, x, n) && forall y | InError(p, y, n) :: y == x
  }

  ghost predicate InNoEntry(p: Paste, n: nat) {
    forall e :: !InEntry(p, e, n)
  }

  ghost predicate InNoError(p: Paste, n: nat) {
    forall x :: !InError(p, x, n)
  }

  lemma EntriesLand(items: seq<Item>, p: Paste, n: nat)
    requires p.entries == Entries(items) && 1 <= n <= |items| < U32_MAX && ListsAllNumbers(items)
    ensures if items[n - 1].Good? then InOneEntry(p, n) else InNoEntry(p, n)
  {
    hide Numbers, EntryFor;
    KeysAreDistinct(items);
    forall e: nat | e < |p.entries|
      ensures InEntry(p, e, n) <==> IsUnder(items[n - 1], Keys(items)[e])
    {
      EntryNumbers(items, e, n);
    }
    if items[n - 1].Good? {
      GoodHasKey(items, n - 1);
      var e :| 0 <= e < |Keys(items)| && Keys(items)[e] == items[n - 1].key;
      assert InEntry(p, e, n);
    }
  }

  lemma ErrorsLand(lines: seq<string>, items: seq<Item>, p: Paste, n: nat)
    requires |lines| == |items| < U32_MAX && p.errors == Errors(lines, items) && 1 <= n <= |items|
    ensures if items[n - 1].Bad? then InOneError(p, n) else InNoError(p, n)
  {
    hide Errors;
    ErrorsTell(lines, items);
    if items[n - 1].Bad? {
      var x := ErrorOf(lines, items, n - 1);
      assert InError(p, x, n);
      forall y | InError(p, y, n)
        ensures y == x
      {
      }
    } else {
      forall x: nat
        ensures !InError(p, x, n)
      {
        if x < |p.errors| {
          assert p.errors[x] in p.errors;
        }
      }
    }
  }

  lemma ErrorOf(lines: seq<string>, items: seq<Item>, i: nat) returns (x: nat)
    requires |lines| == |items| < U32_MAX && i < |items| && items[i].Bad?
    ensures x < |Errors(lines, items)| && Errors(lines, items)[x].number == i + 1
  {
    hide Errors;
    ErrorsTell(lines, items);
    var e := LineError(i + 1, lines[i], items[i].reason);
    assert e in Errors(lines, items);
    x :| 0 <= x < |Errors(lines, items)| && Errors(lines, items)[x] == e;
  }

  /** Every line that is not blank lands in exactly one entry or exactly one error, and
      its number tells which; a blank line lands nowhere. */
  lemma EveryLineLandsOnce(lower: string -> string, input: string, n: nat)
    requires 1 <= n <= |Lines(input)| < U32_MAX && ListsAllNumbers(Items(lower, Lines(input)))
    ensures var p := Parse(lower, input);
            match Classify(lower, Lines(input)[n - 1])
            case Blank => InNoEntry(p, n) && InNoError(p, n)
            case Good(_, _, _) => InOneEntry(p, n) && InNoError(p, n)
            case Bad(_) => InNoEntry(p, n) && InOneError(p, n)
  {
    hide Classify, Lines, Entries, Errors, InOneEntry, InOneError, InNoEntry, InNoError, ListsAllNumbers;
    var items := Items(lower, Lines(input));
    EntriesLand(items, Parse(lower, input), n);
    ErrorsLand(Lines(input), items, Parse(lower, input), n);
  }

  // ── Quantities and keys ───────────────────────────────────────────────────

  /** All quantities that are parsed under a key, in the order of the lines. */
  function QtysUnder(items: seq<Item>, key: string): seq<int> {
    if items == [] then [] else
      (if IsUnder(items[0], key) then [items[0].qty] else []) + QtysUnder(items[1..], key)
  }

  function SumOf(qtys: seq<int>): int {
    if qtys == [] then 0 else qtys[0] + SumOf(qtys[1..])
  }

  lemma {:induction false} TotalCons(first: Item, items: seq<Item>, key: string)
    ensures Total([first] + items, key) == (if IsUnder(first, key) then first.qty else 0) + Total(items, key)
    decreases |items|
  {
    if items == [] {
      assert ([first] + items)[..0] == [];
    } else {
      var init := items[..|items| - 1];
      assert ([first] + items)[..|items|] == [first] + init;
      TotalCons(first, init, key);
    }
  }

  lemma {:induction false} TotalIsSum(items: seq<Item>, key: string)
    ensures Total(items, key) == SumOf(QtysUnder(items, key))
    decreases |items|
  {
    if items != [] {
      TotalIsSum(items[1..], key);
      TotalCons(items[0], items[1..], key);
      assert items == [items[0]] + items[1..];
      var qtys := QtysUnder(items[1..], key);
      assert IsUnder(items[0], key) ==> ([items[0].qty] + qtys)[1..] == qtys;
      assert [] + qtys == qtys;
    }
  }

  /** Each entry has the sum of the quantities parsed under its key, up to the largest
      64-bit integer, and a quantity of at least one. */
  lemma QtyIsClippedSum(lower: string -> string, input: string, e: nat)
    requires e < |Parse(lower, input).entries|
    ensures var items := Items(lower, Lines(input));
            && e < |Keys(items)|
            && Parse(lower, input).entries[e].qty == Clip(SumOf(QtysUnder(items, Keys(items)[e])))
            && 0 < Parse(lower, input).entries[e].qty <= I64_MAX
  {
    hide Classify, Lines, Total, Keys, QtysUnder, SumOf;
    var items := Items(lower, Lines(input));
    ParsedIsPositive(lower, Lines(input));
    TotalIsSum(items, Keys(items)[e]);
    TotalIsPositive(items, Keys(items)[e]);
  }

  /** The first line under a key. */
  function FirstSeen(items: seq<Item>, key: string): nat {
    if items == [] || IsUnder(items[0], key) then 0 else 1 + FirstSeen(items[1..], key)
  }

  lemma {:induction false} FirstSeenSnoc(items: seq<Item>, last: Item, key: string)
    ensures FirstSeen(items, key) <= |items|
    ensures FirstSeen(items + [last], key) ==
            if FirstSeen(items, key) < |items| then FirstSeen(items, key)
            else if IsUnder(last, key) then |items| else |items| + 1
    decreases |items|
  {
    if items == [] {
      assert items + [last] == [last] && [last][1..] == [];
    } else {
      assert (items + [last])[1..] == items[1..] + [last];
      FirstSeenSnoc(items[1..], last, key);
    }
  }

  lemma {:induction false} KeysInOrder(items: seq<Item>)
    ensures forall key :: key in Keys(items) <==> FirstSeen(items, key) < |items|
    ensures forall i, j | 0 <= i < j < |Keys(items)| :: FirstSeen(items, Keys(items)[i]) < FirstSeen(items, Keys(items)[j])
    decreases |items|
  {
    if items != [] {
      var init, last := items[..|items| - 1], items[|items| - 1];
      KeysInOrder(init);
      assert items == init + [last];
      forall key
        ensures FirstSeen(init, key) <= |init|
        ensures FirstSeen(items, key) ==
                if FirstSeen(init, key) < |init| then FirstSeen(init, key)
                else if IsUnder(last, key) then |init| else |init| + 1
      {
        FirstSeenSnoc(init, last, key);
      }
      assert forall key | key in Keys(init) :: FirstSeen(items, key) == FirstSeen(init, key) < |init|;
    }
  }

  // ── Joined pastes ─────────────────────────────────────────────────────────

  lemma NormalizedReturn(raw: string)
    ensures Trim(PlainSpaces(WithoutReturn(raw))) == Trim(PlainSpaces(raw))
  {
    hide Trim;
    if WithoutReturn(raw) != raw {
      var init := raw[..|raw| - 1];
      assert raw == init + ['\r'];
      assert PlainSpaces(raw) == PlainSpaces(init) + ['\r'];
      TrimSnoc(PlainSpaces(init), '\r');
    }
  }

  /** The carriage return at the end of a line makes no difference. */
  lemma ReturnIsIgnored(lower: string -> string, raw: string)
    ensures Classify(lower, WithoutReturn(raw)) == Classify(lower, raw)
  {
    hide Trim, ParseLine, KeyOf, WithoutReturn;
    NormalizedReturn(raw);
  }

  lemma NothingIsBlank(lower: string -> string)
    ensures Classify(lower, "") == Blank
  {
  }

  /** The items of a paste are those of its pieces, up to a blank one at the end. */
  lemma LinesArePieces(lower: string -> string, input: string)
    ensures var pieces, items := Items(lower, Split(input, '\n')), Items(lower, Lines(input));
            pieces == items || pieces == items + [Blank]
  {
    hide Classify, Split;
    var pieces := Split(input, '\n');
    var lines, last := Lines(input), |pieces| - 1;
    forall i | 0 <= i < |lines|
      ensures Classify(lower, lines[i]) == Classify(lower, pieces[i])
    {
      if i < last {
        ReturnIsIgnored(lower, pieces[i]);
      }
    }
    NothingIsBlank(lower);
    if pieces[last] == "" {
      assert Items(lower, pieces) == Items(lower, lines) + [Blank];
    } else {
      assert Items(lower, pieces) == Items(lower, lines);
    }
  }

  function Reasons(items: seq<Item>): seq<Reason> {
    if items == [] then [] else
      var last := items[|items| - 1];
      Reasons(items[..|items| - 1]) + (if last.Bad? then [last.reason] else [])
  }

  /** Two sequences of items mean the same, but for line numbers. */
  ghost predicate SameMeaning(a: seq<Item>, b: seq<Item>) {
    && Keys(a) == Keys(b) && Reasons(a) == Reasons(b)
    && forall key :: Total(a, key) == Total(b, key) && FirstName(a, key) == FirstName(b, key)
  }

  lemma OneBlankMore(items: seq<Item>)
    ensures SameMeaning(items + [Blank], items)
  {
  }

  lemma PiecesMeanTheSame(lower: string -> string, input: string)
    ensures SameMeaning(Items(lower, Split(input, '\n')), Items(lower, Lines(input)))
  {
    hide Items, Split, Lines, Keys, Total, FirstName, Reasons;
    LinesArePieces(lower, input);
    OneBlankMore(Items(lower, Lines(input)));
  }

  function Without(keys: seq<string>, seen: seq<string>): seq<string> {
    if keys == [] then [] else
      var last := keys[|keys| - 1];
      Without(keys[..|keys| - 1], seen) + (if last in seen then [] else [last])
  }

  lemma {:induction false} WithoutTells(keys: seq<string>, seen: seq<string>)
    ensures forall key :: key in Without(keys, seen) <==> key in keys && key !in seen
    decreases |keys|
  {
    if keys != [] {
      WithoutTells(keys[..|keys| - 1], seen);
      assert keys == keys[..|keys| - 1] + [keys[|keys| - 1]];
    }
  }

  lemma WithoutSnoc(keys: seq<string>, last: string, seen: seq<string>)
    ensures Without(keys + [last], seen) == Without(keys, seen) + (if last in seen then [] else [last])
  {
  }

  lemma OneMoreItem(items: seq<Item>, last: Item, key: string)
    ensures Reasons(items + [last]) == Reasons(items) + (if last.Bad? then [last.reason] else [])
    ensures Total(items + [last], key) == Total(items, key) + (if IsUnder(last, key) then last.qty else 0)
    ensures FirstName(items + [last], key) ==
            if FirstName(items, key).Some? then FirstName(items, key)
            else if IsUnder(last, key) then Some(last.name) else None
  {
  }

  lemma NothingThere(key: string)
    ensures Keys([]) == [] && Reasons([]) == [] && Total([], key) == 0 && FirstName([], key) == None && Without([], Keys([])) == []
  {
  }

  lemma {:induction false} AppendedItems(a: seq<Item>, b: seq<Item>, key: string)
    ensures Keys(a + b) == Keys(a) + Without(Keys(b), Keys(a))
    ensures Reasons(a + b) == Reasons(a) + Reasons(b)
    ensures Total(a + b, key) == Total(a, key) + Total(b, key)
    ensures FirstName(a + b, key) == if FirstName(a, key).Some? then FirstName(a, key) else FirstName(b, key)
    decreases |b|
  {
    hide Keys, Reasons, Total, FirstName;
    if b == [] {
      NothingThere(key);
      assert a + b == a;
    } else {
      var init, last := b[..|b| - 1], b[|b| - 1];
      assert a + b == (a + init) + [last] && b == init + [last];
      AppendedItems(a, init, key);
      OneMoreItem(a + init, last, key);
      OneMoreItem(init, last, key);
      KeysSnoc(a + init, last);
      KeysSnoc(init, last);
      if last.Good? {
        WithoutTells(Keys(init), Keys(a));
        WithoutSnoc(Keys(init), last.key, Keys(a));
      }
    }
  }

  /** What a parsed paste has under a key: nothing, or the entry's quantity and name. */
  function QtyOf(lower: string -> string, p: Paste, key: string): int {
    QtyAmong(lower, p.entries, key)
  }

  function QtyAmong(lower: string -> string, entries: seq<Entry>, key: string): int {
    if entries == [] then 0
    else if KeyOf(lower, entries[0].name) == key then entries[0].qty
    else QtyAmong(lower, entries[1..], key)
  }

  function NameAmong(lower: string -> string, entries: seq<Entry>, key: string): Option<string> {
    if entries == [] then None
    else if KeyOf(lower, entries[0].name) == key then Some(entries[0].name)
    else NameAmong(lower, entries[1..], key)
  }

  function KeysOf(lower: string -> string, p: Paste): seq<string> {
    seq(|p.entries|, i requires 0 <= i < |p.entries| => KeyOf(lower, p.entries[i].name))
  }

  function ReasonsOf(p: Paste): seq<Reason> {
    seq(|p.errors|, i requires 0 <= i < |p.errors| => p.errors[i].reason)
  }

  /** The name of an item has the item's key. */
  ghost predicate NamesFit(lower: string -> string, items: seq<Item>) {
    forall i | 0 <= i < |items| && items[i].Good? :: KeyOf(lower, items[i].name) == items[i].key
  }

  lemma ParsedNamesFit(lower: string -> string, lines: seq<string>)
    ensures NamesFit(lower, Items(lower, lines))
  {
  }

  lemma {:induction false} FirstNameFits(lower: string -> string, items: seq<Item>, key: string)
    requires NamesFit(lower, items)
    ensures FirstName(items, key).Some? ==> KeyOf(lower, FirstName(items, key).value) == key
    decreases |items|
  {
    hide KeyOf;
    if items != [] {
      FirstNameFits(lower, items[..|items| - 1], key);
    }
  }

  lemma {:induction false} AmongEntries(lower: string -> string, entries: seq<Entry>, keys: seq<string>, key: string)
    requires |entries| == |keys| && forall i | 0 <= i < |keys| :: KeyOf(lower, entries[i].name) == keys[i]
    requires forall i, j | 0 <= i < j < |keys| :: keys[i] != keys[j]
    ensures key !in keys ==> QtyAmong(lower, entries, key) == 0 && NameAmong(lower, entries, key).None?
    ensures forall i | 0 <= i < |keys| && keys[i] == key ::
              QtyAmong(lower, entries, key) == entries[i].qty && NameAmong(lower, entries, key) == Some(entries[i].name)
    decreases |entries|
  {
    hide KeyOf;
    if entries != [] {
      AmongEntries(lower, entries[1..], keys[1..], key);
      assert forall i | 1 <= i < |keys| :: keys[i] == keys[1..][i - 1];
    }
  }

  lemma {:induction false} ReasonsOfErrors(lines: seq<string>, items: seq<Item>)
    requires |lines| == |items|
    ensures |Errors(lines, items)| == |Reasons(items)|
    ensures forall i | 0 <= i < |Reasons(items)| :: Errors(lines, items)[i].reason == Reasons(items)[i]
    decreases |items|
  {
    if items != [] {
      ReasonsOfErrors(lines[..|items| - 1], items[..|items| - 1]);
    }
  }

  /** What can be read off a parsed paste, in terms of its items. */
  lemma ReadOff(lower: string -> string, input: string, key: string)
    ensures var p, items := Parse(lower, input), Items(lower, Lines(input));
            && KeysOf(lower, p) == Keys(items)
            && ReasonsOf(p) == Reasons(items)
            && QtyOf(lower, p, key) == Clip(Total(items, key))
            && NameAmong(lower, p.entries, key) == FirstName(items, key)
  {
    hide Classify, Lines, Total, FirstName, Keys, KeyOf, QtyAmong, NameAmong, Errors, Reasons, Numbers;
    var p, items := Parse(lower, input), Items(lower, Lines(input));
    ParsedIsPositive(lower, Lines(input));
    ParsedNamesFit(lower, Lines(input));
    forall k
      ensures k in Keys(items) <==> FirstName(items, k).Some?
      ensures FirstName(items, k).Some? ==> KeyOf(lower, FirstName(items, k).value) == k
    {
      KeysHaveNames(items, k);
      FirstNameFits(lower, items, k);
    }
    KeysAreDistinct(items);
    AmongEntries(lower, p.entries, Keys(items), key);
    TotalIsPositive(items, key);
    ReasonsOfErrors(Lines(input), items);
  }

  /** Parsing two pastes joined by a line feed is merging what each parses to: the second
      one adds its new keys at the end, quantities add up with saturation, the first name
      stays, and the errors follow each other. */
  lemma JoinedPastesMerge(lower: string -> string, a: string, b: string, key: string)
    ensures var pa, pb, p := Parse(lower, a), Parse(lower, b), Parse(lower, a + ("\n" + b));
            && KeysOf(lower, p) == KeysOf(lower, pa) + Without(KeysOf(lower, pb), KeysOf(lower, pa))
            && ReasonsOf(p) == ReasonsOf(pa) + ReasonsOf(pb)
            && QtyOf(lower, p, key) == Clip(QtyOf(lower, pa, key) + QtyOf(lower, pb, key))
            && NameAmong(lower, p.entries, key)
               == if NameAmong(lower, pa.entries, key).Some? then NameAmong(lower, pa.entries, key)
                  else NameAmong(lower, pb.entries, key)
  {
    hide Classify, Lines, Split, Total, FirstName, Keys, Parse, KeysOf, ReasonsOf, QtyOf, NameAmong, Without, Reasons;
    ReadOff(lower, a, key);
    ReadOff(lower, b, key);
    ReadOff(lower, a + ("\n" + b), key);
    PiecesMeanTheSame(lower, a);
    PiecesMeanTheSame(lower, b);
    PiecesMeanTheSame(lower, a + ("\n" + b));
    SplitOfJoined(a, '\n', b);
    var left, right := Items(lower, Split(a, '\n')), Items(lower, Split(b, '\n'));
    assert Items(lower, Split(a + ("\n" + b), '\n')) == left + right;
    AppendedItems(left, right, key);
    ParsedIsPositive(lower, Split(a, '\n'));
    ParsedIsPositive(lower, Split(b, '\n'));
    TotalIsPositive(left, key);
    TotalIsPositive(right, key);
  }
}
