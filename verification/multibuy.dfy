/** The MultiBuy paste parser: one item per line, repeated items added up. */
module MultiBuy {
  import opened Domain
  import opened Text

  const MAX_NUMBERS_PER_KEY := 1024
  const U32_MAX := 0xFFFF_FFFF

  datatype Reason = TooFewColumns | MissingName | BadQuantity(text: string) | TooFewWords | NoQuantity

  datatype LineResult = Parsed(name: string, qty: int) | Unparsed(reason: Reason)

  /** What a line is: blank, an item under its key, or an error. */
  datatype Item = Blank | Good(key: string, name: string, qty: int) | Bad(reason: Reason)

  datatype Entry = Entry(numbers: seq<nat>, name: string, qty: int)

  datatype LineError = LineError(number: nat, raw: string, reason: Reason)

  datatype Paste = Paste(entries: seq<Entry>, errors: seq<LineError>)

  // ── One line ──────────────────────────────────────────────────────────────

  function ParseQty(s: string): Option<int> {
    match ParseI64(WithoutCommas(s))
    case None => None
    case Some(q) => if q > 0 then Some(q) else None
  }

  predicate IsNumeric(s: string) {
    WithoutCommas(s) != "" && IsFloat(WithoutCommas(s))
  }

  function ParseTabLine(line: string): LineResult {
    var columns := Split(line, '\t');
    if |columns| < 2 then Unparsed(TooFewColumns)
    else if Trim(columns[0]) == "" then Unparsed(MissingName)
    else
      match ParseQty(Trim(columns[1]))
      case None => Unparsed(BadQuantity(Trim(columns[1])))
      case Some(q) => Parsed(Trim(columns[0]), q)
  }

  /** All words from `start` on are numbers, and the one before is not. */
  ghost predicate IsNumericTail(words: seq<string>, start: nat) {
    && start <= |words|
    && (forall i | start <= i < |words| :: IsNumeric(words[i]))
    && (start > 0 ==> !IsNumeric(words[start - 1]))
  }

  /** Where the longest run of numeric words at the end begins. */
  function NumericStart(words: seq<string>): (start: nat)
    ensures start <= |words|
  {
    if words != [] && IsNumeric(words[|words| - 1]) then NumericStart(words[..|words| - 1]) else |words|
  }

  /** The leftmost of the trailing numbers is the quantity. */
  function ParseSpacedLine(line: string): LineResult {
    var words := Words(line);
    var start := NumericStart(words);
    if |words| < 2 then Unparsed(TooFewWords)
    else if start == |words| then Unparsed(NoQuantity)
    else if start == 0 then Unparsed(MissingName)
    else
      match ParseQty(words[start])
      case None => Unparsed(BadQuantity(words[start]))
      case Some(q) =>
        var name := JoinWords(words[..start]);
        if name == "" then Unparsed(MissingName) else Parsed(name, q)
  }

  lemma {:induction false} StartsNumericTail(words: seq<string>)
    ensures IsNumericTail(words, NumericStart(words))
    decreases |words|
  {
    hide IsNumeric;
    if words != [] && IsNumeric(words[|words| - 1]) {
      StartsNumericTail(words[..|words| - 1]);
    }
  }

  lemma NumericTailIsUnique(words: seq<string>, start: nat)
    requires IsNumericTail(words, start)
    ensures start == NumericStart(words)
  {
    hide IsNumeric, NumericStart;
    StartsNumericTail(words);
  }

  /** The words before the numbers always make a name. */
  lemma WordsMakeAName(line: string, start: nat)
    requires 0 < start <= |Words(line)|
    ensures JoinWords(Words(line)[..start]) != "" && forall w | w in Words(line)[..start] :: IsWord(w)
  {
    hide Words;
    var named := Words(line)[..start];
    forall w | w in named
      ensures IsWord(w)
    {
      var i :| 0 <= i < |named| && named[i] == w;
      WordsAreWords(line, i);
    }
    JoinedWordsAreTight(named);
  }

  /** The walk from the right over the words of a line. A line is an item exactly when a name
      is followed by numbers only and the first of these is a quantity. */
  method ParseWords(line: string) returns (r: LineResult)
    ensures r == ParseSpacedLine(line)
    ensures forall start: nat | IsNumericTail(Words(line), start) ::
              var words := Words(line);
              && (r.Parsed? <==> 0 < start < |words| && ParseQty(words[start]).Some?)
              && (r.Parsed? ==> r.name == JoinWords(words[..start]) && ParseQty(words[start]) == Some(r.qty))
              && (r == Unparsed(NoQuantity) <==> |words| >= 2 && start == |words|)
  {
    hide Words, IsNumeric, ParseQty, JoinWords, IsNumericTail;
    var words := Words(line);
    forall start: nat | IsNumericTail(words, start)
      ensures start == NumericStart(words)
    {
      NumericTailIsUnique(words, start);
    }
    if |words| < 2 {
      return Unparsed(TooFewWords);
    }
    var start := |words|;
    assert words[..start] == words;
    while start > 0 && IsNumeric(words[start - 1])
      invariant 0 <= start <= |words|
      invariant NumericStart(words[..start]) == NumericStart(words)
    {
      assert words[..start][..start - 1] == words[..start - 1];
      start := start - 1;
    }
    if start == |words| {
      return Unparsed(NoQuantity);
    }
    if start == 0 {
      return Unparsed(MissingName);
    }
    var qty := ParseQty(words[start]);
    if qty.None? {
      return Unparsed(BadQuantity(words[start]));
    }
    var name := JoinWords(words[..start]);
    WordsMakeAName(line, start);
    r := if name == "" then Unparsed(MissingName) else Parsed(name, qty.value);
  }

  function ParseLine(trimmed: string): LineResult {
    if '\t' in trimmed then ParseTabLine(trimmed) else ParseSpacedLine(trimmed)
  }

  /** The key under which equal names meet; `lower` is the Unicode lower-casing. */
  function KeyOf(lower: string -> string, name: string): string {
    lower(Trim(PlainSpaces(name)))
  }

  function Classify(lower: string -> string, raw: string): Item {
    var trimmed := Trim(PlainSpaces(raw));
    if trimmed == "" then Blank else
      match ParseLine(trimmed)
      case Unparsed(reason) => Bad(reason)
      case Parsed(name, qty) =>
        if KeyOf(lower, name) == "" then Bad(MissingName) else Good(KeyOf(lower, name), name, qty)
  }

  // ── Lines ─────────────────────────────────────────────────────────────────

  function WithoutReturn(s: string): string {
    if s != "" && s[|s| - 1] == '\r' then s[..|s| - 1] else s
  }

  function WithoutReturns(lines: seq<string>): seq<string> {
    seq(|lines|, i requires 0 <= i < |lines| => WithoutReturn(lines[i]))
  }

  /** Lines end at a line feed, which takes a carriage return before it along; what
      follows the last one is a line unless it is empty. */
  function Lines(input: string): seq<string> {
    var pieces := Split(input, '\n');
    var last := |pieces| - 1;
    WithoutReturns(pieces[..last]) + (if pieces[last] == "" then [] else [pieces[last]])
  }

  function Items(lower: string -> string, lines: seq<string>): seq<Item> {
    seq(|lines|, i requires 0 <= i < |lines| => Classify(lower, lines[i]))
  }

  // ── Adding up ─────────────────────────────────────────────────────────────

  function Clip(q: int): int {
    if q < I64_MAX then q else I64_MAX
  }

  function LineNumber(index: nat): nat {
    if index < U32_MAX then index + 1 else U32_MAX
  }

  predicate IsUnder(item: Item, key: string) {
    item.Good? && item.key == key
  }

  /** The keys in the order in which they are first seen. */
  function Keys(items: seq<Item>): seq<string> {
    if items == [] then [] else
      var before, last := Keys(items[..|items| - 1]), items[|items| - 1];
      if last.Good? && last.key !in before then before + [last.key] else before
  }

  function Total(items: seq<Item>, key: string): int {
    if items == [] then 0 else
      var last := items[|items| - 1];
      Total(items[..|items| - 1], key) + (if IsUnder(last, key) then last.qty else 0)
  }

  /** The name as it is first written. */
  function FirstName(items: seq<Item>, key: string): Option<string> {
    if items == [] then None else
      var before, last := FirstName(items[..|items| - 1], key), items[|items| - 1];
      if before.Some? then before else if IsUnder(last, key) then Some(last.name) else None
  }

  function Numbers(items: seq<Item>, key: string): seq<nat> {
    if items == [] then [] else
      var last := |items| - 1;
      Numbers(items[..last], key) + (if IsUnder(items[last], key) then [LineNumber(last)] else [])
  }

  function FirstMany(numbers: seq<nat>): seq<nat> {
    if |numbers| <= MAX_NUMBERS_PER_KEY then numbers else numbers[..MAX_NUMBERS_PER_KEY]
  }

  function EntryFor(items: seq<Item>, key: string): Entry {
    var name := FirstName(items, key);
    Entry(FirstMany(Numbers(items, key)), if name.Some? then name.value else "", Clip(Total(items, key)))
  }

  function Entries(items: seq<Item>): seq<Entry> {
    var keys := Keys(items);
    seq(|keys|, i requires 0 <= i < |keys| => EntryFor(items, keys[i]))
  }

  function Errors(lines: seq<string>, items: seq<Item>): seq<LineError>
    requires |lines| == |items|
  {
    if items == [] then [] else
      var last := |items| - 1;
      Errors(lines[..last], items[..last])
      + (if items[last].Bad? then [LineError(LineNumber(last), lines[last], items[last].reason)] else [])
  }

  /** What a paste means, key by key. */
  function Parse(lower: string -> string, input: string): Paste {
    var items := Items(lower, Lines(input));
    Paste(Entries(items), Errors(Lines(input), items))
  }

  predicate PositiveItems(items: seq<Item>) {
    forall i | 0 <= i < |items| && items[i].Good? :: items[i].qty > 0
  }

  lemma QtyFits(line: string)
    ensures ParseLine(line).Parsed? ==> 0 < ParseLine(line).qty <= I64_MAX
  {
  }

  lemma ClassifiedIsPositive(lower: string -> string, raw: string)
    ensures Classify(lower, raw).Good? ==> Classify(lower, raw).qty > 0
  {
  }

  lemma ParsedIsPositive(lower: string -> string, lines: seq<string>)
    ensures PositiveItems(Items(lower, lines))
  {
    hide Classify;
    forall i | 0 <= i < |lines|
      ensures Items(lower, lines)[i].Good? ==> Items(lower, lines)[i].qty > 0
    {
      ClassifiedIsPositive(lower, lines[i]);
    }
  }

  lemma {:induction false} TotalIsPositive(items: seq<Item>, key: string)
    requires PositiveItems(items)
    ensures Total(items, key) >= 0 && (key in Keys(items) <==> Total(items, key) > 0)
    decreases |items|
  {
    if items != [] {
      TotalIsPositive(items[..|items| - 1], key);
    }
  }

  lemma {:induction false} KeysHaveNames(items: seq<Item>, key: string)
    ensures key in Keys(items) <==> FirstName(items, key).Some?
    ensures key in Keys(items) <==> Numbers(items, key) != []
    decreases |items|
  {
    if items != [] {
      KeysHaveNames(items[..|items| - 1], key);
    }
  }

  lemma {:induction false} KeysAreDistinct(items: seq<Item>)
    ensures forall i, j | 0 <= i < j < |Keys(items)| :: Keys(items)[i] != Keys(items)[j]
    decreases |items|
  {
    if items != [] {
      KeysAreDistinct(items[..|items| - 1]);
    }
  }

  /** Adding an item to what is already collected under its key. */
  lemma EntrySnoc(items: seq<Item>, last: Item, key: string)
    requires PositiveItems(items) && (last.Good? ==> last.qty > 0)
    ensures var before, after := EntryFor(items, key), EntryFor(items + [last], key);
            if !IsUnder(last, key) then after == before
            else if key !in Keys(items) then after == Entry([LineNumber(|items|)], last.name, Clip(last.qty))
            else
              && after.name == before.name
              && after.qty == Clip(before.qty + last.qty)
              && after.numbers == if |before.numbers| < MAX_NUMBERS_PER_KEY
                                  then before.numbers + [LineNumber(|items|)] else before.numbers
  {
    assert (items + [last])[..|items|] == items;
    KeysHaveNames(items, key);
    TotalIsPositive(items, key);
  }

  lemma KeysSnoc(items: seq<Item>, last: Item)
    ensures Keys(items + [last]) == if last.Good? && last.key !in Keys(items) then Keys(items) + [last.key] else Keys(items)
  {
  }

  lemma ErrorsSnoc(lines: seq<string>, items: seq<Item>, raw: string, last: Item)
    requires |lines| == |items|
    ensures Errors(lines + [raw], items + [last])
            == Errors(lines, items) + (if last.Bad? then [LineError(LineNumber(|items|), raw, last.reason)] else [])
  {
  }

  /** The state of the parser between two lines. */
  ghost predicate Collected(items: seq<Item>, agg: map<string, Entry>, order: seq<string>) {
    && order == Keys(items)
    && (forall key :: key in agg <==> key in order)
    && forall key | key in agg :: agg[key] == EntryFor(items, key)
  }

  lemma CollectedSnoc(items: seq<Item>, last: Item, agg: map<string, Entry>, order: seq<string>)
    requires Collected(items, agg, order) && !last.Good? && PositiveItems(items)
    ensures Collected(items + [last], agg, order)
  {
  }

  /** What the parser does with a line that names an item. */
  method AddItem(ghost items: seq<Item>, item: Item, number: nat, agg: map<string, Entry>, order: seq<string>)
    returns (agg': map<string, Entry>, order': seq<string>)
    requires item.Good? && 0 < item.qty <= I64_MAX && number == LineNumber(|items|)
    requires Collected(items, agg, order) && PositiveItems(items)
    ensures Collected(items + [item], agg', order')
  {
    agg', order' := agg, order;
    if item.key in agg {
      var existing := agg[item.key];
      var qty := Clip(existing.qty + item.qty);
      var numbers := existing.numbers;
      if |numbers| < MAX_NUMBERS_PER_KEY {
        numbers := numbers + [number];
      }
      agg' := agg[item.key := Entry(numbers, existing.name, qty)];
    } else {
      order' := order + [item.key];
      agg' := agg[item.key := Entry([number], item.name, item.qty)];
    }
    KeysSnoc(items, item);
    forall key | key in agg'
      ensures agg'[key] == EntryFor(items + [item], key)
    {
      EntrySnoc(items, item, key);
    }
  }

  /** Takes the collected entries out of the table, in order. */
  method InOrder(ghost items: seq<Item>, agg: map<string, Entry>, order: seq<string>) returns (entries: seq<Entry>)
    requires Collected(items, agg, order)
    ensures entries == Entries(items)
  {
    hide EntryFor, Keys;
    KeysAreDistinct(items);
    entries := [];
    var rest := agg;
    for i := 0 to |order|
      invariant entries == Entries(items)[..i]
      invariant forall k | i <= k < |order| :: order[k] in rest && rest[order[k]] == agg[order[k]]
    {
      var key := order[i];
      if key in rest {
        entries := entries + [rest[key]];
        rest := rest - {key};
      }
    }
    assert Entries(items)[..|order|] == Entries(items);
  }

  method ParseMultibuy(lower: string -> string, input: string) returns (paste: Paste)
    ensures paste == Parse(lower, input)
  {
    hide Classify, Lines, EntryFor, Collected, Entries;
    var lines := Lines(input);
    ghost var items := Items(lower, lines);
    ParsedIsPositive(lower, lines);
    var agg: map<string, Entry>, order: seq<string>, errors: seq<LineError> := map[], [], [];
    NothingCollected();
    for i := 0 to |lines|
      invariant Collected(items[..i], agg, order)
      invariant errors == Errors(lines[..i], items[..i])
    {
      var raw, number := lines[i], LineNumber(i);
      assert items[..i + 1] == items[..i] + [items[i]] && lines[..i + 1] == lines[..i] + [raw];
      ErrorsSnoc(lines[..i], items[..i], raw, items[i]);
      var item := Read(lower, raw);
      match item
      case Blank => CollectedSnoc(items[..i], item, agg, order);
      case Bad(reason) =>
        errors := errors + [LineError(number, raw, reason)];
        CollectedSnoc(items[..i], item, agg, order);
      case Good(_, _, _) =>
        agg, order := AddItem(items[..i], item, number, agg, order);
    }
    assert items[..|lines|] == items && lines[..|lines|] == lines;
    var entries := InOrder(items, agg, order);
    paste := Paste(entries, errors);
  }

  lemma NothingCollected()
    ensures Collected([], map[], [])
  {
  }

  /** Normalizes a line and reads it by its tabs or by its words. */
  method Read(lower: string -> string, raw: string) returns (item: Item)
    ensures item == Classify(lower, raw)
    ensures item.Good? ==> 0 < item.qty <= I64_MAX
  {
    var trimmed := Trim(PlainSpaces(raw));
    if trimmed == "" {
      return Blank;
    }
    QtyFits(trimmed);
    var parsed: LineResult;
    if '\t' in trimmed {
      parsed := ParseTabLine(trimmed);
    } else {
      parsed := ParseWords(trimmed);
    }
    match parsed
    case Unparsed(reason) => item := Bad(reason);
    case Parsed(name, qty) =>
      var key := KeyOf(lower, name);
      item := if key == "" then Bad(MissingName) else Good(key, name, qty);
  }
}
