/** Writing a parsed paste out, one `name<TAB>quantity` line per entry, and parsing it
    again gives the same entries. */
module MultiBuyRoundTrip {
  import opened Domain
  import opened Text
  import opened MultiBuy

  function Row(name: string, qty: nat): string {
    name + ("\t" + Decimal(qty))
  }

  /** The canonical paste of the entries. */
  function Render(entries: seq<Entry>): string
    requires forall i | 0 <= i < |entries| :: entries[i].qty >= 0
  {
    if entries == [] then ""
    else if |entries| == 1 then Row(entries[0].name, entries[0].qty)
    else Row(entries[0].name, entries[0].qty) + ("\n" + Render(entries[1..]))
  }

  // ── Names that survive ────────────────────────────────────────────────────

  predicate IsName(name: string) {
    name != "" && IsTight(name) && '\t' !in name && '\n' !in name && NBSP !in name
  }

  lemma NormalizedChars(raw: string)
    requires '\n' !in raw
    ensures '\n' !in Trim(PlainSpaces(raw)) && NBSP !in Trim(PlainSpaces(raw))
  {
    hide Trim;
    var plain := PlainSpaces(raw);
    assert '\n' !in plain && NBSP !in plain;
    TrimIsTight(plain);
  }

  lemma TabNameIsName(trimmed: string)
    requires '\n' !in trimmed && NBSP !in trimmed && ParseTabLine(trimmed).Parsed?
    ensures IsName(ParseTabLine(trimmed).name)
  {
    hide Trim, Split, ParseQty;
    PiecesHaveNoSeparator(trimmed, '\t', 0);
    TrimIsTight(Split(trimmed, '\t')[0]);
  }

  lemma SpacedNameIsName(trimmed: string)
    requires ParseSpacedLine(trimmed).Parsed?
    ensures IsName(ParseSpacedLine(trimmed).name)
  {
    hide Words, JoinWords, NumericStart, ParseQty;
    var start := NumericStart(Words(trimmed));
    WordsMakeAName(trimmed, start);
    JoinedWordsAreTight(Words(trimmed)[..start]);
  }

  lemma ParsedNameIsName(lower: string -> string, raw: string)
    requires '\n' !in raw
    ensures var item := Classify(lower, raw);
            item.Good? ==> IsName(item.name) && item.key == KeyOf(lower, item.name) != "" && 0 < item.qty <= I64_MAX
  {
    hide Trim, KeyOf, ParseTabLine, ParseSpacedLine, IsName;
    var trimmed := Trim(PlainSpaces(raw));
    NormalizedChars(raw);
    QtyFits(trimmed);
    if ParseLine(trimmed).Parsed? {
      if '\t' in trimmed {
        TabNameIsName(trimmed);
      } else {
        SpacedNameIsName(trimmed);
      }
    }
  }

  // ── One row ───────────────────────────────────────────────────────────────

  lemma DecimalIsPlain(n: nat)
    ensures Decimal(n) != "" && IsTight(Decimal(n)) && !HasSign(Decimal(n))
    ensures forall c | c in Decimal(n) :: c != ',' && !IsSpace(c)
  {
  }

  lemma DecimalIsQty(n: nat)
    requires 0 < n <= I64_MAX
    ensures ParseQty(Decimal(n)) == Some(n)
  {
    hide Decimal, Digits, WithoutCommas;
    DecimalIsPlain(n);
    NoCommas(Decimal(n));
    DecimalParses(n);
  }

  /** A comma makes no difference to a quantity, wherever it stands and however many there are:
      "1,000" is one thousand. */
  lemma CommaIsIgnored(a: string, b: string)
    ensures ParseQty(a + ("," + b)) == ParseQty(a + b) && (IsNumeric(a + ("," + b)) <==> IsNumeric(a + b))
    ensures ParseQty("1,000") == Some(1000)
  {
    hide ParseI64, IsFloat, Decimal, WithoutCommas;
    CommaDropped(a, b);
    Thousand();
  }

  lemma Thousand()
    ensures ParseQty("1,000") == Some(1000)
  {
    hide ParseI64;
    assert WithoutCommas("1,000") == "1" + WithoutCommas(",000");
    assert WithoutCommas(",000") == WithoutCommas("000");
    NoCommas("000");
    assert Decimal(1000) == "1000";
    DecimalIsQty(1000);
  }

  /** Of tab-separated columns the first is the name and the second the quantity, whatever
      follows. */
  lemma SecondColumnIsQty(name: string, qty: string, rest: string)
    requires '\t' !in name && '\t' !in qty && Trim(name) != ""
    ensures ParseTabLine(name + ("\t" + qty)) == ParseTabLine(name + ("\t" + (qty + ("\t" + rest))))
            == match ParseQty(Trim(qty)) { case None => Unparsed(BadQuantity(Trim(qty))) case Some(q) => Parsed(Trim(name), q) }
  {
    hide Split, Trim, ParseQty;
    SplitOfJoined(name, '\t', qty);
    SplitOfJoined(name, '\t', qty + ("\t" + rest));
    SplitOfJoined(qty, '\t', rest);
    SplitOfOne(name, '\t');
    SplitOfOne(qty, '\t');
  }

  /** Two names meet in one entry exactly when they have the same lower case. */
  lemma NamesMeetIffSameLowerCase(lower: string -> string, a: string, b: string)
    requires IsName(a) && IsName(b)
    ensures KeyOf(lower, a) == KeyOf(lower, b) <==> lower(a) == lower(b)
  {
    hide Trim;
    PlainSpacesKept(a);
    PlainSpacesKept(b);
    TightIsTrimmed(a);
    TightIsTrimmed(b);
  }

  lemma RowIsPlain(name: string, qty: nat)
    requires IsName(name)
    ensures var row := Row(name, qty);
            row != "" && IsTight(row) && '\n' !in row && NBSP !in row && '\t' in row && WithoutReturn(row) == row
  {
    hide Decimal;
    DecimalIsPlain(qty);
    var row := Row(name, qty);
    assert row[0] == name[0] && row[|row| - 1] == Decimal(qty)[|Decimal(qty)| - 1];
    assert row[|name|] == '\t';
  }

  lemma RowParses(name: string, qty: nat)
    requires IsName(name) && 0 < qty <= I64_MAX
    ensures ParseTabLine(Row(name, qty)) == Parsed(name, qty)
  {
    hide Decimal, Split, Trim, ParseQty;
    DecimalIsPlain(qty);
    DecimalIsQty(qty);
    SplitOfJoined(name, '\t', Decimal(qty));
    SplitOfOne(name, '\t');
    SplitOfOne(Decimal(qty), '\t');
    TightIsTrimmed(name);
    TightIsTrimmed(Decimal(qty));
  }

  lemma RowIsItem(lower: string -> string, name: string, qty: nat)
    requires IsName(name) && 0 < qty <= I64_MAX && KeyOf(lower, name) != ""
    ensures Classify(lower, Row(name, qty)) == Good(KeyOf(lower, name), name, qty)
  {
    hide Row, Trim, KeyOf, ParseTabLine, IsName;
    RowIsPlain(name, qty);
    PlainSpacesKept(Row(name, qty));
    TightIsTrimmed(Row(name, qty));
    RowParses(name, qty);
  }

  // ── All rows ──────────────────────────────────────────────────────────────

  /** Entries as a parse produces them. */
  ghost predicate AreParsed(lower: string -> string, entries: seq<Entry>) {
    && (forall i | 0 <= i < |entries| ::
          IsName(entries[i].name) && 0 < entries[i].qty <= I64_MAX && KeyOf(lower, entries[i].name) != "")
    && forall i, j | 0 <= i < j < |entries| :: KeyOf(lower, entries[i].name) != KeyOf(lower, entries[j].name)
  }

  function RowsOf(entries: seq<Entry>): seq<string>
    requires forall i | 0 <= i < |entries| :: entries[i].qty >= 0
  {
    seq(|entries|, i requires 0 <= i < |entries| => Row(entries[i].name, entries[i].qty))
  }

  lemma {:induction false} RenderedPieces(entries: seq<Entry>)
    requires entries != [] && forall i | 0 <= i < |entries| :: IsName(entries[i].name) && entries[i].qty >= 0
    ensures Split(Render(entries), '\n') == RowsOf(entries)
    decreases |entries|
  {
    hide Split, Row, IsName;
    var first := Row(entries[0].name, entries[0].qty);
    RowIsPlain(entries[0].name, entries[0].qty);
    SplitOfOne(first, '\n');
    if |entries| > 1 {
      RenderedPieces(entries[1..]);
      SplitOfJoined(first, '\n', Render(entries[1..]));
      assert RowsOf(entries) == [first] + RowsOf(entries[1..]);
    } else {
      assert RowsOf(entries) == [first];
    }
  }

  lemma LinesOfPieces(s: string, rows: seq<string>)
    requires Split(s, '\n') == rows && forall i | 0 <= i < |rows| :: rows[i] != "" && WithoutReturn(rows[i]) == rows[i]
    ensures Lines(s) == rows
  {
  }

  lemma NoLines()
    ensures Lines("") == []
  {
  }

  lemma RenderedLines(entries: seq<Entry>)
    requires forall i | 0 <= i < |entries| :: IsName(entries[i].name) && entries[i].qty >= 0
    ensures Lines(Render(entries)) == RowsOf(entries)
  {
    hide Split, Row, IsName, WithoutReturn, Lines;
    var rows := RowsOf(entries);
    if entries == [] {
      NoLines();
    } else {
      RenderedPieces(entries);
      forall i | 0 <= i < |rows|
        ensures rows[i] != "" && WithoutReturn(rows[i]) == rows[i]
      {
        RowIsPlain(entries[i].name, entries[i].qty);
      }
      LinesOfPieces(Render(entries), rows);
    }
  }

  /** Items that all have different keys keep their names and quantities. */
  ghost predicate AllFresh(items: seq<Item>) {
    && (forall i | 0 <= i < |items| :: items[i].Good?)
    && forall i, j | 0 <= i < j < |items| :: items[i].key != items[j].key
  }

  lemma {:induction false} FreshItems(items: seq<Item>)
    requires AllFresh(items)
    ensures |Keys(items)| == |items| && forall i | 0 <= i < |items| :: Keys(items)[i] == items[i].key
    ensures forall i | 0 <= i < |items| ::
              Total(items, items[i].key) == items[i].qty && FirstName(items, items[i].key) == Some(items[i].name)
    ensures forall key | (forall i | 0 <= i < |items| :: items[i].key != key) ::
              Total(items, key) == 0 && FirstName(items, key).None?
    decreases |items|
  {
    if items != [] {
      FreshItems(items[..|items| - 1]);
    }
  }

  lemma {:induction false} GoodItemsNoErrors(lines: seq<string>, items: seq<Item>)
    requires |lines| == |items| && AllFresh(items)
    ensures Errors(lines, items) == []
    decreases |items|
  {
    if items != [] {
      GoodItemsNoErrors(lines[..|items| - 1], items[..|items| - 1]);
    }
  }

  lemma RenderedParses(lower: string -> string, entries: seq<Entry>)
    requires AreParsed(lower, entries)
    ensures var p := Parse(lower, Render(entries));
            && p.errors == [] && |p.entries| == |entries|
            && forall i | 0 <= i < |entries| :: p.entries[i].name == entries[i].name && p.entries[i].qty == entries[i].qty
  {
    hide Classify, Lines, KeyOf, IsName, Row, Keys, Total, FirstName, Errors, Render, Numbers;
    RenderedLines(entries);
    var rows := RowsOf(entries);
    var items := Items(lower, rows);
    forall i | 0 <= i < |entries|
      ensures items[i] == Good(KeyOf(lower, entries[i].name), entries[i].name, entries[i].qty)
    {
      RowIsItem(lower, entries[i].name, entries[i].qty);
    }
    FreshItems(items);
    GoodItemsNoErrors(rows, items);
  }

  // ── Parsed pastes ─────────────────────────────────────────────────────────

  ghost predicate ItemsAreNamed(lower: string -> string, items: seq<Item>) {
    forall i | 0 <= i < |items| && items[i].Good? ::
      IsName(items[i].name) && items[i].key == KeyOf(lower, items[i].name) != ""
  }

  lemma {:induction false} FirstNameIsName(lower: string -> string, items: seq<Item>, key: string)
    requires ItemsAreNamed(lower, items)
    ensures FirstName(items, key).Some? ==>
              IsName(FirstName(items, key).value) && KeyOf(lower, FirstName(items, key).value) == key != ""
    decreases |items|
  {
    hide KeyOf, IsName;
    if items != [] {
      FirstNameIsName(lower, items[..|items| - 1], key);
    }
  }

  lemma LinesHaveNoFeed(input: string, i: nat)
    requires i < |Lines(input)|
    ensures '\n' !in Lines(input)[i]
  {
    hide Split;
    PiecesHaveNoSeparator(input, '\n', i);
  }

  lemma ParsedEntriesAreParsed(lower: string -> string, input: string)
    ensures AreParsed(lower, Parse(lower, input).entries)
  {
    hide Classify, Lines, KeyOf, IsName, Keys, Total, FirstName, Errors, Numbers;
    var lines := Lines(input);
    var items := Items(lower, lines);
    forall i | 0 <= i < |lines|
      ensures items[i].Good? ==> IsName(items[i].name) && items[i].key == KeyOf(lower, items[i].name) != ""
    {
      LinesHaveNoFeed(input, i);
      ParsedNameIsName(lower, lines[i]);
    }
    ParsedIsPositive(lower, lines);
    KeysAreDistinct(items);
    forall key
      ensures key in Keys(items) ==> FirstName(items, key).Some? && Total(items, key) > 0
      ensures FirstName(items, key).Some? ==>
                IsName(FirstName(items, key).value) && KeyOf(lower, FirstName(items, key).value) == key != ""
    {
      KeysHaveNames(items, key);
      TotalIsPositive(items, key);
      FirstNameIsName(lower, items, key);
    }
  }

  /** For every input: what a paste parses to can be written out and parsed again. */
  lemma RoundTrip(lower: string -> string, input: string)
    ensures var entries := Parse(lower, input).entries;
            && (forall i | 0 <= i < |entries| :: entries[i].qty >= 0)
            && var p := Parse(lower, Render(entries));
               && p.errors == [] && |p.entries| == |entries|
               && forall i | 0 <= i < |entries| ::
                    p.entries[i].name == entries[i].name && p.entries[i].qty == entries[i].qty
  {
    hide Parse, Render, KeyOf, IsName;
    ParsedEntriesAreParsed(lower, input);
    RenderedParses(lower, Parse(lower, input).entries);
  }
}
