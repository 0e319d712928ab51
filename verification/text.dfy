/** The string operations that the paste parser is built from. */
module Text {
  import opened Domain

  const NBSP := '\U{00A0}'
  const I64_MAX := 0x7FFF_FFFF_FFFF_FFFF
  const I64_MIN := -0x8000_0000_0000_0000

  /** The Unicode property White_Space. */
  predicate IsSpace(c: char) {
    || '\U{0009}' <= c <= '\U{000D}'
    || c == ' ' || c == '\U{0085}' || c == NBSP || c == '\U{1680}'
    || '\U{2000}' <= c <= '\U{200A}'
    || c == '\U{2028}' || c == '\U{2029}' || c == '\U{202F}' || c == '\U{205F}' || c == '\U{3000}'
  }

  // ── Trimming ──────────────────────────────────────────────────────────────

  function TrimStart(s: string): string {
    if s != "" && IsSpace(s[0]) then TrimStart(s[1..]) else s
  }

  function TrimEnd(s: string): string {
    if s != "" && IsSpace(s[|s| - 1]) then TrimEnd(s[..|s| - 1]) else s
  }

  function Trim(s: string): string {
    TrimEnd(TrimStart(s))
  }

  /** Neither end is a space; the empty string is tight. */
  predicate IsTight(s: string) {
    s != "" ==> !IsSpace(s[0]) && !IsSpace(s[|s| - 1])
  }

  lemma {:induction false} TrimStartIsSuffix(s: string) returns (i: nat)
    ensures i <= |s| && TrimStart(s) == s[i..]
    ensures TrimStart(s) != "" ==> !IsSpace(TrimStart(s)[0])
    decreases |s|
  {
    if s != "" && IsSpace(s[0]) {
      var j := TrimStartIsSuffix(s[1..]);
      i := j + 1;
      assert s[1..][j..] == s[i..];
    } else {
      i := 0;
    }
  }

  lemma {:induction false} TrimEndIsPrefix(s: string) returns (i: nat)
    ensures i <= |s| && TrimEnd(s) == s[..i]
    ensures TrimEnd(s) != "" ==> !IsSpace(TrimEnd(s)[i - 1])
    decreases |s|
  {
    if s != "" && IsSpace(s[|s| - 1]) {
      i := TrimEndIsPrefix(s[..|s| - 1]);
      assert s[..|s| - 1][..i] == s[..i];
    } else {
      i := |s|;
      assert s[..i] == s;
    }
  }

  lemma TrimIsTight(s: string)
    ensures IsTight(Trim(s))
    ensures forall c | c in Trim(s) :: c in s
  {
    var i := TrimStartIsSuffix(s);
    var j := TrimEndIsPrefix(s[i..]);
    assert Trim(s) == s[i..][..j];
  }

  lemma TightIsTrimmed(s: string)
    requires IsTight(s)
    ensures Trim(s) == s
  {
  }

  lemma {:induction false} TrimStartSnoc(s: string, c: char)
    requires IsSpace(c)
    ensures TrimStart(s + [c]) == if TrimStart(s) == "" then "" else TrimStart(s) + [c]
    decreases |s|
  {
    if s == "" {
      assert s + [c] == [c] && [c][1..] == "";
      assert TrimStart([c]) == TrimStart("") == "";
    } else if IsSpace(s[0]) {
      assert (s + [c])[1..] == s[1..] + [c];
      TrimStartSnoc(s[1..], c);
    }
  }

  /** A space at the end of a line makes no difference. */
  lemma TrimSnoc(s: string, c: char)
    requires IsSpace(c)
    ensures Trim(s + [c]) == Trim(s)
  {
    TrimStartSnoc(s, c);
    var t := TrimStart(s);
    assert (t + [c])[..|t|] == t;
  }

  // ── Splitting ─────────────────────────────────────────────────────────────

  /** The pieces between the separators; there is always one piece more than separators. */
  function Split(s: string, sep: char): (pieces: seq<string>)
    ensures pieces != []
  {
    if s == "" then [""]
    else
      var rest := Split(s[1..], sep);
      if s[0] == sep then [""] + rest else [[s[0]] + rest[0]] + rest[1..]
  }

  lemma {:induction false} SplitOfOne(s: string, sep: char)
    requires sep !in s
    ensures Split(s, sep) == [s]
    decreases |s|
  {
    if s != "" {
      SplitOfOne(s[1..], sep);
      assert s == [s[0]] + s[1..];
    }
  }

  lemma SplitCons(c: char, s: string, sep: char)
    ensures Split([c] + s, sep)
            == if c == sep then [""] + Split(s, sep) else [[c] + Split(s, sep)[0]] + Split(s, sep)[1..]
  {
  }

  lemma {:induction false} SplitOfJoined(a: string, sep: char, b: string)
    ensures Split(a + ([sep] + b), sep) == Split(a, sep) + Split(b, sep)
    decreases |a|
  {
    hide Split;
    if a == "" {
      assert a + ([sep] + b) == [sep] + b;
      SplitCons(sep, b, sep);
      SplitOfNothing(sep);
    } else {
      var rest := a[1..] + ([sep] + b);
      assert a + ([sep] + b) == [a[0]] + rest && a == [a[0]] + a[1..];
      SplitOfJoined(a[1..], sep, b);
      SplitCons(a[0], rest, sep);
      SplitCons(a[0], a[1..], sep);
      PrefixOfPieces(Split(a[1..], sep), Split(b, sep));
    }
  }

  lemma SplitOfNothing(sep: char)
    ensures Split("", sep) == [""]
  {
  }

  lemma PrefixOfPieces(a: seq<string>, b: seq<string>)
    requires a != []
    ensures (a + b)[0] == a[0] && (a + b)[1..] == a[1..] + b
  {
  }

  lemma {:induction false} PiecesHaveNoSeparator(s: string, sep: char, i: nat)
    requires i < |Split(s, sep)|
    ensures sep !in Split(s, sep)[i] && forall c | c in Split(s, sep)[i] :: c in s
    decreases |s|
  {
    if s != "" {
      var rest := Split(s[1..], sep);
      assert s == [s[0]] + s[1..];
      if s[0] == sep {
        if i > 0 {
          PiecesHaveNoSeparator(s[1..], sep, i - 1);
        }
      } else {
        PiecesHaveNoSeparator(s[1..], sep, i);
      }
    }
  }

  /** The maximal runs of characters that are not spaces. */
  function Words(s: string): seq<string> {
    if s == "" then []
    else if IsSpace(s[0]) then Words(s[1..])
    else if |s| == 1 || IsSpace(s[1]) then [[s[0]]] + Words(s[1..])
    else
      var rest := Words(s[1..]);
      if rest == [] then [[s[0]]] else [[s[0]] + rest[0]] + rest[1..]
  }

  lemma {:induction false} WordsAreWords(s: string, i: nat)
    requires i < |Words(s)|
    ensures IsWord(Words(s)[i]) && forall c | c in Words(s)[i] :: c in s
    decreases |s|, i
  {
    assert s == [s[0]] + s[1..];
    if IsSpace(s[0]) {
      WordsAreWords(s[1..], i);
    } else if |s| == 1 || IsSpace(s[1]) {
      if i > 0 {
        WordsAreWords(s[1..], i - 1);
      }
    } else if Words(s[1..]) != [] {
      WordsAreWords(s[1..], i);
    }
  }

  predicate IsWord(w: string) {
    w != "" && forall c | c in w :: !IsSpace(c)
  }

  function JoinWords(words: seq<string>): string {
    if words == [] then "" else if |words| == 1 then words[0] else words[0] + " " + JoinWords(words[1..])
  }

  lemma {:induction false} JoinedWordsAreTight(words: seq<string>)
    requires words != []
    requires forall w | w in words :: IsWord(w)
    ensures JoinWords(words) != "" && IsTight(JoinWords(words))
    ensures forall c | c in JoinWords(words) :: c == ' ' || !IsSpace(c)
    decreases |words|
  {
    assert words[0] in words;
    if |words| > 1 {
      JoinedWordsAreTight(words[1..]);
    }
  }

  // ── Characters replaced or dropped ────────────────────────────────────────

  function PlainSpaces(s: string): (t: string)
    ensures |t| == |s| && forall i | 0 <= i < |s| :: t[i] == if s[i] == NBSP then ' ' else s[i]
  {
    seq(|s|, i requires 0 <= i < |s| => if s[i] == NBSP then ' ' else s[i])
  }

  lemma PlainSpacesKept(s: string)
    requires NBSP !in s
    ensures PlainSpaces(s) == s
  {
  }

  function WithoutCommas(s: string): string {
    if s == "" then "" else (if s[0] == ',' then "" else [s[0]]) + WithoutCommas(s[1..])
  }

  lemma {:induction false} NoCommas(s: string)
    requires ',' !in s
    ensures WithoutCommas(s) == s
    decreases |s|
  {
    if s != "" {
      NoCommas(s[1..]);
      assert s == [s[0]] + s[1..];
    }
  }

  lemma {:induction false} WithoutCommasOfJoined(a: string, b: string)
    ensures WithoutCommas(a + b) == WithoutCommas(a) + WithoutCommas(b)
    decreases |a|
  {
    if a == "" {
      assert a + b == b;
    } else {
      assert (a + b)[1..] == a[1..] + b;
      WithoutCommasOfJoined(a[1..], b);
    }
  }

  lemma CommaDropped(a: string, b: string)
    ensures WithoutCommas(a + ("," + b)) == WithoutCommas(a + b)
  {
    WithoutCommasOfJoined(a, "," + b);
    WithoutCommasOfJoined(a, b);
    assert ("," + b)[1..] == b;
    assert WithoutCommas("," + b) == "" + WithoutCommas(b);
  }

  // ── Numbers ───────────────────────────────────────────────────────────────

  predicate IsDigit(c: char) {
    '0' <= c <= '9'
  }

  predicate AllDigits(s: string) {
    s != "" && forall c | c in s :: IsDigit(c)
  }

  function DigitValue(c: char): nat
    requires IsDigit(c)
  {
    c as int - '0' as int
  }

  function Digits(s: string): nat
    requires forall c | c in s :: IsDigit(c)
  {
    if s == "" then 0 else
      assert s[|s| - 1] in s;
      10 * Digits(s[..|s| - 1]) + DigitValue(s[|s| - 1])
  }

  predicate HasSign(s: string) {
    s != "" && (s[0] == '+' || s[0] == '-')
  }

  function Unsigned(s: string): string {
    if HasSign(s) then s[1..] else s
  }

  /** Decimal digits with an optional sign; a value outside 64 bits is an error. */
  function ParseI64(s: string): Option<int> {
    if !AllDigits(Unsigned(s)) then None else
      var value: int := if s[0] == '-' then -(Digits(Unsigned(s)) as int) else Digits(Unsigned(s));
      if I64_MIN <= value <= I64_MAX then Some(value) else None
  }

  function Decimal(n: nat): string {
    var last := [(('0' as int) + n % 10) as char];
    if n < 10 then last else Decimal(n / 10) + last
  }

  lemma {:induction false} DecimalParses(n: nat)
    ensures AllDigits(Decimal(n)) && Digits(Decimal(n)) == n
    decreases n
  {
    if n >= 10 {
      DecimalParses(n / 10);
      var d := Decimal(n);
      assert d[..|d| - 1] == Decimal(n / 10);
    } else {
      var d := Decimal(n);
      assert d[..0] == "";
    }
  }

  function AsciiLower(c: char): char {
    if 'A' <= c <= 'Z' then (c as int + 32) as char else c
  }

  function AsciiLowerAll(s: string): string {
    seq(|s|, i requires 0 <= i < |s| => AsciiLower(s[i]))
  }

  function CountOf(s: string, c: char): nat {
    if s == "" then 0 else CountOf(s[1..], c) + (if s[0] == c then 1 else 0)
  }

  predicate IsMantissa(s: string) {
    && (forall c | c in s :: IsDigit(c) || c == '.')
    && (exists c | c in s :: IsDigit(c))
    && CountOf(s, '.') <= 1
  }

  function ExponentAt(s: string): nat {
    if s == "" || s[0] == 'e' || s[0] == 'E' then 0 else 1 + ExponentAt(s[1..])
  }

  /** The grammar of floating-point literals, which includes infinities and not-a-number. */
  predicate IsFloat(s: string) {
    var t := Unsigned(s);
    var at := ExponentAt(t);
    || AsciiLowerAll(t) in {"inf", "infinity", "nan"}
    || (if at >= |t| then IsMantissa(t) else IsMantissa(t[..at]) && AllDigits(Unsigned(t[at + 1..])))
  }

  lemma {:induction false} NoExponent(s: string)
    requires 'e' !in s && 'E' !in s
    ensures ExponentAt(s) == |s|
    decreases |s|
  {
    if s != "" {
      NoExponent(s[1..]);
    }
  }

  lemma {:induction false} FirstExponent(a: string, b: string)
    requires 'e' !in a && 'E' !in a
    ensures ExponentAt(a + ("e" + b)) == |a|
    decreases |a|
  {
    if a != "" {
      assert (a + ("e" + b))[1..] == a[1..] + ("e" + b);
      FirstExponent(a[1..], b);
    } else {
      assert a + ("e" + b) == "e" + b;
    }
  }

  lemma {:induction false} CountOfNone(s: string, c: char)
    requires c !in s
    ensures CountOf(s, c) == 0
    decreases |s|
  {
    if s != "" {
      CountOfNone(s[1..], c);
    }
  }

  lemma {:induction false} CountOfJoined(a: string, b: string, c: char)
    ensures CountOf(a + b, c) == CountOf(a, c) + CountOf(b, c)
    decreases |a|
  {
    if a == "" {
      assert a + b == b;
    } else {
      assert (a + b)[1..] == a[1..] + b;
      CountOfJoined(a[1..], b, c);
    }
  }

  lemma DigitsAreMantissa(a: string)
    requires AllDigits(a)
    ensures IsMantissa(a) && ExponentAt(a) == |a| && !HasSign(a)
  {
    assert a[0] in a;
    CountOfNone(a, '.');
    NoExponent(a);
  }

  /** Digits are a number, with a sign, with a fraction and with an exponent as well. */
  lemma DigitsAreFloat(a: string, b: string)
    requires AllDigits(a) && AllDigits(b)
    ensures IsFloat(a) && IsFloat("-" + a) && IsFloat(a + ("." + b)) && IsFloat(a + ("e" + b))
  {
    DigitsAreMantissa(a);
    DigitsAreMantissa(b);
    assert ("-" + a)[1..] == a;
    FractionIsFloat(a, b);
    ExponentIsFloat(a, b);
  }

  lemma FractionIsFloat(a: string, b: string)
    requires AllDigits(a) && AllDigits(b)
    ensures IsFloat(a + ("." + b))
  {
    var s := a + ("." + b);
    assert a[0] in a && a[0] in s && s[0] == a[0];
    CountOfNone(a, '.');
    CountOfNone(b, '.');
    CountOfJoined(a, "." + b, '.');
    CountOfJoined(".", b, '.');
    assert CountOf(".", '.') == CountOf("", '.') + 1;
    NoExponent(s);
  }

  lemma ExponentIsFloat(a: string, b: string)
    requires AllDigits(a) && AllDigits(b)
    ensures IsFloat(a + ("e" + b))
  {
    var s := a + ("e" + b);
    assert a[0] in a && s[0] == a[0] && b[0] in b;
    FirstExponent(a, b);
    DigitsAreMantissa(a);
    assert s[..|a|] == a && s[|a| + 1..] == b;
  }

  /** A character that no number has makes a word of it, infinities and the like aside. */
  lemma OtherCharactersAreNoFloat(s: string, i: nat)
    requires i < |s| && !IsDigit(s[i]) && s[i] !in {'+', '-', '.', 'e', 'E'}
    requires AsciiLowerAll(Unsigned(s)) !in {"inf", "infinity", "nan"}
    ensures !IsFloat(s)
  {
    var t := Unsigned(s);
    var at := ExponentAt(t);
    assert s[i] in t by {
      assert t[if HasSign(s) then i - 1 else i] == s[i];
    }
    var j :| 0 <= j < |t| && t[j] == s[i];
    if at < |t| {
      ExponentIsE(t);
      if j < at {
        assert t[..at][j] == s[i];
      } else {
        var tail := t[at + 1..];
        assert tail[j - at - 1] == s[i];
        assert Unsigned(tail)[if HasSign(tail) then j - at - 2 else j - at - 1] == s[i];
      }
    } else {
      assert t[j] in t;
    }
  }

  lemma {:induction false} ExponentIsE(s: string)
    requires ExponentAt(s) < |s|
    ensures s[ExponentAt(s)] == 'e' || s[ExponentAt(s)] == 'E'
    decreases |s|
  {
    if !(s[0] == 'e' || s[0] == 'E') {
      ExponentIsE(s[1..]);
    }
  }
}
