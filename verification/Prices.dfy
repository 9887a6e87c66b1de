/** The price printer, the parser for typed prices, and the reader of message texts.

    Amounts are unbounded; digits and separators are the ASCII ones. */
module Prices {
  import opened Options

  // ---------------------------------------------------------------------------------------------
  // Digits

  predicate IsDigit(c: char) {
    '0' <= c <= '9'
  }

  predicate AllDigits(s: string) {
    forall i :: 0 <= i < |s| ==> IsDigit(s[i])
  }

  function DigitOf(c: char): nat
    requires IsDigit(c)
  {
    c as int - '0' as int
  }

  function CharOf(d: nat): (c: char)
    requires d < 10
    ensures IsDigit(c) && DigitOf(c) == d
  {
    (d + '0' as int) as char
  }

  /** The number a digit string denotes. */
  function Num(s: string): nat
    requires AllDigits(s)
  {
    if s == [] then 0 else Num(s[..|s| - 1]) * 10 + DigitOf(s[|s| - 1])
  }

  function Digits(n: nat): (s: string)
    ensures s != [] && AllDigits(s) && Num(s) == n
  {
    if n < 10 then [CharOf(n)]
    else
      var s := Digits(n / 10) + [CharOf(n % 10)];
      assert s[..|s| - 1] == Digits(n / 10);
      s
  }

  function Pad2(n: nat): (s: string)
    requires n < 100
    ensures |s| == 2 && AllDigits(s) && Num(s) == n
  {
    var s := [CharOf(n / 10), CharOf(n % 10)];
    TwoDigits(s);
    s
  }

  function Pad3(n: nat): (s: string)
    requires n < 1000
    ensures |s| == 3 && AllDigits(s) && Num(s) == n
  {
    var s := Pad2(n / 10) + [CharOf(n % 10)];
    assert s[..2] == Pad2(n / 10);
    s
  }

  lemma TwoDigits(s: string)
    requires |s| == 2 && AllDigits(s)
    ensures Num(s) == DigitOf(s[0]) * 10 + DigitOf(s[1])
  {
    var one := s[..1];
    assert one[..0] == [] && Num(one) == DigitOf(one[0]);
  }

  function Pow10(k: nat): nat {
    if k == 0 then 1 else 10 * Pow10(k - 1)
  }

  lemma {:induction false} NumOfJoined(a: string, b: string)
    requires AllDigits(a) && AllDigits(b)
    ensures AllDigits(a + b) && Num(a + b) == Num(a) * Pow10(|b|) + Num(b)
  {
    if b == [] {
      assert a + b == a;
    } else {
      var init := b[..|b| - 1];
      NumOfJoined(a, init);
      assert (a + b)[..|a + b| - 1] == a + init && (a + b)[|a + b| - 1] == b[|b| - 1];
      TenTimes(Num(a), Pow10(|init|));
    }
  }

  lemma TenTimes(a: nat, b: nat)
    ensures a * (10 * b) == a * b * 10
  {
  }

  lemma {:induction false} DigitsLength(n: nat)
    ensures n < 10 ==> |Digits(n)| == 1
    ensures 10 <= n < 100 ==> |Digits(n)| == 2
    ensures 100 <= n < 1000 ==> |Digits(n)| == 3
  {
    if n >= 10 {
      DigitsLength(n / 10);
    }
  }

  /** How many digits start at `p`. */
  function Lead(text: string, p: nat): (d: nat)
    requires p <= |text|
    ensures p + d <= |text| && AllDigits(text[p..p + d]) && (p + d < |text| ==> !IsDigit(text[p + d]))
    decreases |text| - p
  {
    if p == |text| || !IsDigit(text[p]) then 0
    else
      var d := 1 + Lead(text, p + 1);
      assert text[p..p + d] == [text[p]] + text[p + 1..p + d];
      d
  }

  predicate DigitAt(text: string, p: nat) {
    p < |text| && IsDigit(text[p])
  }

  lemma DigitsOfSlice(text: string, p: nat, q: nat)
    requires p <= q <= |text| && AllDigits(text[p..q])
    ensures forall i :: p <= i < q ==> IsDigit(text[i])
  {
    forall i | p <= i < q ensures IsDigit(text[i]) {
      assert text[i] == text[p..q][i - p];
    }
  }

  lemma LeadIs(text: string, p: nat, d: nat)
    requires p + d <= |text| && AllDigits(text[p..p + d]) && !DigitAt(text, p + d)
    ensures Lead(text, p) == d
  {
    var e := Lead(text, p);
    DigitsOfSlice(text, p, p + d);
    DigitsOfSlice(text, p, p + e);
  }

  // ---------------------------------------------------------------------------------------------
  // The printer

  /** Thousands grouped with dots. */
  function Grouped(n: nat): string {
    if n < 1000 then Digits(n) else Grouped(n / 1000) + "." + Pad3(n % 1000)
  }

  /** The amount as it is printed, after the sign. */
  function Printed(cents: nat): string {
    Grouped(cents / 100) + ([','] + Pad2(cents % 100))
  }

  function FormatPrice(cents: int): string {
    if cents < 0 then "-R$ " + Printed(-cents) else "R$ " + Printed(cents)
  }

  // ---------------------------------------------------------------------------------------------
  // The five typed formats

  /** One or more groups of a separator and three digits. */
  predicate Groups(s: string, separator: char) {
    |s| >= 4 && s[0] == separator && AllDigits(s[1..4]) && (|s| == 4 || Groups(s[4..], separator))
  }

  /** One to three digits, then groups. No separator is a digit, so the first digits are all of them. */
  predicate Thousands(s: string, separator: char) {
    1 <= Lead(s, 0) <= 3 && Groups(s[Lead(s, 0)..], separator)
  }

  predicate PtbrThousands(s: string) {
    Thousands(s, '.')
  }

  predicate PtbrThousandsDecimal(s: string) {
    |s| >= 3 && s[|s| - 3] == ',' && AllDigits(s[|s| - 2..]) && PtbrThousands(s[..|s| - 3])
  }

  /** Digits, a separator, and one or two digits. */
  predicate ShortDecimal(s: string, separator: char) {
    var k := Lead(s, 0);
    1 <= k < |s| && s[k] == separator && 1 <= |s| - k - 1 <= 2 && AllDigits(s[k + 1..])
  }

  predicate CommaDecimal(s: string) {
    ShortDecimal(s, ',')
  }

  predicate DotDecimal(s: string) {
    ShortDecimal(s, '.')
  }

  predicate PlainInteger(s: string) {
    s != [] && AllDigits(s)
  }

  lemma {:induction false} GroupsShape(s: string, separator: char)
    requires Groups(s, separator)
    ensures |s| % 4 == 0 && s[|s| - 4] == separator && AllDigits(s[|s| - 3..])
    ensures forall i :: 0 <= i < |s| ==> IsDigit(s[i]) || s[i] == separator
  {
    if |s| > 4 {
      var rest := s[4..];
      GroupsShape(rest, separator);
      assert s[|s| - 4] == rest[|rest| - 4];
      assert s[|s| - 3..] == rest[|rest| - 3..];
      forall i | 0 <= i < |s| ensures IsDigit(s[i]) || s[i] == separator {
        if i >= 4 {
          assert s[i] == rest[i - 4];
        } else if i >= 1 {
          assert s[i] == s[1..4][i - 1];
        }
      }
    } else {
      assert forall i :: 1 <= i < 4 ==> s[i] == s[1..4][i - 1];
    }
  }

  /** A grouped number: digits and separators, the last of them three digits from the end. */
  lemma ThousandsShape(s: string, separator: char)
    requires Thousands(s, separator)
    ensures |s| >= 5 && s[|s| - 4] == separator && IsDigit(s[0])
    ensures forall i :: 0 <= i < |s| ==> IsDigit(s[i]) || s[i] == separator
  {
    var k := Lead(s, 0);
    GroupsShape(s[k..], separator);
    assert s[|s| - 4] == s[k..][|s[k..]| - 4];
    assert s[0] == s[..k][0];
    forall i | 0 <= i < |s| ensures IsDigit(s[i]) || s[i] == separator {
      assert if i < k then s[i] == s[..k][i] else s[i] == s[k..][i - k];
    }
  }

  lemma ShortDecimalShape(s: string, separator: char) returns (k: nat)
    requires ShortDecimal(s, separator) && !IsDigit(separator)
    ensures 1 <= k < |s| && s[k] == separator && 1 <= |s| - k - 1 <= 2
    ensures forall i :: 0 <= i < |s| && i != k ==> IsDigit(s[i])
  {
    k := Lead(s, 0);
    forall i | 0 <= i < |s| && i != k ensures IsDigit(s[i]) {
      assert if i < k then s[i] == s[..k][i] else s[i] == s[k + 1..][i - k - 1];
    }
  }

  lemma PtbrDecimalShape(s: string)
    requires PtbrThousandsDecimal(s)
    ensures |s| >= 8 && s[|s| - 3] == ',' && s[|s| - 7] == '.'
  {
    ThousandsShape(s[..|s| - 3], '.');
  }

  /** No text is in two of the five formats, so their order in the parser does not matter. */
  lemma FormatsAreDisjoint(s: string)
    ensures PtbrThousandsDecimal(s) ==> !PtbrThousands(s) && !CommaDecimal(s) && !DotDecimal(s) && !PlainInteger(s)
    ensures PtbrThousands(s) ==> !CommaDecimal(s) && !DotDecimal(s) && !PlainInteger(s)
    ensures CommaDecimal(s) ==> !DotDecimal(s) && !PlainInteger(s)
    ensures DotDecimal(s) ==> !PlainInteger(s)
  {
    if PtbrThousandsDecimal(s) {
      PtbrDecimalShape(s);
    }
    if PtbrThousands(s) {
      ThousandsShape(s, '.');
    }
    if CommaDecimal(s) {
      var k := ShortDecimalShape(s, ',');
    }
    if DotDecimal(s) {
      var k := ShortDecimalShape(s, '.');
    }
  }

  // ---------------------------------------------------------------------------------------------
  // The parser for typed prices

  datatype PriceError = NoPrice | InvalidFormat | NotPositive

  /** What `strip` and `\s` take for white space. */
  predicate IsSpace(c: char) {
    var n := c as int;
    || 9 <= n <= 13 || 28 <= n <= 32 || n == 0x85 || n == 0xA0 || n == 0x1680 || 0x2000 <= n <= 0x200A
    || n == 0x2028 || n == 0x2029 || n == 0x202F || n == 0x205F || n == 0x3000
  }

  function Strip(s: string): string {
    if s == [] then []
    else if IsSpace(s[0]) then Strip(s[1..])
    else if IsSpace(s[|s| - 1]) then Strip(s[..|s| - 1])
    else s
  }

  /** What is left is the text from its first to its last character that is no space. */
  lemma {:induction false} StripCutsSpacesOff(s: string) returns (i: nat, j: nat)
    ensures i <= j <= |s| && Strip(s) == s[i..j] && (i < j ==> !IsSpace(s[i]) && !IsSpace(s[j - 1]))
    ensures forall k :: 0 <= k < i || j <= k < |s| ==> IsSpace(s[k])
    decreases |s|
  {
    if s == [] {
      i, j := 0, 0;
    } else if IsSpace(s[0]) {
      var rest := s[1..];
      i, j := StripCutsSpacesOff(rest);
      assert rest[i..j] == s[i + 1..j + 1];
      assert forall k :: 0 < k < |s| ==> s[k] == rest[k - 1];
      i, j := i + 1, j + 1;
    } else if IsSpace(s[|s| - 1]) {
      var init := s[..|s| - 1];
      i, j := StripCutsSpacesOff(init);
      assert init[i..j] == s[i..j];
    } else {
      i, j := 0, |s|;
      assert s[0..|s|] == s;
    }
  }

  function Without(s: string, c: char): (r: string)
    ensures c !in r && forall d :: d in r <==> d in s && d != c
  {
    if s == [] then [] else (if s[0] == c then [] else [s[0]]) + Without(s[1..], c)
  }

  /** The first position of a character, or the length of the text. */
  function Find(s: string, c: char): (k: nat)
    ensures k <= |s| && (k < |s| ==> s[k] == c) && forall i :: 0 <= i < k ==> s[i] != c
  {
    if s == [] || s[0] == c then 0 else 1 + Find(s[1..], c)
  }

  /** Whole reais and one or two digits of cents; one digit means tens of cents. */
  function ReaisAndCents(reais: string, cents: string): nat
    requires AllDigits(reais) && AllDigits(cents) && 1 <= |cents| <= 2
  {
    Num(reais) * 100 + if |cents| == 1 then Num(cents) * 10 else Num(cents)
  }

  lemma ReadableDecimal(s: string, separator: char)
    requires ShortDecimal(s, separator) && !IsDigit(separator)
    ensures var k := Find(s, separator);
            1 <= k < |s| && AllDigits(s[..k]) && AllDigits(s[k + 1..]) && 1 <= |s| - k - 1 <= 2
  {
    var k := ShortDecimalShape(s, separator);
    assert Find(s, separator) == k;
  }

  lemma ReadableThousands(s: string)
    requires PtbrThousands(s)
    ensures AllDigits(Without(s, '.'))
  {
    ThousandsShape(s, '.');
    forall i | 0 <= i < |Without(s, '.')| ensures IsDigit(Without(s, '.')[i]) {
      var d := Without(s, '.')[i];
      assert d in Without(s, '.');
      var j :| 0 <= j < |s| && s[j] == d;
    }
  }

  function DecimalValue(s: string, separator: char): nat
    requires ShortDecimal(s, separator) && !IsDigit(separator)
  {
    ReadableDecimal(s, separator);
    var k := Find(s, separator);
    ReaisAndCents(s[..k], s[k + 1..])
  }

  function ThousandsValue(s: string): nat
    requires PtbrThousands(s)
  {
    ReadableThousands(s);
    Num(Without(s, '.'))
  }

  /** The amount of a text in one of the five formats. */
  function TypedValue(s: string): Option<nat> {
    if PtbrThousandsDecimal(s) then
      Some(ThousandsValue(s[..|s| - 3]) * 100 + Num(s[|s| - 2..]))
    else if PtbrThousands(s) then Some(ThousandsValue(s) * 100)
    else if CommaDecimal(s) then Some(DecimalValue(s, ','))
    else if DotDecimal(s) then Some(DecimalValue(s, '.'))
    else if PlainInteger(s) then Some(Num(s) * 100)
    else None
  }

  /** The typed text without its currency sign. */
  function Bare(raw: string): string {
    var text := Strip(raw);
    if |text| >= 2 && text[0] in {'r', 'R'} && text[1] == '$' then Strip(text[2..]) else text
  }

  function ParsePrice(raw: string): Result<int, PriceError> {
    var text := Bare(raw);
    if text == [] then Err(NoPrice)
    else
      match TypedValue(text)
      case None => Err(InvalidFormat)
      case Some(cents) => if cents <= 0 then Err(NotPositive) else Ok(cents)
  }

  // ---------------------------------------------------------------------------------------------
  // Printing and typing back

  lemma {:induction false} WithoutJoined(a: string, b: string, c: char)
    ensures Without(a + b, c) == Without(a, c) + Without(b, c)
  {
    if a == [] {
      assert a + b == b;
    } else {
      assert (a + b)[1..] == a[1..] + b;
      WithoutJoined(a[1..], b, c);
    }
  }

  lemma {:induction false} NothingToTakeOut(s: string, c: char)
    requires c !in s
    ensures Without(s, c) == s
  {
    if s != [] {
      NothingToTakeOut(s[1..], c);
      assert s == [s[0]] + s[1..];
    }
  }

  lemma {:induction false} GroupsJoin(a: string, group: string, separator: char)
    requires Groups(a, separator) && Groups(group, separator) && |group| == 4
    ensures Groups(a + group, separator)
  {
    assert (a + group)[1..4] == a[1..4];
    if |a| == 4 {
      assert (a + group)[4..] == group;
    } else {
      GroupsJoin(a[4..], group, separator);
      assert (a + group)[4..] == a[4..] + group;
    }
  }

  lemma ThousandsJoin(a: string, group: string)
    requires PtbrThousands(a) && Groups(group, '.') && |group| == 4
    ensures PtbrThousands(a + group)
  {
    var k := Lead(a, 0);
    GroupsJoin(a[k..], group, '.');
    assert (a + group)[0..k] == a[0..k] && (a + group)[k..] == a[k..] + group && (a + group)[k] == a[k];
    LeadIs(a + group, 0, k);
  }

  /** Digits and dotted groups so far. */
  predicate Dotted(a: string) {
    (PlainInteger(a) && |a| <= 3) || PtbrThousands(a)
  }

  lemma DottedReads(a: string)
    requires Dotted(a)
    ensures AllDigits(Without(a, '.'))
  {
    if PlainInteger(a) && |a| <= 3 {
      NothingToTakeOut(a, '.');
    } else {
      ReadableThousands(a);
    }
  }

  lemma OneMoreGroup(a: string, b: string)
    requires Dotted(a) && |b| == 3 && AllDigits(b)
    ensures PtbrThousands(a + ("." + b))
  {
    var group := "." + b;
    assert group[1..4] == b && Groups(group, '.');
    if PlainInteger(a) && |a| <= 3 {
      assert (a + group)[0..|a|] == a && (a + group)[|a|..] == group;
      LeadIs(a + group, 0, |a|);
    } else {
      ThousandsJoin(a, group);
    }
  }

  lemma OneMoreGroupReads(a: string, b: string)
    requires AllDigits(Without(a, '.')) && |b| == 3 && AllDigits(b)
    ensures AllDigits(Without(a + ("." + b), '.'))
    ensures Num(Without(a + ("." + b), '.')) == Num(Without(a, '.')) * 1000 + Num(b)
  {
    var group := "." + b;
    WithoutJoined(a, group, '.');
    NothingToTakeOut(b, '.');
    assert group[1..] == b && Without(group, '.') == b;
    NumOfJoined(Without(a, '.'), b);
    assert Pow10(3) == 1000 by {
      assert Pow10(1) == 10 && Pow10(2) == 100;
    }
  }

  /** A printed number reads back: plain digits below a thousand, dotted groups above. */
  lemma {:induction false} GroupedReadsBack(n: nat)
    ensures Dotted(Grouped(n)) && (PtbrThousands(Grouped(n)) <==> n >= 1000)
    ensures AllDigits(Without(Grouped(n), '.')) && Num(Without(Grouped(n), '.')) == n
  {
    if n < 1000 {
      DigitsLength(n);
      NothingToTakeOut(Digits(n), '.');
      if PtbrThousands(Digits(n)) {
        ThousandsShape(Digits(n), '.');
      }
    } else {
      var a, b := Grouped(n / 1000), Pad3(n % 1000);
      GroupedReadsBack(n / 1000);
      assert Grouped(n) == a + ("." + b);
      OneMoreGroup(a, b);
      OneMoreGroupReads(a, b);
    }
  }

  lemma PrintedParts(cents: nat)
    ensures var s, g := Printed(cents), Grouped(cents / 100);
            && |s| == |g| + 3 && s[..|g|] == g && s[|g|] == ',' && s[|g| + 1..] == Pad2(cents % 100) && ',' !in g
            && g != [] && IsDigit(s[0]) && IsDigit(s[|s| - 1])
  {
    var g := Grouped(cents / 100);
    GroupedReadsBack(cents / 100);
    if PtbrThousands(g) {
      ThousandsShape(g, '.');
    }
    assert Printed(cents)[0] == g[0];
    assert Printed(cents)[|g| + 1..] == Pad2(cents % 100);
  }

  lemma TypedGroupedDecimal(s: string)
    requires PtbrThousandsDecimal(s)
    ensures TypedValue(s) == Some(ThousandsValue(s[..|s| - 3]) * 100 + Num(s[|s| - 2..]))
  {
  }

  lemma TypedCommaDecimal(s: string)
    requires CommaDecimal(s)
    ensures TypedValue(s) == Some(DecimalValue(s, ','))
  {
    FormatsAreDisjoint(s);
  }

  /** A short decimal written out. */
  lemma DecimalOfParts(s: string, g: string, separator: char, p: string)
    requires PlainInteger(g) && 1 <= |p| <= 2 && AllDigits(p) && !IsDigit(separator)
    requires s == g + ([separator] + p)
    ensures ShortDecimal(s, separator) && DecimalValue(s, separator) == ReaisAndCents(g, p)
  {
    assert s[0..|g|] == g && s[|g| + 1..] == p && s[|g|] == separator;
    LeadIs(s, 0, |g|);
    FindInJoined(g, [separator] + p, separator);
    assert s[..|g|] == g;
  }

  lemma GroupedDecimalOfParts(s: string, g: string, p: string)
    requires s == g + ([','] + p) && PtbrThousands(g) && |p| == 2 && AllDigits(p)
    ensures TypedValue(s) == Some(ThousandsValue(g) * 100 + Num(p))
  {
    assert s[..|s| - 3] == g && s[|s| - 2..] == p && s[|s| - 3] == ',';
    TypedGroupedDecimal(s);
  }

  lemma GroupedValue(n: nat)
    ensures PtbrThousands(Grouped(n)) ==> ThousandsValue(Grouped(n)) == n
    ensures !PtbrThousands(Grouped(n)) ==> PlainInteger(Grouped(n)) && Num(Grouped(n)) == n
  {
    GroupedReadsBack(n);
    if !PtbrThousands(Grouped(n)) {
      NothingToTakeOut(Grouped(n), '.');
    }
  }

  lemma WholeAndRest(n: nat)
    ensures n / 100 * 100 + n % 100 == n
  {
  }

  lemma TypedAmount(s: string, g: string, p: string, n: nat)
    requires s == g + ([','] + p) && |p| == 2 && AllDigits(p)
    requires PtbrThousands(g) ==> ThousandsValue(g) == n
    requires !PtbrThousands(g) ==> PlainInteger(g) && Num(g) == n
    ensures TypedValue(s) == Some(n * 100 + Num(p))
  {
    if PtbrThousands(g) {
      GroupedDecimalOfParts(s, g, p);
    } else {
      TypedParts(s, g, ',', p);
    }
  }

  lemma PrintedHasItsValue(cents: nat)
    ensures TypedValue(Printed(cents)) == Some(cents)
  {
    GroupedValue(cents / 100);
    WholeAndRest(cents);
    TypedAmount(Printed(cents), Grouped(cents / 100), Pad2(cents % 100), cents / 100);
  }

  lemma BareOfPositive(s: string)
    requires s != [] && IsDigit(s[0]) && IsDigit(s[|s| - 1])
    ensures Bare("R$ " + s) == s
  {
    var text := "R$ " + s;
    assert text[|text| - 1] == s[|s| - 1] && Strip(text) == text;
    var rest := text[2..];
    assert rest == " " + s && rest[1..] == s && Strip(s) == s;
    assert Strip(rest) == Strip(rest[1..]);
  }

  lemma BareOfNegative(s: string)
    requires s != [] && IsDigit(s[|s| - 1])
    ensures Bare("-R$ " + s) == "-R$ " + s
  {
    var text := "-R$ " + s;
    assert text[|text| - 1] == s[|s| - 1] && Strip(text) == text;
  }

  lemma TypedStartsWithADigit(s: string)
    requires TypedValue(s).Some?
    ensures s != [] && IsDigit(s[0])
  {
    if PtbrThousandsDecimal(s) {
      ThousandsShape(s[..|s| - 3], '.');
    } else if PtbrThousands(s) {
      ThousandsShape(s, '.');
    } else if CommaDecimal(s) {
      var k := ShortDecimalShape(s, ',');
    } else if DotDecimal(s) {
      var k := ShortDecimalShape(s, '.');
    }
  }

  /** Typing back what is printed gives the amount back exactly for positive amounts; zero is refused as
      not positive, and a negative amount as no price at all. */
  lemma PrintedPricesReadBack(cents: int)
    ensures ParsePrice(FormatPrice(cents)) ==
      if cents >= 1 then Ok(cents) else if cents == 0 then Err(NotPositive) else Err(InvalidFormat)
  {
    if cents < 0 {
      PrintedParts(-cents);
      NegativeIsRefused(Printed(-cents));
    } else {
      PrintedParts(cents);
      PrintedHasItsValue(cents);
      BareOfPositive(Printed(cents));
      ParseOfBare("R$ " + Printed(cents), Printed(cents), cents);
    }
  }

  lemma ParseOfBare(raw: string, text: string, cents: nat)
    requires Bare(raw) == text != [] && TypedValue(text) == Some(cents)
    ensures ParsePrice(raw) == if cents >= 1 then Ok(cents) else Err(NotPositive)
  {
  }

  lemma NegativeIsRefused(s: string)
    requires s != [] && IsDigit(s[|s| - 1])
    ensures ParsePrice("-R$ " + s) == Err(InvalidFormat)
  {
    BareOfNegative(s);
    if TypedValue("-R$ " + s).Some? {
      TypedStartsWithADigit("-R$ " + s);
    }
  }

  // ---------------------------------------------------------------------------------------------
  // The reader's own conversion

  /** Digits, and at most one comma with one or two digits behind it. */
  predicate ReadableBare(bare: string) {
    var k := Find(bare, ',');
    && k > 0 && AllDigits(bare[..k]) && (k < |bare| ==> k + 1 < |bare| <= k + 3 && AllDigits(bare[k + 1..]))
  }

  function ReadBare(bare: string): nat
    requires ReadableBare(bare)
  {
    var k := Find(bare, ',');
    if k < |bare| then ReaisAndCents(bare[..k], bare[k + 1..])
    else
      assert bare[..k] == bare;
      Num(bare) * 100
  }

  /** A value found in a message text: comma thousands, or anything readable once its dots are gone. */
  predicate Readable(s: string) {
    Thousands(s, ',') || ReadableBare(Without(s, '.'))
  }

  function ReadValue(s: string): nat
    requires Readable(s)
  {
    if Thousands(s, ',') then
      CommaThousandsReads(s);
      Num(Without(s, ',')) * 100
    else ReadBare(Without(s, '.'))
  }

  lemma CommaThousandsReads(s: string)
    requires Thousands(s, ',')
    ensures AllDigits(Without(s, ','))
  {
    ThousandsShape(s, ',');
    forall i | 0 <= i < |Without(s, ',')| ensures IsDigit(Without(s, ',')[i]) {
      var d := Without(s, ',')[i];
      assert d in Without(s, ',');
      var j :| 0 <= j < |s| && s[j] == d;
    }
  }

  lemma NotCommaThousands(s: string)
    requires TypedValue(s).Some?
    ensures !Thousands(s, ',')
  {
    if Thousands(s, ',') {
      ThousandsShape(s, ',');
      if PtbrThousandsDecimal(s) {
        PtbrDecimalShape(s);
      } else if PtbrThousands(s) {
        ThousandsShape(s, '.');
      } else if CommaDecimal(s) {
        var k := ShortDecimalShape(s, ',');
      } else if DotDecimal(s) {
        var k := ShortDecimalShape(s, '.');
      }
    }
  }

  lemma {:induction false} FindInJoined(a: string, b: string, c: char)
    requires c !in a
    ensures Find(a + b, c) == |a| + Find(b, c)
  {
    if a == [] {
      assert a + b == b;
    } else {
      assert (a + b)[1..] == a[1..] + b;
      FindInJoined(a[1..], b, c);
    }
  }

  lemma ReadsDecimal(w: string, p: string)
    requires PlainInteger(w) && 1 <= |p| <= 2 && AllDigits(p)
    ensures ReadableBare(w + ("," + p)) && ReadBare(w + ("," + p)) == ReaisAndCents(w, p)
  {
    var bare := w + ("," + p);
    FindInJoined(w, "," + p, ',');
    assert bare[..|w|] == w && bare[|w| + 1..] == p;
  }

  lemma ReadsWhole(w: string)
    requires PlainInteger(w)
    ensures ReadableBare(w) && ReadBare(w) == Num(w) * 100
  {
    assert Find(w, ',') == |w| && w[..|w|] == w;
  }

  lemma CommaTailKeepsDots(a: string, p: string)
    requires AllDigits(p)
    ensures Without(a + ("," + p), '.') == Without(a, '.') + ("," + p)
  {
    WithoutJoined(a, "," + p, '.');
    NothingToTakeOut("," + p, '.');
  }

  /** Powers of ten of the decimals behind a dot. */
  function DotDecimals(s: string): nat
    requires DotDecimal(s)
  {
    ReadableDecimal(s, '.');
    |s| - Find(s, '.') - 1
  }

  lemma GroupedDecimalReads(s: string)
    requires PtbrThousandsDecimal(s)
    ensures Readable(s) && ReadValue(s) == ThousandsValue(s[..|s| - 3]) * 100 + Num(s[|s| - 2..])
  {
    var a, p := s[..|s| - 3], s[|s| - 2..];
    assert s == a + ("," + p);
    NotCommaThousands(s);
    ReadableThousands(a);
    ThousandsShape(a, '.');
    assert a[0] in Without(a, '.');
    CommaTailKeepsDots(a, p);
    ReadsDecimal(Without(a, '.'), p);
  }

  lemma PartsOfDecimal(s: string, separator: char) returns (g: string, p: string)
    requires ShortDecimal(s, separator) && !IsDigit(separator)
    ensures s == g + ([separator] + p) && PlainInteger(g) && 1 <= |p| <= 2 && AllDigits(p)
    ensures DecimalValue(s, separator) == ReaisAndCents(g, p) && Find(s, separator) == |g|
  {
    ReadableDecimal(s, separator);
    var k := Find(s, separator);
    g, p := s[..k], s[k + 1..];
  }

  lemma CommaDecimalReads(s: string)
    requires CommaDecimal(s)
    ensures Readable(s) && ReadValue(s) == DecimalValue(s, ',')
  {
    TypedCommaDecimal(s);
    NotCommaThousands(s);
    var g, p := PartsOfDecimal(s, ',');
    assert s == g + ("," + p);
    CommaTailKeepsDots(g, p);
    NothingToTakeOut(g, '.');
    ReadsDecimal(g, p);
  }

  lemma ShiftedDecimal(g: string, p: string)
    requires PlainInteger(g) && 1 <= |p| <= 2 && AllDigits(p)
    ensures AllDigits(g + p) && Num(g + p) * 100 == ReaisAndCents(g, p) * Pow10(|p|)
  {
    NumOfJoined(g, p);
    assert Pow10(1) == 10 && Pow10(2) == 100;
  }

  lemma DotTailLosesItsDot(g: string, p: string)
    requires AllDigits(g) && AllDigits(p)
    ensures Without(g + (['.'] + p), '.') == g + p
  {
    WithoutJoined(g, ['.'] + p, '.');
    NothingToTakeOut(g, '.');
    TakeOutHead(p, '.');
  }

  lemma TakeOutHead(p: string, c: char)
    requires c !in p
    ensures Without([c] + p, c) == p
  {
    var s := [c] + p;
    assert s[1..] == p;
    NothingToTakeOut(p, c);
  }

  /** A dot before one or two digits: the reader takes the dot for a thousands separator. */
  lemma DotDecimalReads(s: string)
    requires DotDecimal(s)
    ensures Readable(s) && ReadValue(s) == DecimalValue(s, '.') * Pow10(DotDecimals(s))
  {
    FormatsAreDisjoint(s);
    NotCommaThousands(s);
    var g, p := PartsOfDecimal(s, '.');
    DotTailLosesItsDot(g, p);
    ShiftedDecimal(g, p);
    ReadsWhole(g + p);
    assert DotDecimals(s) == |p|;
  }

  /** The two conversions agree on every typed format but one: behind a dot, one or two decimals make the
      reader's amount ten or a hundred times the typed one. */
  lemma ParsersAgreeExceptOnDotDecimals(s: string)
    requires TypedValue(s).Some?
    ensures Readable(s)
    ensures ReadValue(s) == TypedValue(s).value * (if DotDecimal(s) then Pow10(DotDecimals(s)) else 1)
    ensures DotDecimal(s) ==> 1 <= DotDecimals(s) <= 2
  {
    FormatsAreDisjoint(s);
    if PtbrThousandsDecimal(s) {
      GroupedDecimalReads(s);
    } else if PtbrThousands(s) {
      NotCommaThousands(s);
      ReadableThousands(s);
      ThousandsShape(s, '.');
      assert s[0] in Without(s, '.');
      ReadsWhole(Without(s, '.'));
    } else if CommaDecimal(s) {
      CommaDecimalReads(s);
    } else if DotDecimal(s) {
      DotDecimalReads(s);
      ReadableDecimal(s, '.');
    } else {
      NotCommaThousands(s);
      NothingToTakeOut(s, '.');
      ReadsWhole(s);
    }
  }

  lemma TypedDotDecimal(s: string)
    requires DotDecimal(s)
    ensures TypedValue(s) == Some(DecimalValue(s, '.'))
  {
    FormatsAreDisjoint(s);
  }

  /** The typed value of a short decimal, by its parts. */
  lemma TypedParts(s: string, g: string, separator: char, p: string)
    requires separator in {',', '.'} && PlainInteger(g) && 1 <= |p| <= 2 && AllDigits(p)
    requires s == g + ([separator] + p)
    ensures TypedValue(s) == Some(ReaisAndCents(g, p))
  {
    DecimalOfParts(s, g, separator, p);
    if separator == ',' {
      TypedCommaDecimal(s);
    } else {
      TypedDotDecimal(s);
    }
  }

  /** One decimal means tens of cents: writing the zero behind it changes nothing. */
  lemma TrailingZeroChangesNothing(s: string, t: string, g: string, separator: char, p: string)
    requires separator in {',', '.'} && PlainInteger(g) && |p| == 1 && AllDigits(p)
    requires s == g + ([separator] + p) && t == g + ([separator] + (p + "0"))
    ensures TypedValue(s).Some? && TypedValue(t) == TypedValue(s)
  {
    ZeroTimesTen(p);
    TypedParts(s, g, separator, p);
    TypedParts(t, g, separator, p + "0");
  }

  lemma ZeroTimesTen(p: string)
    requires AllDigits(p)
    ensures AllDigits(p + "0") && Num(p + "0") == Num(p) * 10
  {
    assert (p + "0")[..|p|] == p;
  }

  /** A whole amount reads the same with its thousands dotted or not. */
  lemma WholeAmountsReadTheSame(n: nat)
    ensures TypedValue(Grouped(n)) == TypedValue(Digits(n)) == Some(n * 100)
  {
    GroupedValue(n);
    FormatsAreDisjoint(Grouped(n));
    FormatsAreDisjoint(Digits(n));
  }

  // ---------------------------------------------------------------------------------------------
  // Finding money in a text

  function SkipSpaces(text: string, p: nat): (q: nat)
    requires p <= |text|
    ensures p <= q <= |text|
    decreases |text| - p
  {
    if p == |text| || !IsSpace(text[p]) then p else SkipSpaces(text, p + 1)
  }

  predicate GroupAt(text: string, p: nat, separator: char) {
    p + 4 <= |text| && text[p] == separator && IsDigit(text[p + 1]) && IsDigit(text[p + 2]) && IsDigit(text[p + 3])
  }

  /** Past as many groups as there are. */
  function SkipGroups(text: string, p: nat, separator: char): (q: nat)
    requires p <= |text|
    ensures p <= q <= |text|
    decreases |text| - p
  {
    if GroupAt(text, p, separator) then SkipGroups(text, p + 4, separator) else p
  }

  /** Exactly two decimals behind a comma. */
  predicate DecimalsAt(text: string, p: nat) {
    p + 3 <= |text| && text[p] == ',' && IsDigit(text[p + 1]) && IsDigit(text[p + 2]) && !DigitAt(text, p + 3)
  }

  /** Where the value that starts at `p` ends: dotted thousands with optional decimals, comma thousands,
      plain decimals, or plain digits, tried in this order. */
  function ValueEnd(text: string, p: nat): (q: nat)
    requires DigitAt(text, p)
    ensures p < q <= |text|
  {
    var d := Lead(text, p);
    var dots := SkipGroups(text, p + d, '.');
    var commas := SkipGroups(text, p + d, ',');
    if d <= 3 && dots > p + d then (if DecimalsAt(text, dots) then dots + 3 else dots)
    else if d <= 3 && commas > p + d && !DigitAt(text, commas)
            && !(commas + 1 < |text| && text[commas] == ',' && IsDigit(text[commas + 1])) then commas
    else if DecimalsAt(text, p + d) then p + d + 3
    else p + d
  }

  predicate CharAt(text: string, p: nat, lower: char, upper: char) {
    p < |text| && text[p] in {lower, upper}
  }

  /** Past `R$` and spaces, if they are there. */
  function SkipCurrency(text: string, p: nat): (q: nat)
    requires p <= |text|
    ensures p <= q <= |text|
  {
    if CharAt(text, p, 'r', 'R') && CharAt(text, p + 1, '$', '$') then SkipSpaces(text, p + 2) else p
  }

  /** Past "12x" and an optional "de", if they are there. */
  function SkipInstallment(text: string, p: nat): (q: nat)
    requires p <= |text|
    ensures p <= q <= |text|
  {
    var d := Lead(text, p);
    var x := SkipSpaces(text, p + d);
    if !(1 <= d <= 2) || !CharAt(text, x, 'x', 'X') then p
    else
      var e := SkipSpaces(text, x + 1);
      if CharAt(text, e, 'd', 'D') && CharAt(text, e + 1, 'e', 'E') && SkipSpaces(text, e + 2) > e + 2
      then SkipSpaces(text, e + 2) else e
  }

  /** One find: where it starts, its value, and what stands before the value. */
  datatype Money = Money(start: nat, value: nat, end: nat, installment: bool, currency: bool)

  /** The find at `p`. The installment prefix counts only when a value follows it. */
  function MoneyAt(text: string, p: nat): (m: Option<Money>)
    requires p <= |text|
    ensures m.Some? ==> m.value.start == p <= m.value.value < m.value.end <= |text|
  {
    var i := SkipInstallment(text, p);
    var c := SkipCurrency(text, i);
    if i > p && DigitAt(text, c) then Some(Money(p, c, ValueEnd(text, c), true, c > i))
    else
      var c0 := SkipCurrency(text, p);
      if DigitAt(text, c0) then Some(Money(p, c0, ValueEnd(text, c0), false, c0 > p)) else None
  }

  /** All finds, left to right, none overlapping another. */
  function Finds(text: string, p: nat): seq<Money>
    requires p <= |text|
    decreases |text| - p
  {
    var m := MoneyAt(text, p);
    if m.Some? then [m.value] + Finds(text, m.value.end)
    else if p == |text| then []
    else Finds(text, p + 1)
  }

  // ---------------------------------------------------------------------------------------------
  // Printed prices in a text

  lemma {:induction false} GroupsAreSkipped(text: string, p: nat, q: nat, separator: char)
    requires p <= q <= |text| && Groups(text[p..q], separator) && (q < |text| ==> text[q] != separator)
    ensures SkipGroups(text, p, separator) == q
    decreases q - p
  {
    var s := text[p..q];
    assert s[0] == text[p] && s[1..4][0] == text[p + 1] && s[1..4][1] == text[p + 2] && s[1..4][2] == text[p + 3];
    if |s| > 4 {
      assert s[4..] == text[p + 4..q];
      GroupsAreSkipped(text, p + 4, q, separator);
    } else {
      assert SkipGroups(text, q, separator) == q;
    }
  }

  lemma PlainValueEnds(text: string, p: nat, comma: nat)
    requires p < comma < |text| && AllDigits(text[p..comma]) && DecimalsAt(text, comma)
    ensures DigitAt(text, p) && ValueEnd(text, p) == comma + 3
  {
    LeadIs(text, p, comma - p);
    assert text[p] == text[p..comma][0];
    assert !GroupAt(text, comma, '.') && !GroupAt(text, comma, ',');
  }

  lemma PrintedLayout(text: string, p: nat, cents: nat)
    requires p <= |text| && text[p..] == Printed(cents)
    ensures var comma := p + |Grouped(cents / 100)|;
            p < comma && comma + 3 == |text| && text[p..comma] == Grouped(cents / 100) && DecimalsAt(text, comma)
  {
    PrintedParts(cents);
    var comma := p + |Grouped(cents / 100)|;
    var s := Printed(cents);
    assert forall i :: 0 <= i < |s| ==> text[p + i] == s[i];
    var tail := s[|Grouped(cents / 100)| + 1..];
    assert tail[0] == text[comma + 1] && tail[1] == text[comma + 2];
    assert text[p..comma] == s[..|Grouped(cents / 100)|];
  }

  /** A value printed at the end of a text is found whole. */
  lemma PrintedValueEnds(text: string, p: nat, cents: nat)
    requires p <= |text| && text[p..] == Printed(cents)
    ensures DigitAt(text, p) && ValueEnd(text, p) == |text|
  {
    var comma := p + |Grouped(cents / 100)|;
    PrintedLayout(text, p, cents);
    GroupedValue(cents / 100);
    if PtbrThousands(Grouped(cents / 100)) {
      GroupedValueEnds(text, p, comma);
    } else {
      PlainValueEnds(text, p, comma);
    }
  }

  lemma GroupedValueEnds(text: string, p: nat, comma: nat)
    requires p <= comma < |text| && PtbrThousands(text[p..comma]) && DecimalsAt(text, comma)
    ensures DigitAt(text, p) && ValueEnd(text, p) == comma + 3
  {
    var g := text[p..comma];
    var k := Lead(g, 0);
    assert g[0..k] == text[p..p + k] && g[k..] == text[p + k..comma];
    assert text[p] == g[0..k][0] && text[p + k] == g[k..][0];
    LeadIs(text, p, k);
    GroupsAreSkipped(text, p + k, comma, '.');
  }

  lemma PrintedHasNoInstallment(text: string, p: nat)
    requires p < |text| && !IsDigit(text[p])
    ensures SkipInstallment(text, p) == p
  {
    assert Lead(text, p) == 0;
  }

  lemma PrintedMoneyAt(text: string, p: nat, cents: nat)
    requires p + 3 <= |text| && text[p] == 'R' && text[p + 1] == '$' && text[p + 2] == ' ' && text[p + 3..] == Printed(cents)
    ensures MoneyAt(text, p) == Some(Money(p, p + 3, |text|, false, true))
    ensures Finds(text, p) == [Money(p, p + 3, |text|, false, true)]
  {
    PrintedValueEnds(text, p + 3, cents);
    PrintedHasNoInstallment(text, p);
    assert SkipSpaces(text, p + 2) == p + 3;
    assert SkipCurrency(text, p) == p + 3;
    NothingAtTheEnd(text);
  }

  /** What is printed holds exactly one find: its whole amount, with its currency and no installment. */
  lemma PrintedIsOneFind(cents: int)
    ensures var text := FormatPrice(cents);
            var sign := if cents < 0 then 1 else 0;
            Finds(text, 0) == [Money(sign, sign + 3, |text|, false, true)]
            && text[sign + 3..] == Printed(if cents < 0 then -cents else cents)
  {
    var text := FormatPrice(cents);
    if cents < 0 {
      assert text[1 + 3..] == Printed(-cents);
      PrintedMoneyAt(text, 1, -cents);
      PrintedHasNoInstallment(text, 0);
      assert SkipCurrency(text, 0) == 0 && MoneyAt(text, 0) == None;
    } else {
      assert text[3..] == Printed(cents);
      PrintedMoneyAt(text, 0, cents);
    }
  }

  lemma NothingAtTheEnd(text: string)
    ensures Finds(text, |text|) == []
  {
    assert Lead(text, |text|) == 0;
  }

  // ---------------------------------------------------------------------------------------------
  // Choosing the price

  datatype Span = Span(start: nat, end: nat)

  datatype Candidate = Candidate(cents: nat, installment: bool, span: Span)

  /** Where the anchor words are: cash ("a vista", "pix"), card ("cartao", "parcelado"), and the coupon
      words whose value stands behind ("cupom") or in front ("off", "desconto") of them. */
  datatype Anchors = Anchors(cash: seq<Span>, card: seq<Span>, couponBefore: seq<Span>, couponAfter: seq<Span>)

  datatype Extraction = Extraction(price: Option<nat>, ambiguous: bool, cash: Option<nat>, card: Option<nat>)

  const NOTHING := Extraction(None, false, None, None)

  lemma {:induction false} GroupsSkippedAreGroups(text: string, p: nat, separator: char)
    requires p <= |text|
    ensures var q := SkipGroups(text, p, separator); q == p || Groups(text[p..q], separator)
    decreases |text| - p
  {
    if GroupAt(text, p, separator) {
      GroupsSkippedAreGroups(text, p + 4, separator);
      var q := SkipGroups(text, p, separator);
      var s := text[p..q];
      assert s[1..4] == text[p + 1..p + 4] && s[4..] == text[p + 4..q];
    }
  }

  lemma ThousandsOfParts(a: string, b: string, separator: char)
    requires 1 <= |a| <= 3 && AllDigits(a) && Groups(b, separator) && !IsDigit(separator)
    ensures Thousands(a + b, separator)
  {
    var s := a + b;
    assert s[0..|a|] == a && s[|a|..] == b && s[|a|] == b[0];
    LeadIs(s, 0, |a|);
  }

  lemma SliceIsThousands(text: string, p: nat, m: nat, q: nat, separator: char)
    requires p < m <= q <= |text| && m - p <= 3 && AllDigits(text[p..m]) && Groups(text[m..q], separator) && !IsDigit(separator)
    ensures Thousands(text[p..q], separator)
  {
    ThousandsOfParts(text[p..m], text[m..q], separator);
    assert text[p..q] == text[p..m] + text[m..q];
  }

  lemma DottedIsReadable(s: string, p: string)
    requires PtbrThousands(s) && (p == [] || (|p| == 3 && p[0] == ',' && AllDigits(p[1..])))
    ensures Readable(s + p)
  {
    ReadableThousands(s);
    ThousandsShape(s, '.');
    assert s[0] in Without(s, '.');
    if p == [] {
      assert s + p == s;
      ReadsWhole(Without(s, '.'));
    } else {
      assert p == "," + p[1..];
      CommaTailKeepsDots(s, p[1..]);
      ReadsDecimal(Without(s, '.'), p[1..]);
    }
  }

  lemma PlainIsReadable(s: string, p: string)
    requires PlainInteger(s) && (p == [] || (|p| == 3 && p[0] == ',' && AllDigits(p[1..])))
    ensures Readable(s + p)
  {
    NothingToTakeOut(s, '.');
    if p == [] {
      assert s + p == s;
      ReadsWhole(s);
    } else {
      assert p == "," + p[1..];
      CommaTailKeepsDots(s, p[1..]);
      ReadsDecimal(s, p[1..]);
    }
  }

  lemma DottedFind(text: string, p: nat, dots: nat)
    requires DigitAt(text, p) && Lead(text, p) <= 3
    requires dots == SkipGroups(text, p + Lead(text, p), '.') > p + Lead(text, p)
    ensures PtbrThousands(text[p..dots])
  {
    GroupsSkippedAreGroups(text, p + Lead(text, p), '.');
    SliceIsThousands(text, p, p + Lead(text, p), dots, '.');
  }

  /** Where the decimals of a find may end: right there, or past a comma and two digits. */
  predicate TailEnds(text: string, m: nat, q: nat) {
    q == m <= |text| || (DecimalsAt(text, m) && q == m + 3)
  }

  lemma DottedFindIsReadable(text: string, p: nat, dots: nat, q: nat)
    requires p < dots <= |text| && PtbrThousands(text[p..dots]) && TailEnds(text, dots, q)
    ensures Readable(text[p..q])
  {
    assert text[p..q] == text[p..dots] + text[dots..q];
    DottedIsReadable(text[p..dots], text[dots..q]);
  }

  lemma PlainFindIsReadable(text: string, p: nat, m: nat, q: nat)
    requires p < m <= |text| && AllDigits(text[p..m]) && TailEnds(text, m, q)
    ensures Readable(text[p..q])
  {
    assert text[p..q] == text[p..m] + text[m..q];
    PlainIsReadable(text[p..m], text[m..q]);
  }

  lemma CommaFindIsReadable(text: string, p: nat, commas: nat)
    requires DigitAt(text, p) && Lead(text, p) <= 3
    requires commas == SkipGroups(text, p + Lead(text, p), ',') > p + Lead(text, p)
    ensures Readable(text[p..commas])
  {
    GroupsSkippedAreGroups(text, p + Lead(text, p), ',');
    SliceIsThousands(text, p, p + Lead(text, p), commas, ',');
  }

  /** Where a find ends, case by case. */
  lemma ValueEndCases(text: string, p: nat)
    requires DigitAt(text, p)
    ensures var d, q := Lead(text, p), ValueEnd(text, p);
            var dots := SkipGroups(text, p + d, '.');
            || (d <= 3 && dots > p + d && TailEnds(text, dots, q))
            || TailEnds(text, p + d, q)
            || (d <= 3 && q == SkipGroups(text, p + d, ',') > p + d)
  {
  }

  /** Every value found can be converted: the conversion never fails on a message. */
  lemma FoundValuesAreReadable(text: string, p: nat)
    requires DigitAt(text, p)
    ensures Readable(text[p..ValueEnd(text, p)])
  {
    var d, q := Lead(text, p), ValueEnd(text, p);
    var dots := SkipGroups(text, p + d, '.');
    ValueEndCases(text, p);
    if d <= 3 && dots > p + d && TailEnds(text, dots, q) {
      DottedFind(text, p, dots);
      DottedFindIsReadable(text, p, dots, q);
    } else if TailEnds(text, p + d, q) {
      PlainFindIsReadable(text, p, p + d, q);
    } else {
      CommaFindIsReadable(text, p, q);
    }
  }

  lemma CommaGroupsAreSkipped(s: string)
    requires Thousands(s, ',')
    ensures Lead(s, 0) < |s| && s[Lead(s, 0)] == ',' && SkipGroups(s, Lead(s, 0), ',') == |s|
  {
    var d := Lead(s, 0);
    assert s[d..|s|] == s[d..] && s[d] == s[d..][0];
    GroupsAreSkipped(s, d, |s|, ',');
  }

  /** A number with comma thousands is found whole, never cut after two digits. */
  lemma CommaThousandsAreFoundWhole(s: string)
    requires Thousands(s, ',')
    ensures DigitAt(s, 0) && ValueEnd(s, 0) == |s|
  {
    CommaGroupsAreSkipped(s);
    assert SkipGroups(s, Lead(s, 0), '.') == Lead(s, 0);
  }

  predicate IsFind(text: string, m: Money) {
    m.start <= m.value < m.end <= |text| && DigitAt(text, m.value) && m.end == ValueEnd(text, m.value)
  }

  lemma {:induction false} FindsAreFinds(text: string, p: nat)
    requires p <= |text|
    ensures forall m :: m in Finds(text, p) ==> IsFind(text, m)
    decreases |text| - p
  {
    var m := MoneyAt(text, p);
    if m.Some? {
      FindsAreFinds(text, m.value.end);
    } else if p < |text| {
      FindsAreFinds(text, p + 1);
    }
  }

  /** A bare number is a price only behind `R$` or with a comma. */
  predicate Counts(text: string, m: Money)
    requires IsFind(text, m)
  {
    m.currency || ',' in text[m.value..m.end]
  }

  function CandidateOf(text: string, m: Money): Candidate
    requires IsFind(text, m)
  {
    FoundValuesAreReadable(text, m.value);
    Candidate(ReadValue(text[m.value..m.end]), m.installment, Span(m.start, m.end))
  }

  function Counted(text: string, m: Money): seq<Candidate>
    requires IsFind(text, m)
  {
    if Counts(text, m) then [CandidateOf(text, m)] else []
  }

  function Candidates(text: string, finds: seq<Money>): seq<Candidate>
    requires forall m :: m in finds ==> IsFind(text, m)
  {
    if finds == [] then [] else Counted(text, finds[0]) + Candidates(text, finds[1..])
  }

  function Distance(position: nat, c: Candidate): nat {
    if position < c.span.start then c.span.start - position
    else if position > c.span.end then position - c.span.end
    else 0
  }

  /** The first of the nearest candidates. */
  function Nearest(position: nat, candidates: seq<Candidate>): (n: Option<Candidate>)
    ensures n.None? <==> candidates == []
    ensures n.Some? ==> n.value in candidates && forall c :: c in candidates ==> Distance(position, n.value) <= Distance(position, c)
  {
    if candidates == [] then None
    else
      var rest := Nearest(position, candidates[1..]);
      assert forall c :: c in candidates ==> c == candidates[0] || c in candidates[1..];
      if rest.None? || Distance(position, candidates[0]) <= Distance(position, rest.value) then Some(candidates[0])
      else rest
  }

  function Behind(position: nat, candidates: seq<Candidate>): (r: seq<Candidate>)
    ensures forall c :: c in r <==> c in candidates && c.span.start >= position
  {
    if candidates == [] then []
    else (if candidates[0].span.start >= position then [candidates[0]] else []) + Behind(position, candidates[1..])
  }

  function InFront(position: nat, candidates: seq<Candidate>): (r: seq<Candidate>)
    ensures forall c :: c in r <==> c in candidates && c.span.end <= position
  {
    if candidates == [] then []
    else (if candidates[0].span.end <= position then [candidates[0]] else []) + InFront(position, candidates[1..])
  }

  predicate IsNoise(c: char) {
    IsSpace(c) || c in ",:*_~-"
  }

  function SkipNoise(text: string, p: nat, end: nat): (q: nat)
    requires p <= end <= |text|
    ensures p <= q <= end
    decreases end - p
  {
    if p == end || !IsNoise(text[p]) then p else SkipNoise(text, p + 1, end)
  }

  /** Between an anchor and its value there is only space, punctuation, and at most one "de". */
  predicate IsConnector(text: string, start: nat, end: nat) {
    && start <= end <= |text|
    && var k := SkipNoise(text, start, end);
       k == end
       || (k + 2 < end && CharAt(text, k, 'd', 'D') && CharAt(text, k + 1, 'e', 'E') && IsSpace(text[k + 2])
           && SkipNoise(text, k + 2, end) == end)
  }

  predicate CouponBehind(text: string, anchor: Span, candidates: seq<Candidate>, c: Candidate) {
    Nearest(anchor.end, Behind(anchor.end, candidates)) == Some(c) && IsConnector(text, anchor.end, c.span.start)
  }

  predicate CouponInFront(text: string, anchor: Span, candidates: seq<Candidate>, c: Candidate) {
    Nearest(anchor.start, InFront(anchor.start, candidates)) == Some(c) && IsConnector(text, c.span.end, anchor.start)
  }

  predicate AnyBehind(text: string, anchors: seq<Span>, candidates: seq<Candidate>, c: Candidate) {
    exists i :: 0 <= i < |anchors| && CouponBehind(text, anchors[i], candidates, c)
  }

  predicate AnyInFront(text: string, anchors: seq<Span>, candidates: seq<Candidate>, c: Candidate) {
    exists i :: 0 <= i < |anchors| && CouponInFront(text, anchors[i], candidates, c)
  }

  /** The value of a coupon, and so never the price. */
  predicate IsCoupon(text: string, anchors: Anchors, candidates: seq<Candidate>, c: Candidate) {
    AnyBehind(text, anchors.couponBefore, candidates, c) || AnyInFront(text, anchors.couponAfter, candidates, c)
  }

  function Unexcluded(candidates: seq<Candidate>, excluded: set<Candidate>): (r: seq<Candidate>)
    ensures forall c :: c in r <==> c in candidates && c !in excluded
  {
    if candidates == [] then []
    else (if candidates[0] in excluded then [] else [candidates[0]]) + Unexcluded(candidates[1..], excluded)
  }

  lemma OneMoreBehind(text: string, anchors: seq<Span>, anchor: Span, candidates: seq<Candidate>)
    ensures forall c :: AnyBehind(text, anchors + [anchor], candidates, c) <==>
      AnyBehind(text, anchors, candidates, c) || CouponBehind(text, anchor, candidates, c)
  {
    var more := anchors + [anchor];
    assert more[|anchors|] == anchor;
    forall c | AnyBehind(text, anchors, candidates, c) ensures AnyBehind(text, more, candidates, c) {
      var i :| 0 <= i < |anchors| && CouponBehind(text, anchors[i], candidates, c);
      assert more[i] == anchors[i];
    }
  }

  lemma OneMoreInFront(text: string, anchors: seq<Span>, anchor: Span, candidates: seq<Candidate>)
    ensures forall c :: AnyInFront(text, anchors + [anchor], candidates, c) <==>
      AnyInFront(text, anchors, candidates, c) || CouponInFront(text, anchor, candidates, c)
  {
    var more := anchors + [anchor];
    assert more[|anchors|] == anchor;
    forall c | AnyInFront(text, anchors, candidates, c) ensures AnyInFront(text, more, candidates, c) {
      var i :| 0 <= i < |anchors| && CouponInFront(text, anchors[i], candidates, c);
      assert more[i] == anchors[i];
    }
  }

  method CouponsBehind(text: string, anchors: seq<Span>, candidates: seq<Candidate>) returns (excluded: set<Candidate>)
    ensures forall c :: c in excluded <==> AnyBehind(text, anchors, candidates, c)
  {
    excluded := {};
    var i := 0;
    while i < |anchors|
      invariant 0 <= i <= |anchors|
      invariant forall c :: c in excluded <==> AnyBehind(text, anchors[..i], candidates, c)
    {
      var anchor := anchors[i];
      var nearest := Nearest(anchor.end, Behind(anchor.end, candidates));
      assert anchors[..i + 1] == anchors[..i] + [anchor];
      OneMoreBehind(text, anchors[..i], anchor, candidates);
      if nearest.Some? && IsConnector(text, anchor.end, nearest.value.span.start) {
        excluded := excluded + {nearest.value};
      }
      i := i + 1;
    }
    assert anchors[..i] == anchors;
  }

  method CouponsInFront(text: string, anchors: seq<Span>, candidates: seq<Candidate>) returns (excluded: set<Candidate>)
    ensures forall c :: c in excluded <==> AnyInFront(text, anchors, candidates, c)
  {
    excluded := {};
    var i := 0;
    while i < |anchors|
      invariant 0 <= i <= |anchors|
      invariant forall c :: c in excluded <==> AnyInFront(text, anchors[..i], candidates, c)
    {
      var anchor := anchors[i];
      var nearest := Nearest(anchor.start, InFront(anchor.start, candidates));
      assert anchors[..i + 1] == anchors[..i] + [anchor];
      OneMoreInFront(text, anchors[..i], anchor, candidates);
      if nearest.Some? && IsConnector(text, nearest.value.span.end, anchor.start) {
        excluded := excluded + {nearest.value};
      }
      i := i + 1;
    }
    assert anchors[..i] == anchors;
  }

  lemma {:induction false} UnexcludedAgree(candidates: seq<Candidate>, a: set<Candidate>, b: set<Candidate>)
    requires forall c :: c in candidates ==> (c in a <==> c in b)
    ensures Unexcluded(candidates, a) == Unexcluded(candidates, b)
  {
    if candidates != [] {
      assert candidates[0] in candidates;
      UnexcludedAgree(candidates[1..], a, b);
    }
  }

  function CouponValues(text: string, anchors: Anchors, candidates: seq<Candidate>): (r: set<Candidate>)
    ensures forall c :: c in r <==> c in candidates && IsCoupon(text, anchors, candidates, c)
  {
    set c | c in candidates && IsCoupon(text, anchors, candidates, c)
  }

  /** Every anchor takes out the nearest value on its own side, if only a connector lies between. */
  method DropCouponCandidates(text: string, anchors: Anchors, candidates: seq<Candidate>) returns (kept: seq<Candidate>)
    ensures kept == Unexcluded(candidates, CouponValues(text, anchors, candidates))
    ensures forall c :: c in kept <==> c in candidates && !IsCoupon(text, anchors, candidates, c)
  {
    var behind := CouponsBehind(text, anchors.couponBefore, candidates);
    var inFront := CouponsInFront(text, anchors.couponAfter, candidates);
    kept := Unexcluded(candidates, behind + inFront);
    UnexcludedAgree(candidates, behind + inFront, CouponValues(text, anchors, candidates));
  }

  function Others(candidates: seq<Candidate>, c: Candidate): (r: seq<Candidate>)
    ensures forall d :: d in r <==> d in candidates && d != c
  {
    Unexcluded(candidates, {c})
  }

  function Installments(candidates: seq<Candidate>): (r: seq<Candidate>)
    ensures forall c :: c in r <==> c in candidates && c.installment
  {
    if candidates == [] then []
    else (if candidates[0].installment then [candidates[0]] else []) + Installments(candidates[1..])
  }

  function Midpoint(s: Span): nat {
    (s.start + s.end) / 2
  }

  /** One cash anchor and one way to tell a different card value, or nothing. */
  function CashAndCard(anchors: Anchors, kept: seq<Candidate>): (r: Option<(nat, nat)>)
    ensures r.Some? ==>
      r.value.0 != r.value.1 && (exists c :: c in kept && c.cents == r.value.0) && (exists c :: c in kept && c.cents == r.value.1)
  {
    if |anchors.cash| != 1 then None
    else
      var cash := Nearest(Midpoint(anchors.cash[0]), kept);
      if cash.None? then None
      else
        var rest := Others(kept, cash.value);
        var installments := Installments(rest);
        var card :=
          if |anchors.card| == 1 then Nearest(Midpoint(anchors.card[0]), rest)
          else if |anchors.card| == 0 && |installments| == 1 then Some(installments[0])
          else None;
        if card.None? || cash.value.cents == card.value.cents then None
        else
          assert card.value in kept;
          Some((cash.value.cents, card.value.cents))
  }

  /** The least amount of the totals, or of everything when `all` is set. */
  function Amounts(candidates: seq<Candidate>, all: bool): set<nat> {
    set c | c in candidates && (all || !c.installment) :: c.cents
  }

  function Least(amounts: set<nat>): (m: nat)
    requires amounts != {}
    ensures m in amounts && forall a :: a in amounts ==> m <= a
  {
    LeastExists(amounts);
    var m :| m in amounts && forall a :: a in amounts ==> m <= a;
    m
  }

  lemma {:induction false} LeastOf(amounts: set<nat>) returns (m: nat)
    requires amounts != {}
    ensures m in amounts && forall a :: a in amounts ==> m <= a
    decreases |amounts|
  {
    var x :| x in amounts;
    m := x;
    if amounts - {x} != {} {
      var least := LeastOf(amounts - {x});
      m := if x <= least then x else least;
    }
    forall a | a in amounts ensures m <= a {
      assert a == x || a in amounts - {x};
    }
  }

  lemma LeastExists(amounts: set<nat>)
    requires amounts != {}
    ensures exists m :: m in amounts && forall a :: a in amounts ==> m <= a
  {
    var m := LeastOf(amounts);
  }

  function Choose(anchors: Anchors, kept: seq<Candidate>): Extraction {
    var dual := if |kept| > 1 then CashAndCard(anchors, kept) else None;
    if kept == [] then NOTHING
    else if dual.Some? then Extraction(Some(dual.value.0), false, Some(dual.value.0), Some(dual.value.1))
    else if |kept| == 1 then Extraction(Some(kept[0].cents), false, None, None)
    else
      var totals, everything := Amounts(kept, false), Amounts(kept, true);
      if totals != {} then Extraction(Some(Least(totals)), |totals| > 1, None, None)
      else if |everything| == 1 then Extraction(Some(Least(everything)), false, None, None)
      else Extraction(None, true, None, None)
  }

  lemma CandidatesFromHere(text: string, finds: seq<Money>, i: nat, before: seq<Candidate>, more: seq<Candidate>)
    requires i < |finds| && (forall m :: m in finds ==> IsFind(text, m)) && more == Counted(text, finds[i])
    ensures before + Candidates(text, finds[i..]) == before + more + Candidates(text, finds[i + 1..])
  {
    assert finds[i..][0] == finds[i] && finds[i..][1..] == finds[i + 1..];
  }

  method CollectCandidates(text: string, finds: seq<Money>) returns (candidates: seq<Candidate>)
    requires forall m :: m in finds ==> IsFind(text, m)
    ensures candidates == Candidates(text, finds)
  {
    candidates := [];
    var i := 0;
    while i < |finds|
      invariant 0 <= i <= |finds|
      invariant candidates + Candidates(text, finds[i..]) == Candidates(text, finds)
    {
      var more := Counted(text, finds[i]);
      CandidatesFromHere(text, finds, i, candidates, more);
      candidates := candidates + more;
      i := i + 1;
    }
  }

  /** What may become the price: every candidate of the text that is no coupon's value. */
  function Kept(text: string, anchors: Anchors): seq<Candidate> {
    FindsAreFinds(text, 0);
    var candidates := Candidates(text, Finds(text, 0));
    Unexcluded(candidates, CouponValues(text, anchors, candidates))
  }

  method ExtractPrice(text: string, anchors: Anchors) returns (r: Extraction)
    ensures r == Choose(anchors, Kept(text, anchors))
  {
    FindsAreFinds(text, 0);
    var candidates := CollectCandidates(text, Finds(text, 0));
    var kept := DropCouponCandidates(text, anchors, candidates);
    r := Choose(anchors, kept);
  }

  ghost predicate Offers(kept: seq<Candidate>, cents: nat) {
    exists c :: c in kept && c.cents == cents
  }

  ghost predicate OffersTotal(kept: seq<Candidate>, cents: nat) {
    exists c :: c in kept && !c.installment && c.cents == cents
  }

  /** Two of the totals, or two of all the values when `all` is set, are different amounts. */
  ghost predicate Differ(kept: seq<Candidate>, all: bool) {
    exists a, b :: a in Amounts(kept, all) && b in Amounts(kept, all) && a != b
  }

  lemma TwoAmounts(kept: seq<Candidate>, all: bool)
    ensures |Amounts(kept, all)| > 1 <==> Differ(kept, all)
  {
    var amounts := Amounts(kept, all);
    if amounts != {} {
      var a :| a in amounts;
      if b :| b in amounts && b != a {
        assert b in amounts - {a};
        assert |amounts - {a}| >= 1;
      } else {
        assert amounts == {a};
      }
    }
  }

  /** The price chosen is always one of the values kept; the two-price form is two different ones, and its
      price is the cash one. */
  lemma ChosenPriceIsOffered(anchors: Anchors, kept: seq<Candidate>)
    ensures var r := Choose(anchors, kept);
            && (r.price.Some? ==> Offers(kept, r.price.value))
            && (r.cash.Some? <==> r.card.Some?)
            && (r.cash.Some? ==> r.price == r.cash && r.cash != r.card && !r.ambiguous && Offers(kept, r.card.value))
            && (kept == [] ==> r == NOTHING)
  {
    var r := Choose(anchors, kept);
    if |kept| >= 1 {
      assert kept[0] in kept;
    }
    if r.price.Some? && r.cash.None? && |kept| > 1 {
      assert r.price.value in Amounts(kept, true);
      var c :| c in kept && c.cents == r.price.value;
    }
  }

  /** Without a two-price split, several values make the price the least total, flagged exactly when the
      totals differ; with installments only there is a price exactly when they all agree. */
  lemma LeastTotalIsChosen(anchors: Anchors, kept: seq<Candidate>)
    requires |kept| > 1 && Choose(anchors, kept).cash.None?
    ensures var r := Choose(anchors, kept);
            if exists c :: c in kept && !c.installment then
              && r.price.Some? && OffersTotal(kept, r.price.value) && (r.ambiguous <==> Differ(kept, false))
              && (forall c :: c in kept && !c.installment ==> r.price.value <= c.cents)
            else
              (r.price.Some? <==> !Differ(kept, true)) && (r.ambiguous <==> Differ(kept, true))
  {
    TwoAmounts(kept, false);
    TwoAmounts(kept, true);
    var totals, everything := Amounts(kept, false), Amounts(kept, true);
    assert kept[0] in kept && kept[0].cents in everything;
    forall c | c in kept && !c.installment ensures c.cents in totals {
    }
    if exists c :: c in kept && !c.installment {
      assert Least(totals) in totals;
    } else {
      assert totals == {};
    }
  }

  // ---------------------------------------------------------------------------------------------
  // Two prices: when they are told apart, and which is the lower

  /** The first of the candidates no other one is nearer than. */
  ghost predicate IsNearest(position: nat, candidates: seq<Candidate>, c: Candidate) {
    exists i :: 0 <= i < |candidates| && candidates[i] == c && FirstNearest(position, candidates, i)
  }

  ghost predicate FirstNearest(position: nat, candidates: seq<Candidate>, i: nat)
    requires i < |candidates|
  {
    && (forall j :: 0 <= j < |candidates| ==> Distance(position, candidates[i]) <= Distance(position, candidates[j]))
    && forall j :: 0 <= j < i ==> Distance(position, candidates[i]) < Distance(position, candidates[j])
  }

  lemma {:induction false} NearestIsNearest(position: nat, candidates: seq<Candidate>, c: Candidate)
    ensures Nearest(position, candidates) == Some(c) <==> IsNearest(position, candidates, c)
  {
    var n := Nearest(position, candidates);
    if n.Some? {
      NearestIsFirst(position, candidates);
    }
    if IsNearest(position, candidates, c) {
      var i :| 0 <= i < |candidates| && candidates[i] == c && FirstNearest(position, candidates, i);
      var k :| 0 <= k < |candidates| && candidates[k] == n.value && FirstNearest(position, candidates, k);
      assert Distance(position, candidates[i]) == Distance(position, candidates[k]);
      assert i == k;
    }
  }

  lemma {:induction false} NearestIsFirst(position: nat, candidates: seq<Candidate>)
    requires candidates != []
    ensures IsNearest(position, candidates, Nearest(position, candidates).value)
  {
    var rest := candidates[1..];
    var n := Nearest(position, candidates).value;
    if rest == [] || Distance(position, candidates[0]) <= Distance(position, Nearest(position, rest).value) {
      assert FirstNearest(position, candidates, 0);
    } else {
      NearestIsFirst(position, rest);
      var k :| 0 <= k < |rest| && rest[k] == n && FirstNearest(position, rest, k);
      FirstNearestFurtherOn(position, candidates, k);
      assert candidates[k + 1] == n;
    }
  }

  lemma FirstNearestFurtherOn(position: nat, candidates: seq<Candidate>, k: nat)
    requires k + 1 < |candidates| && FirstNearest(position, candidates[1..], k)
    requires Distance(position, candidates[k + 1]) < Distance(position, candidates[0])
    ensures FirstNearest(position, candidates, k + 1)
  {
    var rest := candidates[1..];
    forall j | 0 <= j < |candidates| ensures Distance(position, candidates[k + 1]) <= Distance(position, candidates[j]) {
      assert j > 0 ==> candidates[j] == rest[j - 1];
    }
    forall j | 0 <= j < k + 1 ensures Distance(position, candidates[k + 1]) < Distance(position, candidates[j]) {
      assert j > 0 ==> candidates[j] == rest[j - 1];
    }
  }

  /** `c` stands by the one cash anchor. */
  ghost predicate StandsByCash(anchors: Anchors, kept: seq<Candidate>, c: Candidate) {
    |anchors.cash| == 1 && IsNearest((anchors.cash[0].start + anchors.cash[0].end) / 2, kept, c)
  }

  /** Of the values other than `c`, `d` stands by the one card anchor, or is the one installment of a text
      without any. */
  ghost predicate StandsByCard(anchors: Anchors, kept: seq<Candidate>, c: Candidate, d: Candidate) {
    if |anchors.card| == 1 then IsNearest((anchors.card[0].start + anchors.card[0].end) / 2, Others(kept, c), d)
    else |anchors.card| == 0 && Installments(Others(kept, c)) == [d]
  }

  /** With a value by each anchor, two prices are read unless the amounts agree, and they are these two. */
  lemma AnchoredPricesAreRead(anchors: Anchors, kept: seq<Candidate>, c: Candidate, d: Candidate)
    requires StandsByCash(anchors, kept, c) && StandsByCard(anchors, kept, c, d)
    ensures var r := Choose(anchors, kept);
            && (r.cash.Some? <==> c.cents != d.cents)
            && (r.cash.Some? ==> r.cash == Some(c.cents) && r.card == Some(d.cents) && r.price == r.cash)
  {
    NearestIsNearest(Midpoint(anchors.cash[0]), kept, c);
    var rest := Others(kept, c);
    if |anchors.card| == 1 {
      NearestIsNearest(Midpoint(anchors.card[0]), rest, d);
    } else {
      assert d in Installments(rest);
    }
    assert c in kept && d in rest;
    assert |kept| > 1 by {
      var i :| 0 <= i < |kept| && kept[i] == c;
      var j :| 0 <= j < |kept| && kept[j] == d;
      assert i != j;
    }
  }

  /** And whenever two prices are read, there are two such values. */
  lemma TwoPricesStandByTheirAnchors(anchors: Anchors, kept: seq<Candidate>) returns (c: Candidate, d: Candidate)
    requires Choose(anchors, kept).cash.Some?
    ensures StandsByCash(anchors, kept, c) && StandsByCard(anchors, kept, c, d)
  {
    c := Nearest(Midpoint(anchors.cash[0]), kept).value;
    NearestIsNearest(Midpoint(anchors.cash[0]), kept, c);
    var rest := Others(kept, c);
    if |anchors.card| == 1 {
      d := Nearest(Midpoint(anchors.card[0]), rest).value;
      NearestIsNearest(Midpoint(anchors.card[0]), rest, d);
    } else {
      d := Installments(rest)[0];
    }
  }

  /** Two prices are read exactly when two different amounts stand by the cash and by the card anchor; and the
      cash price is at most the card price exactly when the value by the cash anchor is at most the other. */
  lemma CashIsLowerIffItStandsLower(anchors: Anchors, kept: seq<Candidate>)
    ensures var r := Choose(anchors, kept);
            && (r.cash.Some? <==> exists c, d ::
                  StandsByCash(anchors, kept, c) && StandsByCard(anchors, kept, c, d) && c.cents != d.cents)
            && (r.cash.Some? ==> (r.cash.value <= r.card.value <==> exists c, d ::
                  StandsByCash(anchors, kept, c) && StandsByCard(anchors, kept, c, d) && c.cents <= d.cents))
  {
    var r := Choose(anchors, kept);
    if r.cash.Some? {
      var c, d := TwoPricesStandByTheirAnchors(anchors, kept);
      AnchoredPricesAreRead(anchors, kept, c, d);
    }
    forall c, d | StandsByCash(anchors, kept, c) && StandsByCard(anchors, kept, c, d)
      ensures r.cash.Some? <==> c.cents != d.cents
      ensures r.cash.Some? ==> r.cash == Some(c.cents) && r.card == Some(d.cents)
    {
      AnchoredPricesAreRead(anchors, kept, c, d);
    }
  }

  /** Neither a digit nor the second half of `R$` stands at `i`. */
  ghost predicate NoMoneySign(text: string, i: nat) {
    i < |text| ==> !IsDigit(text[i]) && text[i] != '$'
  }

  lemma NoMoneyHere(text: string, p: nat)
    requires p < |text| && NoMoneySign(text, p) && (p + 1 < |text| ==> text[p + 1] != '$')
    ensures Finds(text, p) == Finds(text, p + 1)
  {
    assert Lead(text, p) == 0 && SkipInstallment(text, p) == p && SkipCurrency(text, p) == p;
  }

  lemma {:induction false} NoMoneyUntil(text: string, p: nat, q: nat)
    requires p <= q <= |text| && forall i :: p <= i < q ==> NoMoneySign(text, i)
    requires q == |text| || text[q] != '$'
    ensures Finds(text, p) == Finds(text, q)
    decreases q - p
  {
    if p < q {
      assert NoMoneySign(text, p) && (p + 1 < q ==> NoMoneySign(text, p + 1));
      NoMoneyHere(text, p);
      NoMoneyUntil(text, p + 1, q);
    }
  }

  /** Three digits and two decimals behind the currency sign. */
  predicate Hundreds(s: string) {
    && |s| == 9 && s[0] == 'R' && s[1] == '$' && s[2] == ' ' && AllDigits(s[3..6]) && s[6] == ',' && AllDigits(s[7..])
  }

  function AmountOf(s: string): nat
    requires Hundreds(s)
  {
    ReaisAndCents(s[3..6], s[7..])
  }

  lemma SliceOfASlice(text: string, p: nat, q: nat, i: nat, j: nat)
    requires p <= q <= |text| && i <= j <= q - p
    ensures text[p..q][i..j] == text[p + i..p + j]
  {
    var s := text[p..q];
    assert forall k :: i <= k < j ==> s[k] == text[p + k];
  }

  lemma HundredsAreFound(text: string, p: nat)
    requires p + 9 <= |text| && Hundreds(text[p..p + 9]) && !DigitAt(text, p + 9)
    ensures Finds(text, p) == [Money(p, p + 3, p + 9, false, true)] + Finds(text, p + 9)
    ensures IsFind(text, Money(p, p + 3, p + 9, false, true))
  {
    var s := text[p..p + 9];
    SliceOfASlice(text, p, p + 9, 3, 6);
    SliceOfASlice(text, p, p + 9, 7, 9);
    DigitsOfSlice(text, p + 3, p + 6);
    DigitsOfSlice(text, p + 7, p + 9);
    assert text[p] == s[0] && text[p + 1] == s[1] && text[p + 2] == s[2] && text[p + 6] == s[6];
    LeadIs(text, p + 3, 3);
    assert SkipGroups(text, p + 6, '.') == p + 6 && SkipGroups(text, p + 6, ',') == p + 6;
    assert DecimalsAt(text, p + 6);
    assert SkipSpaces(text, p + 3) == p + 3;
    assert SkipSpaces(text, p + 2) == p + 3;
    PrintedHasNoInstallment(text, p);
    assert SkipCurrency(text, p) == p + 3 && ValueEnd(text, p + 3) == p + 9;
  }

  lemma HundredsAreRead(s: string)
    requires Hundreds(s)
    ensures Readable(s[3..]) && ReadValue(s[3..]) == AmountOf(s)
  {
    assert s[3..] == s[3..6] + ([','] + s[7..]);
    TypedParts(s[3..], s[3..6], ',', s[7..]);
    DecimalOfParts(s[3..], s[3..6], ',', s[7..]);
    CommaDecimalReads(s[3..]);
  }

  lemma HundredsCount(text: string, p: nat, s: string)
    requires p + 9 <= |text| && Hundreds(s) && text[p..p + 9] == s && IsFind(text, Money(p, p + 3, p + 9, false, true))
    ensures Counted(text, Money(p, p + 3, p + 9, false, true)) == [Candidate(AmountOf(s), false, Span(p, p + 9))]
  {
    assert text[p + 3..p + 9] == s[3..];
    HundredsAreRead(s);
  }

  /** A text of two amounts, `a` at its start and `b` at `p`, and no other digit or `$`. */
  ghost predicate AmountsIn(text: string, a: string, p: nat, b: string) {
    OneMoreAmount(text, 9, p, b) && Hundreds(a) && text[0..9] == a
  }

  /** From `q` on there is one more amount, `b` at `p`, and no other digit or `$`. */
  ghost predicate OneMoreAmount(text: string, q: nat, p: nat, b: string) {
    && q <= p && p + 9 <= |text| && Hundreds(b) && text[p..p + 9] == b
    && (forall i :: q <= i < p ==> !IsDigit(text[i]) && text[i] != '$')
    && forall i :: p + 9 <= i < |text| ==> !IsDigit(text[i]) && text[i] != '$'
  }

  lemma LastAmountIsFound(text: string, q: nat, p: nat, b: string)
    requires OneMoreAmount(text, q, p, b)
    ensures Finds(text, q) == [Money(p, p + 3, p + 9, false, true)] && IsFind(text, Money(p, p + 3, p + 9, false, true))
  {
    assert text[p] == b[0];
    NoMoneyUntil(text, q, p);
    HundredsAreFound(text, p);
    NoMoneyUntil(text, p + 9, |text|);
    NothingAtTheEnd(text);
  }

  lemma TwoAmountsAreFound(text: string, a: string, p: nat, b: string)
    requires AmountsIn(text, a, p, b)
    ensures Finds(text, 0) == [Money(0, 3, 9, false, true), Money(p, p + 3, p + 9, false, true)]
    ensures IsFind(text, Money(0, 3, 9, false, true)) && IsFind(text, Money(p, p + 3, p + 9, false, true))
  {
    LastAmountIsFound(text, 9, p, b);
    assert p == 9 ==> text[9] == b[0];
    HundredsAreFound(text, 0);
  }

  lemma TwoFinds(text: string, finds: seq<Money>, x: seq<Candidate>, y: seq<Candidate>)
    requires |finds| == 2 && (forall m :: m in finds ==> IsFind(text, m))
    requires x == Counted(text, finds[0]) && y == Counted(text, finds[1])
    ensures Candidates(text, finds) == x + y
  {
    CandidatesFromHere(text, finds, 0, [], x);
    CandidatesFromHere(text, finds, 1, x, y);
    assert finds[0..] == finds && finds[2..] == [];
  }

  lemma TwoAmountsAreCandidates(text: string, a: string, p: nat, b: string)
    requires AmountsIn(text, a, p, b)
    ensures forall m :: m in Finds(text, 0) ==> IsFind(text, m)
    ensures Candidates(text, Finds(text, 0))
            == [Candidate(AmountOf(a), false, Span(0, 9)), Candidate(AmountOf(b), false, Span(p, p + 9))]
  {
    TwoAmountsAreFound(text, a, p, b);
    FindsAreFinds(text, 0);
    HundredsCount(text, 0, a);
    HundredsCount(text, p, b);
    TwoFinds(text, Finds(text, 0), [Candidate(AmountOf(a), false, Span(0, 9))], [Candidate(AmountOf(b), false, Span(p, p + 9))]);
  }

  lemma NothingIsDropped(text: string, anchors: Anchors)
    requires anchors.couponBefore == [] == anchors.couponAfter
    requires forall m :: m in Finds(text, 0) ==> IsFind(text, m)
    ensures Kept(text, anchors) == Candidates(text, Finds(text, 0))
  {
    var candidates := Candidates(text, Finds(text, 0));
    assert CouponValues(text, anchors, candidates) == {};
    UnexcludedNothing(candidates);
  }

  lemma SecondIsTheOther(c: Candidate, d: Candidate)
    requires c != d
    ensures Others([c, d], c) == [d]
  {
    assert [c, d][1..] == [d] && [d][1..] == [];
    assert Unexcluded([d], {c}) == [d] + Unexcluded([], {c});
  }

  lemma FirstThenSecond(c: Candidate, d: Candidate, cash: Span, card: Span)
    requires c.cents != d.cents && c.span.start <= c.span.end && d.span.start <= d.span.end && c.span.end <= Midpoint(cash) <= d.span.start
    requires Midpoint(cash) - c.span.end <= d.span.start - Midpoint(cash)
    ensures Choose(Anchors([cash], [card], [], []), [c, d]) == Extraction(Some(c.cents), false, Some(c.cents), Some(d.cents))
  {
    var anchors := Anchors([cash], [card], [], []);
    SecondIsTheOther(c, d);
    assert FirstNearest(Midpoint(cash), [c, d], 0);
    assert FirstNearest(Midpoint(card), [d], 0);
    AnchoredPricesAreRead(anchors, [c, d], c, d);
  }

  /** In a text of two amounts, with the one cash anchor between them and no nearer to the second, the cash
      price is the first amount and the card price the second, whichever is the lower. */
  lemma FirstIsCashSecondIsCard(text: string, a: string, p: nat, b: string, cash: Span, card: Span)
    requires AmountsIn(text, a, p, b) && 9 <= Midpoint(cash) <= p && Midpoint(cash) - 9 <= p - Midpoint(cash)
    requires AmountOf(a) != AmountOf(b)
    ensures var anchors := Anchors([cash], [card], [], []);
            Choose(anchors, Kept(text, anchors)) == Extraction(Some(AmountOf(a)), false, Some(AmountOf(a)), Some(AmountOf(b)))
  {
    var anchors := Anchors([cash], [card], [], []);
    TwoAmountsAreCandidates(text, a, p, b);
    NothingIsDropped(text, anchors);
    FirstThenSecond(Candidate(AmountOf(a), false, Span(0, 9)), Candidate(AmountOf(b), false, Span(p, p + 9)), cash, card);
  }

  lemma PartsOfAText(a: string, gap: string, b: string, rest: string)
    requires Hundreds(a) && Hundreds(b)
    requires (forall i :: 0 <= i < |gap| ==> !IsDigit(gap[i]) && gap[i] != '$')
    requires (forall i :: 0 <= i < |rest| ==> !IsDigit(rest[i]) && rest[i] != '$')
    ensures AmountsIn(a + gap + b + rest, a, 9 + |gap|, b)
  {
    var text, p := a + gap + b + rest, 9 + |gap|;
    assert text[0..9] == a && text[p..p + 9] == b;
    forall i | 9 <= i < p ensures !IsDigit(text[i]) && text[i] != '$' {
      assert text[i] == gap[i - 9];
    }
    forall i | p + 9 <= i < |text| ensures !IsDigit(text[i]) && text[i] != '$' {
      assert text[i] == rest[i - p - 9];
    }
  }

  lemma AmountsOfHundreds(s: string, d: char)
    requires s == ['R', '$', ' ', d, '0', '0', ',', '0', '0'] && IsDigit(d)
    ensures Hundreds(s) && AmountOf(s) == DigitOf(d) * 10000
  {
    assert s[3..6] == [d, '0', '0'] && s[7..] == ['0', '0'];
    assert [d, '0', '0'][..2] == [d, '0'];
    TwoDigits([d, '0']);
    TwoDigits(['0', '0']);
  }

  /** Nothing compares the two prices: from this text the reader takes 200 reais as the cash price and 100
      as the card price, and the higher one as the price. */
  lemma CashMayExceedCard()
    ensures var text := "R$ 200,00" + " pix " + "R$ 100,00" + " cartao";
            var pix, cartao := Span(10, 13), Span(24, 30);
            var anchors := Anchors([pix], [cartao], [], []);
            && text[pix.start..pix.end] == "pix" && text[cartao.start..cartao.end] == "cartao"
            && Choose(anchors, Kept(text, anchors)) == Extraction(Some(20000), false, Some(20000), Some(10000))
  {
    AmountsOfHundreds("R$ 200,00", '2');
    AmountsOfHundreds("R$ 100,00", '1');
    PartsOfAText("R$ 200,00", " pix ", "R$ 100,00", " cartao");
    WordsBetween("R$ 200,00", " pix ", "R$ 100,00", " cartao");
    FirstIsCashSecondIsCard("R$ 200,00" + " pix " + "R$ 100,00" + " cartao", "R$ 200,00", 14, "R$ 100,00", Span(10, 13), Span(24, 30));
  }

  lemma WordsBetween(a: string, gap: string, b: string, rest: string)
    requires |a| == 9 == |b| && gap == " pix " && rest == " cartao"
    ensures var text := a + gap + b + rest; text[10..13] == "pix" && text[24..30] == "cartao"
  {
    var text := a + gap + b + rest;
    assert text[10..13] == gap[1..4] && text[24..30] == rest[1..7];
  }

  // ---------------------------------------------------------------------------------------------
  // Installments: what marks them in a text, and that they are not the price

  ghost predicate SpacesIn(text: string, p: nat, q: nat)
    requires q <= |text|
  {
    forall i :: p <= i < q ==> IsSpace(text[i])
  }

  /** From `p` to `c` stand one or two digits, an x, and perhaps "de", with spaces as one likes before the x and
      behind it, and at least one behind "de". */
  ghost predicate InstallmentMark(text: string, p: nat, c: nat) {
    c <= |text| && exists d, x, e :: MarkParts(text, p, d, x, e, c)
  }

  ghost predicate MarkParts(text: string, p: nat, d: nat, x: nat, e: nat, c: nat)
    requires c <= |text|
  {
    && p < d <= p + 2 && d <= x < e <= c
    && (forall i :: p <= i < d ==> IsDigit(text[i])) && SpacesIn(text, d, x)
    && text[x] in "xX" && SpacesIn(text, x + 1, e)
    && (e == c || (e + 2 < c && text[e] in "dD" && text[e + 1] in "eE" && SpacesIn(text, e + 2, c)))
  }

  /** From `c` to `v` stands nothing, or `R$` and spaces. */
  ghost predicate CurrencyMark(text: string, c: nat, v: nat)
    requires v <= |text|
  {
    c == v || (c + 2 <= v && text[c] in "rR" && text[c + 1] == '$' && SpacesIn(text, c + 2, v))
  }

  /** An installment mark stands directly before the currency sign, or the value, at `v`. */
  ghost predicate MarkedFrom(text: string, p: nat, v: nat) {
    v <= |text| && exists c :: p < c <= v && InstallmentMark(text, p, c) && CurrencyMark(text, c, v)
  }

  lemma {:induction false} SpacesAreSkipped(text: string, p: nat, q: nat)
    requires p <= q <= |text| && SpacesIn(text, p, q) && (q == |text| || !IsSpace(text[q]))
    ensures SkipSpaces(text, p) == q
    decreases q - p
  {
    if p < q {
      SpacesAreSkipped(text, p + 1, q);
    }
  }

  lemma {:induction false} SkippedAreSpaces(text: string, p: nat)
    requires p <= |text|
    ensures var q := SkipSpaces(text, p); SpacesIn(text, p, q) && (q == |text| || !IsSpace(text[q]))
    decreases |text| - p
  {
    if p < |text| && IsSpace(text[p]) {
      SkippedAreSpaces(text, p + 1);
    }
  }

  lemma DigitsLead(text: string, p: nat, d: nat)
    requires p <= d <= |text| && (forall i :: p <= i < d ==> IsDigit(text[i])) && !DigitAt(text, d)
    ensures Lead(text, p) == d - p
  {
    LeadIs(text, p, d - p);
  }

  /** What the scanner skips as an installment prefix is a mark ... */
  lemma SkippedIsAMark(text: string, p: nat)
    requires p <= |text| && SkipInstallment(text, p) > p
    ensures InstallmentMark(text, p, SkipInstallment(text, p))
  {
    var d := p + Lead(text, p);
    DigitsOfSlice(text, p, d);
    var x := SkipSpaces(text, d);
    SkippedAreSpaces(text, d);
    var e := SkipSpaces(text, x + 1);
    SkippedAreSpaces(text, x + 1);
    if CharAt(text, e, 'd', 'D') && CharAt(text, e + 1, 'e', 'E') {
      SkippedAreSpaces(text, e + 2);
    }
    assert MarkParts(text, p, d, x, e, SkipInstallment(text, p));
  }

  /** ... and a mark is skipped, up to where a currency sign or a value starts. */
  lemma MarkIsSkipped(text: string, p: nat, c: nat)
    requires InstallmentMark(text, p, c) && c < |text| && !IsSpace(text[c]) && text[c] !in "dD"
    ensures SkipInstallment(text, p) == c
  {
    var d: nat, x: nat, e: nat :| MarkParts(text, p, d, x, e, c);
    DigitsLead(text, p, d);
    SpacesAreSkipped(text, d, x);
    SpacesAreSkipped(text, x + 1, e);
    if e < c {
      SpacesAreSkipped(text, e + 2, c);
    }
  }

  lemma CurrencyIsSkipped(text: string, c: nat, v: nat)
    requires v < |text| && c <= v && CurrencyMark(text, c, v) && IsDigit(text[v])
    ensures SkipCurrency(text, c) == v && !IsSpace(text[c]) && text[c] !in "dD"
  {
    if c < v {
      SpacesAreSkipped(text, c + 2, v);
    }
  }

  lemma SkippedIsCurrency(text: string, c: nat)
    requires c <= |text|
    ensures CurrencyMark(text, c, SkipCurrency(text, c))
  {
    if CharAt(text, c, 'r', 'R') && CharAt(text, c + 1, '$', '$') {
      SkippedAreSpaces(text, c + 2);
    }
  }

  /** A find is an installment exactly when a mark stands from its start up to its currency sign or value. */
  lemma InstallmentIffMarked(text: string, m: Money)
    requires m.start <= |text| && MoneyAt(text, m.start) == Some(m)
    ensures m.installment <==> MarkedFrom(text, m.start, m.value)
  {
    if m.installment {
      var c := SkipInstallment(text, m.start);
      SkippedIsAMark(text, m.start);
      SkippedIsCurrency(text, c);
      assert InstallmentMark(text, m.start, c) && CurrencyMark(text, c, m.value);
    }
    if MarkedFrom(text, m.start, m.value) {
      MarkedMoney(text, m.start, m.value);
    }
  }

  lemma MarkedMoney(text: string, p: nat, v: nat)
    requires MarkedFrom(text, p, v) && DigitAt(text, v)
    ensures p <= |text| && MoneyAt(text, p).Some? && MoneyAt(text, p).value.installment && MoneyAt(text, p).value.value == v
  {
    var c: nat :| p < c <= v && InstallmentMark(text, p, c) && CurrencyMark(text, c, v);
    CurrencyIsSkipped(text, c, v);
    MarkIsSkipped(text, p, c);
  }

  lemma {:induction false} FindsAreWhereTheyStart(text: string, q: nat, m: Money)
    requires q <= |text| && m in Finds(text, q)
    ensures q <= m.start <= |text| && MoneyAt(text, m.start) == Some(m)
    decreases |text| - q
  {
    var n := MoneyAt(text, q);
    if n.Some? {
      assert m == n.value || m in Finds(text, n.value.end);
      if m != n.value {
        FindsAreWhereTheyStart(text, n.value.end, m);
      }
    } else {
      FindsAreWhereTheyStart(text, q + 1, m);
    }
  }

  lemma FirstOrLaterFind(text: string, q: nat, m: Money)
    requires q <= |text| && m in Finds(text, q)
    ensures var first := MoneyAt(text, q);
            if first.None? then q < |text| && Finds(text, q) == Finds(text, q + 1)
            else Finds(text, q) == [first.value] + Finds(text, first.value.end) && (m == first.value || m in Finds(text, first.value.end))
  {
  }

  /** No mark is overlooked: if one stands before a find's value but begins before the find, an earlier find took
      the place where it begins. */
  lemma {:induction false} MarksAreOnlyLostToFinds(text: string, q: nat, m: Money, p: nat) returns (n: Money)
    requires q <= |text| && m in Finds(text, q) && q <= p < m.start && MarkedFrom(text, p, m.value) && DigitAt(text, m.value)
    ensures n in Finds(text, q) && n.start <= p < n.end <= m.start
    decreases |text| - q
  {
    var first := MoneyAt(text, q);
    FirstOrLaterFind(text, q, m);
    if first.None? {
      MarkedMoney(text, p, m.value);
      n := MarksAreOnlyLostToFinds(text, q + 1, m, p);
    } else {
      n := first.value;
      FindsAreWhereTheyStart(text, n.end, m);
      if n.end <= p {
        n := MarksAreOnlyLostToFinds(text, n.end, m, p);
      }
    }
  }

  lemma TwoCandidates(text: string, m: Money, n: Money)
    requires Finds(text, 0) == [m, n]
    ensures IsFind(text, m) && IsFind(text, n)
    ensures forall f :: f in Finds(text, 0) ==> IsFind(text, f)
    ensures Candidates(text, Finds(text, 0)) == Counted(text, m) + Counted(text, n)
  {
    FindsAreFinds(text, 0);
    assert m in Finds(text, 0) && n in Finds(text, 0);
    TwoFinds(text, Finds(text, 0), Counted(text, m), Counted(text, n));
  }

  /** One installment and one total, and no anchor: the total is the price, whichever is the lower. */
  lemma TotalIsChosen(x: Candidate, y: Candidate, card: seq<Span>)
    requires x.installment != y.installment
    ensures Choose(Anchors([], card, [], []), [x, y])
            == Extraction(Some(if x.installment then y.cents else x.cents), false, None, None)
  {
    var kept := [x, y];
    var total := if x.installment then y.cents else x.cents;
    assert x in kept && y in kept;
    assert Amounts(kept, false) == {total};
  }

  lemma FindIsMarkedIffInstallment(text: string, m: Money)
    requires m in Finds(text, 0)
    ensures m.installment <==> MarkedFrom(text, m.start, m.value)
  {
    FindsAreWhereTheyStart(text, 0, m);
    InstallmentIffMarked(text, m);
  }

  lemma CountedIsItsCandidate(text: string, m: Money, amount: nat)
    requires IsFind(text, m) && Counts(text, m) && Readable(text[m.value..m.end]) && amount == ReadValue(text[m.value..m.end])
    ensures Counted(text, m) == [Candidate(amount, m.installment, Span(m.start, m.end))]
  {
  }

  /** The value of a find, as the reader reads it. */
  function AmountRead(text: string, m: Money): nat
    requires IsFind(text, m)
  {
    FoundValuesAreReadable(text, m.value);
    ReadValue(text[m.value..m.end])
  }

  lemma TwoAreKept(text: string, m: Money, n: Money, anchors: Anchors, x: Candidate, y: Candidate)
    requires Finds(text, 0) == [m, n] && IsFind(text, m) && IsFind(text, n)
    requires anchors.couponBefore == [] == anchors.couponAfter
    requires Counted(text, m) == [x] && Counted(text, n) == [y]
    ensures Kept(text, anchors) == [x, y]
  {
    TwoCandidates(text, m, n);
    NothingIsDropped(text, anchors);
  }

  lemma CandidateIsMarked(text: string, m: Money) returns (x: Candidate)
    requires m in Finds(text, 0) && IsFind(text, m) && (m.currency || ',' in text[m.value..m.end])
    ensures Counted(text, m) == [x] && x.cents == AmountRead(text, m) && (x.installment <==> MarkedFrom(text, m.start, m.value))
  {
    FindIsMarkedIffInstallment(text, m);
    FoundValuesAreReadable(text, m.value);
    CountedIsItsCandidate(text, m, AmountRead(text, m));
    x := Candidate(AmountRead(text, m), m.installment, Span(m.start, m.end));
  }

  /** Through the whole reader: of a text with two amounts, one of them marked as an installment and the other not,
      and without anchors, the unmarked one is the price, and not in doubt. */
  lemma UnmarkedAmountIsThePrice(text: string, m: Money, n: Money, card: seq<Span>)
    requires Finds(text, 0) == [m, n] && IsFind(text, m) && IsFind(text, n)
    requires MarkedFrom(text, m.start, m.value) != MarkedFrom(text, n.start, n.value)
    requires (m.currency || ',' in text[m.value..m.end]) && (n.currency || ',' in text[n.value..n.end])
    ensures var anchors := Anchors([], card, [], []);
            var total := if MarkedFrom(text, m.start, m.value) then AmountRead(text, n) else AmountRead(text, m);
            Choose(anchors, Kept(text, anchors)) == Extraction(Some(total), false, None, None)
  {
    assert m in [m, n] && n in [m, n];
    var x := CandidateIsMarked(text, m);
    var y := CandidateIsMarked(text, n);
    TwoAreKept(text, m, n, Anchors([], card, [], []), x, y);
    TotalIsChosen(x, y, card);
  }

  lemma MarkedHundredsAreFound(text: string, p: nat, c: nat, a: string)
    requires c + 9 <= |text| && InstallmentMark(text, p, c) && Hundreds(a) && text[c..c + 9] == a && !DigitAt(text, c + 9)
    ensures p < c && MoneyAt(text, p) == Some(Money(p, c + 3, c + 9, true, true))
    ensures IsFind(text, Money(p, c + 3, c + 9, true, true))
  {
    HundredsStart(text, c);
    MarkIsSkipped(text, p, c);
  }

  lemma HundredsStart(text: string, c: nat)
    requires c + 9 <= |text| && Hundreds(text[c..c + 9]) && !DigitAt(text, c + 9)
    ensures DigitAt(text, c + 3) && ValueEnd(text, c + 3) == c + 9 && SkipCurrency(text, c) == c + 3
    ensures !IsSpace(text[c]) && text[c] !in "dD"
  {
    var s := text[c..c + 9];
    HundredsAreFound(text, c);
    assert text[c] == s[0] && text[c + 1] == s[1] && text[c + 2] == s[2];
    CurrencyIsSkipped(text, c, c + 3);
  }

  /** A text whose first amount, `a` at `c`, is marked from the start on, and whose second, `b` at `p`, is not. */
  ghost predicate InstallmentThenTotal(text: string, c: nat, a: string, p: nat, b: string) {
    OneMoreAmount(text, c + 9, p, b) && InstallmentMark(text, 0, c) && Hundreds(a) && text[c..c + 9] == a
  }

  lemma NoDigitBetween(text: string, q: nat, p: nat, b: string)
    requires OneMoreAmount(text, q, p, b)
    ensures !DigitAt(text, q)
  {
    assert p == q ==> text[q] == b[0];
  }

  lemma MarkedThenOneMore(text: string, m: Money, n: Money)
    requires m.start == 0 && MoneyAt(text, 0) == Some(m) && Finds(text, m.end) == [n]
    ensures Finds(text, 0) == [m, n]
  {
  }

  lemma FoundHundredsCount(text: string, m: Money, s: string)
    requires IsFind(text, m) && m.currency && m.value >= 3 && Hundreds(s) && text[m.value - 3..m.end] == s
    ensures Counted(text, m) == [Candidate(AmountOf(s), m.installment, Span(m.start, m.end))]
  {
    assert text[m.value..m.end] == s[3..];
    HundredsAreRead(s);
  }

  /** A find whose currency sign and value spell `s`. */
  ghost predicate Spells(text: string, m: Money, s: string) {
    IsFind(text, m) && m.currency && m.value >= 3 && Hundreds(s) && text[m.value - 3..m.end] == s
  }

  lemma BothAreKept(text: string, m: Money, n: Money, a: string, b: string, anchors: Anchors)
    requires Finds(text, 0) == [m, n] && Spells(text, m, a) && Spells(text, n, b)
    requires anchors.couponBefore == [] == anchors.couponAfter
    ensures Kept(text, anchors)
            == [Candidate(AmountOf(a), m.installment, Span(m.start, m.end)),
                Candidate(AmountOf(b), n.installment, Span(n.start, n.end))]
  {
    FoundHundredsCount(text, m, a);
    FoundHundredsCount(text, n, b);
    TwoAreKept(text, m, n, anchors, Candidate(AmountOf(a), m.installment, Span(m.start, m.end)),
               Candidate(AmountOf(b), n.installment, Span(n.start, n.end)));
  }

  lemma InstallmentIsFound(text: string, c: nat, a: string, p: nat, b: string, m: Money)
    requires InstallmentThenTotal(text, c, a, p, b) && m == Money(0, c + 3, c + 9, true, true)
    ensures MoneyAt(text, m.start) == Some(m) && Spells(text, m, a)
  {
    NoDigitBetween(text, c + 9, p, b);
    MarkedHundredsAreFound(text, 0, c, a);
  }

  lemma TotalIsFound(text: string, q: nat, p: nat, b: string, n: Money)
    requires OneMoreAmount(text, q, p, b) && n == Money(p, p + 3, p + 9, false, true)
    ensures Finds(text, q) == [n] && Spells(text, n, b)
  {
    LastAmountIsFound(text, q, p, b);
  }

  lemma BothAreFound(text: string, c: nat, a: string, p: nat, b: string) returns (m: Money, n: Money)
    requires InstallmentThenTotal(text, c, a, p, b)
    ensures Finds(text, 0) == [m, n] && m.installment && !n.installment && Spells(text, m, a) && Spells(text, n, b)
  {
    m, n := Money(0, c + 3, c + 9, true, true), Money(p, p + 3, p + 9, false, true);
    InstallmentIsFound(text, c, a, p, b, m);
    TotalIsFound(text, m.end, p, b, n);
    MarkedThenOneMore(text, m, n);
  }

  /** So the total is read whatever it is, and the installment never: not even where it is the lower. */
  lemma TotalAfterInstallment(text: string, c: nat, a: string, p: nat, b: string, card: seq<Span>)
    requires InstallmentThenTotal(text, c, a, p, b)
    ensures var anchors := Anchors([], card, [], []);
            Choose(anchors, Kept(text, anchors)) == Extraction(Some(AmountOf(b)), false, None, None)
  {
    var m, n := BothAreFound(text, c, a, p, b);
    BothAreKept(text, m, n, a, b, Anchors([], card, [], []));
    TotalIsChosen(Candidate(AmountOf(a), true, Span(m.start, m.end)), Candidate(AmountOf(b), false, Span(n.start, n.end)), card);
  }

  /** Twelve installments of 100 reais, or 900 at once: the price is 900. */
  lemma InstallmentIsNotThePrice()
    ensures var anchors, text := Anchors([], [], [], []), "12x de " + "R$ 100,00" + " ou " + "R$ 900,00";
            Choose(anchors, Kept(text, anchors)) == Extraction(Some(90000), false, None, None)
  {
    var text := "12x de " + "R$ 100,00" + " ou " + "R$ 900,00";
    AmountsOfHundreds("R$ 100,00", '1');
    AmountsOfHundreds("R$ 900,00", '9');
    TwelveTimes(text, "12x de ", "R$ 100,00", " ou ", "R$ 900,00");
    TotalAfterInstallment(text, 7, "R$ 100,00", 20, "R$ 900,00", []);
  }

  lemma TwelveTimes(text: string, mark: string, a: string, gap: string, b: string)
    requires text == mark + a + gap + b && mark == "12x de " && gap == " ou " && Hundreds(a) && Hundreds(b)
    ensures InstallmentThenTotal(text, 7, a, 20, b)
  {
    assert text[7..16] == a && text[20..29] == b;
    assert forall i :: 0 <= i < 7 ==> text[i] == mark[i];
    assert MarkParts(text, 0, 2, 2, 4, 7) by {
      assert text[0] == '1' && text[1] == '2' && text[2] == 'x' && text[3] == ' ' && text[4] == 'd' && text[5] == 'e' && text[6] == ' ';
    }
    forall i | 16 <= i < 20 ensures !IsDigit(text[i]) && text[i] != '$' {
      assert text[i] == gap[i - 16];
    }
  }

  // ---------------------------------------------------------------------------------------------
  // What counts as an amount and what as a coupon's value, on the text itself

  /** No number is overlooked: every digit of a text lies in a find. */
  lemma {:induction false} EveryDigitIsFound(text: string, p: nat, k: nat) returns (m: Money)
    requires p <= k < |text| && IsDigit(text[k])
    ensures m in Finds(text, p) && m.start <= k < m.end
    decreases |text| - p
  {
    var first := MoneyAt(text, p);
    if first.None? {
      m := EveryDigitIsFound(text, p + 1, k);
    } else if k < first.value.end {
      m := first.value;
    } else {
      m := EveryDigitIsFound(text, first.value.end, k);
    }
  }

  ghost predicate NoiseIn(text: string, p: nat, q: nat)
    requires q <= |text|
  {
    forall i :: p <= i < q ==> IsSpace(text[i]) || text[i] in ",:*_~-"
  }

  /** A "de" at `k`, a space, and nothing but spaces and punctuation up to `q`. */
  ghost predicate LinkAt(text: string, k: nat, q: nat)
    requires q <= |text|
  {
    k + 2 < q && text[k] in "dD" && text[k + 1] in "eE" && IsSpace(text[k + 2]) && NoiseIn(text, k + 2, q)
  }

  /** From `p` to `q` stand spaces and punctuation only, with at most one "de" among them. */
  ghost predicate OnlyLinks(text: string, p: nat, q: nat) {
    p <= q <= |text| && exists k :: p <= k <= q && NoiseIn(text, p, k) && (k == q || LinkAt(text, k, q))
  }

  lemma {:induction false} NoiseIsSkipped(text: string, p: nat, k: nat, end: nat)
    requires p <= k <= end <= |text| && NoiseIn(text, p, k) && (k == end || !IsNoise(text[k]))
    ensures SkipNoise(text, p, end) == k
    decreases k - p
  {
    if p < k {
      NoiseIsSkipped(text, p + 1, k, end);
    }
  }

  lemma {:induction false} SkippedIsNoise(text: string, p: nat, end: nat)
    requires p <= end <= |text|
    ensures NoiseIn(text, p, SkipNoise(text, p, end))
    decreases end - p
  {
    if p < end && IsNoise(text[p]) {
      SkippedIsNoise(text, p + 1, end);
    }
  }

  lemma ConnectorsAreLinks(text: string, p: nat, q: nat)
    ensures IsConnector(text, p, q) <==> OnlyLinks(text, p, q)
  {
    if IsConnector(text, p, q) {
      var k := SkipNoise(text, p, q);
      SkippedIsNoise(text, p, q);
      if k < q {
        SkippedIsNoise(text, k + 2, q);
        assert LinkAt(text, k, q);
      }
    }
    if OnlyLinks(text, p, q) {
      var k: nat :| p <= k <= q && NoiseIn(text, p, k) && (k == q || LinkAt(text, k, q));
      NoiseIsSkipped(text, p, k, q);
      if k < q {
        NoiseIsSkipped(text, k + 2, q, q);
      }
    }
  }

  /** The amounts of a text: its finds with `R$` in front or a comma in them. */
  ghost predicate IsAmount(text: string, c: Candidate) {
    exists m :: m in Finds(text, 0) && StandsFor(text, m, c)
  }

  ghost predicate StandsFor(text: string, m: Money, c: Candidate) {
    && IsFind(text, m) && (m.currency || ',' in text[m.value..m.end])
    && c.span.start == m.start && c.span.end == m.end && c.cents == AmountRead(text, m)
    && (c.installment <==> MarkedFrom(text, m.start, m.value))
  }

  /** `c` is the first amount behind the anchor, or the last one in front of it, and only links lie between. */
  ghost predicate NamedBehind(text: string, anchor: Span, c: Candidate) {
    && anchor.end <= c.span.start && OnlyLinks(text, anchor.end, c.span.start)
    && forall d :: IsAmount(text, d) && anchor.end <= d.span.start ==> c.span.start <= d.span.start
  }

  ghost predicate NamedInFront(text: string, anchor: Span, c: Candidate) {
    && c.span.end <= anchor.start && OnlyLinks(text, c.span.end, anchor.start)
    && forall d :: IsAmount(text, d) && d.span.end <= anchor.start ==> d.span.end <= c.span.end
  }

  ghost predicate IsCouponValue(text: string, anchors: Anchors, c: Candidate) {
    || (exists anchor :: anchor in anchors.couponBefore && NamedBehind(text, anchor, c))
    || (exists anchor :: anchor in anchors.couponAfter && NamedInFront(text, anchor, c))
  }

  ghost predicate InTextOrder(candidates: seq<Candidate>) {
    && (forall i :: 0 <= i < |candidates| ==> candidates[i].span.start < candidates[i].span.end)
    && forall i, j :: 0 <= i < j < |candidates| ==> candidates[i].span.end <= candidates[j].span.start
  }

  ghost predicate FoundInOrder(finds: seq<Money>) {
    && (forall i :: 0 <= i < |finds| ==> finds[i].start < finds[i].end)
    && forall i, j :: 0 <= i < j < |finds| ==> finds[i].end <= finds[j].start
  }

  lemma OneMoreInOrder(m: Money, rest: seq<Money>)
    requires m.start < m.end && FoundInOrder(rest) && forall j :: 0 <= j < |rest| ==> m.end <= rest[j].start
    ensures FoundInOrder([m] + rest)
  {
  }

  lemma {:induction false} FindsStandInOrder(text: string, p: nat)
    requires p <= |text|
    ensures FoundInOrder(Finds(text, p))
    decreases |text| - p
  {
    var m := MoneyAt(text, p);
    if m.Some? {
      var rest := Finds(text, m.value.end);
      FindsStandInOrder(text, m.value.end);
      forall j | 0 <= j < |rest| ensures m.value.end <= rest[j].start {
        FindsAreWhereTheyStart(text, m.value.end, rest[j]);
      }
      OneMoreInOrder(m.value, rest);
    } else if p < |text| {
      FindsStandInOrder(text, p + 1);
    }
  }

  lemma {:induction false} CandidatesComeFromFinds(text: string, finds: seq<Money>, c: Candidate)
    requires forall m :: m in finds ==> IsFind(text, m)
    ensures c in Candidates(text, finds) <==> exists m :: m in finds && Counts(text, m) && c == CandidateOf(text, m)
  {
    if finds != [] {
      CandidatesComeFromFinds(text, finds[1..], c);
      assert forall m :: m in finds <==> m == finds[0] || m in finds[1..];
    }
  }

  lemma {:induction false} CandidatesStandInOrder(text: string, finds: seq<Money>)
    requires (forall m :: m in finds ==> IsFind(text, m)) && FoundInOrder(finds)
    ensures InTextOrder(Candidates(text, finds))
  {
    if finds != [] {
      var rest := Candidates(text, finds[1..]);
      assert forall i :: 0 <= i < |finds[1..]| ==> finds[1..][i] == finds[i + 1];
      CandidatesStandInOrder(text, finds[1..]);
      forall j | 0 <= j < |rest| ensures finds[0].end <= rest[j].span.start {
        CandidatesComeFromFinds(text, finds[1..], rest[j]);
        var m :| m in finds[1..] && Counts(text, m) && rest[j] == CandidateOf(text, m);
        var i :| 0 <= i < |finds[1..]| && finds[1..][i] == m;
        assert finds[i + 1] == m;
      }
    }
  }

  lemma StandsForItsCandidate(text: string, m: Money, c: Candidate)
    requires m in Finds(text, 0) && IsFind(text, m)
    ensures StandsFor(text, m, c) <==> Counts(text, m) && c == CandidateOf(text, m)
  {
    FindIsMarkedIffInstallment(text, m);
  }

  lemma CandidatesAreTheAmounts(text: string, c: Candidate)
    requires forall m :: m in Finds(text, 0) ==> IsFind(text, m)
    ensures c in Candidates(text, Finds(text, 0)) <==> IsAmount(text, c)
  {
    CandidatesComeFromFinds(text, Finds(text, 0), c);
    forall m | m in Finds(text, 0) ensures StandsFor(text, m, c) <==> Counts(text, m) && c == CandidateOf(text, m) {
      StandsForItsCandidate(text, m, c);
    }
  }

  /** The amounts of a text, in its order. */
  ghost predicate AmountsOf(text: string, candidates: seq<Candidate>) {
    InTextOrder(candidates) && forall c :: c in candidates <==> IsAmount(text, c)
  }

  lemma SameStartSameAmount(candidates: seq<Candidate>, c: Candidate, d: Candidate)
    requires InTextOrder(candidates) && c in candidates && d in candidates
    requires c.span.start == d.span.start || c.span.end == d.span.end
    ensures c == d
  {
    var i :| 0 <= i < |candidates| && candidates[i] == c;
    var j :| 0 <= j < |candidates| && candidates[j] == d;
  }

  lemma BehindIsNamed(text: string, anchor: Span, candidates: seq<Candidate>, c: Candidate)
    requires AmountsOf(text, candidates) && c in candidates
    ensures CouponBehind(text, anchor, candidates, c) <==> NamedBehind(text, anchor, c)
  {
    var n := Nearest(anchor.end, Behind(anchor.end, candidates));
    ConnectorsAreLinks(text, anchor.end, c.span.start);
    forall d | d in candidates && d.span.start >= anchor.end ensures Distance(anchor.end, d) == d.span.start - anchor.end {
      var i :| 0 <= i < |candidates| && candidates[i] == d;
    }
    if NamedBehind(text, anchor, c) {
      assert c in Behind(anchor.end, candidates);
      SameStartSameAmount(candidates, c, n.value);
    }
    if n == Some(c) {
      forall d | IsAmount(text, d) && anchor.end <= d.span.start ensures c.span.start <= d.span.start {
        assert d in Behind(anchor.end, candidates);
      }
    }
  }

  lemma InFrontIsNamed(text: string, anchor: Span, candidates: seq<Candidate>, c: Candidate)
    requires AmountsOf(text, candidates) && c in candidates
    ensures CouponInFront(text, anchor, candidates, c) <==> NamedInFront(text, anchor, c)
  {
    var n := Nearest(anchor.start, InFront(anchor.start, candidates));
    ConnectorsAreLinks(text, c.span.end, anchor.start);
    forall d | d in candidates && d.span.end <= anchor.start ensures Distance(anchor.start, d) == anchor.start - d.span.end {
      var i :| 0 <= i < |candidates| && candidates[i] == d;
    }
    if NamedInFront(text, anchor, c) {
      assert c in InFront(anchor.start, candidates);
      SameStartSameAmount(candidates, c, n.value);
    }
    if n == Some(c) {
      forall d | IsAmount(text, d) && d.span.end <= anchor.start ensures d.span.end <= c.span.end {
        assert d in InFront(anchor.start, candidates);
      }
    }
  }

  lemma CouponsAreNamed(text: string, anchors: Anchors, candidates: seq<Candidate>, c: Candidate)
    requires AmountsOf(text, candidates) && c in candidates
    ensures IsCoupon(text, anchors, candidates, c) <==> IsCouponValue(text, anchors, c)
  {
    forall anchor ensures CouponBehind(text, anchor, candidates, c) <==> NamedBehind(text, anchor, c) {
      BehindIsNamed(text, anchor, candidates, c);
    }
    forall anchor ensures CouponInFront(text, anchor, candidates, c) <==> NamedInFront(text, anchor, c) {
      InFrontIsNamed(text, anchor, candidates, c);
    }
    assert forall anchor :: anchor in anchors.couponBefore ==> exists i :: 0 <= i < |anchors.couponBefore| && anchors.couponBefore[i] == anchor;
    assert forall anchor :: anchor in anchors.couponAfter ==> exists i :: 0 <= i < |anchors.couponAfter| && anchors.couponAfter[i] == anchor;
  }

  /** What the price is chosen from, on the text: exactly its amounts, except the nearest one on the confirmed side
      of a coupon word with nothing but spaces, punctuation and one "de" in between. */
  lemma KeptAreTheAmountsButCoupons(text: string, anchors: Anchors, c: Candidate)
    ensures c in Kept(text, anchors) <==> IsAmount(text, c) && !IsCouponValue(text, anchors, c)
  {
    FindsAreFinds(text, 0);
    FindsStandInOrder(text, 0);
    var candidates := Candidates(text, Finds(text, 0));
    CandidatesStandInOrder(text, Finds(text, 0));
    forall d ensures d in candidates <==> IsAmount(text, d) {
      CandidatesAreTheAmounts(text, d);
    }
    if c in candidates {
      CouponsAreNamed(text, anchors, candidates, c);
    }
  }

  ghost predicate CoversPlace(c: Candidate, q: nat) {
    c.span.start <= q <= c.span.end
  }

  /** How far a value is from a place: as far as the nearest place of its own. */
  lemma DistanceIsToTheNearestPlace(position: nat, c: Candidate, d: nat)
    requires c.span.start <= c.span.end
    ensures Distance(position, c) <= d <==> exists q: nat :: CoversPlace(c, q) && q <= position + d && position <= q + d
  {
    var q := if position < c.span.start then c.span.start else if position > c.span.end then c.span.end else position;
    if Distance(position, c) <= d {
      assert CoversPlace(c, q);
    }
  }

  // ---------------------------------------------------------------------------------------------
  // How far a value reaches, and what of a typed text is its amount

  /** From `p` to `m` stands a number with dotted thousands; or one with comma thousands, with neither a digit nor
      another comma and digit behind it. */
  ghost predicate DotsUpTo(text: string, p: nat, m: nat) {
    p <= m <= |text| && Thousands(text[p..m], '.')
  }

  ghost predicate CommasUpTo(text: string, p: nat, m: nat) {
    p <= m <= |text| && Thousands(text[p..m], ',')
    && (m < |text| ==> !IsDigit(text[m])) && (m + 1 < |text| && text[m] == ',' ==> !IsDigit(text[m + 1]))
  }

  /** Two decimals, and no third one, stand between `m` and `q`; or nothing, and there are no such decimals. */
  ghost predicate DecimalsUpTo(text: string, m: nat, q: nat) {
    var decimals := m + 3 <= |text| && text[m] == ',' && IsDigit(text[m + 1]) && IsDigit(text[m + 2])
                    && (m + 3 < |text| ==> !IsDigit(text[m + 3]));
    q == if decimals then m + 3 else m
  }

  lemma {:induction false} GroupsReach(text: string, p: nat, m: nat, separator: char)
    requires p <= m <= |text| && Groups(text[p..m], separator)
    ensures SkipGroups(text, p, separator) >= m
    decreases m - p
  {
    var s := text[p..m];
    assert s[0] == text[p] && s[1..4][0] == text[p + 1] && s[1..4][1] == text[p + 2] && s[1..4][2] == text[p + 3];
    if |s| > 4 {
      assert s[4..] == text[p + 4..m];
      GroupsReach(text, p + 4, m, separator);
    }
  }

  lemma ThousandsReach(text: string, p: nat, m: nat, separator: char)
    requires p <= m <= |text| && Thousands(text[p..m], separator) && !IsDigit(separator)
    ensures 1 <= Lead(text, p) <= 3 && p + Lead(text, p) < m <= SkipGroups(text, p + Lead(text, p), separator)
  {
    var s := text[p..m];
    var d := Lead(s, 0);
    assert s[0..d] == text[p..p + d] && s[d..] == text[p + d..m] && text[p + d] == s[d..][0];
    LeadIs(text, p, d);
    GroupsReach(text, p + d, m, separator);
  }

  lemma SkippedThousands(text: string, p: nat, separator: char)
    requires DigitAt(text, p) && 1 <= Lead(text, p) <= 3 && !IsDigit(separator)
    requires SkipGroups(text, p + Lead(text, p), separator) > p + Lead(text, p)
    ensures Thousands(text[p..SkipGroups(text, p + Lead(text, p), separator)], separator)
  {
    GroupsSkippedAreGroups(text, p + Lead(text, p), separator);
    SliceIsThousands(text, p, p + Lead(text, p), SkipGroups(text, p + Lead(text, p), separator), separator);
  }

  lemma {:induction false} GroupsEndAlike(text: string, p: nat, m: nat, separator: char)
    requires p <= m <= |text| && Groups(text[p..m], separator) && m < SkipGroups(text, p, separator)
    ensures GroupAt(text, m, separator)
    decreases m - p
  {
    var s := text[p..m];
    assert GroupAt(text, p, separator);
    if |s| > 4 {
      assert s[4..] == text[p + 4..m];
      GroupsEndAlike(text, p + 4, m, separator);
    } else {
      assert GroupAt(text, p + 4, separator);
    }
  }

  lemma OnlyTheLastCommasFit(text: string, p: nat, m: nat)
    requires DigitAt(text, p) && CommasUpTo(text, p, m)
    ensures Lead(text, p) <= 3 && m == SkipGroups(text, p + Lead(text, p), ',')
  {
    ThousandsReach(text, p, m, ',');
    var d := Lead(text, p);
    var s := text[p..m];
    assert s[0..Lead(s, 0)] == text[p..p + Lead(s, 0)];
    LeadIs(text, p, Lead(s, 0));
    assert s[d..] == text[p + d..m];
    if m < SkipGroups(text, p + d, ',') {
      GroupsEndAlike(text, p + d, m, ',');
    }
  }

  lemma DotsReach(text: string, p: nat)
    requires DigitAt(text, p)
    ensures var d, dots := Lead(text, p), SkipGroups(text, p + Lead(text, p), '.');
            && (forall m: nat :: DotsUpTo(text, p, m) ==> d <= 3 && p + d < m <= dots)
            && (d <= 3 && dots > p + d ==> DotsUpTo(text, p, dots))
  {
    forall m: nat | DotsUpTo(text, p, m)
      ensures Lead(text, p) <= 3 && p + Lead(text, p) < m <= SkipGroups(text, p + Lead(text, p), '.')
    {
      ThousandsReach(text, p, m, '.');
    }
    if Lead(text, p) <= 3 && SkipGroups(text, p + Lead(text, p), '.') > p + Lead(text, p) {
      SkippedThousands(text, p, '.');
    }
  }

  lemma CommasReach(text: string, p: nat)
    requires DigitAt(text, p)
    ensures var d, commas := Lead(text, p), SkipGroups(text, p + Lead(text, p), ',');
            && (forall m: nat :: CommasUpTo(text, p, m) ==> d <= 3 && p + d < m == commas)
            && (d <= 3 && commas > p + d ==> Thousands(text[p..commas], ','))
  {
    forall m: nat | CommasUpTo(text, p, m)
      ensures Lead(text, p) <= 3 && p + Lead(text, p) < m == SkipGroups(text, p + Lead(text, p), ',')
    {
      ThousandsReach(text, p, m, ',');
      OnlyTheLastCommasFit(text, p, m);
    }
    if Lead(text, p) <= 3 && SkipGroups(text, p + Lead(text, p), ',') > p + Lead(text, p) {
      SkippedThousands(text, p, ',');
    }
  }

  ghost predicate LongestDots(text: string, p: nat, m: nat) {
    DotsUpTo(text, p, m) && forall n: nat :: DotsUpTo(text, p, n) ==> n <= m
  }

  lemma DottedValue(text: string, p: nat)
    requires DigitAt(text, p) && Lead(text, p) <= 3 && SkipGroups(text, p + Lead(text, p), '.') > p + Lead(text, p)
    ensures var dots := SkipGroups(text, p + Lead(text, p), '.');
            LongestDots(text, p, dots) && DecimalsUpTo(text, dots, ValueEnd(text, p))
  {
    DotsReach(text, p);
    DecimalsAreSkipped(text, SkipGroups(text, p + Lead(text, p), '.'));
  }

  lemma NoDots(text: string, p: nat)
    requires DigitAt(text, p) && !(Lead(text, p) <= 3 && SkipGroups(text, p + Lead(text, p), '.') > p + Lead(text, p))
    ensures forall m: nat :: !DotsUpTo(text, p, m)
  {
    DotsReach(text, p);
  }

  lemma NoCommas(text: string, p: nat)
    requires DigitAt(text, p) && !CommasUpTo(text, p, SkipGroups(text, p + Lead(text, p), ','))
    ensures forall m: nat :: !CommasUpTo(text, p, m)
  {
    CommasReach(text, p);
  }

  lemma CommasFit(text: string, p: nat)
    requires DigitAt(text, p)
    ensures var d, commas := Lead(text, p), SkipGroups(text, p + Lead(text, p), ',');
            CommasUpTo(text, p, commas) <==>
              && d <= 3 && commas > p + d && !DigitAt(text, commas)
              && !(commas + 1 < |text| && text[commas] == ',' && IsDigit(text[commas + 1]))
  {
    CommasReach(text, p);
  }

  lemma UndottedValue(text: string, p: nat)
    requires DigitAt(text, p) && !(Lead(text, p) <= 3 && SkipGroups(text, p + Lead(text, p), '.') > p + Lead(text, p))
    ensures var d, q, commas := Lead(text, p), ValueEnd(text, p), SkipGroups(text, p + Lead(text, p), ',');
            if CommasUpTo(text, p, commas) then q == commas else DecimalsUpTo(text, p + d, q)
  {
    CommasFit(text, p);
    DecimalsAreSkipped(text, p + Lead(text, p));
  }

  /** A value reaches as far as the first form that fits: dotted thousands, all of them, with two decimals if they are
      there; comma thousands with no digit lost behind them; or its leading digits, with two decimals if they are there. */
  lemma ValueReachesAsFarAsItsForm(text: string, p: nat)
    requires DigitAt(text, p)
    ensures var q := ValueEnd(text, p);
            if exists m: nat :: DotsUpTo(text, p, m) then exists m: nat :: LongestDots(text, p, m) && DecimalsUpTo(text, m, q)
            else if exists m: nat :: CommasUpTo(text, p, m) then CommasUpTo(text, p, q)
            else exists m: nat :: DigitsUpTo(text, p, m) && DecimalsUpTo(text, m, q)
  {
    var d := Lead(text, p);
    if d <= 3 && SkipGroups(text, p + d, '.') > p + d {
      DottedValue(text, p);
    } else {
      NoDots(text, p);
      UndottedValue(text, p);
      if CommasUpTo(text, p, SkipGroups(text, p + d, ',')) {
      } else {
        NoCommas(text, p);
        assert DigitsUpTo(text, p, p + d);
      }
    }
  }

  lemma DecimalsAreSkipped(text: string, m: nat)
    ensures DecimalsUpTo(text, m, if DecimalsAt(text, m) then m + 3 else m)
  {
  }

  /** All the digits from `p` on. */
  ghost predicate DigitsUpTo(text: string, p: nat, m: nat) {
    p < m <= |text| && AllDigits(text[p..m]) && (m < |text| ==> !IsDigit(text[m]))
  }

  /** All of a text from `i` to `j` but the spaces around it. */
  ghost predicate CutsSpacesOff(text: string, from: nat, to: nat, i: nat, j: nat)
    requires to <= |text|
  {
    && from <= i <= j <= to && SpacesIn(text, from, i) && SpacesIn(text, j, to)
    && (i < j ==> !IsSpace(text[i]) && !IsSpace(text[j - 1]))
  }

  lemma StripOfASlice(text: string, from: nat, to: nat) returns (i: nat, j: nat)
    requires from <= to <= |text|
    ensures CutsSpacesOff(text, from, to, i, j) && Strip(text[from..to]) == text[i..j]
  {
    var s := text[from..to];
    var k, l := StripCutsSpacesOff(s);
    i, j := from + k, from + l;
    SliceOfASlice(text, from, to, k, l);
    assert forall n :: 0 <= n < |s| ==> s[n] == text[from + n];
    assert forall n :: from <= n < to ==> text[n] == s[n - from];
  }

  /** What is read of a typed text: all of it but the spaces around it, and one currency sign with the spaces behind it. */
  lemma BareIsWhatIsTyped(raw: string) returns (b: nat, e: nat, i: nat, j: nat)
    ensures CutsSpacesOff(raw, 0, |raw|, b, e) && b <= i <= j <= e && Bare(raw) == raw[i..j]
    ensures if b + 2 <= e && raw[b] in "rR" && raw[b + 1] == '$' then CutsSpacesOff(raw, b + 2, e, i, j) else i == b && j == e
  {
    assert raw[0..|raw|] == raw;
    b, e := StripOfASlice(raw, 0, |raw|);
    i, j := b, e;
    if b + 2 <= e && raw[b] in "rR" && raw[b + 1] == '$' {
      assert raw[b..e][2..] == raw[b + 2..e] && raw[b..e][0] == raw[b] && raw[b..e][1] == raw[b + 1];
      i, j := StripOfASlice(raw, b + 2, e);
    }
  }

  /** Anchor words start with a letter no printed price contains. */
  predicate StartAtAnchorLetters(text: string, spans: seq<Span>) {
    forall i :: 0 <= i < |spans| ==> spans[i].start < |text| && text[spans[i].start] in "aAcCdDoOpP\U{00E0}\U{00C0}"
  }

  predicate AnchorsOf(text: string, anchors: Anchors) {
    && StartAtAnchorLetters(text, anchors.cash) && StartAtAnchorLetters(text, anchors.card)
    && StartAtAnchorLetters(text, anchors.couponBefore) && StartAtAnchorLetters(text, anchors.couponAfter)
  }

  lemma PrintedCharacters(cents: int, i: nat)
    requires i < |FormatPrice(cents)|
    ensures IsDigit(FormatPrice(cents)[i]) || FormatPrice(cents)[i] in "-R$ .,"
  {
    var amount := if cents < 0 then -cents else cents;
    var sign := if cents < 0 then "-R$ " else "R$ ";
    assert FormatPrice(cents) == sign + Printed(amount);
    if i >= |sign| {
      AmountCharacters(amount, i - |sign|);
    }
  }

  lemma GroupedCharacters(n: nat, i: nat)
    requires i < |Grouped(n)|
    ensures IsDigit(Grouped(n)[i]) || Grouped(n)[i] == '.'
  {
    GroupedReadsBack(n);
    if PtbrThousands(Grouped(n)) {
      ThousandsShape(Grouped(n), '.');
    }
  }

  lemma AmountCharacters(cents: nat, i: nat)
    requires i < |Printed(cents)|
    ensures IsDigit(Printed(cents)[i]) || Printed(cents)[i] in ".,"
  {
    var g, p := Grouped(cents / 100), Pad2(cents % 100);
    if i < |g| {
      GroupedCharacters(cents / 100, i);
    } else if i > |g| {
      assert Printed(cents)[i] == p[i - |g| - 1];
    }
  }

  lemma NoAnchorIsPrinted(cents: int, spans: seq<Span>)
    requires StartAtAnchorLetters(FormatPrice(cents), spans)
    ensures spans == []
  {
    if spans != [] {
      PrintedCharacters(cents, spans[0].start);
    }
  }

  lemma PrintedValueReads(cents: nat)
    ensures Readable(Printed(cents)) && ReadValue(Printed(cents)) == cents
  {
    PrintedHasItsValue(cents);
    PrintedParts(cents);
    ParsersAgreeExceptOnDotDecimals(Printed(cents));
    assert Printed(cents)[|Grouped(cents / 100)|] == ',';
    if DotDecimal(Printed(cents)) {
      var k := ShortDecimalShape(Printed(cents), '.');
    }
  }

  lemma OneFindOneCandidate(text: string, m: Money, cents: nat)
    requires IsFind(text, m) && m.currency && !m.installment && text[m.value..m.end] == Printed(cents)
    ensures (forall n :: n in [m] ==> IsFind(text, n))
    ensures Candidates(text, [m]) == [Candidate(cents, false, Span(m.start, m.end))]
  {
    PrintedValueReads(cents);
    assert [m][1..] == [];
  }

  lemma OnlyFind(text: string, m: Money)
    requires Finds(text, 0) == [m]
    ensures IsFind(text, m)
  {
    FindsAreFinds(text, 0);
    assert m in Finds(text, 0);
  }

  lemma PrintedIsOneCandidate(cents: int)
    ensures var text := FormatPrice(cents);
            var sign := if cents < 0 then 1 else 0;
            (forall m :: m in Finds(text, 0) ==> IsFind(text, m))
            && Candidates(text, Finds(text, 0)) == [Candidate(if cents < 0 then -cents else cents, false, Span(sign, |text|))]
  {
    var text := FormatPrice(cents);
    var sign := if cents < 0 then 1 else 0;
    var m := Money(sign, sign + 3, |text|, false, true);
    PrintedIsOneFind(cents);
    OnlyFind(text, m);
    assert text[sign + 3..|text|] == text[sign + 3..];
    OneFindOneCandidate(text, m, if cents < 0 then -cents else cents);
  }

  /** The reader finds one unambiguous price in what is printed: the amount, whatever its sign. */
  lemma PrintedPricesAreExtracted(cents: int, anchors: Anchors)
    requires AnchorsOf(FormatPrice(cents), anchors)
    ensures Choose(anchors, Kept(FormatPrice(cents), anchors))
            == Extraction(Some(if cents < 0 then -cents else cents), false, None, None)
  {
    var text := FormatPrice(cents);
    PrintedIsOneCandidate(cents);
    NoAnchorIsPrinted(cents, anchors.couponBefore);
    NoAnchorIsPrinted(cents, anchors.couponAfter);
    var candidates := Candidates(text, Finds(text, 0));
    assert CouponValues(text, anchors, candidates) == {};
    UnexcludedNothing(candidates);
  }

  lemma {:induction false} UnexcludedNothing(candidates: seq<Candidate>)
    ensures Unexcluded(candidates, {}) == candidates
  {
    if candidates != [] {
      UnexcludedNothing(candidates[1..]);
    }
  }
}
