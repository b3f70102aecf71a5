/** Records' JSON written without the json package, and the flat objects read
    back without it. Text is a sequence of code points. */
module FlatJson {
  import opened Options

  type Char = c: nat | c < 0x11_0000
  type Text = seq<Char>

  const QUOTE: Char := 0x22
  const BACKSLASH: Char := 0x5C
  const LETTER_U: Char := 0x75
  const OPEN: Char := 0x7B
  const CLOSE: Char := 0x7D
  const COLON: Char := 0x3A
  const COMMA: Char := 0x2C
  const MINUS: Char := 0x2D
  const ZERO: Char := 0x30

  // -- strings ---------------------------------------------------------------------------

  /** The letter of a two-character escape. */
  function Short(c: Char): Option<Char> {
    match c
    case 0x22 => Some(0x22)
    case 0x5C => Some(0x5C)
    case 0x0A => Some(0x6E)
    case 0x0D => Some(0x72)
    case 0x09 => Some(0x74)
    case 0x08 => Some(0x62)
    case 0x0C => Some(0x66)
    case _ => None
  }

  predicate PlainChar(c: Char) {
    0x20 <= c <= 0x7E && c != QUOTE && c != BACKSLASH
  }

  /** Printable ASCII without a quote or backslash: its own JSON in quotes. */
  predicate Plain(text: Text) {
    forall i | 0 <= i < |text| :: PlainChar(text[i])
  }

  function Hex(digit: nat): Char
    requires digit < 16
  {
    if digit < 10 then ZERO + digit else 0x61 + digit - 10
  }

  /** One escaped UTF-16 code unit. */
  function Unit(unit: nat): (text: Text)
    requires unit < 0x1_0000
    ensures |text| == 6
  {
    [BACKSLASH, LETTER_U, Hex(unit / 0x1000), Hex(unit / 0x100 % 16), Hex(unit / 16 % 16), Hex(unit % 16)]
  }

  function Spelled(c: Char): (text: Text)
    ensures text != []
  {
    if Short(c).Some? then [BACKSLASH, Short(c).value]
    else if 0x20 <= c <= 0x7E then [c]
    else if c > 0xFFFF then
      Unit(0xD800 + (c - 0x1_0000) / 0x400) + Unit(0xDC00 + (c - 0x1_0000) % 0x400)
    else Unit(c)
  }

  function Body(text: Text): Text {
    if text == [] then [] else Spelled(text[0]) + Body(text[1..])
  }

  function Quoted(text: Text): Text {
    [QUOTE] + Body(text) + [QUOTE]
  }

  lemma {:induction false} PlainIsItself(text: Text)
    requires Plain(text)
    ensures Body(text) == text
  {
    if text != [] {
      assert PlainChar(text[0]);
      assert forall i | 0 <= i < |text[1..]| :: text[1..][i] == text[i + 1];
      PlainIsItself(text[1..]);
    }
  }

  /** A character is spelled in printable ASCII: by a letter's escape if it has one, as
      itself if it is that already, and else by lower-case escapes of its units. */
  lemma {:induction false} SpelledInAscii(c: Char)
    ensures |Spelled(c)| == if c in {0x08, 0x09, 0x0A, 0x0C, 0x0D, 0x22, 0x5C} then 2
                            else if 0x20 <= c <= 0x7E then 1 else if c <= 0xFFFF then 6 else 12
    ensures forall i | 0 <= i < |Spelled(c)| :: 0x20 <= Spelled(c)[i] <= 0x7E
    ensures |Spelled(c)| >= 6 ==> forall i | 0 <= i < |Spelled(c)| :: !(0x41 <= Spelled(c)[i] <= 0x46)
  {
    if c > 0xFFFF {
      UnitInAscii(0xD800 + (c - 0x1_0000) / 0x400);
      UnitInAscii(0xDC00 + (c - 0x1_0000) % 0x400);
    } else {
      UnitInAscii(c);
    }
  }

  lemma {:induction false} UnitInAscii(unit: nat)
    requires unit < 0x1_0000
    ensures forall i | 0 <= i < 6 :: 0x20 <= Unit(unit)[i] <= 0x7E && !(0x41 <= Unit(unit)[i] <= 0x46)
  {
  }

  /** `_json_string`: the fast path and the loop spell the same. */
  method JsonString(text: Text) returns (out: Text)
    ensures out == Quoted(text)
  {
    if Plain(text) {
      PlainIsItself(text);
      return [QUOTE] + text + [QUOTE];
    }
    out := [QUOTE];
    var i := 0;
    while i < |text|
      invariant i <= |text| && out + Body(text[i..]) == [QUOTE] + Body(text)
    {
      var spelled := SpellOne(text[i]);
      OneSpelled(out, text[i..]);
      assert text[i..][1..] == text[i + 1..];
      out := out + spelled;
      i := i + 1;
    }
    assert Body(text[i..]) == [];
    out := out + [QUOTE];
  }

  /** What the loop adds for one character. */
  method SpellOne(character: Char) returns (spelled: Text)
    ensures spelled == Spelled(character)
  {
    if Short(character).Some? {
      spelled := [BACKSLASH, Short(character).value];
    } else if 0x20 <= character <= 0x7E {
      spelled := [character];
    } else if character > 0xFFFF {
      var code := character - 0x1_0000;
      spelled := Unit(0xD800 + code / 0x400) + Unit(0xDC00 + code % 0x400);
    } else {
      spelled := Unit(character);
    }
  }

  lemma {:induction false} OneSpelled(out: Text, rest: Text)
    requires rest != []
    ensures out + Body(rest) == out + Spelled(rest[0]) + Body(rest[1..])
  {
  }

  // -- the string as section 7 of RFC 8259 reads it ----------------------------------------

  function HexValue(c: Char): Option<nat> {
    if 0x30 <= c <= 0x39 then Some(c - 0x30)
    else if 0x61 <= c <= 0x66 then Some(c - 0x61 + 10)
    else if 0x41 <= c <= 0x46 then Some(c - 0x41 + 10)
    else None
  }

  /** The code unit that `text` starts with, when it starts with one. */
  function UnitAt(text: Text): (unit: Option<nat>)
    ensures unit.Some? ==> |text| >= 6 && unit.value < 0x1_0000
  {
    if |text| < 6 || text[0] != BACKSLASH || text[1] != LETTER_U then None
    else
      var a, b, c, d := HexValue(text[2]), HexValue(text[3]), HexValue(text[4]), HexValue(text[5]);
      if a.None? || b.None? || c.None? || d.None? then None
      else Some(0x1000 * a.value + 0x100 * b.value + 16 * c.value + d.value)
  }

  function Long(letter: Char): Option<Char> {
    match letter
    case 0x22 => Some(0x22)
    case 0x5C => Some(0x5C)
    case 0x2F => Some(0x2F)
    case 0x6E => Some(0x0A)
    case 0x72 => Some(0x0D)
    case 0x74 => Some(0x09)
    case 0x62 => Some(0x08)
    case 0x66 => Some(0x0C)
    case _ => None
  }

  predicate High(c: nat) {
    0xD800 <= c < 0xDC00
  }

  predicate Low(c: nat) {
    0xDC00 <= c < 0xE000
  }

  function Pair(high: nat, low: nat): Char
    requires High(high) && Low(low)
  {
    0x1_0000 + 0x400 * (high - 0xD800) + (low - 0xDC00)
  }

  function Before(c: Char, rest: Option<Text>): Option<Text> {
    if rest.Some? then Some([c] + rest.value) else None
  }

  /** What is between the quotes, or None where it is not a JSON string. */
  function Decode(body: Text): Option<Text> {
    if body == [] then Some([])
    else if body[0] == QUOTE || body[0] < 0x20 then None
    else if body[0] != BACKSLASH then Before(body[0], Decode(body[1..]))
    else if |body| < 2 then None
    else if body[1] != LETTER_U then
      if Long(body[1]).Some? then Before(Long(body[1]).value, Decode(body[2..])) else None
    else
      var unit := UnitAt(body);
      if unit.None? then None
      else
        var next := UnitAt(body[6..]);
        if High(unit.value) && next.Some? && Low(next.value) then
          Before(Pair(unit.value, next.value), Decode(body[12..]))
        else Before(unit.value, Decode(body[6..]))
  }

  lemma {:induction false} HexIsRead(digit: nat)
    requires digit < 16
    ensures HexValue(Hex(digit)) == Some(digit)
  {
  }

  lemma {:induction false} HexSum(unit: nat)
    requires unit < 0x1_0000
    ensures 0x1000 * (unit / 0x1000) + 0x100 * (unit / 0x100 % 16) + 16 * (unit / 16 % 16) + unit % 16 == unit
  {
    assert unit / 16 == 16 * (unit / 0x100) + unit / 16 % 16;
    assert unit / 0x100 == 16 * (unit / 0x1000) + unit / 0x100 % 16;
  }

  lemma {:induction false} UnitIsRead(unit: nat, rest: Text)
    requires unit < 0x1_0000
    ensures UnitAt(Unit(unit) + rest) == Some(unit) && (Unit(unit) + rest)[6..] == rest
  {
    HexSum(unit);
    HexIsRead(unit / 0x1000);
    HexIsRead(unit / 0x100 % 16);
    HexIsRead(unit / 16 % 16);
    HexIsRead(unit % 16);
  }

  /** High and low surrogates next to each other as the code points they spell. */
  function Paired(text: Text): Text {
    if text == [] then []
    else if |text| > 1 && High(text[0]) && Low(text[1]) then [Pair(text[0], text[1])] + Paired(text[2..])
    else [text[0]] + Paired(text[1..])
  }

  lemma {:induction false} DecodeUnit(unit: nat, rest: Text)
    requires unit < 0x1_0000
    requires !High(unit) || UnitAt(rest).None? || !Low(UnitAt(rest).value)
    ensures Decode(Unit(unit) + rest) == Before(unit, Decode(rest))
  {
    UnitIsRead(unit, rest);
  }

  lemma {:induction false} DecodePair(high: nat, low: nat, rest: Text)
    requires High(high) && Low(low)
    ensures Decode(Unit(high) + (Unit(low) + rest)) == Before(Pair(high, low), Decode(rest))
  {
    var body := Unit(high) + (Unit(low) + rest);
    UnitIsRead(high, Unit(low) + rest);
    UnitIsRead(low, rest);
    assert body[12..] == rest;
  }

  /** Only a low surrogate's spelling starts with a low unit. */
  lemma {:induction false} NoLowUnit(text: Text)
    requires text == [] || !Low(text[0])
    ensures UnitAt(Body(text)).None? || !Low(UnitAt(Body(text)).value)
  {
    if text != [] {
      NoLowSpelled(text[0], Body(text[1..]));
    }
  }

  lemma {:induction false} NoLowSpelled(c: Char, rest: Text)
    requires !Low(c)
    ensures UnitAt(Spelled(c) + rest).None? || !Low(UnitAt(Spelled(c) + rest).value)
  {
    if Short(c).Some? {
      assert (Spelled(c) + rest)[1] == Short(c).value;
    } else if 0x20 <= c <= 0x7E {
      assert (Spelled(c) + rest)[0] == c;
    } else if c > 0xFFFF {
      var high, low := 0xD800 + (c - 0x1_0000) / 0x400, 0xDC00 + (c - 0x1_0000) % 0x400;
      assert Spelled(c) + rest == Unit(high) + (Unit(low) + rest);
      UnitIsRead(high, Unit(low) + rest);
    } else {
      UnitIsRead(c, rest);
    }
  }

  lemma {:induction false} DecodeOne(c: Char, rest: Text)
    requires !High(c)
    ensures Decode(Spelled(c) + rest) == Before(c, Decode(rest))
  {
    var body := Spelled(c) + rest;
    if Short(c).Some? {
      assert body[2..] == rest;
    } else if 0x20 <= c <= 0x7E {
      assert body[1..] == rest;
    } else if c > 0xFFFF {
      var high, low := 0xD800 + (c - 0x1_0000) / 0x400, 0xDC00 + (c - 0x1_0000) % 0x400;
      assert body == Unit(high) + (Unit(low) + rest);
      DecodePair(high, low, rest);
    } else {
      DecodeUnit(c, rest);
    }
  }

  /** Whatever the string, its spelling reads back as it, surrogates that met in it
      joined. */
  lemma {:induction false} BodyIsRead(text: Text)
    ensures Decode(Body(text)) == Some(Paired(text))
    decreases |text|
  {
    if text != [] {
      if |text| > 1 && High(text[0]) && Low(text[1]) {
        BodyIsRead(text[2..]);
        PairIsRead(text);
      } else {
        BodyIsRead(text[1..]);
        OneIsRead(text);
      }
    }
  }

  lemma {:induction false} PairIsRead(text: Text)
    requires |text| > 1 && High(text[0]) && Low(text[1]) && Decode(Body(text[2..])) == Some(Paired(text[2..]))
    ensures Decode(Body(text)) == Some(Paired(text))
  {
    assert text[1..][1..] == text[2..];
    DecodePair(text[0], text[1], Body(text[2..]));
  }

  lemma {:induction false} OneIsRead(text: Text)
    requires text != [] && !(|text| > 1 && High(text[0]) && Low(text[1]))
    requires Decode(Body(text[1..])) == Some(Paired(text[1..]))
    ensures Decode(Body(text)) == Some(Paired(text))
  {
    if High(text[0]) {
      NoLowUnit(text[1..]);
      DecodeUnit(text[0], Body(text[1..]));
    } else {
      DecodeOne(text[0], Body(text[1..]));
    }
  }

  ghost predicate NoneMeet(text: Text) {
    forall i | 0 <= i < |text| - 1 :: !(High(text[i]) && Low(text[i + 1]))
  }

  lemma {:induction false} PairedShortens(text: Text)
    ensures |Paired(text)| <= |text|
    ensures Paired(text) == text <==> NoneMeet(text)
    decreases |text|
  {
    if text != [] {
      if |text| > 1 && High(text[0]) && Low(text[1]) {
        PairedShortens(text[2..]);
      } else {
        PairedShortens(text[1..]);
        var rest := text[1..];
        assert text == [text[0]] + rest;
        if NoneMeet(text) {
          forall i | 0 <= i < |rest| - 1
            ensures !(High(rest[i]) && Low(rest[i + 1]))
          {
            assert !(High(text[i + 1]) && Low(text[i + 2]));
          }
        }
        if NoneMeet(rest) {
          forall i | 0 <= i < |text| - 1
            ensures !(High(text[i]) && Low(text[i + 1]))
          {
            assert i > 0 ==> text[i] == rest[i - 1] && text[i + 1] == rest[i];
          }
        }
      }
    }
  }

  /** It reads back as itself exactly when no high surrogate is followed by a low
      one; so always for Unicode scalar values, which are no surrogates. */
  lemma {:induction false} StringRoundTrip(text: Text)
    ensures Decode(Body(text)) == Some(text) <==> NoneMeet(text)
    ensures (forall i | 0 <= i < |text| :: !(0xD800 <= text[i] < 0xE000)) ==> Decode(Body(text)) == Some(text)
  {
    BodyIsRead(text);
    PairedShortens(text);
  }

  // -- flat objects -----------------------------------------------------------------------

  datatype Value = String(text: Text) | Number(number: int)
  type Item = (Text, Value)

  function Decimal(n: nat): (digits: Text)
    ensures digits != []
  {
    if n < 10 then [ZERO + n] else Decimal(n / 10) + [ZERO + n % 10]
  }

  function ValueText(value: Value): Text {
    match value
    case String(text) => Quoted(text)
    case Number(n) => if n < 0 then [MINUS] + Decimal(-n) else Decimal(n)
  }

  function Member(item: Item): Text {
    Quoted(item.0) + ([COLON] + ValueText(item.1))
  }

  function Members(items: seq<Item>): Text {
    if items == [] then []
    else if |items| == 1 then Member(items[0])
    else Member(items[0]) + ([COMMA] + Members(items[1..]))
  }

  /** `_json_text` of a flat dict, its items in order. */
  function JsonText(items: seq<Item>): Text {
    [OPEN] + Members(items) + [CLOSE]
  }

  // -- and the parser -------------------------------------------------------------------------

  function FirstQuote(text: Text): (at: Option<nat>)
    ensures at.Some? ==> at.value < |text| && text[at.value] == QUOTE
  {
    if text == [] then None
    else if text[0] == QUOTE then Some(0)
    else
      var at := FirstQuote(text[1..]);
      if at.Some? then Some(at.value + 1) else None
  }

  predicate Digit(c: Char) {
    ZERO <= c <= 0x39
  }

  /** How many digits the text starts with. */
  function DigitRun(text: Text): (run: nat)
    ensures run <= |text| && forall i | 0 <= i < run :: Digit(text[i])
  {
    if text == [] || !Digit(text[0]) then 0 else 1 + DigitRun(text[1..])
  }

  function DecimalValue(digits: Text): nat
    requires forall i | 0 <= i < |digits| :: Digit(digits[i])
  {
    if digits == [] then 0
    else
      assert Digit(digits[|digits| - 1]);
      10 * DecimalValue(digits[..|digits| - 1]) + (digits[|digits| - 1] - ZERO)
  }

  /** A value and what follows it. */
  datatype ReadValue = ReadValue(value: Value, rest: Text)

  function ValueOf(text: Text): (read: Option<ReadValue>)
    ensures read.Some? ==> |read.value.rest| < |text|
  {
    if text != [] && text[0] == QUOTE then
      var close := FirstQuote(text[1..]);
      if close.None? then None
      else Some(ReadValue(String(text[1..][..close.value]), text[1..][close.value + 1..]))
    else
      var negative := text != [] && text[0] == MINUS;
      var unsigned := if negative then text[1..] else text;
      var run := DigitRun(unsigned);
      if run == 0 then None
      else
        var n: int := DecimalValue(unsigned[..run]);
        Some(ReadValue(Number(if negative then -n else n), unsigned[run..]))
  }

  datatype ReadItem = ReadItem(key: Text, value: Value, rest: Text)

  function ItemOf(text: Text): (read: Option<ReadItem>)
    ensures read.Some? ==> |read.value.rest| < |text|
  {
    if text == [] || text[0] != QUOTE then None
    else
      var close := FirstQuote(text[1..]);
      if close.None? then None
      else
        var key, after := text[1..][..close.value], text[1..][close.value + 1..];
        if after == [] || after[0] != COLON then None
        else
          var value := ValueOf(after[1..]);
          if value.None? then None else Some(ReadItem(key, value.value.value, value.value.rest))
  }

  function ItemsOf(text: Text, result: map<Text, Value>): Option<map<Text, Value>>
    decreases |text|
  {
    var item := ItemOf(text);
    if item.None? then None
    else
      var more, rest := result[item.value.key := item.value.value], item.value.rest;
      if rest == [CLOSE] then Some(more)
      else if rest == [] || rest[0] != COMMA then None
      else ItemsOf(rest[1..], more)
  }

  /** `_flat_object`. */
  function Flat(text: Text): Option<map<Text, Value>> {
    if BACKSLASH in text || text == [] || text[0] != OPEN || text[|text| - 1] != CLOSE then None
    else if text == [OPEN, CLOSE] then Some(map[])
    else ItemsOf(text[1..], map[])
  }

  // -- the parser undoes the printer ------------------------------------------------------------

  lemma {:induction false} QuoteIsFound(plain: Text, rest: Text)
    requires Plain(plain)
    ensures FirstQuote(plain + ([QUOTE] + rest)) == Some(|plain|)
  {
    var text := plain + ([QUOTE] + rest);
    if plain != [] {
      assert PlainChar(plain[0]);
      assert forall i | 0 <= i < |plain[1..]| :: plain[1..][i] == plain[i + 1];
      assert text[1..] == plain[1..] + ([QUOTE] + rest);
      QuoteIsFound(plain[1..], rest);
    }
  }

  lemma {:induction false} DecimalIsDigits(n: nat)
    ensures forall i | 0 <= i < |Decimal(n)| :: Digit(Decimal(n)[i])
    ensures DecimalValue(Decimal(n)) == n
  {
    if n >= 10 {
      DecimalIsDigits(n / 10);
      assert Decimal(n)[..|Decimal(n)| - 1] == Decimal(n / 10);
    } else {
      assert Decimal(n)[..0] == [];
    }
  }

  /** A text that does not go on with a digit. */
  predicate Ends(rest: Text) {
    rest == [] || !Digit(rest[0])
  }

  lemma {:induction false} RunIsAll(digits: Text, rest: Text)
    requires (forall i | 0 <= i < |digits| :: Digit(digits[i])) && Ends(rest)
    ensures DigitRun(digits + rest) == |digits|
  {
    if digits == [] {
      assert digits + rest == rest;
    } else {
      assert (digits + rest)[1..] == digits[1..] + rest;
      assert forall i | 0 <= i < |digits[1..]| :: digits[1..][i] == digits[i + 1];
      RunIsAll(digits[1..], rest);
    }
  }

  predicate PlainValue(value: Value) {
    value.String? ==> Plain(value.text)
  }

  lemma {:induction false} StringIsRead(text: Text, rest: Text)
    requires Plain(text)
    ensures ValueOf(Quoted(text) + rest) == Some(ReadValue(String(text), rest))
  {
    var whole := Quoted(text) + rest;
    PlainIsItself(text);
    assert whole[1..] == text + ([QUOTE] + rest);
    QuoteIsFound(text, rest);
  }

  lemma {:induction false} DigitsAreRead(n: nat, rest: Text)
    requires Ends(rest)
    ensures var text := Decimal(n) + rest;
      && DigitRun(text) == |Decimal(n)| && text[..DigitRun(text)] == Decimal(n) && text[DigitRun(text)..] == rest
      && Digit(text[0]) && DecimalValue(Decimal(n)) == n
  {
    DecimalIsDigits(n);
    RunIsAll(Decimal(n), rest);
    assert (Decimal(n) + rest)[0] == Decimal(n)[0];
  }

  lemma {:induction false} NumberIsRead(n: int, rest: Text)
    requires Ends(rest)
    ensures ValueOf(ValueText(Number(n)) + rest) == Some(ReadValue(Number(n), rest))
  {
    if n < 0 {
      DigitsAreRead(-n, rest);
      SignedIsRead(-n, rest);
    } else {
      DigitsAreRead(n, rest);
      UnsignedIsRead(n, Decimal(n), rest, Decimal(n) + rest);
    }
  }

  lemma {:induction false} UnsignedIsRead(n: nat, digits: Text, rest: Text, text: Text)
    requires text != [] && Digit(text[0]) && digits != []
    requires DigitRun(text) == |digits| && text[..DigitRun(text)] == digits && text[DigitRun(text)..] == rest
    requires DecimalValue(digits) == n
    ensures ValueOf(text) == Some(ReadValue(Number(n), rest))
  {
  }

  lemma {:induction false} SignedIsRead(n: nat, rest: Text)
    requires var text := Decimal(n) + rest;
      && DigitRun(text) == |Decimal(n)| && text[..DigitRun(text)] == Decimal(n) && text[DigitRun(text)..] == rest
      && DecimalValue(Decimal(n)) == n
    ensures ValueOf([MINUS] + Decimal(n) + rest) == Some(ReadValue(Number(0 - n), rest))
  {
    var whole := [MINUS] + Decimal(n) + rest;
    assert whole[1..] == Decimal(n) + rest;
  }

  lemma {:induction false} KeyIsRead(key: Text, after: Text)
    requires Plain(key)
    ensures var whole := Quoted(key) + after;
      && whole[0] == QUOTE && FirstQuote(whole[1..]) == Some(|key|)
      && whole[1..][..|key|] == key && whole[1..][|key| + 1..] == after
  {
    var whole := Quoted(key) + after;
    PlainIsItself(key);
    assert whole[1..] == key + ([QUOTE] + after);
    QuoteIsFound(key, after);
  }

  lemma {:induction false} ItemIsRead(item: Item, rest: Text)
    requires Plain(item.0) && PlainValue(item.1) && Ends(rest)
    ensures ItemOf(Member(item) + rest) == Some(ReadItem(item.0, item.1, rest))
  {
    var after := [COLON] + (ValueText(item.1) + rest);
    var whole := Quoted(item.0) + after;
    assert Member(item) + rest == whole;
    KeyIsRead(item.0, after);
    ValueIsRead(item.1, rest);
    assert after[1..] == ValueText(item.1) + rest;
    ItemOfParts(whole, whole[1..], |item.0|, item.0, after, Some(ReadValue(item.1, rest)));
  }

  lemma {:induction false} ValueIsRead(value: Value, rest: Text)
    requires PlainValue(value) && Ends(rest)
    ensures ValueOf(ValueText(value) + rest) == Some(ReadValue(value, rest))
  {
    if value.String? {
      StringIsRead(value.text, rest);
    } else {
      NumberIsRead(value.number, rest);
    }
  }

  ghost predicate AllPlain(items: seq<Item>) {
    forall i | 0 <= i < |items| :: Plain(items[i].0) && PlainValue(items[i].1)
  }

  /** The dict of the items: a key met twice has the later value. */
  function MapOf(items: seq<Item>, result: map<Text, Value>): map<Text, Value> {
    if items == [] then result else MapOf(items[1..], result[items[0].0 := items[0].1])
  }

  lemma {:induction false} ItemsAreRead(items: seq<Item>, result: map<Text, Value>)
    requires items != [] && AllPlain(items)
    ensures ItemsOf(Members(items) + [CLOSE], result) == Some(MapOf(items, result))
  {
    var item := items[0];
    assert Plain(item.0) && PlainValue(item.1);
    if |items| == 1 {
      ItemIsRead(item, [CLOSE]);
      assert items[1..] == [];
    } else {
      var rest := [COMMA] + (Members(items[1..]) + [CLOSE]);
      assert Members(items) + [CLOSE] == Member(item) + rest;
      ItemIsRead(item, rest);
      assert rest[1..] == Members(items[1..]) + [CLOSE];
      MembersAreLong(items[1..]);
      assert forall i | 0 <= i < |items[1..]| :: items[1..][i] == items[i + 1];
      ItemsAreRead(items[1..], result[item.0 := item.1]);
    }
  }

  lemma {:induction false} MembersAreLong(items: seq<Item>)
    requires items != []
    ensures |Members(items)| > 0
  {
  }

  // -- and it refuses what it cannot undo ----------------------------------------------------------

  lemma {:induction false} EscapesShow(text: Text)
    requires !Plain(text)
    ensures BACKSLASH in Body(text)
  {
    PlainParts(text);
    if PlainChar(text[0]) {
      EscapesShow(text[1..]);
    } else {
      assert Spelled(text[0])[0] == BACKSLASH;
      assert Body(text)[0] == BACKSLASH;
    }
  }

  lemma {:induction false} PlainParts(text: Text)
    requires text != []
    ensures Plain(text) <==> PlainChar(text[0]) && Plain(text[1..])
  {
    assert text == [text[0]] + text[1..];
  }

  lemma {:induction false} EscapesShowInMember(item: Item)
    requires !Plain(item.0) || !PlainValue(item.1)
    ensures BACKSLASH in Member(item)
  {
    if !Plain(item.0) {
      EscapesShow(item.0);
      assert BACKSLASH in Quoted(item.0);
    } else {
      EscapesShow(item.1.text);
      assert BACKSLASH in ValueText(item.1);
    }
  }

  lemma {:induction false} EscapesShowInAll(items: seq<Item>, i: nat)
    requires i < |items| && (!Plain(items[i].0) || !PlainValue(items[i].1))
    ensures BACKSLASH in Members(items)
  {
    if i == 0 {
      EscapesShowInMember(items[0]);
    } else {
      EscapesShowInAll(items[1..], i - 1);
      assert BACKSLASH in [COMMA] + Members(items[1..]);
    }
  }

  lemma {:induction false} PlainHasNoEscape(text: Text)
    requires Plain(text)
    ensures BACKSLASH !in Quoted(text)
  {
    PlainIsItself(text);
  }

  lemma {:induction false} ValueHasNoEscape(value: Value)
    requires PlainValue(value)
    ensures BACKSLASH !in ValueText(value)
  {
    match value
    case String(text) => PlainHasNoEscape(text);
    case Number(n) => DecimalIsDigits(if n < 0 then -n else n);
  }

  lemma {:induction false} MembersHaveNoEscape(items: seq<Item>)
    requires AllPlain(items)
    ensures BACKSLASH !in Members(items)
  {
    if items != [] {
      assert Plain(items[0].0) && PlainValue(items[0].1);
      PlainHasNoEscape(items[0].0);
      ValueHasNoEscape(items[0].1);
      assert forall i | 0 <= i < |items[1..]| :: items[1..][i] == items[i + 1];
      MembersHaveNoEscape(items[1..]);
    }
  }

  /** The flat parser gives back the dict exactly when its strings are all plain;
      any other it leaves to the JSON scanner. */
  lemma {:induction false} FlatRoundTrip(items: seq<Item>)
    ensures Flat(JsonText(items)) == if AllPlain(items) then Some(MapOf(items, map[])) else None
  {
    if AllPlain(items) {
      PlainIsReadBack(items);
    } else {
      var i :| 0 <= i < |items| && (!Plain(items[i].0) || !PlainValue(items[i].1));
      EscapesShowInAll(items, i);
    }
  }

  lemma {:induction false} PlainIsReadBack(items: seq<Item>)
    requires AllPlain(items)
    ensures Flat(JsonText(items)) == Some(MapOf(items, map[]))
  {
    MembersHaveNoEscape(items);
    if items == [] {
      assert JsonText(items) == [OPEN, CLOSE];
    } else {
      MembersAreLong(items);
      ItemsAreRead(items, map[]);
      InBraces(Members(items));
    }
  }

  lemma {:induction false} InBraces(inner: Text)
    requires inner != [] && BACKSLASH !in inner
    ensures Flat([OPEN] + inner + [CLOSE]) == ItemsOf(inner + [CLOSE], map[])
  {
    Braced(inner, [OPEN] + inner + [CLOSE]);
  }

  lemma {:induction false} Braced(inner: Text, text: Text)
    requires inner != [] && BACKSLASH !in inner && text == [OPEN] + inner + [CLOSE]
    ensures BACKSLASH !in text && text[0] == OPEN && text[|text| - 1] == CLOSE
    ensures text[1..] == inner + [CLOSE] && text != [OPEN, CLOSE]
  {
    assert |text| > 2;
  }

  // -- the parser's loop -------------------------------------------------------------------------------

  /** `text.find('"', start)`. */
  method FindQuote(text: Text, start: nat) returns (at: int)
    requires start <= |text|
    ensures var found := FirstQuote(text[start..]);
      if found.Some? then at == start + found.value else at == -1
  {
    at := start;
    while at < |text|
      invariant start <= at <= |text|
      invariant var found, here := FirstQuote(text[start..]), FirstQuote(text[at..]);
        if here.Some? then found == Some(at - start + here.value) else found == None
    {
      assert text[at..][1..] == text[at + 1..];
      if text[at] == QUOTE {
        return;
      }
      at := at + 1;
    }
    at := -1;
  }

  lemma {:induction false} Suffixes(text: Text, a: nat, b: nat)
    requires a + b <= |text|
    ensures text[a..][b..] == text[a + b..] && text[a..][..b] == text[a..a + b]
  {
  }

  lemma {:induction false} StringAt(text: Text, start: nat, close: nat) returns (read: Option<ReadValue>)
    requires start < close < |text| && text[start] == QUOTE
    requires FirstQuote(text[start + 1..]) == Some(close - start - 1)
    ensures read == ValueOf(text[start..])
    ensures read == Some(ReadValue(String(text[start + 1..close]), text[close + 1..]))
  {
    Suffixes(text, start, 1);
    Suffixes(text, start + 1, close - start - 1);
    Suffixes(text, start + 1, close - start);
    StringOf(text[start..], text[start + 1..], close - start - 1, text[start + 1..close], text[close + 1..]);
    read := ValueOf(text[start..]);
  }

  /** The string's branch of `ValueOf`, its parts named. */
  lemma {:induction false} StringOf(rest: Text, inner: Text, close: nat, inside: Text, after: Text)
    requires rest != [] && rest[0] == QUOTE && inner == rest[1..] && FirstQuote(inner) == Some(close)
    requires inside == inner[..close] && after == inner[close + 1..]
    ensures ValueOf(rest) == Some(ReadValue(String(inside), after))
  {
  }

  lemma {:induction false} NoStringAt(text: Text, start: nat)
    requires start < |text| && text[start] == QUOTE && FirstQuote(text[start + 1..]).None?
    ensures ValueOf(text[start..]).None?
  {
    Suffixes(text, start, 1);
  }

  lemma {:induction false} NumberAt(text: Text, start: nat, first: nat, index: nat) returns (read: Option<ReadValue>)
    requires start <= first <= index <= |text| && !(start < |text| && text[start] == QUOTE)
    requires first == if start < |text| && text[start] == MINUS then start + 1 else start
    requires DigitRun(text[first..]) == index - first
    ensures forall i | 0 <= i < |text[first..index]| :: Digit(text[first..index][i])
    ensures read == ValueOf(text[start..])
    ensures read ==
      if index == first then None
      else
        var n: int := DecimalValue(text[first..index]);
        Some(ReadValue(Number(if first > start then -n else n), text[index..]))
  {
    var digits, after := text[first..index], text[index..];
    NumberParts(text, start, first, index, digits, after);
    DigitsOnly(text[first..], index - first, digits);
    NumberOf(text[start..], text[first..], index - first, digits, after);
    read := ValueOf(text[start..]);
  }

  /** The parts of a number that `ValueOf` names, as slices of the whole text. */
  lemma {:induction false} NumberParts(text: Text, start: nat, first: nat, index: nat, digits: Text, after: Text)
    requires start <= first <= index <= |text| && !(start < |text| && text[start] == QUOTE)
    requires first == if start < |text| && text[start] == MINUS then start + 1 else start
    requires digits == text[first..index] && after == text[index..]
    ensures var rest, unsigned := text[start..], text[first..];
      && !(rest != [] && rest[0] == QUOTE)
      && (rest != [] && rest[0] == MINUS <==> first > start)
      && unsigned == (if rest != [] && rest[0] == MINUS then rest[1..] else rest)
      && index - first <= |unsigned| && digits == unsigned[..index - first] && after == unsigned[index - first..]
  {
    Heads(text, start);
    Suffixes(text, start, first - start);
    Suffixes(text, first, index - first);
  }

  lemma {:induction false} Heads(text: Text, start: nat)
    requires start <= |text|
    ensures text[start..] != [] <==> start < |text|
    ensures start < |text| ==> text[start..][0] == text[start]
  {
  }

  /** The number's branch of `ValueOf`, its parts named. */
  lemma {:induction false} NumberOf(rest: Text, unsigned: Text, run: nat, digits: Text, after: Text)
    requires !(rest != [] && rest[0] == QUOTE)
    requires unsigned == if rest != [] && rest[0] == MINUS then rest[1..] else rest
    requires run == DigitRun(unsigned) && digits == unsigned[..run] && after == unsigned[run..]
    ensures ValueOf(rest) ==
      if run == 0 then None
      else
        var n: int := DecimalValue(digits);
        Some(ReadValue(Number(if rest != [] && rest[0] == MINUS then -n else n), after))
  {
  }

  lemma {:induction false} DigitsOnly(text: Text, run: nat, digits: Text)
    requires run == DigitRun(text) && digits == text[..run]
    ensures forall i | 0 <= i < |digits| :: Digit(digits[i])
  {
  }

  /** What was read is what `ValueOf` says. */
  ghost predicate ValueRead(text: Text, read: Option<ReadValue>, value: Option<Value>, index: nat) {
    if read.Some? then index <= |text| && value == Some(read.value.value) && text[index..] == read.value.rest
    else value == None
  }

  /** A string's or a number's extent, at `start`. */
  method ReadOne(text: Text, start: nat) returns (value: Option<Value>, index: nat, ghost read: Option<ReadValue>)
    requires start <= |text|
    ensures read == ValueOf(text[start..]) && ValueRead(text, read, value, index)
  {
    if start < |text| && text[start] == QUOTE {
      value, index, read := ReadString(text, start);
    } else {
      value, index, read := ReadNumber(text, start);
    }
  }

  method ReadString(text: Text, start: nat) returns (value: Option<Value>, index: nat, ghost read: Option<ReadValue>)
    requires start < |text| && text[start] == QUOTE
    ensures read == ValueOf(text[start..]) && ValueRead(text, read, value, index)
  {
    var close := FindQuote(text, start + 1);
    if close < 0 {
      NoStringAt(text, start);
      return None, start, None;
    }
    read := StringAt(text, start, close);
    value, index := Some(String(text[start + 1..close])), close + 1;
  }

  method ReadNumber(text: Text, start: nat) returns (value: Option<Value>, index: nat, ghost read: Option<ReadValue>)
    requires start <= |text| && !(start < |text| && text[start] == QUOTE)
    ensures read == ValueOf(text[start..]) && ValueRead(text, read, value, index)
  {
    var first := if start < |text| && text[start] == MINUS then start + 1 else start;
    index := SkipDigits(text, first);
    read := NumberAt(text, start, first, index);
    value := NumberBetween(text, first > start, first, index);
  }

  method NumberBetween(text: Text, negative: bool, first: nat, index: nat) returns (value: Option<Value>)
    requires first <= index <= |text| && forall i | 0 <= i < |text[first..index]| :: Digit(text[first..index][i])
    ensures value ==
      if index == first then None
      else
        var n: int := DecimalValue(text[first..index]);
        Some(Number(if negative then -n else n))
  {
    if index == first {
      return None;
    }
    var n: int := DecimalValue(text[first..index]);
    value := Some(Number(if negative then -n else n));
  }

  method SkipDigits(text: Text, first: nat) returns (index: nat)
    requires first <= |text|
    ensures first <= index <= |text| && DigitRun(text[first..]) == index - first
  {
    index := first;
    while index < |text| && Digit(text[index])
      invariant first <= index <= |text|
      invariant DigitRun(text[first..]) == index - first + DigitRun(text[index..])
    {
      Suffixes(text, index, 1);
      index := index + 1;
    }
    Heads(text, index);
  }

  lemma {:induction false} ItemAt(text: Text, start: nat, close: nat, read: Option<ReadValue>) returns (item: Option<ReadItem>)
    requires start < close < |text| && text[start] == QUOTE
    requires FirstQuote(text[start + 1..]) == Some(close - start - 1)
    requires if close + 1 < |text| && text[close + 1] == COLON then read == ValueOf(text[close + 2..]) else read == None
    ensures item == ItemOf(text[start..])
    ensures item ==
      if read.None? then None else Some(ReadItem(text[start + 1..close], read.value.value, read.value.rest))
  {
    Suffixes(text, start, 1);
    Suffixes(text, start + 1, close - start - 1);
    Suffixes(text, start + 1, close - start);
    Heads(text, close + 1);
    if close + 1 < |text| {
      Suffixes(text, close + 1, 1);
    }
    ItemOfParts(text[start..], text[start + 1..], close - start - 1, text[start + 1..close], text[close + 1..], read);
    item := ItemOf(text[start..]);
  }

  /** `ItemOf`, its parts named. */
  lemma {:induction false} ItemOfParts(rest: Text, inner: Text, close: nat, key: Text, after: Text, read: Option<ReadValue>)
    requires rest != [] && rest[0] == QUOTE && inner == rest[1..] && FirstQuote(inner) == Some(close)
    requires key == inner[..close] && after == inner[close + 1..]
    requires if after != [] && after[0] == COLON then read == ValueOf(after[1..]) else read == None
    ensures ItemOf(rest) == if read.None? then None else Some(ReadItem(key, read.value.value, read.value.rest))
  {
  }

  lemma {:induction false} NoItemAt(text: Text, start: nat)
    requires start <= |text|
    requires start == |text| || text[start] != QUOTE || FirstQuote(text[start + 1..]).None?
    ensures ItemOf(text[start..]).None?
  {
    if start < |text| {
      Suffixes(text, start, 1);
    }
  }

  ghost predicate ItemRead(text: Text, item: Option<ReadItem>, key: Text, value: Option<Value>, next: nat) {
    if item.Some? then
      next <= |text| && key == item.value.key && value == Some(item.value.value) && text[next..] == item.value.rest
    else value == None
  }

  method ReadMember(text: Text, start: nat)
    returns (key: Text, value: Option<Value>, next: nat, ghost item: Option<ReadItem>)
    requires start <= |text|
    ensures item == ItemOf(text[start..]) && ItemRead(text, item, key, value, next)
  {
    var close := KeyEnd(text, start);
    if close < 0 {
      return [], None, start, None;
    }
    key := text[start + 1..close];
    ghost var read;
    value, next, read := ReadAfterKey(text, close);
    item := ItemAt(text, start, close, read);
  }

  /** The quote a key ends with, if there is a key. */
  method KeyEnd(text: Text, start: nat) returns (close: int)
    requires start <= |text|
    ensures close < 0 ==> ItemOf(text[start..]) == None
    ensures close >= 0 ==>
      start < close < |text| && text[start] == QUOTE && FirstQuote(text[start + 1..]) == Some(close - start - 1)
  {
    close := -1;
    if start < |text| && text[start] == QUOTE {
      close := FindQuote(text, start + 1);
    }
    if close < 0 {
      NoItemAt(text, start);
    }
  }

  /** A key's value, if a colon follows the key. */
  method ReadAfterKey(text: Text, close: nat) returns (value: Option<Value>, next: nat, ghost read: Option<ReadValue>)
    requires close < |text|
    ensures if close + 1 < |text| && text[close + 1] == COLON then read == ValueOf(text[close + 2..]) else read == None
    ensures ValueRead(text, read, value, next)
  {
    value, next, read := None, close + 1, None;
    if next < |text| && text[next] == COLON {
      value, next, read := ReadOne(text, next + 1);
    }
  }

  /** How the loop goes on after what it read at `index`, towards `flat`. */
  lemma {:induction false} Turn(
    text: Text, index: nat, rest: Text, item: Option<ReadItem>, key: Text, value: Option<Value>, next: nat,
    result: map<Text, Value>, flat: Option<map<Text, Value>>)
    returns (after: Text)
    requires index <= |text| && rest == text[index..] && flat == ItemsOf(rest, result)
    requires item == ItemOf(rest) && ItemRead(text, item, key, value, next)
    ensures value.None? ==> flat == None
    ensures value.Some? ==> index < next <= |text|
    ensures value.Some? && next < |text| ==> after == text[next + 1..]
    ensures value.Some? ==>
      flat == (if next == |text| - 1 && text[next] == CLOSE then Some(result[key := value.value])
               else if next == |text| || text[next] != COMMA then None
               else ItemsOf(after, result[key := value.value]))
  {
    after := [];
    if value.Some? {
      ItemsOfParts(rest, text[next..], result);
      Heads(text, next);
      if next < |text| {
        Suffixes(text, next, 1);
        Last(text, next);
        after := text[next + 1..];
      }
    }
  }

  lemma {:induction false} Last(text: Text, next: nat)
    requires next < |text|
    ensures text[next..] == [CLOSE] <==> next == |text| - 1 && text[next] == CLOSE
  {
    if next == |text| - 1 {
      assert text[next..] == [text[next]];
    } else {
      assert |text[next..]| > 1;
    }
  }

  /** `ItemsOf`, its parts named. */
  lemma {:induction false} ItemsOfParts(text: Text, rest: Text, result: map<Text, Value>)
    requires ItemOf(text).Some? && ItemOf(text).value.rest == rest
    ensures |rest| < |text|
    ensures var more := result[ItemOf(text).value.key := ItemOf(text).value.value];
      ItemsOf(text, result) ==
        if rest == [CLOSE] then Some(more)
        else if rest == [] || rest[0] != COMMA then None
        else ItemsOf(rest[1..], more)
  {
  }

  /** `_flat_object`. */
  method FlatObject(text: Text) returns (flat: Option<map<Text, Value>>)
    ensures flat == Flat(text)
  {
    if BACKSLASH in text || text == [] || text[0] != OPEN || text[|text| - 1] != CLOSE {
      return None;
    }
    if text == [OPEN, CLOSE] {
      return Some(map[]);
    }
    flat := FlatItems(text);
  }

  method FlatItems(text: Text) returns (flat: Option<map<Text, Value>>)
    requires text != []
    ensures flat == ItemsOf(text[1..], map[])
  {
    ghost var rest := text[1..];
    ghost var whole := ItemsOf(rest, map[]);
    var result: map<Text, Value>, index := map[], 1;
    while true
      invariant 1 <= index <= |text| && rest == text[index..] && whole == ItemsOf(rest, result)
      decreases |text| - index
    {
      var key, value, next;
      ghost var item;
      key, value, next, item := ReadMember(text, index);
      rest := Turn(text, index, rest, item, key, value, next, result, whole);
      if value.None? {
        return None;
      }
      result := result[key := value.value];
      if next == |text| - 1 && text[next] == CLOSE {
        return Some(result);
      }
      if next == |text| || text[next] != COMMA {
        return None;
      }
      index := next + 1;
    }
  }
}
