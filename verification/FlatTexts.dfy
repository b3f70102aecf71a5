/** Which texts the flat parser takes, and what it makes of each: objects without a
    space or an escape, of strings and of whole numbers, their digits whatever they are. */
module FlatTexts {
  import opened Options
  import opened FlatJson

  predicate AllDigits(text: Text) {
    forall i | 0 <= i < |text| :: Digit(text[i])
  }

  predicate SpellsNumber(text: Text, n: int) {
    var negative := text != [] && text[0] == MINUS;
    var digits := if negative then text[1..] else text;
    digits != [] && AllDigits(digits) && (var size: int := DecimalValue(digits); n == if negative then -size else size)
  }

  predicate SpellsValue(text: Text, value: Value) {
    match value
    case String(inner) => QUOTE !in inner && text == [QUOTE] + inner + [QUOTE]
    case Number(n) => SpellsNumber(text, n)
  }

  /** A key, its value and how the value is spelled. */
  datatype Part = Part(key: Text, value: Value, spelled: Text)

  predicate IsPart(part: Part) {
    QUOTE !in part.key && SpellsValue(part.spelled, part.value)
  }

  ghost predicate AreParts(parts: seq<Part>) {
    parts != [] && forall i | 0 <= i < |parts| :: IsPart(parts[i])
  }

  function PartText(part: Part): Text {
    [QUOTE] + (part.key + ([QUOTE] + ([COLON] + part.spelled)))
  }

  /** The object past its opening brace. */
  function PartsText(parts: seq<Part>): Text {
    if parts == [] then [CLOSE]
    else PartText(parts[0]) + if |parts| == 1 then [CLOSE] else [COMMA] + PartsText(parts[1..])
  }

  function ItemsIn(parts: seq<Part>): seq<Item> {
    seq(|parts|, i requires 0 <= i < |parts| => (parts[i].key, parts[i].value))
  }

  // -- what is taken is an object ----------------------------------------------------------------

  lemma {:induction false} QuoteIsFirst(text: Text)
    ensures FirstQuote(text).Some? ==>
      var at := FirstQuote(text).value;
      QUOTE !in text[..at] && text == text[..at] + [QUOTE] + text[at + 1..]
  {
    if text != [] && text[0] != QUOTE {
      QuoteIsFirst(text[1..]);
      if FirstQuote(text).Some? {
        var at := FirstQuote(text).value;
        assert text[..at] == [text[0]] + text[1..][..at - 1];
      }
    }
  }

  lemma {:induction false} ValueIsSpelled(text: Text) returns (spelled: Text)
    requires ValueOf(text).Some?
    ensures SpellsValue(spelled, ValueOf(text).value.value) && text == spelled + ValueOf(text).value.rest
  {
    if text != [] && text[0] == QUOTE {
      QuoteIsFirst(text[1..]);
      var at := FirstQuote(text[1..]).value;
      spelled := [QUOTE] + text[1..][..at] + [QUOTE];
    } else {
      spelled := NumberIsSpelled(text);
    }
  }

  lemma {:induction false} NumberIsSpelled(text: Text) returns (spelled: Text)
    requires ValueOf(text).Some? && text != [] && text[0] != QUOTE
    ensures ValueOf(text).value.value.Number? && SpellsNumber(spelled, ValueOf(text).value.value.number)
    ensures text == spelled + ValueOf(text).value.rest
  {
    var negative := text[0] == MINUS;
    var unsigned := if negative then text[1..] else text;
    var digits := unsigned[..DigitRun(unsigned)];
    spelled := if negative then [MINUS] + digits else digits;
    if negative {
      assert spelled[1..] == digits;
    } else {
      assert Digit(digits[0]);
    }
  }

  lemma {:induction false} PartThen(part: Part, rest: Text)
    ensures PartText(part) + rest == [QUOTE] + (part.key + ([QUOTE] + ([COLON] + (part.spelled + rest))))
  {
    var colon := [COLON] + part.spelled;
    assert colon + rest == [COLON] + (part.spelled + rest);
    var quote := [QUOTE] + colon;
    assert quote + rest == [QUOTE] + (colon + rest);
    var key := part.key + quote;
    assert key + rest == part.key + (quote + rest);
    assert ([QUOTE] + key) + rest == [QUOTE] + (key + rest);
  }

  lemma {:induction false} ItemIsPart(text: Text) returns (part: Part)
    requires ItemOf(text).Some?
    ensures IsPart(part) && part.key == ItemOf(text).value.key && part.value == ItemOf(text).value.value
    ensures text == PartText(part) + ItemOf(text).value.rest
  {
    QuoteIsFirst(text[1..]);
    var at := FirstQuote(text[1..]).value;
    var key, after := text[1..][..at], text[1..][at + 1..];
    var spelled := ValueIsSpelled(after[1..]);
    var value, rest := ValueOf(after[1..]).value.value, ValueOf(after[1..]).value.rest;
    part := Part(key, value, spelled);
    PartThen(part, rest);
    Reassembled(text, key, after, spelled + rest);
  }

  lemma {:induction false} Reassembled(text: Text, key: Text, after: Text, value: Text)
    requires text != [] && text[0] == QUOTE && text[1..] == key + [QUOTE] + after
    requires after != [] && after[0] == COLON && after[1..] == value
    ensures text == [QUOTE] + (key + ([QUOTE] + ([COLON] + value)))
  {
    assert after == [COLON] + value;
    assert key + [QUOTE] + after == key + ([QUOTE] + after);
    assert text == [QUOTE] + text[1..];
  }

  /** One more part in front, of the text and of the dict. */
  lemma {:induction false} MoreParts(part: Part, rest: seq<Part>, result: map<Text, Value>)
    requires IsPart(part) && (rest != [] ==> AreParts(rest))
    ensures var parts := [part] + rest;
      && AreParts(parts)
      && PartsText(parts) == PartText(part) + (if rest == [] then [CLOSE] else [COMMA] + PartsText(rest))
      && MapOf(ItemsIn(parts), result) == MapOf(ItemsIn(rest), result[part.key := part.value])
  {
    var parts := [part] + rest;
    assert parts[1..] == rest && ItemsIn(parts)[1..] == ItemsIn(rest) && ItemsIn(parts)[0] == (part.key, part.value);
    forall i | 0 <= i < |parts|
      ensures IsPart(parts[i])
    {
      if i > 0 {
        assert parts[i] == rest[i - 1];
      }
    }
  }

  lemma {:induction false} TakenIsSpelled(text: Text, result: map<Text, Value>) returns (parts: seq<Part>)
    requires ItemsOf(text, result).Some?
    ensures AreParts(parts) && text == PartsText(parts) && ItemsOf(text, result).value == MapOf(ItemsIn(parts), result)
    decreases |text|
  {
    var item := ItemOf(text).value;
    var part := ItemIsPart(text);
    if item.rest == [CLOSE] {
      parts := [part] + [];
      MoreParts(part, [], result);
    } else {
      var rest := TakenIsSpelled(item.rest[1..], result[item.key := item.value]);
      parts := [part] + rest;
      MoreParts(part, rest, result);
      assert item.rest == [COMMA] + item.rest[1..];
    }
  }

  // -- and every object is taken -----------------------------------------------------------------

  lemma {:induction false} QuoteEnds(inner: Text, rest: Text)
    requires QUOTE !in inner
    ensures FirstQuote(inner + ([QUOTE] + rest)) == Some(|inner|)
  {
    var text := inner + ([QUOTE] + rest);
    if inner != [] {
      assert text[1..] == inner[1..] + ([QUOTE] + rest);
      QuoteEnds(inner[1..], rest);
    }
  }

  lemma {:induction false} DigitsEnd(digits: Text, rest: Text)
    requires AllDigits(digits) && (rest == [] || !Digit(rest[0]))
    ensures DigitRun(digits + rest) == |digits|
  {
    if digits == [] {
      assert digits + rest == rest;
    } else {
      assert (digits + rest)[1..] == digits[1..] + rest;
      DigitsEnd(digits[1..], rest);
    }
  }

  lemma {:induction false} StringIsRead(inner: Text, rest: Text)
    requires QUOTE !in inner
    ensures ValueOf([QUOTE] + inner + [QUOTE] + rest) == Some(ReadValue(String(inner), rest))
  {
    var text := [QUOTE] + inner + [QUOTE] + rest;
    assert text[1..] == inner + ([QUOTE] + rest);
    QuoteEnds(inner, rest);
    assert text[1..][..|inner|] == inner && text[1..][|inner| + 1..] == rest;
  }

  lemma {:induction false} NumberIsRead(spelled: Text, n: int, rest: Text)
    requires SpellsNumber(spelled, n) && rest != [] && !Digit(rest[0])
    ensures ValueOf(spelled + rest) == Some(ReadValue(Number(n), rest))
  {
    var text := spelled + rest;
    var negative := spelled[0] == MINUS;
    var digits := if negative then spelled[1..] else spelled;
    var unsigned := if negative then text[1..] else text;
    assert unsigned == digits + rest;
    DigitsEnd(digits, rest);
    assert unsigned[..|digits|] == digits && unsigned[|digits|..] == rest;
    assert negative || Digit(text[0]);
  }

  lemma {:induction false} SpelledIsRead(spelled: Text, value: Value, rest: Text)
    requires SpellsValue(spelled, value) && rest != [] && !Digit(rest[0])
    ensures ValueOf(spelled + rest) == Some(ReadValue(value, rest))
  {
    match value
    case String(inner) => StringIsRead(inner, rest);
    case Number(n) => NumberIsRead(spelled, n, rest);
  }

  lemma {:induction false} PartIsRead(part: Part, rest: Text)
    requires IsPart(part) && rest != [] && !Digit(rest[0])
    ensures ItemOf(PartText(part) + rest) == Some(ReadItem(part.key, part.value, rest))
  {
    var text := PartText(part) + rest;
    var after := [COLON] + (part.spelled + rest);
    PartThen(part, rest);
    assert text[1..] == part.key + ([QUOTE] + after);
    QuoteEnds(part.key, after);
    assert text[1..][..|part.key|] == part.key && text[1..][|part.key| + 1..] == after;
    assert after[1..] == part.spelled + rest;
    SpelledIsRead(part.spelled, part.value, rest);
  }

  lemma {:induction false} OnePartTaken(text: Text, result: map<Text, Value>, item: ReadItem)
    requires ItemOf(text) == Some(item) && (item.rest == [CLOSE] || (item.rest != [] && item.rest[0] == COMMA))
    ensures var more := result[item.key := item.value];
      ItemsOf(text, result) == if item.rest == [CLOSE] then Some(more) else ItemsOf(item.rest[1..], more)
  {
  }

  lemma {:induction false} SpelledIsTaken(parts: seq<Part>, result: map<Text, Value>)
    requires AreParts(parts)
    ensures ItemsOf(PartsText(parts), result) == Some(MapOf(ItemsIn(parts), result))
    decreases |parts|
  {
    var part, others := parts[0], parts[1..];
    var rest := if others == [] then [CLOSE] else [COMMA] + PartsText(others);
    assert parts == [part] + others;
    MoreParts(part, others, result);
    PartIsRead(part, rest);
    OnePartTaken(PartsText(parts), result, ReadItem(part.key, part.value, rest));
    if others != [] {
      SpelledIsTaken(others, result[part.key := part.value]);
      assert rest[1..] == PartsText(others);
    }
  }

  lemma {:induction false} EndsInBrace(parts: seq<Part>)
    ensures PartsText(parts) != [] && PartsText(parts)[|PartsText(parts)| - 1] == CLOSE
    decreases |parts|
  {
    if |parts| > 1 {
      EndsInBrace(parts[1..]);
    }
  }

  /** The text is an object of these parts, or the empty one. */
  ghost predicate IsObject(text: Text, parts: seq<Part>) {
    if parts == [] then text == [OPEN, CLOSE] else AreParts(parts) && text == [OPEN] + PartsText(parts)
  }

  /** Of every text: the parser takes it exactly when it is without an escape and an
      object of such parts, and then gives each key its last value. */
  lemma {:induction false} TakenExactly(text: Text, result: map<Text, Value>)
    ensures Flat(text) == Some(result)
      <==> BACKSLASH !in text && exists parts :: IsObject(text, parts) && result == MapOf(ItemsIn(parts), map[])
  {
    if Flat(text) == Some(result) {
      var parts := ObjectOf(text);
      assert IsObject(text, parts) && result == MapOf(ItemsIn(parts), map[]);
    }
    if BACKSLASH !in text && exists parts :: IsObject(text, parts) && result == MapOf(ItemsIn(parts), map[]) {
      var parts :| IsObject(text, parts) && result == MapOf(ItemsIn(parts), map[]);
      ObjectIsTaken(text, parts);
    }
  }

  lemma {:induction false} PastBrace(past: Text) returns (parts: seq<Part>)
    requires ItemsOf(past, map[]).Some?
    ensures parts != [] && AreParts(parts) && past == PartsText(parts)
    ensures ItemsOf(past, map[]).value == MapOf(ItemsIn(parts), map[])
  {
    parts := TakenIsSpelled(past, map[]);
  }

  lemma {:induction false} ObjectOf(text: Text) returns (parts: seq<Part>)
    requires Flat(text).Some?
    ensures IsObject(text, parts) && Flat(text).value == MapOf(ItemsIn(parts), map[])
  {
    if text == [OPEN, CLOSE] {
      parts := [];
      assert ItemsIn(parts) == [];
    } else {
      var past := text[1..];
      assert text == [OPEN] + past;
      parts := PastBrace(past);
    }
  }

  lemma {:induction false} ObjectIsTaken(text: Text, parts: seq<Part>)
    requires BACKSLASH !in text && IsObject(text, parts)
    ensures Flat(text) == Some(MapOf(ItemsIn(parts), map[]))
  {
    EndsInBrace(parts);
    assert parts == [] ==> ItemsIn(parts) == [];
    if parts != [] {
      SpelledIsTaken(parts, map[]);
      assert text[1..] == PartsText(parts);
      assert PartText(parts[0])[0] == QUOTE;
    }
  }
}
