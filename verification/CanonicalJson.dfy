/** Canonical JSON text: the printer behind the fingerprints, a parser that undoes it, and what equal texts mean. */
module CanonicalJson {
  import opened Domain
  import opened JsonValues

  const QUOTE: Unit := 34
  const BACKSLASH: Unit := 92
  const COMMA: Unit := 44
  const COLON: Unit := 58
  const OPEN_LIST: Unit := 91
  const CLOSE_LIST: Unit := 93
  const OPEN_OBJECT: Unit := 123
  const CLOSE_OBJECT: Unit := 125
  const LETTER_U: Unit := 117
  const TRUE_TEXT: Text := [116, 114, 117, 101]
  const FALSE_TEXT: Text := [102, 97, 108, 115, 101]
  const NULL_TEXT: Text := [110, 117, 108, 108]

  // ----- strings (section 7 of RFC 8259) -----

  predicate HighSurrogate(u: Unit) { 0xD800 <= u <= 0xDBFF }

  predicate LowSurrogate(u: Unit) { 0xDC00 <= u <= 0xDFFF }

  function Hex(d: int): Unit
    requires 0 <= d < 16
  {
    if d < 10 then ZERO + d else 87 + d
  }

  function HexEscape(u: Unit): Text {
    [BACKSLASH, LETTER_U, Hex(u / 4096), Hex(u / 256 % 16), Hex(u / 16 % 16), Hex(u % 16)]
  }

  /** The letter that stands for a control character, a quote or a backslash after a backslash. */
  function ShortEscape(u: Unit): Option<Unit> {
    if u == 8 then Some(98) else if u == 9 then Some(116) else if u == 10 then Some(110)
    else if u == 12 then Some(102) else if u == 13 then Some(114)
    else if u == QUOTE then Some(QUOTE) else if u == BACKSLASH then Some(BACKSLASH) else None
  }

  /** How one code unit prints; a surrogate that is not half of a pair prints as an escape. */
  function UnitText(u: Unit, lone: bool): Text {
    if ShortEscape(u).Some? then [BACKSLASH, ShortEscape(u).value]
    else if u < 32 || lone then HexEscape(u)
    else [u]
  }

  predicate PairAt(s: Text) {
    |s| > 1 && HighSurrogate(s[0]) && LowSurrogate(s[1])
  }

  function Escape(s: Text): Text {
    if s == [] then []
    else if PairAt(s) then [s[0], s[1]] + Escape(s[2..])
    else UnitText(s[0], HighSurrogate(s[0]) || LowSurrogate(s[0])) + Escape(s[1..])
  }

  function Quoted(s: Text): Text {
    [QUOTE] + Escape(s) + [QUOTE]
  }

  // ----- the printer -----

  function Canonical(j: Json): Text
    decreases j, 1, 0
  {
    match j
    case Null => NULL_TEXT
    case Bool(b) => if b then TRUE_TEXT else FALSE_TEXT
    case Number(t) => t
    case Str(s) => Quoted(s)
    case Array(items) => [OPEN_LIST] + JoinItems(items) + [CLOSE_LIST]
    case Object(keys, at) => [OPEN_OBJECT] + JoinFields(j, Sort(keys)) + [CLOSE_OBJECT]
  }

  function JoinItems(items: seq<Json>): Text
    decreases items, 0, 0
  {
    if items == [] then []
    else if |items| == 1 then Canonical(items[0])
    else Canonical(items[0]) + [COMMA] + JoinItems(items[1..])
  }

  function FieldText(j: Json, key: Text): Text
    requires j.Object?
    decreases j, 0, 0
  {
    Quoted(key) + [COLON] + (if key in j.at then Canonical(j.at[key]) else [])
  }

  function JoinFields(j: Json, keys: seq<Text>): Text
    requires j.Object?
    decreases j, 0, |keys|
  {
    if keys == [] then []
    else if |keys| == 1 then FieldText(j, keys[0])
    else FieldText(j, keys[0]) + [COMMA] + JoinFields(j, keys[1..])
  }

  // ----- the text, character by character -----

  /** What a value prints as: the words of JSON, a number as its own text, strings in quotes, lists in brackets, objects in
      braces with their keys in order. */
  lemma CanonicalForms(t: Text, items: seq<Json>, keys: seq<Text>, at: map<Text, Json>)
    ensures Canonical(Null) == Ascii("null") && Canonical(Bool(true)) == Ascii("true") && Canonical(Bool(false)) == Ascii("false")
    ensures Canonical(Number(t)) == t && Canonical(Str(t)) == ['"' as int] + Escape(t) + ['"' as int]
    ensures Canonical(Array(items)) == ['[' as int] + JoinItems(items) + [']' as int]
    ensures Canonical(Object(keys, at)) == ['{' as int] + JoinFields(Object(keys, at), Sort(keys)) + ['}' as int]
  {
    hide Escape, JoinItems, JoinFields, Sort;
  }

  lemma JoinedForms(item: Json, items: seq<Json>, j: Json, key: Text, keys: seq<Text>)
    requires items != [] && j.Object? && key in j.at && keys != []
    ensures JoinItems([]) == [] && JoinItems([item]) == Canonical(item)
    ensures JoinItems([item] + items) == Canonical(item) + [',' as int] + JoinItems(items)
    ensures JoinFields(j, []) == []
    ensures JoinFields(j, [key]) == Canonical(Str(key)) + [':' as int] + Canonical(j.at[key])
    ensures JoinFields(j, [key] + keys) == Canonical(Str(key)) + [':' as int] + Canonical(j.at[key]) + [',' as int] + JoinFields(j, keys)
  {
    hide Escape;
    assert ([item] + items)[1..] == items && ([key] + keys)[1..] == keys;
  }

  const HEX := "0123456789abcdef"

  /** How a code unit prints inside a string: after a backslash when it is a quote, a backslash or one of five control
      characters; as four hexadecimal digits when it is any other control character or half of no pair; else as itself. */
  lemma EscapedForms(u: Unit, lone: bool)
    ensures UnitText('"' as int, lone) == ['\\' as int, '"' as int] && UnitText('\\' as int, lone) == ['\\' as int, '\\' as int]
    ensures UnitText(8, lone) == ['\\' as int, 'b' as int] && UnitText('\t' as int, lone) == ['\\' as int, 't' as int]
    ensures UnitText('\n' as int, lone) == ['\\' as int, 'n' as int] && UnitText(12, lone) == ['\\' as int, 'f' as int]
    ensures UnitText('\r' as int, lone) == ['\\' as int, 'r' as int]
    ensures u !in {8, 9, 10, 12, 13, 34, 92} ==> UnitText(u, lone) == if u < 0x20 || lone then HexEscape(u) else [u]
  {
  }

  lemma HexForms(u: Unit)
    ensures HexEscape(u) == ['\\' as int, 'u' as int, HEX[u / 4096] as int, HEX[u / 256 % 16] as int, HEX[u / 16 % 16] as int, HEX[u % 16] as int]
  {
    HexIs(u / 4096);
    HexIs(u / 256 % 16);
    HexIs(u / 16 % 16);
    HexIs(u % 16);
  }

  /** Halves of a pair print as they are when they make one, and as an escape otherwise. */
  lemma PairsPrint(high: Unit, low: Unit, lone: Unit, rest: Text)
    requires 0xD800 <= high <= 0xDBFF && 0xDC00 <= low <= 0xDFFF
    ensures Escape([high, low] + rest) == [high, low] + Escape(rest)
    ensures Escape([lone]) == UnitText(lone, 0xD800 <= lone <= 0xDFFF)
  {
    assert ([high, low] + rest)[2..] == rest;
    assert [lone][1..] == [];
  }

  lemma HexIs(d: int)
    requires 0 <= d < 16
    ensures Hex(d) == HEX[d] as int
  {
  }

  // ----- the parser -----

  datatype Parsed<T> = Parsed(value: T, rest: Text)

  function FromHex(u: Unit): (r: Option<int>)
    ensures r.Some? ==> 0 <= r.value < 16
  {
    if Digit(u) then Some(u - ZERO) else if 97 <= u <= 102 then Some(u - 87) else None
  }

  function ReadHex(s: Text): Option<Unit>
    requires |s| >= 4
  {
    var a, b, c, d := FromHex(s[0]), FromHex(s[1]), FromHex(s[2]), FromHex(s[3]);
    if a.Some? && b.Some? && c.Some? && d.Some? then
      Some(a.value * 4096 + b.value * 256 + c.value * 16 + d.value) else None
  }

  function FromShortEscape(u: Unit): Option<Unit> {
    if u == 98 then Some(8) else if u == 116 then Some(9) else if u == 110 then Some(10)
    else if u == 102 then Some(12) else if u == 114 then Some(13)
    else if u == QUOTE then Some(QUOTE) else if u == BACKSLASH then Some(BACKSLASH) else None
  }

  /** One code unit of a string, escaped or not. */
  function ReadUnit(s: Text): (r: Option<Parsed<Unit>>)
    ensures r.Some? ==> |r.value.rest| < |s|
  {
    if s == [] || s[0] == QUOTE || s[0] < 32 then None
    else if s[0] != BACKSLASH then Some(Parsed(s[0], s[1..]))
    else if |s| >= 2 && FromShortEscape(s[1]).Some? then Some(Parsed(FromShortEscape(s[1]).value, s[2..]))
    else if |s| >= 6 && s[1] == LETTER_U && ReadHex(s[2..]).Some? then Some(Parsed(ReadHex(s[2..]).value, s[6..]))
    else None
  }

  /** The rest of a string, up to and with its closing quote. */
  function ReadString(s: Text): (r: Option<Parsed<Text>>)
    ensures r.Some? ==> |r.value.rest| < |s|
    decreases |s|
  {
    if s != [] && s[0] == QUOTE then Some(Parsed([], s[1..]))
    else
      match ReadUnit(s)
      case None => None
      case Some(u) =>
        match ReadString(u.rest)
        case None => None
        case Some(p) => Some(Parsed([u.value] + p.value, p.rest))
  }

  function NumberLength(s: Text): (n: nat)
    ensures n <= |s|
    ensures s != [] && NumberUnit(s[0]) ==> n > 0
  {
    if s == [] || !NumberUnit(s[0]) then 0 else 1 + NumberLength(s[1..])
  }

  predicate Starts(s: Text, word: Text) {
    |word| <= |s| && s[..|word|] == word
  }

  function ReadValue(s: Text): (r: Option<Parsed<Value>>)
    ensures r.Some? ==> |r.value.rest| < |s|
    decreases |s|, 0
  {
    if s == [] then None
    else if s[0] == QUOTE then
      (match ReadString(s[1..])
       case Some(p) => Some(Parsed(TextValue(p.value), p.rest))
       case None => None)
    else if s[0] == OPEN_LIST then
      if |s| > 1 && s[1] == CLOSE_LIST then Some(Parsed(ArrayValue([]), s[2..]))
      else
        (match ReadItems(s[1..])
         case Some(p) => Some(Parsed(ArrayValue(p.value), p.rest))
         case None => None)
    else if s[0] == OPEN_OBJECT then
      if |s| > 1 && s[1] == CLOSE_OBJECT then Some(Parsed(ObjectValue(map[]), s[2..]))
      else
        (match ReadFields(s[1..])
         case Some(p) => Some(Parsed(ObjectValue(p.value), p.rest))
         case None => None)
    else if Digit(s[0]) || s[0] == MINUS then Some(Parsed(NumberValue(s[..NumberLength(s)]), s[NumberLength(s)..]))
    else if Starts(s, TRUE_TEXT) then Some(Parsed(BoolValue(true), s[4..]))
    else if Starts(s, FALSE_TEXT) then Some(Parsed(BoolValue(false), s[5..]))
    else if Starts(s, NULL_TEXT) then Some(Parsed(NullValue, s[4..]))
    else None
  }

  /** The items of a non-empty list, up to and with its closing bracket. */
  function ReadItems(s: Text): (r: Option<Parsed<seq<Value>>>)
    ensures r.Some? ==> |r.value.rest| < |s|
    decreases |s|, 1
  {
    match ReadValue(s)
    case None => None
    case Some(p) =>
      if p.rest == [] then None
      else if p.rest[0] == CLOSE_LIST then Some(Parsed([p.value], p.rest[1..]))
      else if p.rest[0] != COMMA then None
      else
        match ReadItems(p.rest[1..])
        case None => None
        case Some(q) => Some(Parsed([p.value] + q.value, q.rest))
  }

  /** The fields of a non-empty object, up to and with its closing brace. */
  function ReadFields(s: Text): (r: Option<Parsed<map<Text, Value>>>)
    ensures r.Some? ==> |r.value.rest| < |s|
    decreases |s|, 1
  {
    match ReadField(s)
    case None => None
    case Some(p) =>
      if p.rest == [] then None
      else if p.rest[0] == CLOSE_OBJECT then Some(Parsed(map[p.value.0 := p.value.1], p.rest[1..]))
      else if p.rest[0] != COMMA then None
      else
        match ReadFields(p.rest[1..])
        case None => None
        case Some(q) => Some(Parsed(q.value[p.value.0 := p.value.1], q.rest))
  }

  function ReadField(s: Text): (r: Option<Parsed<(Text, Value)>>)
    ensures r.Some? ==> |r.value.rest| < |s|
    decreases |s|, 0
  {
    if s == [] || s[0] != QUOTE then None
    else
      match ReadString(s[1..])
      case None => None
      case Some(key) =>
        if key.rest == [] || key.rest[0] != COLON then None
        else
          match ReadValue(key.rest[1..])
          case None => None
          case Some(p) => Some(Parsed((key.value, p.value), p.rest))
  }

  // ----- reading what was printed -----

  lemma HexDigits(u: Unit)
    ensures u == u / 4096 * 4096 + u / 256 % 16 * 256 + u / 16 % 16 * 16 + u % 16
  {
    assert u / 256 == u / 4096 * 16 + u / 256 % 16;
    assert u / 16 == u / 256 * 16 + u / 16 % 16;
  }

  lemma HexReads(u: Unit, rest: Text)
    ensures ReadHex(HexEscape(u)[2..] + rest) == Some(u)
  {
    HexDigits(u);
    HexDigitsRead(u / 4096, u / 256 % 16, u / 16 % 16, u % 16, HexEscape(u)[2..] + rest);
  }

  lemma HexDigitsRead(a: int, b: int, c: int, d: int, s: Text)
    requires 0 <= a < 16 && 0 <= b < 16 && 0 <= c < 16 && 0 <= d < 16
    requires |s| >= 4 && s[0] == Hex(a) && s[1] == Hex(b) && s[2] == Hex(c) && s[3] == Hex(d)
    ensures ReadHex(s) == Some(a * 4096 + b * 256 + c * 16 + d)
  {
  }

  lemma UnitReads(u: Unit, lone: bool, rest: Text)
    ensures ReadUnit(UnitText(u, lone) + rest) == Some(Parsed(u, rest))
    ensures UnitText(u, lone) != [] && (UnitText(u, lone) + rest)[0] != QUOTE
  {
    hide ReadHex, Hex;
    var t := UnitText(u, lone);
    var s := t + rest;
    assert s[|t|..] == rest;
    if ShortEscape(u).None? && (u < 32 || lone) {
      HexReads(u, rest);
      assert s[2..] == HexEscape(u)[2..] + rest;
    }
  }

  lemma {:induction false} StringReads(s: Text, rest: Text)
    ensures ReadString(Escape(s) + ([QUOTE] + rest)) == Some(Parsed(s, rest))
    decreases |s|
  {
    hide ReadUnit, UnitText, ReadString, HighSurrogate, LowSurrogate;
    var t := [QUOTE] + rest;
    if s == [] {
      assert Escape(s) + t == t;
      EndReads(rest);
    } else if PairAt(s) {
      StringReads(s[2..], rest);
      PairReads(s[0], s[1], Escape(s[2..]) + t);
      assert Escape(s) + t == [s[0], s[1]] + (Escape(s[2..]) + t);
      assert [s[0]] + ([s[1]] + s[2..]) == s;
    } else {
      var piece := UnitText(s[0], HighSurrogate(s[0]) || LowSurrogate(s[0]));
      StringReads(s[1..], rest);
      PieceReads(s[0], HighSurrogate(s[0]) || LowSurrogate(s[0]), Escape(s[1..]) + t);
      assert Escape(s) + t == piece + (Escape(s[1..]) + t);
      assert [s[0]] + s[1..] == s;
    }
  }

  lemma EndReads(rest: Text)
    ensures ReadString([QUOTE] + rest) == Some(Parsed([], rest))
  {
    assert ([QUOTE] + rest)[1..] == rest;
  }

  lemma PieceReads(u: Unit, lone: bool, t: Text)
    requires ReadString(t).Some?
    ensures ReadString(UnitText(u, lone) + t) == Some(Parsed([u] + ReadString(t).value.value, ReadString(t).value.rest))
  {
    hide ReadUnit, UnitText;
    UnitReads(u, lone, t);
  }

  lemma PairReads(a: Unit, b: Unit, t: Text)
    requires HighSurrogate(a) && LowSurrogate(b) && ReadString(t).Some?
    ensures ReadString([a, b] + t) == Some(Parsed([a] + ([b] + ReadString(t).value.value), ReadString(t).value.rest))
  {
    var s := [a, b] + t;
    assert s[1..] == [b] + t && s[1..][1..] == t;
  }

  lemma QuotedReads(s: Text, rest: Text)
    ensures Quoted(s) != [] && Quoted(s)[0] == (Quoted(s) + rest)[0] == QUOTE
    ensures ReadString((Quoted(s) + rest)[1..]) == Some(Parsed(s, rest))
  {
    hide ReadString;
    StringReads(s, rest);
    assert (Quoted(s) + rest)[1..] == Escape(s) + ([QUOTE] + rest);
  }

  /** What may follow a value inside a text, or the end of it. */
  predicate Delimited(rest: Text) {
    rest == [] || rest[0] in {COMMA, CLOSE_LIST, CLOSE_OBJECT}
  }

  lemma {:induction false} NumberEnds(t: Text, rest: Text)
    requires forall u | u in t :: NumberUnit(u)
    requires Delimited(rest)
    ensures NumberLength(t + rest) == |t|
    decreases |t|
  {
    if t == [] {
      assert t + rest == rest;
    } else {
      assert (t + rest)[1..] == t[1..] + rest;
      NumberEnds(t[1..], rest);
    }
  }

  lemma FirstUnit(j: Json)
    requires Valid(j)
    ensures Canonical(j) != [] && Canonical(j)[0] != CLOSE_LIST
  {
  }

  /** The parser recovers the value from its canonical text, whatever delimiter follows. */
  lemma {:induction false} RoundTrip(j: Json, rest: Text)
    requires Valid(j) && Delimited(rest)
    ensures ReadValue(Canonical(j) + rest) == Some(Parsed(Meaning(j), rest))
    decreases j, 1, 0
  {
    hide ReadValue, Canonical, Meaning, Quoted, ReadItems, ReadFields, Sort, Meanings;
    match j
    case Array(items) =>
      if items == [] {
        EmptyReads(j, rest);
      } else {
        ItemsRead(items, rest);
        ListReads(j, rest);
      }
    case Object(keys, at) =>
      if keys == [] {
        EmptyReads(j, rest);
      } else {
        SameMembers(Sort(keys), keys);
        FieldsRead(j, Sort(keys), rest);
        MeaningByFields(j);
        ObjectReads(j, rest);
      }
    case _ => ScalarReads(j, rest);
  }

  lemma ScalarReads(j: Json, rest: Text)
    requires Valid(j) && Delimited(rest) && !j.Array? && !j.Object?
    ensures ReadValue(Canonical(j) + rest) == Some(Parsed(Meaning(j), rest))
  {
    hide ReadString, Quoted, NumberLength, ReadItems, ReadFields;
    assert (Canonical(j) + rest)[|Canonical(j)|..] == rest;
    match j
    case Number(t) => NumberEnds(t, rest);
    case Str(units) => QuotedReads(units, rest);
    case _ =>
  }

  lemma MeaningByFields(j: Json)
    requires j.Object? && Valid(j)
    ensures Meaning(j) == ObjectValue(FieldMeanings(j, Sort(j.keys)))
  {
    hide Sort;
    SameMembers(Sort(j.keys), j.keys);
  }

  lemma EmptyReads(j: Json, rest: Text)
    requires j == Array([]) || (j.Object? && j.keys == [] && j.at == map[])
    ensures ReadValue(Canonical(j) + rest) == Some(Parsed(Meaning(j), rest))
  {
    assert (Canonical(j) + rest)[2..] == rest;
  }

  lemma OpenListReads(s: Text, p: Parsed<seq<Value>>)
    requires |s| > 1 && s[0] == OPEN_LIST && s[1] != CLOSE_LIST && ReadItems(s[1..]) == Some(p)
    ensures ReadValue(s) == Some(Parsed(ArrayValue(p.value), p.rest))
  {
    hide ReadItems;
  }

  lemma OpenObjectReads(s: Text, p: Parsed<map<Text, Value>>)
    requires |s| > 1 && s[0] == OPEN_OBJECT && s[1] != CLOSE_OBJECT && ReadFields(s[1..]) == Some(p)
    ensures ReadValue(s) == Some(Parsed(ObjectValue(p.value), p.rest))
  {
    hide ReadFields;
  }

  lemma ListReads(j: Json, rest: Text)
    requires j.Array? && Valid(j) && j.items != []
    requires ReadItems(JoinItems(j.items) + ([CLOSE_LIST] + rest)) == Some(Parsed(Meanings(j.items), rest))
    ensures ReadValue(Canonical(j) + rest) == Some(Parsed(Meaning(j), rest))
  {
    hide ReadItems, ReadValue, Meanings;
    var s := Canonical(j) + rest;
    assert s[1..] == JoinItems(j.items) + ([CLOSE_LIST] + rest);
    FirstItem(j.items);
    OpenListReads(s, Parsed(Meanings(j.items), rest));
  }

  lemma FirstItem(items: seq<Json>)
    requires items != [] && Valid(items[0])
    ensures JoinItems(items) != [] && JoinItems(items)[0] != CLOSE_LIST
  {
    hide Canonical;
    FirstUnit(items[0]);
  }

  /** What the fields under some of an object's keys mean. */
  function FieldMeanings(j: Json, keys: seq<Text>): map<Text, Value>
    requires j.Object?
  {
    map k | k in keys && k in j.at :: Meaning(j.at[k])
  }

  lemma ObjectReads(j: Json, rest: Text)
    requires j.Object? && j.keys != [] && Meaning(j) == ObjectValue(FieldMeanings(j, Sort(j.keys)))
    requires ReadFields(JoinFields(j, Sort(j.keys)) + ([CLOSE_OBJECT] + rest))
      == Some(Parsed(FieldMeanings(j, Sort(j.keys)), rest))
    ensures ReadValue(Canonical(j) + rest) == Some(Parsed(Meaning(j), rest))
  {
    hide ReadFields, ReadValue, Sort, FieldMeanings;
    var s := Canonical(j) + rest;
    assert s[1..] == JoinFields(j, Sort(j.keys)) + ([CLOSE_OBJECT] + rest);
    FirstField(j, Sort(j.keys));
    OpenObjectReads(s, Parsed(FieldMeanings(j, Sort(j.keys)), rest));
  }

  lemma FirstField(j: Json, keys: seq<Text>)
    requires j.Object? && keys != []
    ensures JoinFields(j, keys) != [] && JoinFields(j, keys)[0] == QUOTE
  {
    hide Quoted;
    QuotedReads(keys[0], []);
  }

  lemma Regroup(a: Text, u: Unit, b: Text, rest: Text)
    ensures (a + [u] + b) + rest == a + ([u] + (b + rest))
  {
  }

  lemma {:induction false} ItemsRead(items: seq<Json>, rest: Text)
    requires items != [] && forall i :: 0 <= i < |items| ==> Valid(items[i])
    ensures ReadItems(JoinItems(items) + ([CLOSE_LIST] + rest)) == Some(Parsed(Meanings(items), rest))
    decreases items, 0, 0
  {
    hide ReadValue, Canonical;
    var tail := [CLOSE_LIST] + rest;
    if |items| == 1 {
      RoundTrip(items[0], tail);
      assert Meanings(items) == [Meaning(items[0])];
    } else {
      var more := [COMMA] + (JoinItems(items[1..]) + tail);
      RoundTrip(items[0], more);
      ItemsRead(items[1..], rest);
      Regroup(Canonical(items[0]), COMMA, JoinItems(items[1..]), tail);
      assert more[1..] == JoinItems(items[1..]) + tail;
    }
  }

  lemma {:induction false} FieldReads(j: Json, key: Text, rest: Text)
    requires j.Object? && Valid(j) && key in j.at && Delimited(rest)
    ensures ReadField(FieldText(j, key) + rest) == Some(Parsed((key, Meaning(j.at[key])), rest))
    decreases j, 0, 0
  {
    hide ReadString, ReadValue, Quoted, Canonical;
    var more := [COLON] + (Canonical(j.at[key]) + rest);
    QuotedReads(key, more);
    RoundTrip(j.at[key], rest);
    Regroup(Quoted(key), COLON, Canonical(j.at[key]), rest);
    assert more[1..] == Canonical(j.at[key]) + rest;
  }

  lemma OneMoreField(j: Json, keys: seq<Text>)
    requires j.Object? && keys != [] && keys[0] in j.at
    ensures FieldMeanings(j, keys[1..])[keys[0] := Meaning(j.at[keys[0]])] == FieldMeanings(j, keys)
  {
    hide Meaning;
    assert keys == [keys[0]] + keys[1..];
  }

  lemma {:induction false} FieldsRead(j: Json, keys: seq<Text>, rest: Text)
    requires j.Object? && Valid(j) && keys != [] && forall k :: k in keys ==> k in j.at
    ensures ReadFields(JoinFields(j, keys) + ([CLOSE_OBJECT] + rest)) == Some(Parsed(FieldMeanings(j, keys), rest))
    decreases j, 0, |keys|
  {
    hide ReadField, FieldText, Valid, Meaning;
    var tail := [CLOSE_OBJECT] + rest;
    OneMoreField(j, keys);
    if |keys| == 1 {
      FieldReads(j, keys[0], tail);
      assert tail[1..] == rest;
      assert FieldMeanings(j, keys[1..]) == map[];
    } else {
      var more := [COMMA] + (JoinFields(j, keys[1..]) + tail);
      FieldReads(j, keys[0], more);
      FieldsRead(j, keys[1..], rest);
      Regroup(FieldText(j, keys[0]), COMMA, JoinFields(j, keys[1..]), tail);
      assert more[1..] == JoinFields(j, keys[1..]) + tail;
    }
  }

  // ----- what equal texts mean -----

  /** Values that differ only in key order print the same. */
  lemma {:induction false} SameMeaningSameText(a: Json, b: Json)
    requires Valid(a) && Valid(b) && Meaning(a) == Meaning(b)
    ensures Canonical(a) == Canonical(b)
    decreases a, 1, 0
  {
    hide Sort, JoinFields, JoinItems, Quoted;
    match a
    case Array(items) => SameItems(items, b.items);
    case Object(keys, at) =>
      SameKeys(a, b);
      SameMembers(Sort(keys), keys);
      SameFields(a, b, Sort(keys));
    case _ =>
  }

  lemma {:induction false} SameItems(a: seq<Json>, b: seq<Json>)
    requires (forall i :: 0 <= i < |a| ==> Valid(a[i])) && (forall i :: 0 <= i < |b| ==> Valid(b[i]))
    requires Meanings(a) == Meanings(b)
    ensures JoinItems(a) == JoinItems(b)
    decreases a, 0, 0
  {
    hide Canonical, Meaning, Valid;
    assert |Meanings(a)| == |a| && |Meanings(b)| == |b|;
    if a != [] {
      assert Meanings(a)[0] == Meaning(a[0]) && Meanings(b)[0] == Meaning(b[0]);
      assert Meanings(a)[1..] == Meanings(a[1..]) && Meanings(b)[1..] == Meanings(b[1..]);
      SameMeaningSameText(a[0], b[0]);
      SameItems(a[1..], b[1..]);
    }
  }

  lemma DistinctAsSet(a: seq<Text>, b: seq<Text>)
    requires forall i, k :: 0 <= i < k < |a| ==> a[i] != a[k]
    requires forall i, k :: 0 <= i < k < |b| ==> b[i] != b[k]
    requires forall k :: k in a <==> k in b
    ensures multiset(a) == multiset(b)
  {
    forall k ensures multiset(a)[k] == multiset(b)[k] {
      DistinctCount(a, k);
      DistinctCount(b, k);
    }
  }

  lemma {:induction false} DistinctCount(a: seq<Text>, k: Text)
    requires forall i, j :: 0 <= i < j < |a| ==> a[i] != a[j]
    ensures multiset(a)[k] == if k in a then 1 else 0
  {
    if a != [] {
      assert a == [a[0]] + a[1..];
      DistinctCount(a[1..], k);
    }
  }

  lemma SameKeys(a: Json, b: Json)
    requires a.Object? && b.Object? && Valid(a) && Valid(b) && Meaning(a) == Meaning(b)
    ensures a.at.Keys == b.at.Keys && Sort(a.keys) == Sort(b.keys)
    ensures forall k :: k in a.at ==> k in b.at && Meaning(a.at[k]) == Meaning(b.at[k])
  {
    hide Sort;
    assert Meaning(a).at.Keys == a.at.Keys && Meaning(b).at.Keys == b.at.Keys;
    forall k | k in a.at ensures k in b.at && Meaning(a.at[k]) == Meaning(b.at[k]) {
      assert Meaning(a).at[k] == Meaning(b).at[k];
    }
    forall k ensures k in a.keys <==> k in b.keys { assert k in a.at <==> k in b.at; }
    DistinctAsSet(a.keys, b.keys);
    SortOrdered(a.keys);
    SortOrdered(b.keys);
    OrderedIsUnique(Sort(a.keys), Sort(b.keys));
  }

  lemma {:induction false} SameFields(a: Json, b: Json, keys: seq<Text>)
    requires a.Object? && b.Object? && Valid(a) && Valid(b)
    requires forall k :: k in keys ==> k in a.at && k in b.at && Meaning(a.at[k]) == Meaning(b.at[k])
    ensures JoinFields(a, keys) == JoinFields(b, keys)
    decreases a, 0, |keys|
  {
    hide Quoted, Canonical, Meaning;
    if keys != [] {
      SameMeaningSameText(a.at[keys[0]], b.at[keys[0]]);
      SameFields(a, b, keys[1..]);
    }
  }

  /** Two values have the same canonical text exactly when they are equal up to key order. */
  lemma EqualTextExactly(a: Json, b: Json)
    requires Valid(a) && Valid(b)
    ensures Canonical(a) == Canonical(b) <==> Meaning(a) == Meaning(b)
  {
    hide Canonical, Meaning, ReadValue;
    RoundTrip(a, []);
    RoundTrip(b, []);
    assert Canonical(a) + [] == Canonical(a) && Canonical(b) + [] == Canonical(b);
    if Meaning(a) == Meaning(b) { SameMeaningSameText(a, b); }
  }
}
