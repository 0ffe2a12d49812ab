/** JSON values, what makes two of them the same up to key order, and the order of keys. */
module JsonValues {
  import opened Domain

  /** A UTF-16 code unit; source strings and texts are sequences of them. */
  type Unit = u: int | 0 <= u < 0x1_0000

  type Text = seq<Unit>

  /** The code units of a text of plain characters. */
  function Ascii(s: string): (t: Text)
    ensures |t| == |s| && forall i :: 0 <= i < |s| ==> t[i] == s[i] as int % 0x1_0000
  {
    if s == "" then [] else [s[0] as int % 0x1_0000] + Ascii(s[1..])
  }

  /** A JSON value as a program holds it: an object has its own keys in insertion order and a value under each. */
  datatype Json =
    | Null
    | Bool(flag: bool)
    | Number(token: Text)
    | Str(units: Text)
    | Array(items: seq<Json>)
    | Object(keys: seq<Text>, at: map<Text, Json>)

  /** The same value with key order forgotten. */
  datatype Value =
    | NullValue
    | BoolValue(flag: bool)
    | NumberValue(token: Text)
    | TextValue(units: Text)
    | ArrayValue(items: seq<Value>)
    | ObjectValue(at: map<Text, Value>)

  function Meaning(j: Json): Value {
    match j
    case Null => NullValue
    case Bool(b) => BoolValue(b)
    case Number(t) => NumberValue(t)
    case Str(s) => TextValue(s)
    case Array(items) => ArrayValue(Meanings(items))
    case Object(_, at) => ObjectValue(map k | k in at :: Meaning(at[k]))
  }

  function Meanings(items: seq<Json>): (r: seq<Value>)
    ensures |r| == |items|
  {
    if items == [] then [] else [Meaning(items[0])] + Meanings(items[1..])
  }

  // ----- numbers (section 6 of RFC 8259) -----

  const ZERO: Unit := 48
  const MINUS: Unit := 45
  const PLUS: Unit := 43
  const POINT: Unit := 46
  const EXPONENT: Unit := 101

  predicate Digit(u: Unit) {
    ZERO <= u <= ZERO + 9
  }

  predicate NumberUnit(u: Unit) {
    Digit(u) || u in {MINUS, PLUS, POINT, EXPONENT}
  }

  /** What the printer relies on in a number's decimal text. */
  predicate NumberToken(t: Text) {
    |t| > 0 && (Digit(t[0]) || t[0] == MINUS) && (forall u | u in t :: NumberUnit(u))
  }

  /** The characters of a number: digits, signs, a point and an exponent. */
  lemma NumberCharacters(u: Unit)
    ensures NumberUnit(u) <==> '0' as int <= u <= '9' as int || u in {'-' as int, '+' as int, '.' as int, 'e' as int}
  {
  }

  ghost predicate Valid(j: Json) {
    match j
    case Number(t) => NumberToken(t)
    case Array(items) => forall i :: 0 <= i < |items| ==> Valid(items[i])
    case Object(keys, at) =>
      && (forall i, k :: 0 <= i < k < |keys| ==> keys[i] != keys[k])
      && (forall k :: k in keys <==> k in at)
      && (forall k :: k in at ==> Valid(at[k]))
    case _ => true
  }

  // ----- key order -----

  /** Strings are ordered by code units. */
  predicate Below(a: Text, b: Text) {
    a == [] || (b != [] && (a[0] < b[0] || (a[0] == b[0] && Below(a[1..], b[1..]))))
  }

  predicate Ordered(keys: seq<Text>) {
    forall i, k :: 0 <= i < k < |keys| ==> Below(keys[i], keys[k])
  }

  function Insert(key: Text, sorted: seq<Text>): (r: seq<Text>)
    ensures multiset(r) == multiset(sorted) + multiset{key}
    ensures |r| == |sorted| + 1
  {
    if sorted == [] then [key]
    else if Below(key, sorted[0]) then [key] + sorted
    else
      assert sorted == [sorted[0]] + sorted[1..];
      [sorted[0]] + Insert(key, sorted[1..])
  }

  function Sort(keys: seq<Text>): (r: seq<Text>)
    ensures multiset(r) == multiset(keys)
    ensures |r| == |keys|
  {
    if keys == [] then []
    else
      assert keys == [keys[0]] + keys[1..];
      Insert(keys[0], Sort(keys[1..]))
  }

  /** One string is below another exactly if it is the beginning of it, or has the smaller code unit where they first differ. */
  lemma {:induction false} BelowExactly(a: Text, b: Text)
    ensures Below(a, b) <==> a <= b || exists i :: 0 <= i < |a| && i < |b| && a[..i] == b[..i] && a[i] < b[i]
    decreases |a|
  {
    if a != [] && b != [] {
      BelowExactly(a[1..], b[1..]);
      if a[0] == b[0] {
        if a[1..] <= b[1..] { assert a == [a[0]] + a[1..] && b == [b[0]] + b[1..]; }
        if i :| 0 <= i < |a[1..]| && i < |b[1..]| && a[1..][..i] == b[1..][..i] && a[1..][i] < b[1..][i] {
          assert a[..i + 1] == [a[0]] + a[1..][..i] && b[..i + 1] == [b[0]] + b[1..][..i];
          assert a[i + 1] < b[i + 1];
        }
        if i :| 0 <= i < |a| && i < |b| && a[..i] == b[..i] && a[i] < b[i] {
          assert i > 0 && a[1..][..i - 1] == a[..i][1..] && b[1..][..i - 1] == b[..i][1..];
        }
      } else if a[0] < b[0] {
        assert a[..0] == b[..0];
      } else {
        forall i | 0 < i < |a| && i < |b| ensures a[..i] != b[..i] { assert a[..i][0] != b[..i][0]; }
      }
    }
  }

  lemma {:induction false} BelowTotal(a: Text, b: Text)
    ensures Below(a, b) || Below(b, a)
    decreases |a|
  {
    if a != [] && b != [] && a[0] == b[0] { BelowTotal(a[1..], b[1..]); }
  }

  lemma {:induction false} BelowAntisymmetric(a: Text, b: Text)
    requires Below(a, b) && Below(b, a)
    ensures a == b
    decreases |a|
  {
    if a != [] {
      BelowAntisymmetric(a[1..], b[1..]);
      assert a == [a[0]] + a[1..] && b == [b[0]] + b[1..];
    }
  }

  lemma {:induction false} BelowTransitive(a: Text, b: Text, c: Text)
    requires Below(a, b) && Below(b, c)
    ensures Below(a, c)
    decreases |a|
  {
    if a != [] && a[0] == b[0] && b[0] == c[0] { BelowTransitive(a[1..], b[1..], c[1..]); }
  }

  lemma {:induction false} InsertOrdered(key: Text, sorted: seq<Text>)
    requires Ordered(sorted)
    ensures Ordered(Insert(key, sorted))
  {
    if sorted == [] {
    } else if Below(key, sorted[0]) {
      forall k | 0 <= k < |sorted| ensures Below(key, sorted[k]) {
        if k > 0 { BelowTransitive(key, sorted[0], sorted[k]); }
      }
    } else {
      InsertOrdered(key, sorted[1..]);
      BelowTotal(key, sorted[0]);
      var r := Insert(key, sorted[1..]);
      forall k | 0 <= k < |r| ensures Below(sorted[0], r[k]) {
        assert r[k] in multiset(r);
        if r[k] != key {
          assert r[k] in multiset(sorted[1..]);
          assert r[k] in sorted[1..];
        }
      }
    }
  }

  lemma {:induction false} SortOrdered(keys: seq<Text>)
    ensures Ordered(Sort(keys))
  {
    if keys != [] {
      SortOrdered(keys[1..]);
      InsertOrdered(keys[0], Sort(keys[1..]));
    }
  }

  lemma SameMembers(a: seq<Text>, b: seq<Text>)
    requires multiset(a) == multiset(b)
    ensures forall k :: k in a <==> k in b
  {
    forall k ensures k in a <==> k in b { assert k in a <==> k in multiset(a); }
  }

  lemma FirstIsLeast(a: seq<Text>, b: seq<Text>)
    requires a != [] && b != [] && Ordered(b) && multiset(a) == multiset(b)
    ensures a[0] == b[0] || Below(b[0], a[0])
  {
    SameMembers(a, b);
    assert a[0] in b;
    var i :| 0 <= i < |b| && b[i] == a[0];
  }

  lemma TailsAgree(a: seq<Text>, b: seq<Text>)
    requires a != [] && b != [] && a[0] == b[0] && multiset(a) == multiset(b)
    ensures multiset(a[1..]) == multiset(b[1..])
  {
    assert a == [a[0]] + a[1..] && b == [b[0]] + b[1..];
    assert multiset(a[1..]) == multiset(a) - multiset{a[0]};
    assert multiset(b[1..]) == multiset(b) - multiset{b[0]};
  }

  /** A collection of keys has one order. */
  lemma {:induction false} OrderedIsUnique(a: seq<Text>, b: seq<Text>)
    requires Ordered(a) && Ordered(b) && multiset(a) == multiset(b)
    ensures a == b
    decreases |a|
  {
    hide Below;
    assert |a| == |multiset(a)| == |multiset(b)| == |b|;
    if a != [] {
      FirstIsLeast(a, b);
      FirstIsLeast(b, a);
      if a[0] != b[0] { BelowAntisymmetric(a[0], b[0]); }
      TailsAgree(a, b);
      OrderedIsUnique(a[1..], b[1..]);
      assert a == [a[0]] + a[1..] && b == [b[0]] + b[1..];
    }
  }
}
