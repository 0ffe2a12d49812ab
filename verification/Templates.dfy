/** Template substitution and the validation that is meant to guarantee it: scanning, paths, values, and their agreement. */
module Templates {
  import opened Domain
  import opened JsonValues

  const OPEN: Unit := '{' as int
  const CLOSE: Unit := '}' as int
  const DOT: Unit := '.' as int

  // ----- scanning -----

  /** A template taken apart: single units of literal text, and the expressions between double braces. */
  datatype Segment = Literal(unit: Unit) | Expression(path: Text)

  /** How many units come before the first closing brace. */
  function UntilClose(s: Text): (n: nat)
    ensures n <= |s|
    ensures forall i :: 0 <= i < n ==> s[i] != CLOSE
    ensures n < |s| ==> s[n] == CLOSE
  {
    if s == [] || s[0] == CLOSE then 0 else 1 + UntilClose(s[1..])
  }

  /** The expression of a match that begins right here, if one does. */
  function MatchHere(s: Text): (c: Option<Text>)
    ensures c.Some? ==> c.value != [] && |c.value| + 4 <= |s|
  {
    if |s| < 2 || s[0] != OPEN || s[1] != OPEN then None
    else
      var n := UntilClose(s[2..]);
      if n == 0 || n + 3 >= |s| || s[n + 3] != CLOSE then None else Some(s[2..2 + n])
  }

  function Braced(c: Text): Text {
    [OPEN, OPEN] + c + [CLOSE, CLOSE]
  }

  predicate StartsWith(s: Text, t: Text) {
    |t| <= |s| && s[..|t|] == t
  }

  /** The scanner takes an expression exactly where two braces, something without a closing brace, and two closing braces
      stand. */
  lemma MatchesExactly(s: Text, c: Text)
    ensures MatchHere(s) == Some(c) <==> c != [] && CLOSE !in c && StartsWith(s, Braced(c))
  {
    if c != [] && CLOSE !in c && StartsWith(s, Braced(c)) {
      var n, t := UntilClose(s[2..]), Braced(c);
      assert forall i :: 0 <= i < |t| ==> s[i] == t[i];
      assert s[2..][|c|] == CLOSE;
      assert forall i :: 0 <= i < |c| ==> s[2..][i] == c[i] && c[i] in c;
      assert forall i :: 0 <= i < |c| ==> s[2..][i] != CLOSE;
      assert n == |c|;
      assert s[2..2 + n] == c;
    }
    if MatchHere(s) == Some(c) {
      assert s[..|c| + 4] == Braced(c);
    }
  }

  /** Leftmost matches, one after the other, with the text between them. */
  function Segments(s: Text): seq<Segment>
    decreases |s|
  {
    if s == [] then []
    else
      match MatchHere(s)
      case Some(c) => [Expression(c)] + Segments(s[|c| + 4..])
      case None => [Literal(s[0])] + Segments(s[1..])
  }

  function Source(segments: seq<Segment>): Text {
    if segments == [] then []
    else (match segments[0] case Literal(u) => [u] case Expression(c) => Braced(c)) + Source(segments[1..])
  }

  /** Nothing of the template is lost or invented. */
  lemma {:induction false} SegmentsCover(s: Text)
    ensures Source(Segments(s)) == s
    decreases |s|
  {
    if s != [] {
      match MatchHere(s)
      case Some(c) =>
        MatchesExactly(s, c);
        SegmentsCover(s[|c| + 4..]);
        assert s == s[..|c| + 4] + s[|c| + 4..];
      case None =>
        SegmentsCover(s[1..]);
        assert s == [s[0]] + s[1..];
    }
  }

  function Paths(segments: seq<Segment>): seq<Text> {
    if segments == [] then []
    else (if segments[0].Expression? then [segments[0].path] else []) + Paths(segments[1..])
  }

  /** The segment at a position, and where the next one begins. */
  lemma NextSegment(s: Text, at: nat)
    requires at < |s|
    ensures Segments(s[at..]) == match MatchHere(s[at..])
      case Some(c) => [Expression(c)] + Segments(s[at + |c| + 4..])
      case None => [Literal(s[at])] + Segments(s[at + 1..])
  {
    var rest := s[at..];
    match MatchHere(rest)
    case Some(c) => assert rest[|c| + 4..] == s[at + |c| + 4..];
    case None => assert rest[1..] == s[at + 1..];
  }

  lemma PathsStep(x: Segment, rest: seq<Segment>)
    ensures Paths([x] + rest) == (if x.Expression? then [x.path] else []) + Paths(rest)
  {
    assert ([x] + rest)[1..] == rest;
  }

  method TemplatePaths(template: Text) returns (paths: seq<Text>)
    ensures paths == Paths(Segments(template))
  {
    hide Segments, MatchHere, Paths;
    paths := [];
    var at := 0;
    assert template[at..] == template;
    while at < |template|
      invariant 0 <= at <= |template|
      invariant Paths(Segments(template)) == paths + Paths(Segments(template[at..]))
      decreases |template| - at
    {
      NextSegment(template, at);
      match MatchHere(template[at..]) {
        case Some(c) =>
          PathsStep(Expression(c), Segments(template[at + |c| + 4..]));
          paths := paths + [c];
          at := at + |c| + 4;
        case None =>
          PathsStep(Literal(template[at]), Segments(template[at + 1..]));
          at := at + 1;
      }
    }
    NoPaths(template[at..]);
  }

  lemma NoPaths(s: Text)
    requires s == []
    ensures Paths(Segments(s)) == []
  {
  }

  // ----- values -----

  /** What an expression may reach: JSON of the run's metadata, or something built into the language. */
  datatype Val = Data(json: Json) | Builtin(isObject: bool, text: Text)

  /** Every property that is not an object's own field: list items and lengths, and whatever is inherited. */
  type Environment = (Val, Text) -> Option<Val>

  predicate Nullish(v: Val) {
    v == Data(Null)
  }

  predicate IsObject(v: Val) {
    match v
    case Data(j) => j.Array? || j.Object?
    case Builtin(isObject, _) => isObject
  }

  function Get(env: Environment, v: Val, key: Text): Option<Val> {
    if v.Data? && v.json.Object? && key in v.json.at then Some(Data(v.json.at[key])) else env(v, key)
  }

  /** The parts of a path between its dots. */
  function Split(path: Text): (keys: seq<Text>)
    ensures keys != []
  {
    if path == [] then [[]]
    else
      var rest := Split(path[1..]);
      if path[0] == DOT then [[]] + rest else [[path[0]] + rest[0]] + rest[1..]
  }

  /** The keys with a separator between them. */
  function Joined(keys: seq<Text>, separator: Unit): Text
    requires keys != []
  {
    if |keys| == 1 then keys[0] else keys[0] + [separator] + Joined(keys[1..], separator)
  }

  predicate Dotless(t: Text) {
    forall i | 0 <= i < |t| :: t[i] != '.' as int
  }

  predicate AllDotless(keys: seq<Text>) {
    forall i | 0 <= i < |keys| :: Dotless(keys[i])
  }

  /** The keys of a path are the one list of texts without a dot that, with dots in between, is the path. */
  lemma {:induction false} SplitExactly(path: Text, keys: seq<Text>)
    ensures Split(path) == keys <==> keys != [] && AllDotless(keys) && Joined(keys, '.' as int) == path
  {
    hide Joined, AllDotless;
    SplitJoins(path);
    if keys != [] && AllDotless(keys) && Joined(keys, '.' as int) == path { JoinedSplits(keys); }
  }

  lemma {:induction false} SplitJoins(path: Text)
    ensures Joined(Split(path), '.' as int) == path && AllDotless(Split(path))
  {
    if path != [] {
      var rest := Split(path[1..]);
      SplitJoins(path[1..]);
      if path[0] == DOT {
        assert ([[]] + rest)[1..] == rest;
      } else {
        var keys := [[path[0]] + rest[0]] + rest[1..];
        assert keys[1..] == rest[1..];
        assert Joined(keys, '.' as int) == [path[0]] + Joined(rest, '.' as int);
        forall i | 0 <= i < |keys| ensures Dotless(keys[i]) { assert Dotless(rest[i]); }
      }
    }
  }

  lemma SplitLonger(u: Unit, path: Text)
    ensures Split([u] + path) == if u == DOT then [[]] + Split(path) else [[u] + Split(path)[0]] + Split(path)[1..]
  {
    assert ([u] + path)[1..] == path;
  }

  lemma JoinedLonger(u: Unit, key: Text, rest: seq<Text>)
    ensures Joined([[u] + key] + rest, DOT) == [u] + Joined([key] + rest, DOT)
  {
    assert ([[u] + key] + rest)[1..] == rest && ([key] + rest)[1..] == rest;
  }

  lemma {:induction false} JoinedSplits(keys: seq<Text>)
    requires keys != [] && AllDotless(keys)
    ensures Split(Joined(keys, '.' as int)) == keys
    decreases |keys|, |keys[0]|
  {
    hide Split;
    if keys[0] != [] {
      var u, key, rest := keys[0][0], keys[0][1..], keys[1..];
      assert [u] + key == keys[0];
      assert keys == [[u] + key] + rest;
      assert Dotless(keys[0]);
      forall i | 0 <= i < |[key] + rest| ensures Dotless(([key] + rest)[i]) { assert Dotless(keys[i]); }
      JoinedSplits([key] + rest);
      JoinedLonger(u, key, rest);
      SplitLonger(u, Joined([key] + rest, DOT));
    } else if |keys| > 1 {
      forall i | 0 <= i < |keys[1..]| ensures Dotless(keys[1..][i]) { assert Dotless(keys[i + 1]); }
      JoinedSplits(keys[1..]);
      assert Joined(keys, DOT) == [DOT] + Joined(keys[1..], DOT);
      SplitLonger(DOT, Joined(keys[1..], DOT));
    } else {
      assert keys == [[]];
      EmptySplits();
    }
  }

  lemma EmptySplits()
    ensures Split([]) == [[]]
  {
  }

  /** Validation's walk: every step is a property of an object, and the end is there. */
  predicate HasKeys(env: Environment, v: Val, keys: seq<Text>)
    decreases |keys|
  {
    if keys == [] then !Nullish(v)
    else IsObject(v) && Get(env, v, keys[0]).Some? && HasKeys(env, Get(env, v, keys[0]).value, keys[1..])
  }

  /** Substitution's walk: it goes on through anything but nothing. */
  function Reached(env: Environment, v: Val, keys: seq<Text>): Val
    decreases |keys|
  {
    if keys == [] then v
    else if Nullish(v) then Data(Null)
    else Reached(env, Get(env, v, keys[0]).GetOr(Data(Null)), keys[1..])
  }

  lemma {:induction false} HasKeysReaches(env: Environment, v: Val, keys: seq<Text>)
    requires HasKeys(env, v, keys)
    ensures !Nullish(Reached(env, v, keys))
    decreases |keys|
  {
    if keys != [] { HasKeysReaches(env, Get(env, v, keys[0]).value, keys[1..]); }
  }

  const TO_STRING := Ascii("toString")
  const COMMA: Unit := ',' as int
  const OBJECT_TEXT := Ascii("[object Object]")
  const TRUE_TEXT := Ascii("true")
  const FALSE_TEXT := Ascii("false")

  /** What converting a value to a string gives, or nothing when the conversion throws: an object whose own `toString` is
      data cannot be converted, and a list is converted item by item. */
  function StringForm(j: Json): Option<Text> {
    match j
    case Null => Some([])
    case Bool(b) => Some(if b then TRUE_TEXT else FALSE_TEXT)
    case Number(t) => Some(t)
    case Str(s) => Some(s)
    case Object(_, at) => if TO_STRING in at then None else Some(OBJECT_TEXT)
    case Array(items) => JoinForms(items)
  }

  function JoinForms(items: seq<Json>): Option<Text> {
    if items == [] then Some([])
    else
      var first := StringForm(items[0]);
      if |items| == 1 then first
      else
        var rest := JoinForms(items[1..]);
        if first.None? || rest.None? then None else Some(first.value + [COMMA] + rest.value)
  }

  /** The guard a caller can check: no object with a field named toString, itself or inside lists. */
  predicate Convertible(j: Json) {
    match j
    case Object(_, at) => TO_STRING !in at
    case Array(items) => AllConvertible(items)
    case _ => true
  }

  predicate AllConvertible(items: seq<Json>) {
    items == [] || (Convertible(items[0]) && AllConvertible(items[1..]))
  }

  lemma {:induction false} StringFormExactly(j: Json)
    ensures StringForm(j).Some? <==> Convertible(j)
    decreases j, 1
  {
    if j.Array? { JoinFormsExactly(j.items); }
  }

  lemma {:induction false} JoinFormsExactly(items: seq<Json>)
    ensures JoinForms(items).Some? <==> AllConvertible(items)
    decreases items, 0
  {
    if items != [] {
      StringFormExactly(items[0]);
      JoinFormsExactly(items[1..]);
    }
  }

  predicate Printable(v: Val) {
    v.Builtin? || Convertible(v.json)
  }

  function TextOf(v: Val): Option<Text> {
    match v
    case Data(j) => StringForm(j)
    case Builtin(_, text) => Some(text)
  }

  // ----- substitution -----

  /** The value an expression stands for, or nothing when substitution falls back to empty text. */
  function Substitute(env: Environment, values: Json, path: Text): Option<Text> {
    var v := Reached(env, Data(values), Split(path));
    if Nullish(v) then None else TextOf(v)
  }

  /** What one segment turns into. */
  function Piece(env: Environment, values: Json, x: Segment): Text {
    match x
    case Literal(u) => [u]
    case Expression(path) => Substitute(env, values, path).GetOr([])
  }

  function Output(env: Environment, values: Json, segments: seq<Segment>): Text {
    if segments == [] then [] else Piece(env, values, segments[0]) + Output(env, values, segments[1..])
  }

  /** The replacement of one expression, key by key; whatever throws on the way gives empty text. */
  method Replacement(env: Environment, values: Json, path: Text) returns (text: Text)
    ensures text == Substitute(env, values, path).GetOr([])
  {
    var keys := Split(path);
    var val := Data(values);
    var i := 0;
    while i < |keys|
      invariant 0 <= i <= |keys|
      invariant Reached(env, Data(values), keys) == Reached(env, val, keys[i..])
    {
      if Nullish(val) { return []; }
      val := Get(env, val, keys[i]).GetOr(Data(Null));
      i := i + 1;
    }
    if Nullish(val) { return []; }
    return TextOf(val).GetOr([]);
  }

  lemma OutputStep(env: Environment, values: Json, x: Segment, rest: seq<Segment>)
    ensures Output(env, values, [x] + rest) == Piece(env, values, x) + Output(env, values, rest)
  {
    assert ([x] + rest)[1..] == rest;
  }

  /** The substituted template: its literal text with the values at its paths in between, in order. What is not text
      substitutes to nothing. */
  method Parse(env: Environment, value: Json, values: Json) returns (out: Text)
    ensures out == if value.Str? then Output(env, values, Segments(value.units)) else []
  {
    hide Segments, MatchHere, Output, Substitute;
    if !value.Str? { return []; }
    var template := value.units;
    out := [];
    var at := 0;
    assert template[at..] == template;
    while at < |template|
      invariant 0 <= at <= |template|
      invariant Output(env, values, Segments(template)) == out + Output(env, values, Segments(template[at..]))
      decreases |template| - at
    {
      NextSegment(template, at);
      match MatchHere(template[at..]) {
        case Some(c) =>
          OutputStep(env, values, Expression(c), Segments(template[at + |c| + 4..]));
          var text := Replacement(env, values, c);
          out := out + text;
          at := at + |c| + 4;
        case None =>
          OutputStep(env, values, Literal(template[at]), Segments(template[at + 1..]));
          out := out + [template[at]];
          at := at + 1;
      }
    }
    NoOutput(env, values, template[at..]);
  }

  lemma NoOutput(env: Environment, values: Json, s: Text)
    requires s == []
    ensures Output(env, values, Segments(s)) == []
  {
  }

  // ----- validation -----

  method HasPath(env: Environment, values: Json, path: Text) returns (has: bool)
    ensures has == HasKeys(env, Data(values), Split(path))
  {
    var keys := Split(path);
    var current := Data(values);
    var i := 0;
    while i < |keys|
      invariant 0 <= i <= |keys|
      invariant HasKeys(env, Data(values), keys) == HasKeys(env, current, keys[i..])
    {
      if !IsObject(current) || Get(env, current, keys[i]).None? { return false; }
      current := Get(env, current, keys[i]).value;
      i := i + 1;
    }
    return !Nullish(current);
  }

  /** The fields of an action that validation looks at. */
  datatype Definition = Definition(required: seq<Text>, optional: seq<Text>)

  function Checked(d: Definition): seq<Text> {
    d.required + d.optional
  }

  datatype Verdict = Verdict(blocked: bool, missing: seq<Text>, wrongTypes: seq<Text>, missingPaths: set<Text>)

  predicate IsValid(v: Verdict) {
    !v.blocked && v.missing == [] && v.wrongTypes == [] && v.missingPaths == {}
  }

  predicate Empty(metadata: map<Text, Json>, field: Text) {
    field !in metadata || metadata[field] == Null || metadata[field] == Str([])
  }

  /** A field that gives no cause for complaint. */
  predicate FieldOk(env: Environment, metadata: map<Text, Json>, values: Json, d: Definition, field: Text) {
    if Empty(metadata, field) then field !in d.required
    else
      && metadata[field].Str?
      && forall p | p in Paths(Segments(metadata[field].units)) :: HasKeys(env, Data(values), Split(p))
  }

  /** A field is text and names a path that is not there. */
  predicate LacksPath(env: Environment, metadata: map<Text, Json>, values: Json, field: Text, path: Text) {
    && !Empty(metadata, field) && metadata[field].Str?
    && path in Paths(Segments(metadata[field].units)) && !HasKeys(env, Data(values), Split(path))
  }

  method MissingPaths(env: Environment, values: Json, template: Text) returns (missing: set<Text>)
    ensures missing == set p | p in Paths(Segments(template)) && !HasKeys(env, Data(values), Split(p))
  {
    hide Segments, HasKeys, Split, Paths;
    var paths := TemplatePaths(template);
    missing := {};
    var i := 0;
    while i < |paths|
      invariant 0 <= i <= |paths|
      invariant missing == set p | p in paths[..i] && !HasKeys(env, Data(values), Split(p))
    {
      var has := HasPath(env, values, paths[i]);
      if !has { missing := missing + {paths[i]}; }
      assert paths[..i + 1] == paths[..i] + [paths[i]];
      i := i + 1;
    }
    assert paths[..|paths|] == paths;
  }

  /** The verdict names exactly the fields that are required and empty, exactly those that are not text, and exactly the
      paths that are not there. */
  ghost predicate Reports(env: Environment, metadata: map<Text, Json>, values: Json, required: seq<Text>, fields: seq<Text>, v: Verdict) {
    && (forall f :: f in v.missing <==> f in fields && Empty(metadata, f) && f in required)
    && (forall f :: f in v.wrongTypes <==> f in fields && !Empty(metadata, f) && !metadata[f].Str?)
    && (forall p :: p in v.missingPaths <==> exists f :: f in fields && LacksPath(env, metadata, values, f, p))
  }

  method ValidateActionInputs(env: Environment, supported: bool, definition: Option<Definition>, metadata: map<Text, Json>,
                              values: Json) returns (v: Verdict)
    ensures v.blocked == !supported
    ensures !supported || definition.None? ==> v == Verdict(!supported, [], [], {})
    ensures supported && definition.Some? ==>
      Reports(env, metadata, values, definition.value.required, Checked(definition.value), v)
    ensures IsValid(v) <==> supported && (definition.Some? ==>
      forall f | f in Checked(definition.value) :: FieldOk(env, metadata, values, definition.value, f))
  {
    hide Reports, FieldOk, LacksPath;
    v := Verdict(!supported, [], [], {});
    if !supported || definition.None? { return; }
    var fields, required := Checked(definition.value), definition.value.required;
    NothingReported(env, metadata, values, required);
    var i := 0;
    while i < |fields|
      invariant 0 <= i <= |fields| && !v.blocked
      invariant Reports(env, metadata, values, required, fields[..i], v)
    {
      var field := fields[i];
      assert fields[..i + 1] == fields[..i] + [field];
      ghost var before := v;
      if Empty(metadata, field) {
        if field in required { v := v.(missing := v.missing + [field]); }
        ReportsEmpty(env, metadata, values, required, fields[..i], field, before);
      } else if !metadata[field].Str? {
        v := v.(wrongTypes := v.wrongTypes + [field]);
        ReportsWrongType(env, metadata, values, required, fields[..i], field, before);
      } else {
        var missing := MissingPaths(env, values, metadata[field].units);
        v := v.(missingPaths := v.missingPaths + missing);
        ReportsPaths(env, metadata, values, required, fields[..i], field, before, missing);
      }
      i := i + 1;
    }
    assert fields[..|fields|] == fields;
    ReportsMeanValid(env, metadata, values, definition.value, v);
  }

  lemma NothingReported(env: Environment, metadata: map<Text, Json>, values: Json, required: seq<Text>)
    ensures Reports(env, metadata, values, required, [], Verdict(false, [], [], {}))
  {
  }

  lemma ReportsEmpty(env: Environment, metadata: map<Text, Json>, values: Json, required: seq<Text>, fields: seq<Text>, field: Text, v: Verdict)
    requires Reports(env, metadata, values, required, fields, v) && Empty(metadata, field)
    ensures Reports(env, metadata, values, required, fields + [field], if field in required then v.(missing := v.missing + [field]) else v)
  {
    hide Empty;
  }

  lemma ReportsWrongType(env: Environment, metadata: map<Text, Json>, values: Json, required: seq<Text>, fields: seq<Text>, field: Text, v: Verdict)
    requires Reports(env, metadata, values, required, fields, v) && !Empty(metadata, field) && !metadata[field].Str?
    ensures Reports(env, metadata, values, required, fields + [field], v.(wrongTypes := v.wrongTypes + [field]))
  {
    hide Empty;
  }

  lemma ReportsPaths(env: Environment, metadata: map<Text, Json>, values: Json, required: seq<Text>, fields: seq<Text>, field: Text, v: Verdict,
                     missing: set<Text>)
    requires Reports(env, metadata, values, required, fields, v) && !Empty(metadata, field) && metadata[field].Str?
    requires missing == set p | p in Paths(Segments(metadata[field].units)) && !HasKeys(env, Data(values), Split(p))
    ensures Reports(env, metadata, values, required, fields + [field], v.(missingPaths := v.missingPaths + missing))
  {
    hide Empty, HasKeys, Segments, Paths, Split;
    forall p
      ensures p in v.missingPaths + missing <==> exists f :: f in fields + [field] && LacksPath(env, metadata, values, f, p)
    {
      assert p in missing <==> LacksPath(env, metadata, values, field, p);
      if p in missing { assert field in fields + [field]; }
      if f :| f in fields && LacksPath(env, metadata, values, f, p) { assert f in fields + [field]; }
    }
  }

  lemma NothingWrong(env: Environment, metadata: map<Text, Json>, values: Json, d: Definition, v: Verdict, field: Text)
    requires Reports(env, metadata, values, d.required, Checked(d), v) && IsValid(v) && field in Checked(d)
    ensures Empty(metadata, field) ==> field !in d.required
    ensures !Empty(metadata, field) ==> metadata[field].Str?
  {
    hide Empty, LacksPath;
    assert field !in v.missing && field !in v.wrongTypes;
  }

  lemma ReportsMeanValid(env: Environment, metadata: map<Text, Json>, values: Json, d: Definition, v: Verdict)
    requires Reports(env, metadata, values, d.required, Checked(d), v)
    ensures IsValid(v) <==> !v.blocked && forall f | f in Checked(d) :: FieldOk(env, metadata, values, d, f)
  {
    hide HasKeys, Segments, Paths, Split;
    if v.missing != [] { assert v.missing[0] in v.missing; }
    if v.wrongTypes != [] { assert v.wrongTypes[0] in v.wrongTypes; }
    if p :| p in v.missingPaths {
      var f :| f in Checked(d) && LacksPath(env, metadata, values, f, p);
      assert !FieldOk(env, metadata, values, d, f);
    }
    if IsValid(v) {
      forall f | f in Checked(d) ensures FieldOk(env, metadata, values, d, f) {
        NothingWrong(env, metadata, values, d, v, f);
        if !Empty(metadata, f) && metadata[f].Str? {
          forall p | p in Paths(Segments(metadata[f].units)) ensures HasKeys(env, Data(values), Split(p)) {
            assert p !in v.missingPaths;
            assert !LacksPath(env, metadata, values, f, p);
          }
        }
      }
    }
  }

  // ----- what a path means -----

  /** The value under a list of keys, each a field of the object before it. */
  function Field(j: Json, keys: seq<Text>): Option<Json> {
    if keys == [] then Some(j)
    else if j.Object? && keys[0] in j.at then Field(j.at[keys[0]], keys[1..]) else None
  }

  lemma {:induction false} FieldIsReached(env: Environment, j: Json, keys: seq<Text>)
    requires Field(j, keys).Some?
    ensures Reached(env, Data(j), keys) == Data(Field(j, keys).value)
    ensures HasKeys(env, Data(j), keys) <==> Field(j, keys).value != Null
    decreases |keys|
  {
    if keys != [] { FieldIsReached(env, j.at[keys[0]], keys[1..]); }
  }

  predicate Plain(t: Text) {
    forall i | 0 <= i < |t| :: t[i] != '{' as int && t[i] != '}' as int
  }

  /** A path of keys with dots in between, in double braces, is replaced by the text of the value under those keys, wherever
      it stands between plain text; and validation finds it exactly when that value is not null. */
  lemma FieldIsSubstituted(env: Environment, values: Json, keys: seq<Text>, before: Text, after: Text)
    requires keys != [] && AllDotless(keys) && Field(values, keys).Some?
    requires var path := Joined(keys, '.' as int); path != [] && Plain(path) && Plain(before) && Plain(after)
    ensures var path, value := Joined(keys, '.' as int), Field(values, keys).value;
      && Output(env, values, Segments(before + Ascii("{{") + path + Ascii("}}") + after))
         == before + (if value == Null then [] else StringForm(value).GetOr([])) + after
      && Paths(Segments(before + Ascii("{{") + path + Ascii("}}") + after)) == [path]
      && (HasKeys(env, Data(values), Split(path)) <==> value != Null)
  {
    hide Split, Joined, Reached, HasKeys, StringForm, Field, AllDotless;
    var path := Joined(keys, '.' as int);
    SplitExactly(path, keys);
    FieldIsReached(env, values, keys);
    Braces(path);
    assert before + Ascii("{{") + path + Ascii("}}") + after == before + (Braced(path) + after);
    ExpressionFirst(env, values, path, after);
    PlainFirst(env, values, before, Braced(path) + after);
  }

  lemma Braces(path: Text)
    ensures Ascii("{{") + path + Ascii("}}") == Braced(path)
  {
    assert Ascii("{{"[1..]) == [OPEN] by { assert "{{"[1..] == "{"; assert "{"[1..] == ""; }
    assert Ascii("}}"[1..]) == [CLOSE] by { assert "}}"[1..] == "}"; assert "}"[1..] == ""; }
  }

  lemma ExpressionFirst(env: Environment, values: Json, path: Text, after: Text)
    requires path != [] && Plain(path) && Plain(after)
    ensures Output(env, values, Segments(Braced(path) + after)) == Substitute(env, values, path).GetOr([]) + after
    ensures Paths(Segments(Braced(path) + after)) == [path]
  {
    hide Substitute;
    var s := Braced(path) + after;
    MatchesExactly(s, path);
    assert s[..|Braced(path)|] == Braced(path);
    assert s[|path| + 4..] == after;
    PlainStays(env, values, after);
    OutputStep(env, values, Expression(path), Segments(after));
    PathsStep(Expression(path), Segments(after));
  }

  lemma PlainStays(env: Environment, values: Json, t: Text)
    requires Plain(t)
    ensures Output(env, values, Segments(t)) == t && Paths(Segments(t)) == []
  {
    PlainFirst(env, values, t, []);
    assert t + [] == t;
  }

  lemma {:induction false} PlainFirst(env: Environment, values: Json, before: Text, rest: Text)
    requires Plain(before)
    ensures Output(env, values, Segments(before + rest)) == before + Output(env, values, Segments(rest))
    ensures Paths(Segments(before + rest)) == Paths(Segments(rest))
    decreases |before|
  {
    hide Substitute;
    if before == [] {
      assert before + rest == rest;
    } else {
      var s := before + rest;
      assert MatchHere(s) == None;
      assert s[1..] == before[1..] + rest;
      PlainFirst(env, values, before[1..], rest);
      OutputStep(env, values, Literal(s[0]), Segments(s[1..]));
      PathsStep(Literal(s[0]), Segments(s[1..]));
    }
  }

  /** How values that are not text print. */
  lemma PrintedForms(at: map<Text, Json>, keys: seq<Text>, number: Text, text: Text)
    ensures StringForm(Bool(true)) == Some(Ascii("true")) && StringForm(Bool(false)) == Some(Ascii("false"))
    ensures StringForm(Number(number)) == Some(number) && StringForm(Str(text)) == Some(text)
    ensures StringForm(Object(keys, at)) == if Ascii("toString") in at then None else Some(Ascii("[object Object]"))
  {
  }

  /** A list prints its items with commas in between, a missing one as nothing. */
  lemma PrintedList(first: Json, rest: seq<Json>)
    requires rest != [] && StringForm(first).Some? && StringForm(Array(rest)).Some?
    ensures StringForm(Array([first] + rest)) == Some(StringForm(first).value + Ascii(",") + StringForm(Array(rest)).value)
  {
    assert Ascii(",") == [COMMA] by { assert ","[1..] == ""; }
    JoinedOne(first, rest);
  }

  lemma JoinedOne(first: Json, rest: seq<Json>)
    requires rest != [] && StringForm(first).Some? && JoinForms(rest).Some?
    ensures JoinForms([first] + rest) == Some(StringForm(first).value + [COMMA] + JoinForms(rest).value)
  {
    hide StringForm;
    assert ([first] + rest)[1..] == rest;
  }

  lemma PrintedEnds(item: Json)
    ensures StringForm(Null) == Some([]) && StringForm(Array([])) == Some([]) && StringForm(Array([item])) == StringForm(item)
  {
  }

  // ----- agreement -----

  /** Substitution of this template never falls back to empty text. */
  ghost predicate NeverFallsBack(env: Environment, values: Json, template: Text) {
    forall p :: p in Paths(Segments(template)) ==> Substitute(env, values, p).Some?
  }

  /** Every value the template names can be converted to text. */
  ghost predicate AllPrintable(env: Environment, values: Json, template: Text) {
    forall p :: p in Paths(Segments(template)) ==> Printable(Reached(env, Data(values), Split(p)))
  }

  lemma FallbackExactly(env: Environment, values: Json, path: Text)
    requires HasKeys(env, Data(values), Split(path))
    ensures Substitute(env, values, path).Some? <==> Printable(Reached(env, Data(values), Split(path)))
  {
    HasKeysReaches(env, Data(values), Split(path));
    var v := Reached(env, Data(values), Split(path));
    if v.Data? { StringFormExactly(v.json); }
  }

  /** For every field that validation accepts, substitution finds a value at every path; it still falls back to empty text
      exactly when one of those values cannot be converted to text. */
  lemma ValidFieldsFallBackExactly(env: Environment, metadata: map<Text, Json>, values: Json, d: Definition, field: Text)
    requires FieldOk(env, metadata, values, d, field) && !Empty(metadata, field)
    ensures NeverFallsBack(env, values, metadata[field].units) <==> AllPrintable(env, values, metadata[field].units)
    ensures forall p :: p in Paths(Segments(metadata[field].units)) ==> !Nullish(Reached(env, Data(values), Split(p)))
  {
    forall p | p in Paths(Segments(metadata[field].units))
      ensures !Nullish(Reached(env, Data(values), Split(p)))
      ensures Substitute(env, values, p).Some? <==> Printable(Reached(env, Data(values), Split(p)))
    {
      HasKeysReaches(env, Data(values), Split(p));
      FallbackExactly(env, values, p);
    }
  }

  const LETTER_A: Unit := 97

  /** Validation alone does not rule the fallback out: metadata whose field a is an object with its own toString field is
      valid for the template {{a}}, and substitution still gives empty text. */
  lemma ValidCanStillFallBack(env: Environment)
    ensures var a: Text, values := [LETTER_A], Object([[LETTER_A]], map[[LETTER_A] := Object([TO_STRING], map[TO_STRING := Null])]);
      var metadata := map[a := Str(Braced(a))];
      && FieldOk(env, metadata, values, Definition([a], []), a)
      && Output(env, values, Segments(Braced(a))) == []
      && Substitute(env, values, a) == None
  {
    hide Segments, Reached, HasKeys, Split, Output, Paths, StringForm, Field;
    var a: Text := [LETTER_A];
    var inner := Object([TO_STRING], map[TO_STRING := Null]);
    var values := Object([a], map[a := inner]);
    SplitExactly(a, [a]);
    OnlyField(a, inner);
    FieldIsReached(env, values, [a]);
    ExpressionFirst(env, values, a, []);
    assert Braced(a) + [] == Braced(a);
    OwnToString(map[TO_STRING := Null]);
  }

  lemma OnlyField(a: Text, inner: Json)
    ensures Field(Object([a], map[a := inner]), [a]) == Some(inner)
  {
  }

  lemma OwnToString(at: map<Text, Json>)
    requires TO_STRING in at
    ensures StringForm(Object([TO_STRING], at)) == None
  {
  }
}
