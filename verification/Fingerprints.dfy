/** The two fingerprints of a provider call: digests of the canonical text of its identity. */
module Fingerprints {
  import opened Domain
  import opened JsonValues
  import opened CanonicalJson
  import opened ExecutionTables

  // ----- decimal numbers -----

  function Decimal(n: nat): (t: Text)
    ensures NumberToken(t) && Digit(t[0])
  {
    if n < 10 then [ZERO + n] else Decimal(n / 10) + [ZERO + n % 10]
  }

  lemma {:induction false} DecimalInjective(a: nat, b: nat)
    requires Decimal(a) == Decimal(b)
    ensures a == b
    decreases a
  {
    var s, t := Decimal(a), Decimal(b);
    assert s[|s| - 1] == ZERO + a % 10 && t[|t| - 1] == ZERO + b % 10;
    if a >= 10 && b >= 10 {
      assert s[..|s| - 1] == Decimal(a / 10) && t[..|t| - 1] == Decimal(b / 10);
      DecimalInjective(a / 10, b / 10);
    }
  }

  // ----- the fingerprinted objects -----

  datatype Inputs = Inputs(
    run: Text,
    stage: nat,
    action: Text,
    actionType: Text,
    actionMetadata: Json,
    runMetadata: Json)

  ghost predicate ValidInputs(i: Inputs) {
    Valid(i.actionMetadata) && Valid(i.runMetadata)
  }

  const ACTION_ID: Text := Ascii("actionId")
  const ACTION_TYPE_ID: Text := Ascii("actionTypeId")
  const ACTION_METADATA: Text := Ascii("actionMetadata")
  const STAGE: Text := Ascii("stage")
  const ZAP_RUN_ID: Text := Ascii("zapRunId")
  const ZAP_RUN_METADATA: Text := Ascii("zapRunMetadata")

  lemma NamesDiffer()
    ensures |ACTION_ID| == 8 && |ACTION_TYPE_ID| == 12 && |ACTION_METADATA| == 14 && |STAGE| == 5
    ensures |ZAP_RUN_ID| == 8 && |ZAP_RUN_METADATA| == 14
    ensures ACTION_ID != ZAP_RUN_ID && ACTION_METADATA != ZAP_RUN_METADATA
  {
    hide Ascii;
    assert ACTION_ID[0] == 'a' as int && ZAP_RUN_ID[0] == 'z' as int;
    assert ACTION_METADATA[0] == 'a' as int && ZAP_RUN_METADATA[0] == 'z' as int;
  }

  function ActionIdentity(i: Inputs): Json {
    Object([ACTION_ID, ACTION_TYPE_ID, STAGE],
           map[ACTION_ID := Str(i.action), ACTION_TYPE_ID := Str(i.actionType), STAGE := Number(Decimal(i.stage))])
  }

  function RequestIdentity(i: Inputs): Json {
    Object([ACTION_ID, ACTION_METADATA, ZAP_RUN_ID, STAGE, ZAP_RUN_METADATA],
           map[ACTION_ID := Str(i.action), ACTION_METADATA := i.actionMetadata, ZAP_RUN_ID := Str(i.run),
               STAGE := Number(Decimal(i.stage)), ZAP_RUN_METADATA := i.runMetadata])
  }

  function CreateFingerprints(digest: Text -> Hash, i: Inputs): Fingerprints {
    ExecutionTables.Fingerprints(digest(Canonical(ActionIdentity(i))), digest(Canonical(RequestIdentity(i))))
  }

  /** Equal in everything that identifies the call; key order inside metadata does not count. */
  ghost predicate SameCall(a: Inputs, b: Inputs) {
    && a.run == b.run && a.stage == b.stage && a.action == b.action && a.actionType == b.actionType
    && Meaning(a.actionMetadata) == Meaning(b.actionMetadata)
    && Meaning(a.runMetadata) == Meaning(b.runMetadata)
  }

  lemma IdentitiesValid(i: Inputs)
    requires ValidInputs(i)
    ensures Valid(ActionIdentity(i)) && Valid(RequestIdentity(i))
  {
    hide ACTION_ID, ACTION_TYPE_ID, ACTION_METADATA, STAGE, ZAP_RUN_ID, ZAP_RUN_METADATA;
    NamesDiffer();
  }

  lemma ScalarMeanings(s: Text)
    ensures Meaning(Str(s)) == TextValue(s) && Meaning(Number(s)) == NumberValue(s)
  {
  }

  lemma ObjectMeanings(a: Json, b: Json)
    requires a.Object? && b.Object? && a.at.Keys == b.at.Keys
    ensures Meaning(a) == Meaning(b) <==> forall k :: k in a.at ==> Meaning(a.at[k]) == Meaning(b.at[k])
  {
    forall k | k in a.at
      ensures Meaning(a).at[k] == Meaning(a.at[k]) && Meaning(b).at[k] == Meaning(b.at[k])
    {
    }
  }

  lemma StagesMatch(a: nat, b: nat)
    ensures Meaning(Number(Decimal(a))) == Meaning(Number(Decimal(b))) <==> a == b
  {
    ScalarMeanings(Decimal(a));
    ScalarMeanings(Decimal(b));
    if Decimal(a) == Decimal(b) { DecimalInjective(a, b); }
  }

  lemma TextsMatch(a: Text, b: Text)
    ensures Meaning(Str(a)) == Meaning(Str(b)) <==> a == b
  {
    ScalarMeanings(a);
    ScalarMeanings(b);
  }

  lemma ActionIdentitiesMatch(a: Inputs, b: Inputs)
    ensures Meaning(ActionIdentity(a)) == Meaning(ActionIdentity(b))
      <==> a.action == b.action && a.actionType == b.actionType && a.stage == b.stage
  {
    hide Meaning, ACTION_ID, ACTION_TYPE_ID, ACTION_METADATA, STAGE, ZAP_RUN_ID, ZAP_RUN_METADATA;
    NamesDiffer();
    var x, y := ActionIdentity(a), ActionIdentity(b);
    ObjectMeanings(x, y);
    TextsMatch(a.action, b.action);
    TextsMatch(a.actionType, b.actionType);
    StagesMatch(a.stage, b.stage);
    assert ACTION_ID in x.at && ACTION_TYPE_ID in x.at && STAGE in x.at;
  }

  lemma RequestIdentitiesMatch(a: Inputs, b: Inputs)
    ensures Meaning(RequestIdentity(a)) == Meaning(RequestIdentity(b))
      <==> (a.action == b.action && a.run == b.run && a.stage == b.stage
            && Meaning(a.actionMetadata) == Meaning(b.actionMetadata) && Meaning(a.runMetadata) == Meaning(b.runMetadata))
  {
    hide Meaning, ACTION_ID, ACTION_TYPE_ID, ACTION_METADATA, STAGE, ZAP_RUN_ID, ZAP_RUN_METADATA;
    NamesDiffer();
    var x, y := RequestIdentity(a), RequestIdentity(b);
    ObjectMeanings(x, y);
    TextsMatch(a.action, b.action);
    TextsMatch(a.run, b.run);
    StagesMatch(a.stage, b.stage);
    assert ACTION_ID in x.at && ZAP_RUN_ID in x.at && STAGE in x.at && ACTION_METADATA in x.at && ZAP_RUN_METADATA in x.at;
  }

  /** With an injective digest, both fingerprints of two calls match exactly when all six inputs do. */
  lemma FingerprintsMatchExactly(digest: Text -> Hash, a: Inputs, b: Inputs)
    requires forall x, y :: digest(x) == digest(y) ==> x == y
    requires ValidInputs(a) && ValidInputs(b)
    ensures CreateFingerprints(digest, a) == CreateFingerprints(digest, b) <==> SameCall(a, b)
  {
    hide Canonical, Meaning, Valid, ActionIdentity, RequestIdentity;
    IdentitiesValid(a);
    IdentitiesValid(b);
    EqualTextExactly(ActionIdentity(a), ActionIdentity(b));
    EqualTextExactly(RequestIdentity(a), RequestIdentity(b));
    ActionIdentitiesMatch(a, b);
    RequestIdentitiesMatch(a, b);
  }

  // ----- what exactly is digested -----

  /** A stage prints as the decimal digits of its number. */
  function FromDecimal(t: Text): int {
    if t == [] then 0 else 10 * FromDecimal(t[..|t| - 1]) + (t[|t| - 1] - '0' as int)
  }

  lemma {:induction false} DecimalReads(n: nat)
    ensures FromDecimal(Decimal(n)) == n
    ensures forall u :: u in Decimal(n) ==> '0' as int <= u <= '9' as int
    ensures Decimal(n)[0] == '0' as int ==> n == 0
  {
    if n < 10 {
      assert Decimal(n)[..0] == [];
    } else {
      DecimalReads(n / 10);
      assert Decimal(n)[..|Decimal(n)| - 1] == Decimal(n / 10);
    }
  }

  lemma SortedIs(keys: seq<Text>, sorted: seq<Text>)
    requires multiset(keys) == multiset(sorted)
    requires forall i :: 0 < i < |sorted| ==> Below(sorted[i - 1], sorted[i])
    ensures Sort(keys) == sorted
  {
    hide Below;
    forall i, k | 0 <= i < k < |sorted| ensures Below(sorted[i], sorted[k]) { StepsUp(sorted, i, k); }
    SortOrdered(keys);
    OrderedIsUnique(Sort(keys), sorted);
  }

  lemma {:induction false} StepsUp(sorted: seq<Text>, i: nat, k: nat)
    requires i < k < |sorted| && forall i :: 0 < i < |sorted| ==> Below(sorted[i - 1], sorted[i])
    ensures Below(sorted[i], sorted[k])
    decreases k
  {
    hide Below;
    if i < k - 1 {
      StepsUp(sorted, i, k - 1);
      BelowTransitive(sorted[i], sorted[k - 1], sorted[k]);
    }
  }

  /** The names of the properties, which also decide their order. */
  lemma Names()
    ensures ACTION_ID == Ascii("actionId") && ACTION_TYPE_ID == Ascii("actionTypeId") && ACTION_METADATA == Ascii("actionMetadata")
    ensures STAGE == Ascii("stage") && ZAP_RUN_ID == Ascii("zapRunId") && ZAP_RUN_METADATA == Ascii("zapRunMetadata")
  {
  }

  lemma FirstDifference(a: Text, b: Text, i: nat)
    requires i < |a| && i < |b| && (forall k :: 0 <= k < i ==> a[k] == b[k]) && a[i] < b[i]
    ensures Below(a, b)
  {
    assert a[..i] == b[..i];
    BelowExactly(a, b);
  }

  lemma NamesInOrder()
    ensures Below(ACTION_ID, ACTION_METADATA) && Below(ACTION_ID, ACTION_TYPE_ID)
    ensures Below(ACTION_METADATA, STAGE) && Below(ACTION_TYPE_ID, STAGE)
    ensures Below(STAGE, ZAP_RUN_ID) && Below(ZAP_RUN_ID, ZAP_RUN_METADATA)
  {
    hide Below, Ascii;
    FirstDifference(ACTION_ID, ACTION_METADATA, 6);
    FirstDifference(ACTION_ID, ACTION_TYPE_ID, 6);
    FirstDifference(ACTION_METADATA, STAGE, 0);
    FirstDifference(ACTION_TYPE_ID, STAGE, 0);
    FirstDifference(STAGE, ZAP_RUN_ID, 0);
    FirstDifference(ZAP_RUN_ID, ZAP_RUN_METADATA, 6);
  }

  /** A property as it prints. */
  function Property(name: Text, value: Text): Text {
    Quoted(name) + [COLON] + value
  }

  function Then(property: Text, rest: Text): Text {
    property + [COMMA] + rest
  }

  function InBraces(properties: Text): Text {
    [OPEN_OBJECT] + properties + [CLOSE_OBJECT]
  }

  function ActionText(i: Inputs): Text {
    InBraces(
      Then(Property(ACTION_ID, Quoted(i.action)),
      Then(Property(ACTION_TYPE_ID, Quoted(i.actionType)),
      Property(STAGE, Decimal(i.stage)))))
  }

  function RequestText(i: Inputs): Text {
    InBraces(
      Then(Property(ACTION_ID, Quoted(i.action)),
      Then(Property(ACTION_METADATA, Canonical(i.actionMetadata)),
      Then(Property(STAGE, Decimal(i.stage)),
      Then(Property(ZAP_RUN_ID, Quoted(i.run)),
      Property(ZAP_RUN_METADATA, Canonical(i.runMetadata)))))))
  }

  /** The two texts that are digested: one object each, with its properties in the order of their names. */
  lemma FingerprintTexts(digest: Text -> Hash, i: Inputs)
    ensures CreateFingerprints(digest, i) == ExecutionTables.Fingerprints(digest(ActionText(i)), digest(RequestText(i)))
  {
    hide ActionText, RequestText, Canonical, ActionIdentity, RequestIdentity;
    ActionIs(i);
    RequestIs(i);
  }

  /** The next property of an object that prints. */
  lemma NextProperty(j: Json, key: Text, rest: seq<Text>)
    requires j.Object? && key in j.at
    ensures JoinFields(j, [key]) == Property(key, Canonical(j.at[key]))
    ensures rest != [] ==> JoinFields(j, [key] + rest) == Then(Property(key, Canonical(j.at[key])), JoinFields(j, rest))
  {
    hide Quoted;
    assert ([key] + rest)[1..] == rest;
  }

  lemma Scalars(text: Text)
    ensures Canonical(Str(text)) == Quoted(text) && Canonical(Number(text)) == text
  {
    hide Quoted;
  }

  lemma ObjectText(j: Json, sorted: seq<Text>)
    requires j.Object? && multiset(j.keys) == multiset(sorted)
    requires forall i :: 0 < i < |sorted| ==> Below(sorted[i - 1], sorted[i])
    ensures Canonical(j) == InBraces(JoinFields(j, sorted))
  {
    hide Below, Sort, JoinFields;
    SortedIs(j.keys, sorted);
  }

  lemma TwoProperties(j: Json, a: Text, b: Text)
    requires j.Object? && a in j.at && b in j.at
    ensures JoinFields(j, [a, b]) == Then(Property(a, Canonical(j.at[a])), Property(b, Canonical(j.at[b])))
  {
    hide Property, JoinFields, Then;
    NextProperty(j, a, [b]);
    NextProperty(j, b, []);
    assert [a] + [b] == [a, b];
  }

  lemma ThreeProperties(j: Json, a: Text, b: Text, c: Text)
    requires j.Object? && {a, b, c} <= j.at.Keys
    ensures JoinFields(j, [a, b, c]) ==
      Then(Property(a, Canonical(j.at[a])), Then(Property(b, Canonical(j.at[b])), Property(c, Canonical(j.at[c]))))
  {
    hide Property, JoinFields, Then;
    NextProperty(j, a, [b, c]);
    TwoProperties(j, b, c);
    assert [a] + [b, c] == [a, b, c];
  }

  lemma FiveProperties(j: Json, a: Text, b: Text, c: Text, d: Text, e: Text)
    requires j.Object? && {a, b, c, d, e} <= j.at.Keys
    ensures JoinFields(j, [a, b, c, d, e]) ==
      Then(Property(a, Canonical(j.at[a])), Then(Property(b, Canonical(j.at[b])), JoinFields(j, [c, d, e])))
  {
    hide Property, JoinFields, Then;
    NextProperty(j, a, [b, c, d, e]);
    NextProperty(j, b, [c, d, e]);
    assert [a] + [b, c, d, e] == [a, b, c, d, e] && [b] + [c, d, e] == [b, c, d, e];
  }

  lemma ActionFields(i: Inputs)
    ensures var j := ActionIdentity(i);
      && j.Object? && j.keys == [ACTION_ID, ACTION_TYPE_ID, STAGE] && {ACTION_ID, ACTION_TYPE_ID, STAGE} <= j.at.Keys
      && j.at[ACTION_ID] == Str(i.action) && j.at[ACTION_TYPE_ID] == Str(i.actionType) && j.at[STAGE] == Number(Decimal(i.stage))
  {
    hide ACTION_ID, ACTION_TYPE_ID, ACTION_METADATA, STAGE, ZAP_RUN_ID, ZAP_RUN_METADATA;
    NamesDiffer();
  }

  lemma RequestFields(i: Inputs)
    ensures var j := RequestIdentity(i);
      && j.Object? && j.keys == [ACTION_ID, ACTION_METADATA, ZAP_RUN_ID, STAGE, ZAP_RUN_METADATA]
      && {ACTION_ID, ACTION_METADATA, STAGE, ZAP_RUN_ID, ZAP_RUN_METADATA} <= j.at.Keys
      && j.at[ACTION_ID] == Str(i.action) && j.at[ACTION_METADATA] == i.actionMetadata && j.at[STAGE] == Number(Decimal(i.stage))
      && j.at[ZAP_RUN_ID] == Str(i.run) && j.at[ZAP_RUN_METADATA] == i.runMetadata
  {
    hide ACTION_ID, ACTION_TYPE_ID, ACTION_METADATA, STAGE, ZAP_RUN_ID, ZAP_RUN_METADATA;
    NamesDiffer();
  }

  lemma Swapped(a: Text, b: Text, c: Text, d: Text, e: Text)
    ensures multiset([a, b, d, c, e]) == multiset([a, b, c, d, e])
  {
  }

  lemma FiveInOrder(j: Json, sorted: seq<Text>)
    requires j.Object? && |sorted| == 5 && multiset(j.keys) == multiset(sorted)
    requires Below(sorted[0], sorted[1]) && Below(sorted[1], sorted[2]) && Below(sorted[2], sorted[3]) && Below(sorted[3], sorted[4])
    ensures Canonical(j) == InBraces(JoinFields(j, sorted))
  {
    hide Below, JoinFields, Canonical, InBraces;
    ObjectText(j, sorted);
  }

  lemma ActionIs(i: Inputs)
    ensures Canonical(ActionIdentity(i)) == ActionText(i)
  {
    hide Quoted, Decimal, Property, Canonical, JoinFields, Then, InBraces, Below, ActionIdentity, ACTION_ID, ACTION_TYPE_ID, ACTION_METADATA,
      STAGE, ZAP_RUN_ID, ZAP_RUN_METADATA;
    var j := ActionIdentity(i);
    ActionFields(i);
    NamesInOrder();
    ObjectText(j, [ACTION_ID, ACTION_TYPE_ID, STAGE]);
    ThreeProperties(j, ACTION_ID, ACTION_TYPE_ID, STAGE);
    Scalars(i.action);
    Scalars(i.actionType);
    Scalars(Decimal(i.stage));
  }

  lemma RequestIs(i: Inputs)
    ensures Canonical(RequestIdentity(i)) == RequestText(i)
  {
    hide Quoted, Decimal, Property, Canonical, JoinFields, Then, InBraces, Below, RequestIdentity, ACTION_ID, ACTION_TYPE_ID, ACTION_METADATA,
      STAGE, ZAP_RUN_ID, ZAP_RUN_METADATA;
    var j := RequestIdentity(i);
    RequestFields(i);
    NamesInOrder();
    Swapped(ACTION_ID, ACTION_METADATA, STAGE, ZAP_RUN_ID, ZAP_RUN_METADATA);
    FiveInOrder(j, [ACTION_ID, ACTION_METADATA, STAGE, ZAP_RUN_ID, ZAP_RUN_METADATA]);
    FiveProperties(j, ACTION_ID, ACTION_METADATA, STAGE, ZAP_RUN_ID, ZAP_RUN_METADATA);
    ThreeProperties(j, STAGE, ZAP_RUN_ID, ZAP_RUN_METADATA);
    Scalars(i.action);
    Scalars(i.run);
    Scalars(Decimal(i.stage));
  }
}
