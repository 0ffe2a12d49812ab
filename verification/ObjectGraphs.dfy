/** The canonical text of arbitrary object graphs: which are accepted, which are rejected, and what is printed. */
module ObjectGraphs {
  import opened JsonValues
  import opened CanonicalJson

  // ----- object graphs -----

  type Ref = nat

  /** What a variable may hold: a JSON scalar, something JSON cannot express, or a reference. */
  datatype Thing =
    | Scalar(json: Json)
    | NotFinite
    | NotAValue
    | Link(to: Ref)

  /** What a reference leads to. */
  datatype Node =
    | ListNode(items: seq<Thing>)
    | ObjectNode(keys: seq<Text>, at: map<Text, Thing>)
    | InstanceNode

  type Heap = map<Ref, Node>

  predicate Held(h: Heap, x: Thing) {
    match x
    case Scalar(j) => j.Null? || j.Bool? || j.Str? || (j.Number? && NumberToken(j.token))
    case Link(r) => r in h
    case _ => true
  }

  function Children(n: Node): set<Thing> {
    match n
    case ListNode(items) => set x | x in items
    case ObjectNode(keys, at) => set k | k in at :: at[k]
    case InstanceNode => {}
  }

  /** References lead somewhere, and an object's key list names its properties once each. */
  ghost predicate WellFormed(h: Heap) {
    forall r :: r in h ==> NodeOk(h, h[r])
  }

  ghost predicate NodeOk(h: Heap, n: Node) {
    && (forall x :: x in Children(n) ==> Held(h, x))
    && (n.ObjectNode? ==>
         && (forall k :: k in n.keys <==> k in n.at)
         && (forall i, k :: 0 <= i < k < |n.keys| ==> n.keys[i] != n.keys[k]))
  }

  datatype Rendering = Rendered(text: Text) | NotJson | Cyclic

  /** Two pieces of text, unless one of them threw. */
  function Then(a: Rendering, separator: Text, b: Rendering): Rendering {
    if !a.Rendered? then a else if !b.Rendered? then b else Rendered(a.text + separator + b.text)
  }

  function Wrapped(open: Unit, r: Rendering, close: Unit): Rendering {
    if r.Rendered? then Rendered([open] + r.text + [close]) else r
  }

  /** The canonical text of what a variable holds, given the references on the way to it. */
  ghost function Render(h: Heap, x: Thing, seen: set<Ref>): Rendering
    requires WellFormed(h) && Held(h, x)
    decreases h.Keys - seen, 0, 0
  {
    match x
    case Scalar(j) => Rendered(Canonical(j))
    case NotFinite => NotJson
    case NotAValue => NotJson
    case Link(r) =>
      if r in seen then Cyclic
      else
        assert NodeOk(h, h[r]);
        match h[r]
        case ListNode(items) => Wrapped(OPEN_LIST, RenderItems(h, items, seen + {r}), CLOSE_LIST)
        case ObjectNode(keys, at) =>
          SameMembers(Sort(keys), keys);
          Wrapped(OPEN_OBJECT, RenderFields(h, at, Sort(keys), seen + {r}), CLOSE_OBJECT)
        case InstanceNode => NotJson
  }

  ghost function RenderItems(h: Heap, items: seq<Thing>, seen: set<Ref>): Rendering
    requires WellFormed(h) && forall x :: x in items ==> Held(h, x)
    decreases h.Keys - seen, 1, |items|
  {
    if items == [] then Rendered([])
    else if |items| == 1 then Render(h, items[0], seen)
    else Then(Render(h, items[0], seen), [COMMA], RenderItems(h, items[1..], seen))
  }

  ghost function RenderField(h: Heap, key: Text, x: Thing, seen: set<Ref>): Rendering
    requires WellFormed(h) && Held(h, x)
    decreases h.Keys - seen, 1, 0
  {
    Then(Rendered(Quoted(key)), [COLON], Render(h, x, seen))
  }

  ghost function RenderFields(h: Heap, at: map<Text, Thing>, keys: seq<Text>, seen: set<Ref>): Rendering
    requires WellFormed(h) && forall k :: k in keys ==> k in at && Held(h, at[k])
    decreases h.Keys - seen, 2, |keys|
  {
    if keys == [] then Rendered([])
    else if |keys| == 1 then RenderField(h, keys[0], at[keys[0]], seen)
    else Then(RenderField(h, keys[0], at[keys[0]], seen), [COMMA], RenderFields(h, at, keys[1..], seen))
  }

  /** What JSON cannot express is rejected wherever it is held: numbers that are not finite, values that are none, and
      instances of classes. */
  lemma NotJsonIsRejected(h: Heap, r: Ref, seen: set<Ref>)
    requires WellFormed(h)
    ensures Held(h, NotFinite) && Render(h, NotFinite, seen) == NotJson
    ensures Held(h, NotAValue) && Render(h, NotAValue, seen) == NotJson
    ensures r in h && r !in seen && h[r].InstanceNode? ==> Held(h, Link(r)) && Render(h, Link(r), seen) == NotJson
  {
  }

  /** A JSON scalar prints as itself. */
  lemma ScalarsPrint(h: Heap, text: Text, flag: bool, seen: set<Ref>)
    requires WellFormed(h)
    ensures forall j :: j in {Null, Bool(flag), Str(text)} || (j == Number(text) && NumberToken(text)) ==>
      Held(h, Scalar(j)) && Render(h, Scalar(j), seen) == Rendered(Canonical(j))
  {
  }

  // ----- the traversal as it runs, over one mutable set -----

  class Seen {
    var refs: set<Ref>

    constructor ()
      ensures refs == {}
    {
      refs := {};
    }
  }

  /** Marks the reference, renders what it leads to, and unmarks it again however that ended. */
  method CanonicalJsonText(h: Heap, x: Thing, seen: Seen) returns (r: Rendering)
    requires WellFormed(h) && Held(h, x)
    modifies seen
    ensures r == Render(h, x, old(seen.refs)) && seen.refs == old(seen.refs)
    decreases h.Keys - seen.refs, 0, 0
  {
    match x
    case Scalar(j) => r := Rendered(Canonical(j));
    case NotFinite => r := NotJson;
    case NotAValue => r := NotJson;
    case Link(ref) =>
      if ref in seen.refs { return Cyclic; }
      ghost var before := seen.refs;
      seen.refs := seen.refs + {ref};
      assert NodeOk(h, h[ref]);
      match h[ref] {
        case ListNode(items) =>
          var inner := EachItem(h, items, seen);
          r := Wrapped(OPEN_LIST, inner, CLOSE_LIST);
        case ObjectNode(keys, at) =>
          SameMembers(Sort(keys), keys);
          var inner := EachField(h, at, Sort(keys), seen);
          r := Wrapped(OPEN_OBJECT, inner, CLOSE_OBJECT);
        case InstanceNode => r := NotJson;
      }
      seen.refs := seen.refs - {ref};
      assert seen.refs == before;
  }

  method EachItem(h: Heap, items: seq<Thing>, seen: Seen) returns (r: Rendering)
    requires WellFormed(h) && forall x :: x in items ==> Held(h, x)
    modifies seen
    ensures r == RenderItems(h, items, old(seen.refs)) && seen.refs == old(seen.refs)
    decreases h.Keys - seen.refs, 1, |items|
  {
    if items == [] { return Rendered([]); }
    r := CanonicalJsonText(h, items[0], seen);
    if !r.Rendered? || |items| == 1 { return; }
    var rest := EachItem(h, items[1..], seen);
    r := Then(r, [COMMA], rest);
  }

  method EachField(h: Heap, at: map<Text, Thing>, keys: seq<Text>, seen: Seen) returns (r: Rendering)
    requires WellFormed(h) && forall k :: k in keys ==> k in at && Held(h, at[k])
    modifies seen
    ensures r == RenderFields(h, at, keys, old(seen.refs)) && seen.refs == old(seen.refs)
    decreases h.Keys - seen.refs, 2, |keys|
  {
    if keys == [] { return Rendered([]); }
    var value := CanonicalJsonText(h, at[keys[0]], seen);
    r := Then(Rendered(Quoted(keys[0])), [COLON], value);
    if !r.Rendered? || |keys| == 1 { return; }
    var rest := EachField(h, at, keys[1..], seen);
    r := Then(r, [COMMA], rest);
  }

  // ----- exactly the finite trees are accepted -----

  /** The graph under a variable unfolds to this JSON value. */
  ghost predicate Denotes(h: Heap, x: Thing, j: Json)
    decreases j
  {
    match x
    case Scalar(s) => j == s
    case Link(r) =>
      && r in h
      && (match h[r]
          case ListNode(items) =>
            j.Array? && |j.items| == |items| && forall i :: 0 <= i < |items| ==> Denotes(h, items[i], j.items[i])
          case ObjectNode(keys, at) =>
            j.Object? && j.keys == keys && j.at.Keys == at.Keys && forall k :: k in at ==> Denotes(h, at[k], j.at[k])
          case InstanceNode => false)
    case _ => false
  }

  lemma {:induction false} DenotesOne(h: Heap, x: Thing, a: Json, b: Json)
    requires Denotes(h, x, a) && Denotes(h, x, b)
    ensures a == b
    decreases a
  {
    if x.Link? {
      match h[x.to]
      case ListNode(items) =>
        forall i | 0 <= i < |items| ensures a.items[i] == b.items[i] { DenotesOne(h, items[i], a.items[i], b.items[i]); }
        assert a.items == b.items;
      case ObjectNode(keys, at) =>
        forall k | k in at ensures a.at[k] == b.at[k] { DenotesOne(h, at[k], a.at[k], b.at[k]); }
        assert a.at == b.at;
    }
  }

  lemma {:induction false} DenotedIsValid(h: Heap, x: Thing, j: Json)
    requires WellFormed(h) && Held(h, x) && Denotes(h, x, j)
    ensures Valid(j)
    decreases j
  {
    if x.Link? {
      assert NodeOk(h, h[x.to]);
      match h[x.to]
      case ListNode(items) =>
        forall i | 0 <= i < |items| ensures Valid(j.items[i]) {
          assert items[i] in Children(h[x.to]);
          DenotedIsValid(h, items[i], j.items[i]);
        }
      case ObjectNode(keys, at) =>
        forall k | k in at ensures Valid(j.at[k]) {
          assert at[k] in Children(h[x.to]);
          DenotedIsValid(h, at[k], j.at[k]);
        }
    }
  }

  /** Every reference on the way here denotes a tree this value lies strictly inside of. */
  ghost predicate Inside(h: Heap, seen: set<Ref>, j: Json) {
    forall s :: s in seen ==> exists t :: Denotes(h, Link(s), t) && j < t
  }

  lemma InsideChild(h: Heap, seen: set<Ref>, r: Ref, j: Json, child: Json)
    requires Inside(h, seen, j) && Denotes(h, Link(r), j) && child < j
    ensures Inside(h, seen + {r}, child)
  {
    forall s | s in seen + {r} ensures exists t :: Denotes(h, Link(s), t) && child < t {
      if s in seen {
        var t :| Denotes(h, Link(s), t) && j < t;
        assert child < t;
      }
    }
  }

  /** A tree never meets its own root again. */
  lemma NotSeen(h: Heap, seen: set<Ref>, r: Ref, j: Json)
    requires Inside(h, seen, j) && Denotes(h, Link(r), j)
    ensures r !in seen
  {
    if r in seen {
      var t :| Denotes(h, Link(r), t) && j < t;
      DenotesOne(h, Link(r), t, j);
    }
  }

  lemma {:induction false} DenotedRenders(h: Heap, x: Thing, j: Json, seen: set<Ref>)
    requires WellFormed(h) && Held(h, x) && Denotes(h, x, j) && Inside(h, seen, j)
    ensures Render(h, x, seen) == Rendered(Canonical(j))
    decreases j, 1, 0
  {
    hide Inside, Sort, RenderItems, RenderFields, JoinItems, JoinFields;
    if x.Link? {
      NotSeen(h, seen, x.to, j);
      assert NodeOk(h, h[x.to]);
      match h[x.to]
      case ListNode(items) =>
        forall i | 0 <= i < |items| ensures Inside(h, seen + {x.to}, j.items[i]) { InsideChild(h, seen, x.to, j, j.items[i]); }
        assert forall c :: c in items ==> c in Children(h[x.to]);
        ItemsRender(h, items, j.items, seen + {x.to});
      case ObjectNode(keys, at) =>
        SameMembers(Sort(keys), keys);
        forall k | k in at ensures Inside(h, seen + {x.to}, j.at[k]) && Held(h, at[k]) {
          InsideChild(h, seen, x.to, j, j.at[k]);
          assert at[k] in Children(h[x.to]);
        }
        FieldsRender(h, at, j, Sort(keys), seen + {x.to});
    }
  }

  lemma {:induction false} ItemsRender(h: Heap, items: seq<Thing>, js: seq<Json>, seen: set<Ref>)
    requires WellFormed(h) && (forall x :: x in items ==> Held(h, x)) && |js| == |items|
    requires forall i :: 0 <= i < |items| ==> Denotes(h, items[i], js[i]) && Inside(h, seen, js[i])
    ensures RenderItems(h, items, seen) == Rendered(JoinItems(js))
    decreases js, 0, 0
  {
    hide Inside, Denotes, Render, Canonical;
    if items != [] {
      DenotedRenders(h, items[0], js[0], seen);
      ItemsRender(h, items[1..], js[1..], seen);
    }
  }

  lemma {:induction false} FieldsRender(h: Heap, at: map<Text, Thing>, j: Json, keys: seq<Text>, seen: set<Ref>)
    requires WellFormed(h) && j.Object? && j.at.Keys == at.Keys
    requires forall k :: k in keys ==> k in at
    requires forall k :: k in at ==> Held(h, at[k]) && Denotes(h, at[k], j.at[k]) && Inside(h, seen, j.at[k])
    ensures RenderFields(h, at, keys, seen) == Rendered(JoinFields(j, keys))
    decreases j, 0, |keys|
  {
    hide Inside, Denotes, Render, Canonical, Quoted;
    if keys != [] {
      assert keys[0] in keys;
      DenotedRenders(h, at[keys[0]], j.at[keys[0]], seen);
      FieldsRender(h, at, j, keys[1..], seen);
    }
  }

  lemma {:induction false} RenderedDenotes(h: Heap, x: Thing, seen: set<Ref>) returns (j: Json)
    requires WellFormed(h) && Held(h, x) && Render(h, x, seen).Rendered?
    ensures Denotes(h, x, j)
    decreases h.Keys - seen, 0, 0
  {
    hide Sort, RenderItems, RenderFields;
    match x
    case Scalar(s) => j := s;
    case Link(r) =>
      assert NodeOk(h, h[r]);
      match h[r] {
        case ListNode(items) =>
          assert forall c :: c in items ==> c in Children(h[r]);
          var js := ItemsDenote(h, items, seen + {r});
          j := Array(js);
        case ObjectNode(keys, at) =>
          SameMembers(Sort(keys), keys);
          assert forall k :: k in at ==> at[k] in Children(h[r]);
          var m := FieldsDenote(h, at, Sort(keys), seen + {r});
          j := Object(keys, m);
      }
  }

  lemma {:induction false} ItemsDenote(h: Heap, items: seq<Thing>, seen: set<Ref>) returns (js: seq<Json>)
    requires WellFormed(h) && (forall x :: x in items ==> Held(h, x)) && RenderItems(h, items, seen).Rendered?
    ensures |js| == |items| && forall i :: 0 <= i < |items| ==> Denotes(h, items[i], js[i])
    decreases h.Keys - seen, 1, |items|
  {
    hide Denotes, Render;
    if items == [] { return []; }
    var first := RenderedDenotes(h, items[0], seen);
    var rest := ItemsDenote(h, items[1..], seen);
    js := [first] + rest;
    forall i | 0 <= i < |items| ensures Denotes(h, items[i], js[i]) {
      if i > 0 { assert items[i] == items[1..][i - 1]; }
    }
  }

  lemma {:induction false} FieldsDenote(h: Heap, at: map<Text, Thing>, keys: seq<Text>, seen: set<Ref>)
    returns (m: map<Text, Json>)
    requires WellFormed(h) && forall k :: k in keys ==> k in at && Held(h, at[k])
    requires RenderFields(h, at, keys, seen).Rendered?
    ensures (forall k :: k in m <==> k in keys) && forall k :: k in m ==> Denotes(h, at[k], m[k])
    decreases h.Keys - seen, 1, |keys|
  {
    hide Denotes, Render, Quoted;
    if keys == [] { return map[]; }
    var first := RenderedDenotes(h, at[keys[0]], seen);
    var rest := FieldsDenote(h, at, keys[1..], seen);
    m := rest[keys[0] := first];
    assert keys == [keys[0]] + keys[1..];
  }

  /** The traversal ends on every object graph, accepts exactly those that unfold to a finite JSON value, however much
      they share, and prints the canonical text of that value. */
  lemma AcceptsExactlyTrees(h: Heap, x: Thing)
    requires WellFormed(h) && Held(h, x)
    ensures Render(h, x, {}).Rendered? <==> exists j :: Denotes(h, x, j)
    ensures forall j :: Denotes(h, x, j) ==> Valid(j) && Render(h, x, {}) == Rendered(Canonical(j))
  {
    hide Render, Denotes, Canonical, WellFormed;
    if Render(h, x, {}).Rendered? { var j := RenderedDenotes(h, x, {}); }
    forall j | Denotes(h, x, j) ensures Valid(j) && Render(h, x, {}) == Rendered(Canonical(j)) {
      DenotedIsValid(h, x, j);
      DenotedRenders(h, x, j, {});
    }
  }

  // ----- of JSON-only graphs, exactly the cyclic ones are rejected -----

  /** Nothing JSON cannot express anywhere in the heap. */
  ghost predicate JsonOnly(h: Heap) {
    forall r :: r in h ==> !h[r].InstanceNode? && forall x :: x in Children(h[r]) ==> x.Scalar? || x.Link?
  }

  /** The references passed on one way down from a variable. */
  ghost predicate Path(h: Heap, x: Thing, p: seq<Ref>)
    decreases |p|
  {
    && p != [] && x == Link(p[0]) && p[0] in h
    && (|p| == 1 || exists c :: c in Children(h[p[0]]) && Path(h, c, p[1..]))
  }

  /** The last reference of the path was passed before. */
  ghost predicate Returns(p: seq<Ref>, seen: set<Ref>) {
    p != [] && (p[|p| - 1] in seen || p[|p| - 1] in p[..|p| - 1])
  }

  lemma {:induction false} CyclicHasPath(h: Heap, x: Thing, seen: set<Ref>) returns (p: seq<Ref>)
    requires WellFormed(h) && JsonOnly(h) && Held(h, x) && Render(h, x, seen) == Cyclic
    ensures Path(h, x, p) && Returns(p, seen)
    decreases h.Keys - seen, 0, 0
  {
    hide Sort, RenderItems, RenderFields;
    var r := x.to;
    if r in seen { return [r]; }
    assert NodeOk(h, h[r]);
    var c: Thing, q: seq<Ref>;
    match h[r] {
      case ListNode(items) =>
        assert forall i :: i in items ==> i in Children(h[r]);
        c, q := CyclicItem(h, items, seen + {r});
      case ObjectNode(keys, at) =>
        SameMembers(Sort(keys), keys);
        assert forall k :: k in at ==> at[k] in Children(h[r]);
        c, q := CyclicField(h, at, Sort(keys), seen + {r});
    }
    p := [r] + q;
    assert p[1..] == q;
    assert p[..|p| - 1] == [r] + q[..|q| - 1];
  }

  lemma {:induction false} CyclicItem(h: Heap, items: seq<Thing>, seen: set<Ref>) returns (c: Thing, p: seq<Ref>)
    requires WellFormed(h) && JsonOnly(h) && (forall x :: x in items ==> Held(h, x)) && RenderItems(h, items, seen) == Cyclic
    ensures c in items && Path(h, c, p) && Returns(p, seen)
    decreases h.Keys - seen, 1, |items|
  {
    hide Path, Render, Returns;
    if Render(h, items[0], seen) == Cyclic {
      c := items[0];
      p := CyclicHasPath(h, c, seen);
    } else {
      c, p := CyclicItem(h, items[1..], seen);
    }
  }

  lemma {:induction false} CyclicField(h: Heap, at: map<Text, Thing>, keys: seq<Text>, seen: set<Ref>)
    returns (c: Thing, p: seq<Ref>)
    requires WellFormed(h) && JsonOnly(h) && (forall k :: k in keys ==> k in at && Held(h, at[k]))
    requires RenderFields(h, at, keys, seen) == Cyclic
    ensures (exists k :: k in keys && at[k] == c) && Path(h, c, p) && Returns(p, seen)
    decreases h.Keys - seen, 1, |keys|
  {
    hide Path, Render, Returns, Quoted;
    if Render(h, at[keys[0]], seen) == Cyclic {
      c := at[keys[0]];
      p := CyclicHasPath(h, c, seen);
    } else {
      c, p := CyclicField(h, at, keys[1..], seen);
    }
  }

  lemma {:induction false} PathIsCyclic(h: Heap, x: Thing, p: seq<Ref>, seen: set<Ref>)
    requires WellFormed(h) && JsonOnly(h) && Held(h, x) && Path(h, x, p) && Returns(p, seen)
    ensures Render(h, x, seen) == Cyclic
    decreases |p|
  {
    hide Sort, RenderItems, RenderFields;
    var r := x.to;
    if r !in seen {
      var c :| c in Children(h[r]) && Path(h, c, p[1..]);
      assert NodeOk(h, h[r]);
      assert p[..|p| - 1] == [r] + p[1..][..|p| - 2];
      PathIsCyclic(h, c, p[1..], seen + {r});
      match h[r]
      case ListNode(items) =>
        assert forall i :: i in items ==> i in Children(h[r]);
        ItemIsCyclic(h, items, c, seen + {r});
      case ObjectNode(keys, at) =>
        SameMembers(Sort(keys), keys);
        assert forall k :: k in at ==> at[k] in Children(h[r]);
        var k :| k in at && at[k] == c;
        FieldIsCyclic(h, at, Sort(keys), k, seen + {r});
    }
  }

  lemma {:induction false} NeverNotJson(h: Heap, x: Thing, seen: set<Ref>)
    requires WellFormed(h) && JsonOnly(h) && Held(h, x) && (x.Scalar? || x.Link?)
    ensures Render(h, x, seen) != NotJson
    decreases h.Keys - seen, 0, 0
  {
    hide Sort, RenderItems, RenderFields;
    if x.Link? && x.to !in seen {
      assert NodeOk(h, h[x.to]);
      match h[x.to]
      case ListNode(items) =>
        assert forall i :: i in items ==> i in Children(h[x.to]);
        ItemsNeverNotJson(h, items, seen + {x.to});
      case ObjectNode(keys, at) =>
        SameMembers(Sort(keys), keys);
        assert forall k :: k in at ==> at[k] in Children(h[x.to]);
        FieldsNeverNotJson(h, at, Sort(keys), seen + {x.to});
    }
  }

  lemma {:induction false} ItemsNeverNotJson(h: Heap, items: seq<Thing>, seen: set<Ref>)
    requires WellFormed(h) && JsonOnly(h) && forall x :: x in items ==> Held(h, x) && (x.Scalar? || x.Link?)
    ensures RenderItems(h, items, seen) != NotJson
    decreases h.Keys - seen, 1, |items|
  {
    hide Render;
    if items != [] {
      NeverNotJson(h, items[0], seen);
      ItemsNeverNotJson(h, items[1..], seen);
    }
  }

  lemma {:induction false} FieldsNeverNotJson(h: Heap, at: map<Text, Thing>, keys: seq<Text>, seen: set<Ref>)
    requires WellFormed(h) && JsonOnly(h)
    requires forall k :: k in keys ==> k in at && Held(h, at[k]) && (at[k].Scalar? || at[k].Link?)
    ensures RenderFields(h, at, keys, seen) != NotJson
    decreases h.Keys - seen, 1, |keys|
  {
    hide Render, Quoted;
    if keys != [] {
      NeverNotJson(h, at[keys[0]], seen);
      FieldsNeverNotJson(h, at, keys[1..], seen);
    }
  }

  lemma {:induction false} ItemIsCyclic(h: Heap, items: seq<Thing>, c: Thing, seen: set<Ref>)
    requires WellFormed(h) && JsonOnly(h) && c in items
    requires forall x :: x in items ==> Held(h, x) && (x.Scalar? || x.Link?)
    requires Render(h, c, seen) == Cyclic
    ensures RenderItems(h, items, seen) == Cyclic
    decreases |items|
  {
    hide Render;
    NeverNotJson(h, items[0], seen);
    if items[0] != c { ItemIsCyclic(h, items[1..], c, seen); } else { ItemsNeverNotJson(h, items[1..], seen); }
  }

  lemma {:induction false} FieldIsCyclic(h: Heap, at: map<Text, Thing>, keys: seq<Text>, key: Text, seen: set<Ref>)
    requires WellFormed(h) && JsonOnly(h) && key in keys
    requires forall k :: k in keys ==> k in at && Held(h, at[k]) && (at[k].Scalar? || at[k].Link?)
    requires Render(h, at[key], seen) == Cyclic
    ensures RenderFields(h, at, keys, seen) == Cyclic
    decreases |keys|
  {
    hide Render, Quoted;
    NeverNotJson(h, at[keys[0]], seen);
    if keys[0] != key { FieldIsCyclic(h, at, keys[1..], key, seen); }
  }

  /** A graph with nothing but JSON in it is rejected exactly when some way down from it meets a reference twice. */
  lemma RejectsExactlyCycles(h: Heap, x: Thing)
    requires WellFormed(h) && JsonOnly(h) && Held(h, x) && (x.Scalar? || x.Link?)
    ensures !Render(h, x, {}).Rendered? <==> exists p :: Path(h, x, p) && Returns(p, {})
    ensures !Render(h, x, {}).Rendered? ==> Render(h, x, {}) == Cyclic
  {
    hide Render, Path, Returns;
    NeverNotJson(h, x, {});
    if Render(h, x, {}) == Cyclic { var p := CyclicHasPath(h, x, {}); }
    if p :| Path(h, x, p) && Returns(p, {}) { PathIsCyclic(h, x, p, {}); }
  }
}
