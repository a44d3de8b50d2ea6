/** catalog/asset_lifecycle.py, _contains_asset_reference: does a nested JSON value mention an asset version? */
module AssetReferences {
  import opened Common

  datatype Json =
    | Null | Bool(b: bool) | Number(n: int) | Text(s: string)
    | List(items: seq<Json>) | Object(fields: seq<Field>)

  datatype Field = Field(key: string, value: Json)

  datatype Asset = Asset(name: string, version: string, assetType: Option<string>)

  /** The search answers, or raises: testing an unhashable type for membership in a set is a TypeError. */
  datatype Answer = Yes | No | Raises

  function Get(fields: seq<Field>, key: string): Json {
    if fields == [] then Null else if fields[0].key == key then fields[0].value else Get(fields[1..], key)
  }

  predicate Spells(s: string, a: Asset) {
    s == a.name + ":" + a.version || s == a.name + "@" + a.version
  }

  /** An object that carries the asset's own name and version. */
  predicate Names(v: Json, a: Asset) {
    v.Object? && Get(v.fields, "name") == Text(a.name) && Get(v.fields, "version") == Text(a.version)
  }

  function TypeAnswer(fields: seq<Field>, a: Asset): Answer {
    var t := Get(fields, "type");
    if a.assetType.None? then Yes
    else if t.List? || t.Object? then Raises
    else if t.Null? || t == Text(a.assetType.value) then Yes
    else No
  }

  function Children(v: Json): seq<Json> {
    match v
    case List(items) => items
    case Object(fields) => seq(|fields|, i requires 0 <= i < |fields| => fields[i].value)
    case _ => []
  }

  function Search(v: Json, a: Asset): Answer
    decreases v, 1
  {
    match v
    case Text(s) => if Spells(s, a) then Yes else No
    case Object(fields) => if Names(v, a) then TypeAnswer(fields, a) else SearchFields(fields, a)
    case List(items) => SearchItems(items, a)
    case _ => No
  }

  /** any(...): left to right, up to the first element that does not answer No */
  function SearchItems(items: seq<Json>, a: Asset): Answer
    decreases items, 0
  {
    if items == [] then No
    else if Search(items[0], a).No? then SearchItems(items[1..], a)
    else Search(items[0], a)
  }

  function SearchFields(fields: seq<Field>, a: Asset): Answer
    decreases fields, 0
  {
    if fields == [] then No
    else if Search(fields[0].value, a).No? then SearchFields(fields[1..], a)
    else Search(fields[0].value, a)
  }

  // ---- What the search means, by paths ----

  /** The first field under this key has this value. */
  ghost predicate Holds(fields: seq<Field>, key: string, v: Json) {
    exists i :: 0 <= i < |fields| && fields[i] == Field(key, v) && forall j :: 0 <= j < i ==> fields[j].key != key
  }

  predicate Lacks(fields: seq<Field>, key: string) {
    forall i :: 0 <= i < |fields| ==> fields[i].key != key
  }

  /** An object that carries the asset's own name and version. */
  ghost predicate Carries(v: Json, a: Asset) {
    v.Object? && Holds(v.fields, "name", Text(a.name)) && Holds(v.fields, "version", Text(a.version))
  }

  /** The search looks inside lists, and inside objects other than those that carry the asset's name and version. */
  ghost predicate Opens(v: Json, a: Asset) {
    v.List? || (v.Object? && !Carries(v, a))
  }

  /** The value a path of child positions leads to, if every step on it is opened. */
  ghost function At(v: Json, path: seq<nat>, a: Asset): Option<Json> {
    if path == [] then Some(v)
    else if Opens(v, a) && path[0] < |Children(v)| then At(Children(v)[path[0]], path[1..], a)
    else None
  }

  /** A text that is name:version or name@version, or an object that carries both, if the asset has no type or the
      object's type is missing, null or the asset's. */
  ghost predicate Mentions(v: Json, a: Asset) {
    || v == Text(a.name + ":" + a.version)
    || v == Text(a.name + "@" + a.version)
    || (&& Carries(v, a)
        && (a.assetType.None? || Lacks(v.fields, "type") || Holds(v.fields, "type", Null)
            || Holds(v.fields, "type", Text(a.assetType.value))))
  }

  /** An object that carries both, while the asset has a type and the object's is a list or an object. */
  ghost predicate Unreadable(v: Json, a: Asset) {
    Carries(v, a) && a.assetType.Some? && exists t: Json :: (t.List? || t.Object?) && Holds(v.fields, "type", t)
  }

  ghost predicate Leads(v: Json, path: seq<nat>, a: Asset, answer: Answer) {
    && At(v, path, a).Some?
    && (if answer.Yes? then Mentions(At(v, path, a).value, a) else Unreadable(At(v, path, a).value, a))
  }

  ghost predicate Reaches(v: Json, a: Asset, answer: Answer) {
    exists path :: Leads(v, path, a, answer)
  }

  lemma {:induction false} GetFinds(fields: seq<Field>, key: string) returns (i: nat)
    ensures if i < |fields| then fields[i] == Field(key, Get(fields, key)) && Lacks(fields[..i], key)
            else Lacks(fields, key) && Get(fields, key).Null?
  {
    i := 0;
    if fields != [] && fields[0].key != key {
      i := GetFinds(fields[1..], key);
      i := i + 1;
    }
  }

  lemma GetExact(fields: seq<Field>, key: string)
    ensures Lacks(fields, key) ==> Get(fields, key).Null?
    ensures !Lacks(fields, key) ==> forall v :: Holds(fields, key, v) <==> v == Get(fields, key)
  {
    var i := GetFinds(fields, key);
    if i < |fields| {
      assert forall k :: 0 <= k < i ==> fields[k] == fields[..i][k];
      assert Holds(fields, key, Get(fields, key));
      forall v | Holds(fields, key, v) ensures v == Get(fields, key) {
        var j :| 0 <= j < |fields| && fields[j] == Field(key, v) && forall k :: 0 <= k < j ==> fields[k].key != key;
        assert j == i;
      }
    }
  }

  lemma NamesMeans(v: Json, a: Asset)
    ensures Names(v, a) <==> Carries(v, a)
  {
    if v.Object? {
      GetExact(v.fields, "name");
      GetExact(v.fields, "version");
    }
  }

  /** What the search answers at a value it does not open. */
  lemma AnswerHere(v: Json, a: Asset)
    ensures !Opens(v, a) ==> (Search(v, a).Yes? <==> Mentions(v, a)) && (Search(v, a).Raises? <==> Unreadable(v, a))
    ensures Opens(v, a) ==> !Mentions(v, a) && !Unreadable(v, a)
  {
    NamesMeans(v, a);
    if v.Object? {
      GetExact(v.fields, "type");
    }
  }

  lemma {:induction false} FieldsAsItems(fields: seq<Field>, a: Asset)
    ensures SearchFields(fields, a) == SearchItems(Children(Object(fields)), a)
    decreases |fields|
  {
    if fields != [] {
      FieldsAsItems(fields[1..], a);
      var items := Children(Object(fields));
      assert items[1..] == Children(Object(fields[1..]));
    }
  }

  lemma OpenedSearch(v: Json, a: Asset)
    requires Opens(v, a)
    ensures Search(v, a) == SearchItems(Children(v), a)
  {
    NamesMeans(v, a);
    if v.Object? {
      FieldsAsItems(v.fields, a);
      assert Object(v.fields) == v;
    }
  }

  /** any() answers No exactly when every element does, and otherwise what the first other element answers. */
  lemma {:induction false} ItemsAnswer(items: seq<Json>, a: Asset) returns (k: nat)
    ensures SearchItems(items, a).No? <==> forall i :: 0 <= i < |items| ==> Search(items[i], a).No?
    ensures !SearchItems(items, a).No? ==>
      k < |items| && Search(items[k], a) == SearchItems(items, a) && forall i :: 0 <= i < k ==> Search(items[i], a).No?
  {
    k := 0;
    if items != [] {
      var j := ItemsAnswer(items[1..], a);
      if Search(items[0], a).No? {
        k := j + 1;
        assert forall i :: 1 <= i < |items| ==> items[i] == items[1..][i - 1];
      }
    }
  }

  ghost function Size(v: Json): nat
    decreases v, 1
  {
    match v
    case List(items) => 1 + SizeItems(items)
    case Object(fields) => 1 + SizeFields(fields)
    case _ => 1
  }

  ghost function SizeItems(items: seq<Json>): nat
    decreases items, 0
  {
    if items == [] then 0 else Size(items[0]) + SizeItems(items[1..])
  }

  ghost function SizeFields(fields: seq<Field>): nat
    decreases fields, 0
  {
    if fields == [] then 0 else Size(fields[0].value) + SizeFields(fields[1..])
  }

  lemma {:induction false} ItemSize(items: seq<Json>, i: nat)
    requires i < |items|
    ensures Size(items[i]) <= SizeItems(items)
    decreases |items|
  {
    if i > 0 {
      ItemSize(items[1..], i - 1);
    }
  }

  lemma {:induction false} FieldSize(fields: seq<Field>, i: nat)
    requires i < |fields|
    ensures Size(fields[i].value) <= SizeFields(fields)
    decreases |fields|
  {
    if i > 0 {
      FieldSize(fields[1..], i - 1);
    }
  }

  lemma ChildSize(v: Json, i: nat)
    requires i < |Children(v)|
    ensures Size(Children(v)[i]) < Size(v)
  {
    match v
    case List(items) => ItemSize(items, i);
    case Object(fields) => FieldSize(fields, i);
    case _ =>
  }

  /** What is there is not overlooked. */
  lemma {:induction false} SearchComplete(v: Json, a: Asset, path: seq<nat>, answer: Answer)
    requires Leads(v, path, a, answer)
    ensures !Search(v, a).No?
    decreases |path|
  {
    if path == [] {
      AnswerHere(v, a);
    } else {
      OpenedSearch(v, a);
      SearchComplete(Children(v)[path[0]], a, path[1..], answer);
      var k := ItemsAnswer(Children(v), a);
    }
  }

  /** Reading order of paths: the order in which a depth-first search visits them. */
  predicate Earlier(p: seq<nat>, q: seq<nat>) {
    q != [] && (p == [] || p[0] < q[0] || (p[0] == q[0] && Earlier(p[1..], q[1..])))
  }

  lemma {:induction false} EarlierIsStrict(p: seq<nat>, q: seq<nat>)
    requires Earlier(p, q)
    ensures p != q && !Earlier(q, p)
  {
    if p != [] && p[0] == q[0] {
      EarlierIsStrict(p[1..], q[1..]);
    }
  }

  /** What the search found is there, and is what comes first in reading order. */
  lemma {:induction false} SearchSound(v: Json, a: Asset) returns (path: seq<nat>)
    ensures !Search(v, a).No? ==> Leads(v, path, a, Search(v, a))
    ensures !Search(v, a).No? ==> forall q, answer :: Leads(v, q, a, answer) ==> q == path || Earlier(path, q)
    decreases Size(v)
  {
    path := [];
    AnswerHere(v, a);
    if Opens(v, a) {
      OpenedSearch(v, a);
      var k := ItemsAnswer(Children(v), a);
      if !Search(v, a).No? {
        ChildSize(v, k);
        var rest := SearchSound(Children(v)[k], a);
        path := [k] + rest;
        assert path[1..] == rest;
        forall q, answer | Leads(v, q, a, answer) ensures q == path || Earlier(path, q) {
          LeadsOn(v, q, a, answer);
          assert q == [q[0]] + q[1..];
        }
      }
    }
  }

  /** A path out of an opened value goes on through a child for which the search does not answer No. */
  lemma LeadsOn(v: Json, path: seq<nat>, a: Asset, answer: Answer)
    requires Opens(v, a) && Leads(v, path, a, answer)
    ensures path != [] && path[0] < |Children(v)| && Leads(Children(v)[path[0]], path[1..], a, answer)
    ensures !Search(Children(v)[path[0]], a).No?
  {
    AnswerHere(v, a);
    SearchComplete(Children(v)[path[0]], a, path[1..], answer);
  }

  /** A mention that a left-to-right reading reaches before any unreadable type. */
  ghost predicate MentionedFirst(v: Json, a: Asset, path: seq<nat>) {
    Leads(v, path, a, Yes) && forall q :: Leads(v, q, a, Raises) ==> Earlier(path, q)
  }

  /** The search answers Yes exactly when a mention can be reached, without passing through an object that names
      the asset, before any unreadable type; raises exactly when an unreadable type is reached and no mention
      comes first; and answers No exactly when there is neither. Where nothing is unreadable it answers Yes
      exactly for a reachable mention. */
  lemma SearchExact(v: Json, a: Asset)
    ensures Search(v, a).Yes? <==> exists path :: MentionedFirst(v, a, path)
    ensures Search(v, a).Raises? <==> Reaches(v, a, Raises) && !exists path :: MentionedFirst(v, a, path)
    ensures Search(v, a).No? <==> !Reaches(v, a, Yes) && !Reaches(v, a, Raises)
    ensures !Reaches(v, a, Raises) ==> (Search(v, a).Yes? <==> Reaches(v, a, Yes))
  {
    var first := SearchSound(v, a);
    if Search(v, a).Yes? {
      assert MentionedFirst(v, a, first);
    }
    forall path | MentionedFirst(v, a, path) ensures Search(v, a).Yes? {
      SearchComplete(v, a, path, Yes);
      if Search(v, a).Raises? {
        EarlierIsStrict(path, first);
      }
    }
    forall path, answer | Leads(v, path, a, answer) ensures !Search(v, a).No? {
      SearchComplete(v, a, path, answer);
    }
  }
}
