// Enum-key conversion of JSON-like values (utils.py): deserialize_enum_keys
// turns dictionary keys naming a category into the category itself, as shows
// are restored from their JSON cache; serialize_enum_keys goes the other way.

module EnumKeys {
  import opened GridTypes

  /** A dictionary key: a plain string or a category member. */
  datatype Key = StrKey(s: string) | CategoryKey(c: Category)

  /**
   * A JSON-like Python value. Dictionaries are lists of entries in insertion
   * order whose keys are pairwise unequal under Python's equality.
   */
  datatype PyValue =
    | PNone
    | PBool(b: bool)
    | PInt(i: int)
    | PFloat(x: real)
    | PStr(s: string)
    | PEnum(c: Category)
    | PList(items: seq<PyValue>)
    | PDict(entries: seq<(Key, PyValue)>)

  /**
   * The string a key compares as: CategoryCriteria is a str Enum, so a member
   * equals (and hashes as) its value.
   */
  function KeyName(k: Key): string
  {
    match k
    case StrKey(s) => s
    case CategoryKey(c) => CategoryName(c)
  }

  lemma CategoryNameInjective(a: Category, b: Category)
    ensures CategoryName(a) == CategoryName(b) <==> a == b
  {
  }

  /** Keys pairwise unequal, as in any Python dictionary. */
  predicate DistinctNames(d: seq<(Key, PyValue)>)
  {
    forall i, j :: 0 <= i < j < |d| ==> KeyName(d[i].0) != KeyName(d[j].0)
  }

  /** Position of a key equal to `k`, `|d|` when there is none. */
  function Find(d: seq<(Key, PyValue)>, k: Key): (r: nat)
    ensures r <= |d|
    ensures r < |d| ==> KeyName(d[r].0) == KeyName(k)
    ensures forall i :: 0 <= i < r ==> KeyName(d[i].0) != KeyName(k)
  {
    if |d| == 0 then 0
    else if KeyName(d[0].0) == KeyName(k) then 0
    else 1 + Find(d[1..], k)
  }

  /**
   * `d[k] = v`: an equal key keeps its place and its original key object and
   * takes the new value; a new key is appended.
   */
  function Insert(d: seq<(Key, PyValue)>, k: Key, v: PyValue): (r: seq<(Key, PyValue)>)
    ensures DistinctNames(d) ==> DistinctNames(r)
    ensures |r| == (if Find(d, k) < |d| then |d| else |d| + 1)
  {
    var i := Find(d, k);
    if i < |d| then d[i := (d[i].0, v)] else d + [(k, v)]
  }

  /** A dictionary built by assigning the pairs in order, from `d`. */
  function InsertAll(d: seq<(Key, PyValue)>, pairs: seq<(Key, PyValue)>): (r: seq<(Key, PyValue)>)
    ensures DistinctNames(d) ==> DistinctNames(r)
    decreases |pairs|
  {
    if |pairs| == 0 then d
    else InsertAll(Insert(d, pairs[0].0, pairs[0].1), pairs[1..])
  }

  /** `CategoryCriteria(k)`, keeping `k` when it names no category (the ValueError path). */
  function ToCategoryKey(k: Key): (r: Key)
    ensures KeyName(r) == KeyName(k)
  {
    match k
    case CategoryKey(_) => k
    case StrKey(s) =>
      if s == "genre" then CategoryKey(Genre)
      else if s == "type" then CategoryKey(Type)
      else if s == "language" then CategoryKey(Language)
      else if s == "duration" then CategoryKey(Duration)
      else k
  }

  /** utils.deserialize_enum_keys. */
  function Deserialize(v: PyValue): PyValue
  {
    match v
    case PDict(d) =>
      PDict(InsertAll([], seq(|d|, i requires 0 <= i < |d| => (ToCategoryKey(d[i].0), Deserialize(d[i].1)))))
    case PList(items) =>
      PList(seq(|items|, i requires 0 <= i < |items| => Deserialize(items[i])))
    case _ => v
  }

  /** `str(k)` of a key, with `render` standing for `str()` of a category. */
  function RenderKey(render: Category -> string, k: Key): string
  {
    match k
    case StrKey(s) => s
    case CategoryKey(c) => render(c)
  }

  /** utils.serialize_enum_keys, with `render` standing for `str()` of a category key. */
  function Serialize(render: Category -> string, v: PyValue): PyValue
  {
    match v
    case PDict(d) =>
      PDict(InsertAll([], seq(|d|, i requires 0 <= i < |d| =>
        (StrKey(RenderKey(render, d[i].0)), Serialize(render, d[i].1)))))
    case PList(items) =>
      PList(seq(|items|, i requires 0 <= i < |items| => Serialize(render, items[i])))
    case PEnum(c) => PStr(CategoryName(c))
    case _ => v
  }

  /** Inserting keys pairwise unequal to those present only appends. */
  lemma {:induction false} InsertAllFresh(d: seq<(Key, PyValue)>, pairs: seq<(Key, PyValue)>)
    requires DistinctNames(d + pairs)
    ensures InsertAll(d, pairs) == d + pairs
    decreases |pairs|
  {
    if |pairs| > 0 {
      var k := pairs[0].0;
      forall i | 0 <= i < |d|
        ensures KeyName(d[i].0) != KeyName(k)
      {
        assert (d + pairs)[i] == d[i] && (d + pairs)[|d|] == pairs[0];
      }
      assert Find(d, k) == |d|;
      assert d + [pairs[0]] + pairs[1..] == d + pairs;
      InsertAllFresh(d + [pairs[0]], pairs[1..]);
    } else {
      assert d + pairs == d;
    }
  }

  /**
   * The loop filling `new_obj` never meets a key twice: converting a key
   * keeps the string it compares as, so a dictionary keeps all its entries,
   * in order, each key converted and each value deserialized.
   */
  lemma DeserializeDict(d: seq<(Key, PyValue)>)
    requires DistinctNames(d)
    ensures Deserialize(PDict(d)).entries ==
      seq(|d|, i requires 0 <= i < |d| => (ToCategoryKey(d[i].0), Deserialize(d[i].1)))
    ensures |Deserialize(PDict(d)).entries| == |d|
  {
    var pairs := seq(|d|, i requires 0 <= i < |d| => (ToCategoryKey(d[i].0), Deserialize(d[i].1)));
    forall i | 0 <= i < |d|
      ensures KeyName(pairs[i].0) == KeyName(d[i].0)
    {
    }
    assert DistinctNames(pairs);
    assert [] + pairs == pairs;
    InsertAllFresh([], pairs);
  }

  /** A key naming a category becomes that category; every other key is kept. */
  lemma ToCategoryKeyIff(k: Key, c: Category)
    ensures ToCategoryKey(k) == CategoryKey(c) <==> KeyName(k) == CategoryName(c)
    ensures (forall c' :: KeyName(k) != CategoryName(c')) ==> ToCategoryKey(k) == k
  {
  }

  /** Lists keep their length and order; other leaves are returned unchanged. */
  lemma DeserializeShape(v: PyValue)
    ensures v.PList? ==> Deserialize(v).PList? && |Deserialize(v).items| == |v.items|
    ensures v.PList? ==> forall i :: 0 <= i < |v.items| ==> Deserialize(v).items[i] == Deserialize(v.items[i])
    ensures !v.PList? && !v.PDict? ==> Deserialize(v) == v
  {
  }

  /** Every dictionary in the value has pairwise unequal keys. */
  predicate WellFormed(v: PyValue)
  {
    match v
    case PDict(d) => DistinctNames(d) && forall i :: 0 <= i < |d| ==> WellFormed(d[i].1)
    case PList(items) => forall i :: 0 <= i < |items| ==> WellFormed(items[i])
    case _ => true
  }

  /** Deserializing twice is deserializing once. */
  lemma {:induction false} DeserializeIdempotent(v: PyValue)
    requires WellFormed(v)
    ensures WellFormed(Deserialize(v))
    ensures Deserialize(Deserialize(v)) == Deserialize(v)
  {
    match v
    case PDict(d) =>
      DeserializeDict(d);
      var e := Deserialize(v).entries;
      forall i | 0 <= i < |d|
        ensures WellFormed(e[i].1) && Deserialize(e[i].1) == e[i].1
      {
        DeserializeIdempotent(d[i].1);
      }
      assert DistinctNames(e);
      DeserializeDict(e);
    case PList(items) =>
      forall i | 0 <= i < |items|
        ensures WellFormed(Deserialize(items[i])) && Deserialize(Deserialize(items[i])) == Deserialize(items[i])
      {
        DeserializeIdempotent(items[i]);
      }
    case _ =>
  }

  /** What json.load produces: string keys only, no enum members, dictionaries well formed. */
  predicate JsonLike(v: PyValue)
  {
    match v
    case PDict(d) =>
      DistinctNames(d) && forall i :: 0 <= i < |d| ==> d[i].0.StrKey? && JsonLike(d[i].1)
    case PList(items) => forall i :: 0 <= i < |items| ==> JsonLike(items[i])
    case PEnum(_) => false
    case _ => true
  }

  /**
   * Restoring the category keys of loaded JSON and serializing it again, with
   * category keys written as their values, gives back the JSON.
   */
  lemma {:induction false} SerializeUndoesDeserialize(v: PyValue)
    requires JsonLike(v)
    ensures Serialize(CategoryName, Deserialize(v)) == v
  {
    match v
    case PDict(d) =>
      DeserializeDict(d);
      var e := Deserialize(v).entries;
      var pairs := seq(|e|, i requires 0 <= i < |e| =>
        (StrKey(RenderKey(CategoryName, e[i].0)), Serialize(CategoryName, e[i].1)));
      forall i | 0 <= i < |d|
        ensures pairs[i] == d[i]
      {
        SerializeUndoesDeserialize(d[i].1);
        assert KeyName(e[i].0) == KeyName(d[i].0);
      }
      assert pairs == d;
      assert [] + pairs == pairs;
      InsertAllFresh([], pairs);
    case PList(items) =>
      forall i | 0 <= i < |items|
        ensures Serialize(CategoryName, Deserialize(items[i])) == items[i]
      {
        SerializeUndoesDeserialize(items[i]);
      }
      assert Serialize(CategoryName, Deserialize(v)).items == items;
    case _ =>
  }

  /** Serialized values hold no category anywhere: keys are strings, members their values. */
  predicate NoCategories(v: PyValue)
  {
    match v
    case PDict(d) => forall i :: 0 <= i < |d| ==> d[i].0.StrKey? && NoCategories(d[i].1)
    case PList(items) => forall i :: 0 <= i < |items| ==> NoCategories(items[i])
    case PEnum(_) => false
    case _ => true
  }

  /** Entries with string keys and category-free values. */
  predicate TextEntries(d: seq<(Key, PyValue)>)
  {
    forall i :: 0 <= i < |d| ==> d[i].0.StrKey? && NoCategories(d[i].1)
  }

  lemma {:induction false} InsertAllText(d: seq<(Key, PyValue)>, pairs: seq<(Key, PyValue)>)
    requires TextEntries(d) && TextEntries(pairs)
    ensures TextEntries(InsertAll(d, pairs))
    decreases |pairs|
  {
    if |pairs| > 0 {
      var next := Insert(d, pairs[0].0, pairs[0].1);
      assert TextEntries(next) by {
        var i := Find(d, pairs[0].0);
        if i < |d| {
          assert next == d[i := (d[i].0, pairs[0].1)];
        } else {
          assert next == d + [pairs[0]];
        }
      }
      InsertAllText(next, pairs[1..]);
    }
  }

  lemma {:induction false} SerializeNoCategories(render: Category -> string, v: PyValue)
    ensures NoCategories(Serialize(render, v))
  {
    match v
    case PDict(d) =>
      var pairs := seq(|d|, i requires 0 <= i < |d| =>
        (StrKey(RenderKey(render, d[i].0)), Serialize(render, d[i].1)));
      forall i | 0 <= i < |d|
        ensures NoCategories(pairs[i].1)
      {
        SerializeNoCategories(render, d[i].1);
      }
      InsertAllText([], pairs);
      assert Serialize(render, v).entries == InsertAll([], pairs);
    case PList(items) =>
      forall i | 0 <= i < |items|
        ensures NoCategories(Serialize(render, items[i]))
      {
        SerializeNoCategories(render, items[i]);
      }
    case _ =>
  }
}
