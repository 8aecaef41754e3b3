// The records the grid generator builds and reads (data_types.py): shows with
// their property bags, criteria, slot formats, channel blocks, and the channel
// object that the generator fills in place.

module GridTypes {

  /** CategoryCriteria: the four property categories a criterion can test. */
  datatype Category = Genre | Type | Language | Duration

  /** The enum's string value, as str-Enum equality compares it. */
  function CategoryName(c: Category): (r: string)
    ensures |r| > 0
  {
    match c
    case Genre => "genre"
    case Type => "type"
    case Language => "language"
    case Duration => "duration"
  }

  /**
   * A property value of a show: a string (genre, type, language), a number
   * (duration in minutes) or None (a movie without a running time).
   * Python's `1 == 1.0` is modelled by keeping every number as a real.
   */
  datatype PropValue = Text(s: string) | Number(x: real) | NoValue

  /** Python truthiness of a property value. */
  predicate Truthy(v: PropValue)
  {
    match v
    case Text(s) => |s| > 0
    case Number(x) => x != 0.0
    case NoValue => false
  }

  /** A show: its name and, per category, the list of its property values. */
  datatype Show = Show(name: string, properties: map<Category, seq<PropValue>>)

  /** A criterion of a generated block: a category and the accepted values. */
  datatype Criterion = Criterion(category: Category, values: seq<PropValue>)

  /** A slot format: the accepted show durations and the slot length, in minutes. */
  datatype SlotFormat = SlotFormat(showMinDuration: int, showMaxDuration: int, slotDuration: int)

  /**
   * A generated block. Hours are reals counted from midnight of the first day;
   * `end` may pass 24. `shows` is empty until the schedules are generated.
   */
  datatype Block = Block(
    criteria: seq<Criterion>,
    begin: real,
    end: real,
    shows: seq<Show>,
    slotCount: int,
    slotFormat: SlotFormat)

  /** An ordered dictionary from category to values, in insertion order. */
  type PropertyTable = seq<(Category, seq<PropValue>)>

  predicate DistinctKeys(t: PropertyTable)
  {
    forall i, j :: 0 <= i < j < |t| ==> t[i].0 != t[j].0
  }

  function KeysOf(t: PropertyTable): (r: set<Category>)
    ensures forall i :: 0 <= i < |t| ==> t[i].0 in r
    ensures forall k :: k in r ==> exists i :: 0 <= i < |t| && t[i].0 == k
  {
    if |t| == 0 then {} else KeysOf(t[..|t| - 1]) + {t[|t| - 1].0}
  }

  /** `new` holds the same keys, in the same order, each list permuted. */
  predicate PermutedLists(old_t: PropertyTable, new_t: PropertyTable)
  {
    |new_t| == |old_t| &&
    forall i :: 0 <= i < |old_t| ==>
      new_t[i].0 == old_t[i].0 && multiset(new_t[i].1) == multiset(old_t[i].1)
  }

  lemma PermutedListsTrans(a: PropertyTable, b: PropertyTable, c: PropertyTable)
    requires PermutedLists(a, b) && PermutedLists(b, c)
    ensures PermutedLists(a, c)
  {
  }

  /**
   * The channel dictionary the generator fills in place; the name and
   * description are set elsewhere and are not part of this model.
   */
  class GridChannel {
    var begin: int
    var end: int
    var availableSlotFormats: seq<SlotFormat>
    var availableSlotCount: seq<int>
    var availableProperties: PropertyTable
    var blocks: seq<Block>

    constructor()
      ensures begin == 0 && end == 0
      ensures availableSlotFormats == [] && availableSlotCount == []
      ensures availableProperties == [] && blocks == []
    {
      begin := 0;
      end := 0;
      availableSlotFormats := [];
      availableSlotCount := [];
      availableProperties := [];
      blocks := [];
    }
  }
}
