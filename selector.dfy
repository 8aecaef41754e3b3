// Show selection for generated blocks (grid_generator.py, ShowSelector and
// ShowAnalyzer): which shows satisfy a criterion, the AND-filter over a
// block's criteria, the in-place curation of every block's show list, and the
// collection of the property values available across a show library.

module ShowSelection {
  import opened GridTypes

  /** The property list of a show for a category, `[]` when it has none. */
  function PropsOf(show: Show, c: Category): seq<PropValue>
  {
    if c in show.properties then show.properties[c] else []
  }

  predicate AllNumbers(s: seq<PropValue>)
  {
    forall i :: 0 <= i < |s| ==> s[i].Number?
  }

  /**
   * What check_criteria needs to run without raising: on a duration criterion
   * with values whose show properties hold no None, `min` is taken over the
   * properties (so they must be non-empty) and numbers are compared with
   * numbers.
   */
  predicate Comparable(show: Show, crit: Criterion)
  {
    var props := PropsOf(show, crit.category);
    crit.category == Duration && |crit.values| > 0 && NoValue !in props ==>
      |props| > 0 && AllNumbers(props) && AllNumbers(crit.values)
  }

  /** Smallest number of a non-empty all-number list. */
  function MinNumber(s: seq<PropValue>): (r: real)
    requires |s| > 0 && AllNumbers(s)
    ensures exists i :: 0 <= i < |s| && s[i].x == r
    ensures forall i :: 0 <= i < |s| ==> r <= s[i].x
  {
    if |s| == 1 then s[0].x
    else
      var m := MinNumber(s[1..]);
      if s[0].x <= m then s[0].x else m
  }

  /** Largest number of a non-empty all-number list. */
  function MaxNumber(s: seq<PropValue>): (r: real)
    requires |s| > 0 && AllNumbers(s)
    ensures exists i :: 0 <= i < |s| && s[i].x == r
    ensures forall i :: 0 <= i < |s| ==> s[i].x <= r
  {
    if |s| == 1 then s[0].x
    else
      var m := MaxNumber(s[1..]);
      if m <= s[0].x then s[0].x else m
  }

  /** `any(set(props) & set(values))`: some truthy value lies in both lists. */
  function AnyShared(props: seq<PropValue>, values: seq<PropValue>): bool
  {
    if |props| == 0 then false
    else (props[0] in values && Truthy(props[0])) || AnyShared(props[1..], values)
  }

  /** ShowSelector.check_criteria. */
  function CheckCriteria(show: Show, crit: Criterion): bool
    requires Comparable(show, crit)
  {
    var props := PropsOf(show, crit.category);
    if |crit.values| > 0 then
      if crit.category == Duration then
        if NoValue !in props then
          MinNumber(crit.values) < MinNumber(props) && MaxNumber(props) < MaxNumber(crit.values)
        else
          false
      else
        AnyShared(props, crit.values)
    else
      false
  }

  lemma {:induction false} AnySharedIff(props: seq<PropValue>, values: seq<PropValue>)
    ensures AnyShared(props, values) <==> exists v :: v in props && v in values && Truthy(v)
    decreases |props|
  {
    if |props| > 0 {
      AnySharedIff(props[1..], values);
      assert forall v :: v in props <==> v == props[0] || v in props[1..];
    }
  }

  /** A criterion with no values is never satisfied. */
  lemma NoValuesNoMatch(show: Show, crit: Criterion)
    requires |crit.values| == 0
    ensures Comparable(show, crit) && !CheckCriteria(show, crit)
  {
  }

  /**
   * Genre, type and language: the show matches exactly when a truthy value is
   * both among its properties and among the criterion's values.
   */
  lemma CheckCriteriaSharedIff(show: Show, crit: Criterion)
    requires crit.category != Duration
    ensures Comparable(show, crit)
    ensures CheckCriteria(show, crit) <==>
      |crit.values| > 0 &&
      exists v :: v in PropsOf(show, crit.category) && v in crit.values && Truthy(v)
  {
    AnySharedIff(PropsOf(show, crit.category), crit.values);
  }

  /** For non-empty strings the test is plain intersection. */
  lemma CheckCriteriaTextIff(show: Show, crit: Criterion)
    requires crit.category != Duration
    requires forall v :: v in PropsOf(show, crit.category) ==> v.Text? && |v.s| > 0
    ensures Comparable(show, crit)
    ensures CheckCriteria(show, crit) <==>
      |crit.values| > 0 && exists v :: v in PropsOf(show, crit.category) && v in crit.values
  {
    CheckCriteriaSharedIff(show, crit);
  }

  /** A None among the duration properties makes the show fail the criterion. */
  lemma DurationWithNoneFails(show: Show, crit: Criterion)
    requires crit.category == Duration && NoValue in PropsOf(show, crit.category)
    ensures Comparable(show, crit) && !CheckCriteria(show, crit)
  {
  }

  /**
   * Duration: the show's durations lie strictly inside the criterion's range,
   * that is some criterion value is below every duration and some criterion
   * value is above every duration.
   */
  lemma CheckDurationIff(show: Show, crit: Criterion)
    requires crit.category == Duration && |crit.values| > 0
    requires NoValue !in PropsOf(show, crit.category) && Comparable(show, crit)
    ensures CheckCriteria(show, crit) <==>
      (exists j :: 0 <= j < |crit.values| &&
        forall i :: 0 <= i < |PropsOf(show, Duration)| ==> crit.values[j].x < PropsOf(show, Duration)[i].x) &&
      (exists j :: 0 <= j < |crit.values| &&
        forall i :: 0 <= i < |PropsOf(show, Duration)| ==> PropsOf(show, Duration)[i].x < crit.values[j].x)
  {
    var props := PropsOf(show, Duration);
    var values := crit.values;
    var lo, hi := MinNumber(values), MaxNumber(values);
    var plo, phi := MinNumber(props), MaxNumber(props);
    if lo < plo {
      var j :| 0 <= j < |values| && values[j].x == lo;
      assert forall i :: 0 <= i < |props| ==> values[j].x < props[i].x;
    }
    if phi < hi {
      var j :| 0 <= j < |values| && values[j].x == hi;
      assert forall i :: 0 <= i < |props| ==> props[i].x < values[j].x;
    }
    if exists j :: 0 <= j < |values| && forall i :: 0 <= i < |props| ==> values[j].x < props[i].x {
      var j :| 0 <= j < |values| && forall i :: 0 <= i < |props| ==> values[j].x < props[i].x;
      var k :| 0 <= k < |props| && props[k].x == plo;
      assert lo <= values[j].x < props[k].x;
    }
    if exists j :: 0 <= j < |values| && forall i :: 0 <= i < |props| ==> props[i].x < values[j].x {
      var j :| 0 <= j < |values| && forall i :: 0 <= i < |props| ==> props[i].x < values[j].x;
      var k :| 0 <= k < |props| && props[k].x == phi;
      assert props[k].x < values[j].x <= hi;
    }
  }

  /** Every show of the list can be checked against every criterion. */
  predicate AllComparable(shows: seq<Show>, criteria: seq<Criterion>)
  {
    forall i, j :: 0 <= i < |shows| && 0 <= j < |criteria| ==> Comparable(shows[i], criteria[j])
  }

  /** `all(matches)`: the show satisfies every criterion. */
  predicate MatchesAll(show: Show, criteria: seq<Criterion>)
    requires forall j :: 0 <= j < |criteria| ==> Comparable(show, criteria[j])
  {
    forall j :: 0 <= j < |criteria| ==> CheckCriteria(show, criteria[j])
  }

  /** The shows that satisfy every criterion, in list order. */
  function MatchingShows(shows: seq<Show>, criteria: seq<Criterion>): seq<Show>
    requires AllComparable(shows, criteria)
  {
    if |shows| == 0 then []
    else
      var last := shows[|shows| - 1];
      MatchingShows(shows[..|shows| - 1], criteria) +
        (if MatchesAll(last, criteria) then [last] else [])
  }

  lemma {:induction false} MatchingShowsMember(shows: seq<Show>, criteria: seq<Criterion>, s: Show)
    requires AllComparable(shows, criteria)
    ensures s in MatchingShows(shows, criteria) <==>
      exists i :: 0 <= i < |shows| && shows[i] == s && MatchesAll(shows[i], criteria)
    decreases |shows|
  {
    if |shows| > 0 {
      var init := shows[..|shows| - 1];
      MatchingShowsMember(init, criteria, s);
      if exists i :: 0 <= i < |init| && init[i] == s && MatchesAll(init[i], criteria) {
        var i :| 0 <= i < |init| && init[i] == s && MatchesAll(init[i], criteria);
        assert shows[i] == init[i];
      }
      if exists i :: 0 <= i < |shows| && shows[i] == s && MatchesAll(shows[i], criteria) {
        var i :| 0 <= i < |shows| && shows[i] == s && MatchesAll(shows[i], criteria);
        if i < |init| {
          assert init[i] == shows[i];
        }
      }
    }
  }

  /** Filtering commutes with concatenation: the original order is kept. */
  lemma {:induction false} MatchingShowsAppend(a: seq<Show>, b: seq<Show>, criteria: seq<Criterion>)
    requires AllComparable(a + b, criteria)
    ensures AllComparable(a, criteria) && AllComparable(b, criteria)
    ensures MatchingShows(a + b, criteria) == MatchingShows(a, criteria) + MatchingShows(b, criteria)
    decreases |b|
  {
    assert forall i :: 0 <= i < |a| ==> a[i] == (a + b)[i];
    assert forall i :: 0 <= i < |b| ==> b[i] == (a + b)[|a| + i];
    if |b| > 0 {
      var init := b[..|b| - 1];
      assert (a + b)[..|a + b| - 1] == a + init;
      assert forall i :: 0 <= i < |init| ==> init[i] == b[i];
      MatchingShowsAppend(a, init, criteria);
    } else {
      assert a + b == a;
    }
  }

  /** With no criteria every show matches. */
  lemma {:induction false} MatchingShowsNoCriteria(shows: seq<Show>)
    ensures AllComparable(shows, [])
    ensures MatchingShows(shows, []) == shows
    decreases |shows|
  {
    if |shows| > 0 {
      MatchingShowsNoCriteria(shows[..|shows| - 1]);
    }
  }

  /** ShowSelector.get_matching_shows. */
  method GetMatchingShows(showList: seq<Show>, criteria: seq<Criterion>) returns (matching: seq<Show>)
    requires AllComparable(showList, criteria)
    ensures matching == MatchingShows(showList, criteria)
  {
    matching := [];
    for i := 0 to |showList|
      invariant matching == MatchingShows(showList[..i], criteria)
    {
      var show := showList[i];
      var matches: seq<bool> := [];
      for j := 0 to |criteria|
        invariant |matches| == j
        invariant forall k :: 0 <= k < j ==> matches[k] == CheckCriteria(show, criteria[k])
      {
        matches := matches + [CheckCriteria(show, criteria[j])];
      }
      assert showList[..i + 1][..i] == showList[..i];
      if forall k :: 0 <= k < |matches| ==> matches[k] {
        matching := matching + [show];
      }
    }
    assert showList[..|showList|] == showList;
  }

  /** A show list cut down to at most ten shows taken from `before`. */
  predicate Curated(before: seq<Show>, after: seq<Show>)
  {
    |after| == (if |before| < 10 then |before| else 10) &&
    multiset(after) <= multiset(before)
  }

  /** Every element of a curated list comes from the list before. */
  lemma CuratedFrom(before: seq<Show>, after: seq<Show>)
    requires Curated(before, after)
    ensures |after| <= 10
    ensures forall s :: s in after ==> s in before
  {
    forall s | s in after
      ensures s in before
    {
      assert s in multiset(after);
    }
  }

  /** `random.shuffle(items)` followed by `items[:10]`. */
  method ShuffleAndCut(items: seq<Show>) returns (kept: seq<Show>)
    ensures Curated(items, kept)
  {
    assert multiset(items) == multiset(items);
    var shuffled: seq<Show> :| multiset(shuffled) == multiset(items);
    var n := if |shuffled| < 10 then |shuffled| else 10;
    kept := shuffled[..n];
    assert shuffled == kept + shuffled[n..];
    assert multiset(shuffled) == multiset(kept) + multiset(shuffled[n..]);
  }

  /** Same blocks in the same order; only their `shows` may differ. */
  predicate OnlyShowsChanged(before: seq<Block>, after: seq<Block>)
  {
    |after| == |before| &&
    forall i :: 0 <= i < |before| ==> after[i] == before[i].(shows := after[i].shows)
  }

  /** ShowSelector.curate_channel: shuffles and truncates each block's show list. */
  method CurateChannel(channel: GridChannel)
    modifies channel
    ensures OnlyShowsChanged(old(channel.blocks), channel.blocks)
    ensures forall i :: 0 <= i < |channel.blocks| ==>
      Curated(old(channel.blocks)[i].shows, channel.blocks[i].shows)
    ensures channel.begin == old(channel.begin) && channel.end == old(channel.end)
    ensures channel.availableSlotFormats == old(channel.availableSlotFormats)
    ensures channel.availableSlotCount == old(channel.availableSlotCount)
    ensures channel.availableProperties == old(channel.availableProperties)
  {
    ghost var before := channel.blocks;
    for i := 0 to |channel.blocks|
      invariant OnlyShowsChanged(before, channel.blocks)
      invariant forall k :: 0 <= k < i ==> Curated(before[k].shows, channel.blocks[k].shows)
      invariant forall k :: i <= k < |before| ==> channel.blocks[k] == before[k]
      invariant channel.begin == old(channel.begin) && channel.end == old(channel.end)
      invariant channel.availableSlotFormats == old(channel.availableSlotFormats)
      invariant channel.availableSlotCount == old(channel.availableSlotCount)
      invariant channel.availableProperties == old(channel.availableProperties)
    {
      var block := channel.blocks[i];
      var kept := ShuffleAndCut(block.shows);
      channel.blocks := channel.blocks[i := block.(shows := kept)];
    }
  }

  /** Every block's criteria can be checked against every show. */
  predicate BlocksComparable(showList: seq<Show>, blocks: seq<Block>)
  {
    forall i :: 0 <= i < |blocks| ==> AllComparable(showList, blocks[i].criteria)
  }

  class ShowSelector {
    const channel: GridChannel
    const showList: seq<Show>

    constructor(channel: GridChannel, showList: seq<Show>)
      ensures this.channel == channel && this.showList == showList
    {
      this.channel := channel;
      this.showList := showList;
    }

    /**
     * generate_schedules: each block receives the matching shows of the
     * library, then the channel is curated, so each block ends with at most ten
     * of its matching shows.
     */
    method GenerateSchedules()
      requires BlocksComparable(showList, channel.blocks)
      modifies channel
      ensures OnlyShowsChanged(old(channel.blocks), channel.blocks)
      ensures forall i :: 0 <= i < |channel.blocks| ==>
        Curated(MatchingShows(showList, old(channel.blocks)[i].criteria), channel.blocks[i].shows)
      ensures channel.begin == old(channel.begin) && channel.end == old(channel.end)
      ensures channel.availableSlotFormats == old(channel.availableSlotFormats)
      ensures channel.availableSlotCount == old(channel.availableSlotCount)
      ensures channel.availableProperties == old(channel.availableProperties)
    {
      ghost var before := channel.blocks;
      for i := 0 to |channel.blocks|
        invariant OnlyShowsChanged(before, channel.blocks)
        invariant forall k :: 0 <= k < i ==>
          channel.blocks[k].shows == MatchingShows(showList, before[k].criteria)
        invariant forall k :: i <= k < |before| ==> channel.blocks[k] == before[k]
        invariant channel.begin == old(channel.begin) && channel.end == old(channel.end)
        invariant channel.availableSlotFormats == old(channel.availableSlotFormats)
        invariant channel.availableSlotCount == old(channel.availableSlotCount)
        invariant channel.availableProperties == old(channel.availableProperties)
      {
        var block := channel.blocks[i];
        var matching := GetMatchingShows(showList, block.criteria);
        channel.blocks := channel.blocks[i := block.(shows := matching)];
      }
      CurateChannel(channel);
    }
  }

  /** Each value of a list, once: `list(set(values))` in some order. */
  predicate NoDuplicates(s: seq<PropValue>)
  {
    forall i, j :: 0 <= i < j < |s| ==> s[i] != s[j]
  }

  /** `set(values)`. */
  function Elems(s: seq<PropValue>): set<PropValue>
  {
    set v | v in s
  }

  /** `list(set(...))`: the elements of a set, each once, in the set's order. */
  method ListOfSet(s: set<PropValue>) returns (l: seq<PropValue>)
    ensures Elems(l) == s
    ensures NoDuplicates(l)
  {
    l := [];
    var rest := s;
    while rest != {}
      invariant Elems(l) + rest == s
      invariant forall v :: v in l ==> v !in rest
      invariant NoDuplicates(l)
      decreases |rest|
    {
      var v :| v in rest;
      l := l + [v];
      rest := rest - {v};
    }
  }

  /** The categories that some show of the list carries. */
  function KeysSeen(shows: seq<Show>): set<Category>
  {
    if |shows| == 0 then {}
    else KeysSeen(shows[..|shows| - 1]) + shows[|shows| - 1].properties.Keys
  }

  /** The values some show of the list carries under category `k`. */
  function ValuesSeen(shows: seq<Show>, k: Category): set<PropValue>
  {
    if |shows| == 0 then {}
    else ValuesSeen(shows[..|shows| - 1], k) + Elems(PropsOf(shows[|shows| - 1], k))
  }

  lemma {:induction false} KeysSeenIff(shows: seq<Show>, k: Category)
    ensures k in KeysSeen(shows) <==> exists i :: 0 <= i < |shows| && k in shows[i].properties
    decreases |shows|
  {
    if |shows| > 0 {
      var init := shows[..|shows| - 1];
      KeysSeenIff(init, k);
      assert forall i :: 0 <= i < |init| ==> init[i] == shows[i];
    }
  }

  lemma {:induction false} ValuesSeenIff(shows: seq<Show>, k: Category, v: PropValue)
    ensures v in ValuesSeen(shows, k) <==>
      exists i :: 0 <= i < |shows| && k in shows[i].properties && v in shows[i].properties[k]
    decreases |shows|
  {
    if |shows| > 0 {
      var init := shows[..|shows| - 1];
      ValuesSeenIff(init, k, v);
      assert forall i :: 0 <= i < |init| ==> init[i] == shows[i];
    }
  }

  /** A category no show carries has no values. */
  lemma {:induction false} UnseenKeyNoValues(shows: seq<Show>, k: Category)
    requires k !in KeysSeen(shows)
    ensures ValuesSeen(shows, k) == {}
    decreases |shows|
  {
    if |shows| > 0 {
      UnseenKeyNoValues(shows[..|shows| - 1], k);
    }
  }

  /** Position of key `k` in the table, `|t|` when absent. */
  function IndexOfKey(t: PropertyTable, k: Category): (r: nat)
    ensures r <= |t|
    ensures r < |t| ==> t[r].0 == k
    ensures r == |t| ==> k !in KeysOf(t)
    ensures forall i :: 0 <= i < r ==> t[i].0 != k
  {
    if |t| == 0 then 0
    else if t[0].0 == k then 0
    else 1 + IndexOfKey(t[1..], k)
  }

  /**
   * The table holds the values collected from `shows`, plus those of the
   * current `show` under its categories already merged (those not in `todo`).
   */
  predicate Collected(t: PropertyTable, shows: seq<Show>, show: Show, todo: set<Category>)
  {
    DistinctKeys(t) && KeysOf(t) == KeysSeen(shows) + (show.properties.Keys - todo) &&
    EntriesCollected(t, shows, show, todo)
  }

  predicate EntriesCollected(t: PropertyTable, shows: seq<Show>, show: Show, todo: set<Category>)
  {
    forall i :: 0 <= i < |t| ==>
      NoDuplicates(t[i].1) &&
      Elems(t[i].1) == ValuesSeen(shows, t[i].0) + Pending(show, todo, t[i].0)
  }

  /** The values of the current show already merged under category `k`. */
  function Pending(show: Show, todo: set<Category>, k: Category): set<PropValue>
  {
    if k in show.properties && k !in todo then Elems(show.properties[k]) else {}
  }

  /**
   * `r` is `t` after `properties[p] = list(set([*values, *properties[p]]))` on
   * a defaultdict: the entry for `p` is replaced in place, or appended.
   */
  predicate MergedInto(t: PropertyTable, p: Category, values: seq<PropValue>, r: PropertyTable)
  {
    var idx := IndexOfKey(t, p);
    |r| == (if idx < |t| then |t| else |t| + 1) &&
    (forall i :: 0 <= i < |t| && i != idx ==> r[i] == t[i]) &&
    r[idx].0 == p && NoDuplicates(r[idx].1) &&
    Elems(r[idx].1) == Elems(values) + (if idx < |t| then Elems(t[idx].1) else {})
  }

  method MergeValues(t: PropertyTable, p: Category, values: seq<PropValue>) returns (r: PropertyTable)
    ensures MergedInto(t, p, values, r)
  {
    var idx := IndexOfKey(t, p);
    var previous := if idx < |t| then t[idx].1 else [];
    var merged := ListOfSet(Elems(values) + Elems(previous));
    if idx < |t| {
      r := t[idx := (p, merged)];
    } else {
      r := t + [(p, merged)];
    }
  }

  lemma MergeKeys(t: PropertyTable, p: Category, values: seq<PropValue>, r: PropertyTable)
    requires DistinctKeys(t) && MergedInto(t, p, values, r)
    ensures DistinctKeys(r)
    ensures KeysOf(r) == KeysOf(t) + {p}
  {
    var idx := IndexOfKey(t, p);
    forall k | k in KeysOf(r)
      ensures k in KeysOf(t) + {p}
    {
      var i :| 0 <= i < |r| && r[i].0 == k;
      if i != idx {
        assert t[i].0 == k;
      }
    }
    forall k | k in KeysOf(t) + {p}
      ensures k in KeysOf(r)
    {
      if k != p {
        var i :| 0 <= i < |t| && t[i].0 == k;
        assert r[i].0 == k;
      }
    }
  }

  lemma CollectedMerge(t: PropertyTable, shows: seq<Show>, show: Show, todo: set<Category>,
                       p: Category, r: PropertyTable)
    requires Collected(t, shows, show, todo) && p in todo && p in show.properties
    requires MergedInto(t, p, show.properties[p], r)
    ensures Collected(r, shows, show, todo - {p})
  {
    MergeKeys(t, p, show.properties[p], r);
    MergedKeys(show.properties.Keys, todo, p);
    MergeEntries(t, shows, show, todo, p, r);
  }

  /** Taking `p` out of the categories still to merge adds it to those merged. */
  lemma MergedKeys(keys: set<Category>, todo: set<Category>, p: Category)
    requires p in todo && p in keys
    ensures keys - (todo - {p}) == (keys - todo) + {p}
  {
  }

  lemma MergeEntries(t: PropertyTable, shows: seq<Show>, show: Show, todo: set<Category>,
                     p: Category, r: PropertyTable)
    requires DistinctKeys(t) && KeysOf(t) == KeysSeen(shows) + (show.properties.Keys - todo)
    requires EntriesCollected(t, shows, show, todo) && p in todo && p in show.properties
    requires MergedInto(t, p, show.properties[p], r)
    ensures EntriesCollected(r, shows, show, todo - {p})
  {
    var idx := IndexOfKey(t, p);
    forall i | 0 <= i < |r|
      ensures NoDuplicates(r[i].1)
      ensures Elems(r[i].1) == ValuesSeen(shows, r[i].0) + Pending(show, todo - {p}, r[i].0)
    {
      if i == idx {
        MergedEntry(t, shows, show, todo, p, r);
      } else {
        UntouchedEntry(t, shows, show, todo, p, r, i);
      }
    }
  }

  /** Every other entry is carried over unchanged, and stays collected. */
  lemma UntouchedEntry(t: PropertyTable, shows: seq<Show>, show: Show, todo: set<Category>,
                       p: Category, r: PropertyTable, i: nat)
    requires DistinctKeys(t) && EntriesCollected(t, shows, show, todo)
    requires p in show.properties && MergedInto(t, p, show.properties[p], r)
    requires i < |r| && i != IndexOfKey(t, p)
    ensures NoDuplicates(r[i].1)
    ensures Elems(r[i].1) == ValuesSeen(shows, r[i].0) + Pending(show, todo - {p}, r[i].0)
  {
    assert i < |t|;
    assert r[i] == t[i];
    assert t[i].0 != p;
    assert Pending(show, todo - {p}, t[i].0) == Pending(show, todo, t[i].0);
  }

  /** The entry of the merged category holds its values from earlier shows and from this one. */
  lemma MergedEntry(t: PropertyTable, shows: seq<Show>, show: Show, todo: set<Category>,
                    p: Category, r: PropertyTable)
    requires DistinctKeys(t) && KeysOf(t) == KeysSeen(shows) + (show.properties.Keys - todo)
    requires EntriesCollected(t, shows, show, todo) && p in todo && p in show.properties
    requires MergedInto(t, p, show.properties[p], r)
    ensures var idx := IndexOfKey(t, p);
            && NoDuplicates(r[idx].1)
            && Elems(r[idx].1) == ValuesSeen(shows, p) + Pending(show, todo - {p}, p)
  {
    var idx := IndexOfKey(t, p);
    if idx == |t| {
      assert p !in KeysSeen(shows);
      UnseenKeyNoValues(shows, p);
    } else {
      assert Pending(show, todo, p) == {};
    }
  }

  /** Before the first category of `show` is merged. */
  lemma CollectedStart(t: PropertyTable, shows: seq<Show>, show: Show)
    requires Collected(t, shows, NoShow, {})
    ensures Collected(t, shows, show, show.properties.Keys)
  {
    assert show.properties.Keys - show.properties.Keys == {};
    assert NoShow.properties.Keys - {} == {};
    forall i | 0 <= i < |t|
      ensures Pending(show, show.properties.Keys, t[i].0) == Pending(NoShow, {}, t[i].0)
    {
    }
  }

  /** Once every category of `show` is merged, the table covers one more show. */
  lemma CollectedNext(t: PropertyTable, shows: seq<Show>, show: Show)
    requires Collected(t, shows, show, {})
    ensures Collected(t, shows + [show], NoShow, {})
  {
    assert (shows + [show])[..|shows|] == shows;
    assert NoShow.properties.Keys - {} == {};
    assert show.properties.Keys - {} == show.properties.Keys;
    forall i | 0 <= i < |t|
      ensures Elems(t[i].1) == ValuesSeen(shows + [show], t[i].0) + Pending(NoShow, {}, t[i].0)
    {
      if t[i].0 !in show.properties {
        assert Elems(PropsOf(show, t[i].0)) == {};
      }
    }
  }

  /** The entries of a table with distinct keys, looked up by key. */
  lemma IndexOfEntry(t: PropertyTable, i: int)
    requires DistinctKeys(t) && 0 <= i < |t|
    ensures IndexOfKey(t, t[i].0) == i
  {
  }

  class ShowAnalyzer {
    const shows: seq<Show>

    constructor(shows: seq<Show>)
      ensures this.shows == shows
    {
      this.shows := shows;
    }

    /**
     * get_available_properties: per category, every value some show carries,
     * each once; categories in the order they are first met.
     */
    method GetAvailableProperties() returns (properties: PropertyTable)
      ensures DistinctKeys(properties)
      ensures KeysOf(properties) == KeysSeen(shows)
      ensures forall i :: 0 <= i < |properties| ==>
        NoDuplicates(properties[i].1) && Elems(properties[i].1) == ValuesSeen(shows, properties[i].0)
    {
      properties := [];
      for i := 0 to |shows|
        invariant Collected(properties, shows[..i], NoShow, {})
      {
        properties := MergeShow(properties, shows[i], shows[..i]);
        assert shows[..i] + [shows[i]] == shows[..i + 1];
      }
      assert shows[..|shows|] == shows;
    }
  }

  /** One step of the inner loop: `properties[p] = list(set([*values, *properties[p]]))`. */
  method MergeCategory(t: PropertyTable, show: Show, p: Category, ghost seen: seq<Show>,
                       ghost todo: set<Category>) returns (r: PropertyTable)
    requires Collected(t, seen, show, todo) && p in todo && p in show.properties
    ensures Collected(r, seen, show, todo - {p})
  {
    r := MergeValues(t, p, show.properties[p]);
    CollectedMerge(t, seen, show, todo, p, r);
  }

  /** Placeholder for the current show when no category of it is merged yet. */
  const NoShow := Show("", map[])

  /** The inner loop of get_available_properties: merges every category of one show. */
  method MergeShow(t: PropertyTable, show: Show, ghost seen: seq<Show>) returns (r: PropertyTable)
    requires Collected(t, seen, NoShow, {})
    ensures Collected(r, seen + [show], NoShow, {})
  {
    r := t;
    var todo := show.properties.Keys;
    CollectedStart(t, seen, show);
    while todo != {}
      invariant todo <= show.properties.Keys
      invariant Collected(r, seen, show, todo)
      decreases |todo|
    {
      var p :| p in todo;
      r := MergeCategory(r, show, p, seen, todo);
      todo := todo - {p};
    }
    CollectedNext(r, seen, show);
  }
}
