/** What the structure layer promises: exactly which catalogs it accepts,
    which keys it reports missing, which fillers it rejects, and that every
    issue of a channel names that channel. */
module StructureProperties {
  import opened JsonValues
  import opened Issues
  import opened Gathering
  import opened StructureValidation

  // ---------------------------------------------------------------------
  // The schema the structure layer enforces, stated declaratively

  predicate HasKeys(obj: map<string, Json>, keys: seq<string>)
  {
    forall j :: 0 <= j < |keys| ==> keys[j] in obj
  }

  predicate WellTypedCriterion(crit: map<string, Json>)
  {
    && "category" in crit && "values" in crit && "forbidden" in crit
    && crit["category"].Str?
    && IsNonEmptyList(crit["values"])
    && crit["forbidden"].Bool?
  }

  predicate WellTypedSlotFormat(sf: Json)
  {
    sf == Null
    || (sf.Object?
        && "show_min_duration" in sf.fields && IsNumber(sf.fields["show_min_duration"])
        && "show_max_duration" in sf.fields && IsNumber(sf.fields["show_max_duration"])
        && "slot_duration" in sf.fields && IsNumber(sf.fields["slot_duration"]))
  }

  predicate WellTypedCriteria(criteria: Json)
  {
    criteria == Null
    || (IsNonEmptyList(criteria) && forall k :: 0 <= k < |criteria.items| ==>
          criteria.items[k].Object? && WellTypedCriterion(criteria.items[k].fields))
  }

  predicate WellTypedBlock(block: map<string, Json>)
  {
    && "criteria" in block && "begin" in block && "end" in block
    && "slot_count" in block && "slot_format" in block && "shows" in block
    && IsNumber(block["begin"]) && IsNumber(block["end"])
    && IsInteger(block["slot_count"])
    && WellTypedSlotFormat(block["slot_format"])
    && WellTypedCriteria(block["criteria"])
    && (block["shows"] == Null || block["shows"].Array?)
  }

  predicate WellTypedFillers(fillers: Json)
  {
    fillers == Null
    || (fillers.Array? && forall j :: 0 <= j < |fillers.items| ==>
          fillers.items[j].Str? && fillers.items[j].s in GenreKeys)
  }

  predicate WellTypedBlocks(blocks: Json)
  {
    blocks == Null
    || (IsNonEmptyList(blocks) && forall j :: 0 <= j < |blocks.items| ==>
          blocks.items[j].Object? && WellTypedBlock(blocks.items[j].fields))
  }

  predicate WellTypedChannel(channel: map<string, Json>)
  {
    && "name" in channel && "description" in channel && "begin" in channel
    && "end" in channel && "fillers" in channel && "blocks" in channel
    && channel["name"].Str? && channel["description"].Str?
    && IsNumber(channel["begin"]) && IsNumber(channel["end"])
    && WellTypedFillers(channel["fillers"])
    && WellTypedBlocks(channel["blocks"])
  }

  predicate WellTypedCatalog(catalog: map<string, Json>)
  {
    && "name" in catalog && "step" in catalog && "channels" in catalog
    && (catalog["channels"] == Null
        || (catalog["channels"].Array? && forall i :: 0 <= i < |catalog["channels"].items| ==>
              catalog["channels"].items[i].Object?
              && WellTypedChannel(catalog["channels"].items[i].fields)))
  }

  // ---------------------------------------------------------------------
  // Required keys: one issue per absent key, in the order of the key list

  /** The keys of `keys` that `obj` lacks, in order. */
  function Absent(keys: seq<string>, obj: map<string, Json>): (r: seq<string>)
    ensures forall k :: k in r <==> k in keys && k !in obj
  {
    if keys == [] then []
    else Absent(keys[..|keys| - 1], obj)
         + (if keys[|keys| - 1] in obj then [] else [keys[|keys| - 1]])
  }

  lemma {:induction false} MissingKeysAreAbsentKeys(scope: Scope, obj: map<string, Json>, keys: seq<string>, n: nat)
    requires n <= |keys|
    ensures var r := MissingKeys(scope, obj, keys, n);
            var a := Absent(keys[..n], obj);
            |r| == |a| && forall i :: 0 <= i < |r| ==> r[i] == MissingKey(scope, a[i])
    decreases n
  {
    if n > 0 {
      MissingKeysAreAbsentKeys(scope, obj, keys, n - 1);
      assert keys[..n][..n - 1] == keys[..n - 1];
    }
  }

  /** No missing-key issue exactly when every key is present. */
  lemma MissingKeysNone(scope: Scope, obj: map<string, Json>, keys: seq<string>)
    ensures MissingKeys(scope, obj, keys, |keys|) == [] <==> HasKeys(obj, keys)
  {
    MissingKeysAreAbsentKeys(scope, obj, keys, |keys|);
    assert keys[..|keys|] == keys;
    var a := Absent(keys, obj);
    if !HasKeys(obj, keys) {
      var j :| 0 <= j < |keys| && keys[j] !in obj;
      assert keys[j] in a;
    }
    if a != [] {
      assert a[0] in keys && a[0] !in obj;
      var j :| 0 <= j < |keys| && keys[j] == a[0];
    }
  }

  /** The catalog reports `name`, `step`, `channels` missing in that order. */
  lemma CatalogMissingKeys(catalog: map<string, Json>)
    ensures |Absent(CatalogKeys, catalog)| <= |CatalogStructure(catalog)|
    ensures CatalogStructure(catalog)[..|Absent(CatalogKeys, catalog)|]
            == seq(|Absent(CatalogKeys, catalog)|, i requires 0 <= i < |Absent(CatalogKeys, catalog)|
                     => MissingKey(CatalogScope, Absent(CatalogKeys, catalog)[i]))
  {
    MissingKeysAreAbsentKeys(CatalogScope, catalog, CatalogKeys, |CatalogKeys|);
    assert CatalogKeys[..|CatalogKeys|] == CatalogKeys;
    var m := MissingKeys(CatalogScope, catalog, CatalogKeys, |CatalogKeys|);
    assert CatalogStructure(catalog)[..|m|] == m;
  }

  // ---------------------------------------------------------------------
  // Fillers

  /** A string filler outside the genre keys is reported, by value, exactly when present. */
  lemma UnknownFillerReported(scope: Scope, fillers: Json, g: Json)
    ensures UnknownFiller(scope, g) in FillersStructure(scope, fillers) <==>
              fillers.Array? && g in fillers.items && g.Str? && g.s !in GenreKeys
  {
    if fillers.Array? {
      var f := (j: nat, x: Json) => FillerIssue(scope, x);
      GatherMember(fillers.items, f, |fillers.items|, UnknownFiller(scope, g));
      if g in fillers.items && g.Str? && g.s !in GenreKeys {
        var j :| 0 <= j < |fillers.items| && fillers.items[j] == g;
        assert UnknownFiller(scope, g) in f(j, fillers.items[j]);
      }
    }
  }

  /** Non-string fillers give the one type issue, exactly when there is one. */
  lemma FillerTypeReported(scope: Scope, fillers: Json)
    ensures FillerNotString(scope) in FillersStructure(scope, fillers) <==>
              fillers.Array? && exists j :: 0 <= j < |fillers.items| && !fillers.items[j].Str?
  {
    if fillers.Array? {
      var f := (j: nat, x: Json) => FillerIssue(scope, x);
      GatherMember(fillers.items, f, |fillers.items|, FillerNotString(scope));
    }
  }

  // ---------------------------------------------------------------------
  // Acceptance: the structure layer reports nothing exactly on the schema

  lemma CriterionKeysPresent(obj: map<string, Json>)
    ensures HasKeys(obj, CriterionKeys) <==> "category" in obj && "values" in obj && "forbidden" in obj
  {
    assert CriterionKeys[0] == "category" && CriterionKeys[1] == "values" && CriterionKeys[2] == "forbidden";
  }

  lemma BlockKeysPresent(obj: map<string, Json>)
    ensures HasKeys(obj, BlockKeys) <==>
              "criteria" in obj && "begin" in obj && "end" in obj
              && "slot_count" in obj && "slot_format" in obj && "shows" in obj
  {
    assert BlockKeys[0] == "criteria" && BlockKeys[1] == "begin" && BlockKeys[2] == "end";
    assert BlockKeys[3] == "slot_count" && BlockKeys[4] == "slot_format" && BlockKeys[5] == "shows";
  }

  lemma ChannelKeysPresent(obj: map<string, Json>)
    ensures HasKeys(obj, ChannelKeys) <==>
              "name" in obj && "description" in obj && "begin" in obj
              && "end" in obj && "fillers" in obj && "blocks" in obj
  {
    assert ChannelKeys[0] == "name" && ChannelKeys[1] == "description" && ChannelKeys[2] == "begin";
    assert ChannelKeys[3] == "end" && ChannelKeys[4] == "fillers" && ChannelKeys[5] == "blocks";
  }

  lemma CatalogKeysPresent(obj: map<string, Json>)
    ensures HasKeys(obj, CatalogKeys) <==> "name" in obj && "step" in obj && "channels" in obj
  {
    assert CatalogKeys[0] == "name" && CatalogKeys[1] == "step" && CatalogKeys[2] == "channels";
  }

  lemma CriterionStructureEmpty(crit: map<string, Json>, scope: Scope)
    ensures CriterionStructure(crit, scope) == [] <==> WellTypedCriterion(crit)
  {
    MissingKeysNone(scope, crit, CriterionKeys);
    CriterionKeysPresent(crit);
  }

  lemma SlotFormatStructureEmpty(scope: Scope, sf: Json)
    ensures SlotFormatStructure(scope, sf) == [] <==> WellTypedSlotFormat(sf)
  {
    if sf.Object? {
      GatherEmpty(SlotFormatKeys, (j: nat, key: string) => SlotFormatKeyIssue(scope, sf.fields, key), |SlotFormatKeys|);
      assert SlotFormatKeys[0] == "show_min_duration" && SlotFormatKeys[1] == "show_max_duration";
      assert SlotFormatKeys[2] == "slot_duration";
    }
  }

  lemma CriterionEntryEmpty(scope: Scope, k: nat, crit: Json)
    ensures CriterionEntry(scope, k, crit) == [] <==> crit.Object? && WellTypedCriterion(crit.fields)
  {
    if crit.Object? {
      CriterionStructureEmpty(crit.fields, CriterionScope(scope, k));
    }
  }

  lemma CriteriaStructureEmpty(scope: Scope, criteria: Json)
    ensures CriteriaStructure(scope, criteria) == [] <==> WellTypedCriteria(criteria)
  {
    if IsNonEmptyList(criteria) {
      var xs := criteria.items;
      GatherEmpty(xs, (k: nat, c: Json) => CriterionEntry(scope, k, c), |xs|);
      forall k | 0 <= k < |xs|
        ensures CriterionEntry(scope, k, xs[k]) == [] <==> xs[k].Object? && WellTypedCriterion(xs[k].fields)
      {
        CriterionEntryEmpty(scope, k, xs[k]);
      }
    }
  }

  lemma TimeTypesEmpty(scope: Scope, obj: map<string, Json>)
    ensures TimeTypeIssues(scope, obj, |TimeKeys|) == [] <==>
              ("begin" in obj ==> IsNumber(obj["begin"])) && ("end" in obj ==> IsNumber(obj["end"]))
  {
    GatherEmpty(TimeKeys, (j: nat, key: string) => TimeTypeIssue(scope, obj, key), |TimeKeys|);
    assert TimeKeys[0] == "begin" && TimeKeys[1] == "end";
  }

  lemma BlockStructureEmpty(block: map<string, Json>, scope: Scope)
    ensures BlockStructure(block, scope) == [] <==> WellTypedBlock(block)
  {
    MissingKeysNone(scope, block, BlockKeys);
    BlockKeysPresent(block);
    TimeTypesEmpty(scope, block);
    SlotFormatStructureEmpty(scope, GetOr(block, "slot_format", Null));
    CriteriaStructureEmpty(scope, GetOr(block, "criteria", Null));
  }

  lemma BlockEntryEmpty(scope: Scope, j: nat, block: Json)
    ensures BlockEntry(scope, j, block) == [] <==> block.Object? && WellTypedBlock(block.fields)
  {
    if block.Object? {
      BlockStructureEmpty(block.fields, BlockScope(scope, j));
    }
  }

  lemma FillersStructureEmpty(scope: Scope, fillers: Json)
    ensures FillersStructure(scope, fillers) == [] <==> WellTypedFillers(fillers)
  {
    if fillers.Array? {
      GatherEmpty(fillers.items, (j: nat, g: Json) => FillerIssue(scope, g), |fillers.items|);
    }
  }

  lemma BlocksStructureEmpty(scope: Scope, blocks: Json)
    ensures BlocksStructure(scope, blocks) == [] <==> WellTypedBlocks(blocks)
  {
    if IsNonEmptyList(blocks) {
      var xs := blocks.items;
      var good := (b: Json) => b.Object? && WellTypedBlock(b.fields);
      forall j | 0 <= j < |xs|
        ensures BlockEntry(scope, j, xs[j]) == [] <==> good(xs[j])
      {
        BlockEntryEmpty(scope, j, xs[j]);
      }
      GatherEmptyIff(xs, (j: nat, b: Json) => BlockEntry(scope, j, b), good);
    }
  }

  lemma ChannelStructureEmpty(channel: map<string, Json>, idx: nat)
    ensures ChannelStructure(channel, idx) == [] <==> WellTypedChannel(channel)
  {
    var p := ChannelPrefix(channel, idx);
    MissingKeysNone(p, channel, ChannelKeys);
    ChannelKeysPresent(channel);
    TimeTypesEmpty(p, channel);
    FillersStructureEmpty(p, GetOr(channel, "fillers", Null));
    BlocksStructureEmpty(p, GetOr(channel, "blocks", Null));
  }

  lemma ChannelEntryEmpty(i: nat, channel: Json)
    ensures ChannelEntry(i, channel) == [] <==> channel.Object? && WellTypedChannel(channel.fields)
  {
    if channel.Object? {
      ChannelStructureEmpty(channel.fields, i);
    }
  }

  lemma ChannelEntriesEmpty(xs: seq<Json>)
    ensures ChannelEntries(xs, |xs|) == [] <==>
              forall i :: 0 <= i < |xs| ==> xs[i].Object? && WellTypedChannel(xs[i].fields)
  {
    GatherEmpty(xs, (i: nat, ch: Json) => ChannelEntry(i, ch), |xs|);
    forall i | 0 <= i < |xs|
      ensures ChannelEntry(i, xs[i]) == [] <==> xs[i].Object? && WellTypedChannel(xs[i].fields)
    {
      ChannelEntryEmpty(i, xs[i]);
    }
  }

  /** The structure layer accepts a catalog exactly when it matches the schema. */
  lemma CatalogStructureEmpty(catalog: map<string, Json>)
    ensures CatalogStructure(catalog) == [] <==> WellTypedCatalog(catalog)
  {
    MissingKeysNone(CatalogScope, catalog, CatalogKeys);
    CatalogKeysPresent(catalog);
    var channels := GetOr(catalog, "channels", Null);
    if channels.Array? {
      ChannelEntriesEmpty(channels.items);
    }
  }

  // ---------------------------------------------------------------------
  // Attribution: every issue of channel `i` carries channel `i`'s prefix

  function RootChannel(s: Scope): Option<nat>
  {
    match s
    case CatalogScope => None
    case ChannelScope(i, _) => Some(i)
    case BlockScope(c, _) => RootChannel(c)
    case CriterionScope(b, _) => RootChannel(b)
  }

  /** Every issue but the two catalog-level ones carries a prefix. */
  predicate HasScope(u: Issue)
  {
    !u.ChannelsNotList? && !u.ChannelNotObject?
  }

  /** The channel an issue is about, if any. */
  function ChannelOf(u: Issue): Option<nat>
  {
    if u.ChannelNotObject? then Some(u.index)
    else if u.ChannelsNotList? then None
    else RootChannel(u.scope)
  }

  lemma {:induction false} MissingKeysScoped(scope: Scope, obj: map<string, Json>, keys: seq<string>, n: nat, u: Issue)
    requires n <= |keys|
    requires u in MissingKeys(scope, obj, keys, n)
    ensures u.MissingKey? && u.scope == scope
    decreases n
  {
    if u !in MissingKeys(scope, obj, keys, n - 1) {
      assert u in MissingKeyIssue(scope, obj, keys[n - 1]);
    } else {
      MissingKeysScoped(scope, obj, keys, n - 1, u);
    }
  }

  lemma TimeTypesScoped(scope: Scope, obj: map<string, Json>, u: Issue)
    requires u in TimeTypeIssues(scope, obj, |TimeKeys|)
    ensures u.NotANumber? && u.scope == scope
  {
    GatherMember(TimeKeys, (j: nat, key: string) => TimeTypeIssue(scope, obj, key), |TimeKeys|, u);
  }

  lemma CriterionStructureScoped(crit: map<string, Json>, scope: Scope, u: Issue)
    requires u in CriterionStructure(crit, scope)
    ensures HasScope(u) && u.scope == scope
  {
    if u in MissingKeys(scope, crit, CriterionKeys, |CriterionKeys|) {
      MissingKeysScoped(scope, crit, CriterionKeys, |CriterionKeys|, u);
    }
  }

  lemma CriterionEntriesScoped(scope: Scope, criteria: seq<Json>, u: Issue)
    requires u in CriterionEntries(scope, criteria, |criteria|)
    ensures HasScope(u) && RootChannel(u.scope) == RootChannel(scope)
  {
    var f := (k: nat, c: Json) => CriterionEntry(scope, k, c);
    GatherMember(criteria, f, |criteria|, u);
    var k :| 0 <= k < |criteria| && u in f(k, criteria[k]);
    if criteria[k].Object? {
      CriterionStructureScoped(criteria[k].fields, CriterionScope(scope, k), u);
    }
  }

  lemma SlotFormatScoped(scope: Scope, sf: Json, u: Issue)
    requires u in SlotFormatStructure(scope, sf)
    ensures HasScope(u) && u.scope == scope
  {
    if sf.Object? {
      GatherMember(SlotFormatKeys, (j: nat, key: string) => SlotFormatKeyIssue(scope, sf.fields, key), |SlotFormatKeys|, u);
    }
  }

  lemma BlockStructureScoped(block: map<string, Json>, scope: Scope, u: Issue)
    requires u in BlockStructure(block, scope)
    ensures HasScope(u) && RootChannel(u.scope) == RootChannel(scope)
  {
    var criteria := GetOr(block, "criteria", Null);
    if u in MissingKeys(scope, block, BlockKeys, |BlockKeys|) {
      MissingKeysScoped(scope, block, BlockKeys, |BlockKeys|, u);
    } else if u in TimeTypeIssues(scope, block, |TimeKeys|) {
      TimeTypesScoped(scope, block, u);
    } else if u in SlotFormatStructure(scope, GetOr(block, "slot_format", Null)) {
      SlotFormatScoped(scope, GetOr(block, "slot_format", Null), u);
    } else if IsNonEmptyList(criteria) && u in CriterionEntries(scope, criteria.items, |criteria.items|) {
      CriterionEntriesScoped(scope, criteria.items, u);
    }
  }

  lemma BlockEntriesScoped(scope: Scope, blocks: seq<Json>, u: Issue)
    requires u in BlockEntries(scope, blocks, |blocks|)
    ensures HasScope(u) && RootChannel(u.scope) == RootChannel(scope)
  {
    var f := (j: nat, b: Json) => BlockEntry(scope, j, b);
    GatherMember(blocks, f, |blocks|, u);
    var j :| 0 <= j < |blocks| && u in f(j, blocks[j]);
    if blocks[j].Object? {
      BlockStructureScoped(blocks[j].fields, BlockScope(scope, j), u);
    }
  }

  lemma FillersScoped(scope: Scope, fillers: Json, u: Issue)
    requires u in FillersStructure(scope, fillers)
    ensures HasScope(u) && u.scope == scope
  {
    if fillers.Array? {
      GatherMember(fillers.items, (j: nat, g: Json) => FillerIssue(scope, g), |fillers.items|, u);
    }
  }

  lemma ChannelStructureScoped(channel: map<string, Json>, i: nat, u: Issue)
    requires u in ChannelStructure(channel, i)
    ensures ChannelOf(u) == Some(i)
  {
    var p := ChannelPrefix(channel, i);
    var blocks := GetOr(channel, "blocks", Null);
    if u in MissingKeys(p, channel, ChannelKeys, |ChannelKeys|) {
      MissingKeysScoped(p, channel, ChannelKeys, |ChannelKeys|, u);
    } else if u in TimeTypeIssues(p, channel, |TimeKeys|) {
      TimeTypesScoped(p, channel, u);
    } else if u in FillersStructure(p, GetOr(channel, "fillers", Null)) {
      FillersScoped(p, GetOr(channel, "fillers", Null), u);
    } else if IsNonEmptyList(blocks) && u in BlockEntries(p, blocks.items, |blocks.items|) {
      BlockEntriesScoped(p, blocks.items, u);
    }
  }

  /** Each issue reported for channel entry `i` is about channel `i`. */
  lemma ChannelIssuesScoped(i: nat, channel: Json, u: Issue)
    requires u in ChannelEntry(i, channel)
    ensures ChannelOf(u) == Some(i)
  {
    if channel.Object? {
      ChannelStructureScoped(channel.fields, i, u);
    }
  }
}
