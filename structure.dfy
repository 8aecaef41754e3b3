/** The structure layer (validate_json_structure.py): required keys and value
    types at the catalog, channel, block and criterion levels. It never raises
    on a dict catalog. Each `validate_*_structure` is a method whose loops are
    proved to produce the specification function of the same level. */
module StructureValidation {
  import opened JsonValues
  import opened Issues
  import opened Gathering

  /** The normalised genre keys a filler or a genre criterion may name. */
  const GenreKeys: set<string> := {
    "Podcast", "Animation", "Science-Fiction", "Fantastique", "Family", "Horror",
    "Mini-Series", "Documentaire", "Histoire", "Action", "Aventure", "Crime",
    "War & Politics", "Talk Show", "Comédie", "Jeux télé", "Sport", "Western",
    "Drame", "Martial Arts", "Suspense", "Mystery", "Romance", "YouTube"
  }

  const CatalogKeys: seq<string> := ["name", "step", "channels"]
  const ChannelKeys: seq<string> := ["name", "description", "begin", "end", "fillers", "blocks"]
  const BlockKeys: seq<string> := ["criteria", "begin", "end", "slot_count", "slot_format", "shows"]
  const CriterionKeys: seq<string> := ["category", "values", "forbidden"]
  const TimeKeys: seq<string> := ["begin", "end"]
  const SlotFormatKeys: seq<string> := ["show_min_duration", "show_max_duration", "slot_duration"]

  // ---------------------------------------------------------------------
  // Specification, one function per loop round and per level

  function MissingKeyIssue(scope: Scope, obj: map<string, Json>, key: string): seq<Issue>
  {
    if key in obj then [] else [MissingKey(scope, key)]
  }

  /** `for key in keys[:n]: if key not in obj: errors.append(...)` */
  function MissingKeys(scope: Scope, obj: map<string, Json>, keys: seq<string>, n: nat): seq<Issue>
    requires n <= |keys|
  {
    Gather(keys, (j: nat, key: string) => MissingKeyIssue(scope, obj, key), n)
  }

  function TimeTypeIssue(scope: Scope, obj: map<string, Json>, key: string): seq<Issue>
  {
    if key in obj && !IsNumber(obj[key]) then [NotANumber(scope, key)] else []
  }

  /** `for time_key in ("begin", "end")[:n]: ...` */
  function TimeTypeIssues(scope: Scope, obj: map<string, Json>, n: nat): seq<Issue>
    requires n <= |TimeKeys|
  {
    Gather(TimeKeys, (j: nat, key: string) => TimeTypeIssue(scope, obj, key), n)
  }

  function StringFieldIssue(scope: Scope, obj: map<string, Json>, key: string): seq<Issue>
  {
    if key in obj && !obj[key].Str? then [NotAString(scope, key)] else []
  }

  function FillerIssue(scope: Scope, filler: Json): seq<Issue>
  {
    if !filler.Str? then [FillerNotString(scope)]
    else if filler.s !in GenreKeys then [UnknownFiller(scope, filler)]
    else []
  }

  function FillerIssues(scope: Scope, fillers: seq<Json>, n: nat): seq<Issue>
    requires n <= |fillers|
  {
    Gather(fillers, (j: nat, g: Json) => FillerIssue(scope, g), n)
  }

  /** `fillers = channel.get("fillers")`: nothing is said about an absent or null value. */
  function FillersStructure(scope: Scope, fillers: Json): seq<Issue>
  {
    if fillers == Null then []
    else if !fillers.Array? then [FillersNotList(scope)]
    else FillerIssues(scope, fillers.items, |fillers.items|)
  }

  function SlotFormatKeyIssue(scope: Scope, sf: map<string, Json>, key: string): seq<Issue>
  {
    if key !in sf then [SlotFormatKeyMissing(scope, key)]
    else if !IsNumber(sf[key]) then [SlotFormatKeyNotNumber(scope, key)]
    else []
  }

  function SlotFormatKeyIssues(scope: Scope, sf: map<string, Json>, n: nat): seq<Issue>
    requires n <= |SlotFormatKeys|
  {
    Gather(SlotFormatKeys, (j: nat, key: string) => SlotFormatKeyIssue(scope, sf, key), n)
  }

  function SlotFormatStructure(scope: Scope, sf: Json): seq<Issue>
  {
    if sf == Null then []
    else if !sf.Object? then [SlotFormatNotObject(scope)]
    else SlotFormatKeyIssues(scope, sf.fields, |SlotFormatKeys|)
  }

  function CriterionStructure(crit: map<string, Json>, scope: Scope): seq<Issue>
  {
    MissingKeys(scope, crit, CriterionKeys, |CriterionKeys|)
    + StringFieldIssue(scope, crit, "category")
    + (if "values" in crit && !IsNonEmptyList(crit["values"]) then [ValuesNotNonEmptyList(scope)] else [])
    + (if "forbidden" in crit && !crit["forbidden"].Bool? then [ForbiddenNotBool(scope)] else [])
  }

  function CriterionEntry(scope: Scope, k: nat, crit: Json): seq<Issue>
  {
    if !crit.Object? then [NotAnObject(CriterionScope(scope, k))]
    else CriterionStructure(crit.fields, CriterionScope(scope, k))
  }

  function CriterionEntries(scope: Scope, criteria: seq<Json>, n: nat): seq<Issue>
    requires n <= |criteria|
  {
    Gather(criteria, (k: nat, c: Json) => CriterionEntry(scope, k, c), n)
  }

  function CriteriaStructure(scope: Scope, criteria: Json): seq<Issue>
  {
    if criteria == Null then []
    else if !IsNonEmptyList(criteria) then [CriteriaNotNonEmptyList(scope)]
    else CriterionEntries(scope, criteria.items, |criteria.items|)
  }

  function ShowsIssue(scope: Scope, shows: Json): seq<Issue>
  {
    if shows != Null && !shows.Array? then [ShowsNotList(scope)] else []
  }

  function BlockStructure(block: map<string, Json>, scope: Scope): seq<Issue>
  {
    MissingKeys(scope, block, BlockKeys, |BlockKeys|)
    + TimeTypeIssues(scope, block, |TimeKeys|)
    + (if "slot_count" in block && !IsInteger(block["slot_count"]) then [SlotCountNotInteger(scope)] else [])
    + SlotFormatStructure(scope, GetOr(block, "slot_format", Null))
    + CriteriaStructure(scope, GetOr(block, "criteria", Null))
    + ShowsIssue(scope, GetOr(block, "shows", Null))
  }

  function BlockEntry(scope: Scope, j: nat, block: Json): seq<Issue>
  {
    if !block.Object? then [NotAnObject(BlockScope(scope, j))]
    else BlockStructure(block.fields, BlockScope(scope, j))
  }

  function BlockEntries(scope: Scope, blocks: seq<Json>, n: nat): seq<Issue>
    requires n <= |blocks|
  {
    Gather(blocks, (j: nat, b: Json) => BlockEntry(scope, j, b), n)
  }

  function BlocksStructure(scope: Scope, blocks: Json): seq<Issue>
  {
    if blocks == Null then []
    else if !IsNonEmptyList(blocks) then [BlocksNotNonEmptyList(scope)]
    else BlockEntries(scope, blocks.items, |blocks.items|)
  }

  /** The prefix `[channel#idx:name]`, with `?` for a channel without a name. */
  function ChannelPrefix(channel: map<string, Json>, idx: nat): Scope
  {
    ChannelScope(idx, GetOr(channel, "name", Str("?")))
  }

  function ChannelStructure(channel: map<string, Json>, idx: nat): seq<Issue>
  {
    ChannelBody(channel, ChannelPrefix(channel, idx))
  }

  function ChannelBody(channel: map<string, Json>, p: Scope): seq<Issue>
  {
    MissingKeys(p, channel, ChannelKeys, |ChannelKeys|)
    + StringFieldIssue(p, channel, "name")
    + StringFieldIssue(p, channel, "description")
    + TimeTypeIssues(p, channel, |TimeKeys|)
    + FillersStructure(p, GetOr(channel, "fillers", Null))
    + BlocksStructure(p, GetOr(channel, "blocks", Null))
  }

  function ChannelEntry(i: nat, channel: Json): seq<Issue>
  {
    if !channel.Object? then [ChannelNotObject(i)] else ChannelStructure(channel.fields, i)
  }

  function ChannelEntries(channels: seq<Json>, n: nat): seq<Issue>
    requires n <= |channels|
  {
    Gather(channels, (i: nat, ch: Json) => ChannelEntry(i, ch), n)
  }

  function ChannelsTypeIssue(channels: Json): seq<Issue>
  {
    if channels != Null && !channels.Array? then [ChannelsNotList] else []
  }

  function CatalogStructure(catalog: map<string, Json>): seq<Issue>
  {
    var channels := GetOr(catalog, "channels", Null);
    MissingKeys(CatalogScope, catalog, CatalogKeys, |CatalogKeys|)
    + ChannelsTypeIssue(channels)
    + (if channels.Array? then ChannelEntries(channels.items, |channels.items|) else [])
  }

  // ---------------------------------------------------------------------
  // The validator as the source writes it: loops appending to `errors`

  method CheckRequiredKeys(scope: Scope, obj: map<string, Json>, keys: seq<string>) returns (errors: seq<Issue>)
    ensures errors == MissingKeys(scope, obj, keys, |keys|)
  {
    errors := [];
    for i := 0 to |keys|
      invariant errors == MissingKeys(scope, obj, keys, i)
    {
      if keys[i] !in obj {
        errors := errors + [MissingKey(scope, keys[i])];
      }
    }
  }

  method CheckTimeTypes(scope: Scope, obj: map<string, Json>) returns (errors: seq<Issue>)
    ensures errors == TimeTypeIssues(scope, obj, |TimeKeys|)
  {
    errors := [];
    for i := 0 to |TimeKeys|
      invariant errors == TimeTypeIssues(scope, obj, i)
    {
      var key := TimeKeys[i];
      if key in obj && !IsNumber(obj[key]) {
        errors := errors + [NotANumber(scope, key)];
      }
    }
  }

  method ValidateCatalogStructure(catalog: map<string, Json>) returns (errors: seq<Issue>)
    ensures errors == CatalogStructure(catalog)
  {
    errors := CheckRequiredKeys(CatalogScope, catalog, CatalogKeys);
    var channels := GetOr(catalog, "channels", Null);
    if channels != Null && !channels.Array? {
      errors := errors + [ChannelsNotList];
    }
    if channels.Array? {
      var more := CheckChannelEntries(channels.items);
      errors := errors + more;
    }
  }

  method CheckChannelEntries(channels: seq<Json>) returns (errors: seq<Issue>)
    ensures errors == ChannelEntries(channels, |channels|)
  {
    errors := [];
    for i := 0 to |channels|
      invariant errors == ChannelEntries(channels, i)
    {
      var channel := channels[i];
      assert ChannelEntries(channels, i + 1) == errors + ChannelEntry(i, channel);
      if !channel.Object? {
        errors := errors + [ChannelNotObject(i)];
        continue;
      }
      var more := ValidateChannelStructure(channel.fields, i);
      errors := errors + more;
    }
  }

  method ValidateChannelStructure(channel: map<string, Json>, idx: nat) returns (errors: seq<Issue>)
    ensures errors == ChannelStructure(channel, idx)
  {
    var prefix := ChannelScope(idx, GetOr(channel, "name", Str("?")));
    errors := CheckRequiredKeys(prefix, channel, ChannelKeys);
    if "name" in channel && !channel["name"].Str? {
      errors := errors + [NotAString(prefix, "name")];
    }
    if "description" in channel && !channel["description"].Str? {
      errors := errors + [NotAString(prefix, "description")];
    }
    assert prefix == ChannelPrefix(channel, idx);
    assert errors == MissingKeys(prefix, channel, ChannelKeys, |ChannelKeys|)
      + StringFieldIssue(prefix, channel, "name") + StringFieldIssue(prefix, channel, "description");
    var timeErrors := CheckTimeTypes(prefix, channel);
    errors := errors + timeErrors;
    var fillerErrors := CheckFillersField(prefix, GetOr(channel, "fillers", Null));
    errors := errors + fillerErrors;
    var blockErrors := CheckBlocksField(prefix, GetOr(channel, "blocks", Null));
    errors := errors + blockErrors;
  }

  /** `fillers = channel.get("fillers")` and what follows it. */
  method CheckFillersField(prefix: Scope, fillers: Json) returns (errors: seq<Issue>)
    ensures errors == FillersStructure(prefix, fillers)
  {
    errors := [];
    if fillers != Null {
      if !fillers.Array? {
        errors := [FillersNotList(prefix)];
      } else {
        errors := CheckFillers(prefix, fillers.items);
      }
    }
  }

  /** `blocks = channel.get("blocks")` and what follows it. */
  method CheckBlocksField(prefix: Scope, blocks: Json) returns (errors: seq<Issue>)
    ensures errors == BlocksStructure(prefix, blocks)
  {
    errors := [];
    if blocks != Null {
      if !IsNonEmptyList(blocks) {
        errors := [BlocksNotNonEmptyList(prefix)];
      } else {
        errors := CheckBlockEntries(prefix, blocks.items);
      }
    }
  }

  method CheckFillers(prefix: Scope, fillers: seq<Json>) returns (errors: seq<Issue>)
    ensures errors == FillerIssues(prefix, fillers, |fillers|)
  {
    errors := [];
    for j := 0 to |fillers|
      invariant errors == FillerIssues(prefix, fillers, j)
    {
      var filler := fillers[j];
      if !filler.Str? {
        errors := errors + [FillerNotString(prefix)];
      } else if filler.s !in GenreKeys {
        errors := errors + [UnknownFiller(prefix, filler)];
      }
    }
  }

  method CheckBlockEntries(prefix: Scope, blocks: seq<Json>) returns (errors: seq<Issue>)
    ensures errors == BlockEntries(prefix, blocks, |blocks|)
  {
    errors := [];
    for j := 0 to |blocks|
      invariant errors == BlockEntries(prefix, blocks, j)
    {
      var block := blocks[j];
      if !block.Object? {
        errors := errors + [NotAnObject(BlockScope(prefix, j))];
        continue;
      }
      var more := ValidateBlockStructure(block.fields, BlockScope(prefix, j));
      errors := errors + more;
    }
  }

  method ValidateBlockStructure(block: map<string, Json>, prefix: Scope) returns (errors: seq<Issue>)
    ensures errors == BlockStructure(block, prefix)
  {
    errors := CheckRequiredKeys(prefix, block, BlockKeys);
    var timeErrors := CheckTimeTypes(prefix, block);
    errors := errors + timeErrors;
    if "slot_count" in block && !IsInteger(block["slot_count"]) {
      errors := errors + [SlotCountNotInteger(prefix)];
    }
    ghost var head := MissingKeys(prefix, block, BlockKeys, |BlockKeys|) + TimeTypeIssues(prefix, block, |TimeKeys|)
      + (if "slot_count" in block && !IsInteger(block["slot_count"]) then [SlotCountNotInteger(prefix)] else []);
    assert errors == head;
    var formatErrors := CheckSlotFormatField(prefix, GetOr(block, "slot_format", Null));
    errors := errors + formatErrors;
    var criteriaErrors := CheckCriteriaField(prefix, GetOr(block, "criteria", Null));
    errors := errors + criteriaErrors;
    assert errors == head + formatErrors + criteriaErrors;
    var shows := GetOr(block, "shows", Null);
    if shows != Null && !shows.Array? {
      errors := errors + [ShowsNotList(prefix)];
    }
  }

  /** `sf = block.get("slot_format")` and what follows it. */
  method CheckSlotFormatField(prefix: Scope, sf: Json) returns (errors: seq<Issue>)
    ensures errors == SlotFormatStructure(prefix, sf)
  {
    errors := [];
    if sf != Null {
      if !sf.Object? {
        errors := [SlotFormatNotObject(prefix)];
      } else {
        errors := CheckSlotFormatKeys(prefix, sf.fields);
      }
    }
  }

  /** `criteria = block.get("criteria")` and what follows it. */
  method CheckCriteriaField(prefix: Scope, criteria: Json) returns (errors: seq<Issue>)
    ensures errors == CriteriaStructure(prefix, criteria)
  {
    errors := [];
    if criteria != Null {
      if !IsNonEmptyList(criteria) {
        errors := [CriteriaNotNonEmptyList(prefix)];
      } else {
        errors := CheckCriterionEntries(prefix, criteria.items);
      }
    }
  }

  method CheckSlotFormatKeys(prefix: Scope, sf: map<string, Json>) returns (errors: seq<Issue>)
    ensures errors == SlotFormatKeyIssues(prefix, sf, |SlotFormatKeys|)
  {
    errors := [];
    for i := 0 to |SlotFormatKeys|
      invariant errors == SlotFormatKeyIssues(prefix, sf, i)
    {
      var key := SlotFormatKeys[i];
      if key !in sf {
        errors := errors + [SlotFormatKeyMissing(prefix, key)];
      } else if !IsNumber(sf[key]) {
        errors := errors + [SlotFormatKeyNotNumber(prefix, key)];
      }
    }
  }

  method CheckCriterionEntries(prefix: Scope, criteria: seq<Json>) returns (errors: seq<Issue>)
    ensures errors == CriterionEntries(prefix, criteria, |criteria|)
  {
    errors := [];
    for k := 0 to |criteria|
      invariant errors == CriterionEntries(prefix, criteria, k)
    {
      var crit := criteria[k];
      if !crit.Object? {
        errors := errors + [NotAnObject(CriterionScope(prefix, k))];
        continue;
      }
      var more := ValidateCriterionStructure(crit.fields, CriterionScope(prefix, k));
      errors := errors + more;
    }
  }

  method ValidateCriterionStructure(crit: map<string, Json>, prefix: Scope) returns (errors: seq<Issue>)
    ensures errors == CriterionStructure(crit, prefix)
  {
    errors := CheckRequiredKeys(prefix, crit, CriterionKeys);
    if "category" in crit && !crit["category"].Str? {
      errors := errors + [NotAString(prefix, "category")];
    }
    if "values" in crit {
      var values := crit["values"];
      if !IsNonEmptyList(values) {
        errors := errors + [ValuesNotNonEmptyList(prefix)];
      }
    }
    if "forbidden" in crit && !crit["forbidden"].Bool? {
      errors := errors + [ForbiddenNotBool(prefix)];
    }
  }
}
