/** The older standalone validator (catalog_validation.py): one pass over a
    dict catalog that checks the top-level keys, then every channel, its
    sorted blocks and their criteria. It shares the rule set of the
    business-rule layer but not its guards: a non-dict channel or criterion,
    a block without `end` and a non-numeric `slot_duration` raise instead of
    being skipped, a window that is not numeric is reported, and a block
    without `begin` stops the channel. */
module LegacyValidation {
  import opened JsonValues
  import opened Issues
  import opened Gathering
  import opened Sorting
  import opened StructureValidation
  import opened RulesValidation

  /** `GENRES_NORMALISES`: each normalised genre key with the aliases it stands for. */
  const GenresNormalises: map<string, seq<string>> := map[
    "Podcast" := ["Podcast"],
    "Animation" := ["Animation", "Anime"],
    "Science-Fiction" := ["Science-Fiction", "Science Fiction", "Science-Fiction & Fantastique"],
    "Fantastique" := ["Fantastique", "Fantasy", "Science-Fiction & Fantastique"],
    "Family" := ["Family", "Familial", "Children"],
    "Horror" := ["Horror", "Horreur"],
    "Mini-Series" := ["Mini-Series"],
    "Documentaire" := ["Documentaire", "Vulgarisation"],
    "Histoire" := ["Histoire", "History"],
    "Action" := ["Action", "Action & Adventure"],
    "Aventure" := ["Aventure", "Adventure", "Action & Adventure"],
    "Crime" := ["Crime"],
    "War & Politics" := ["War & Politics", "Guerre"],
    "Talk Show" := ["Talk Show"],
    "Comédie" := ["Comédie", "Comedy"],
    "Jeux télé" := ["Jeux télé"],
    "Sport" := ["Sport"],
    "Western" := ["Western"],
    "Drame" := ["Drame", "Drama"],
    "Martial Arts" := ["Martial Arts"],
    "Suspense" := ["Suspense", "Thriller"],
    "Mystery" := ["Mystery", "Mystère"],
    "Romance" := ["Romance"],
    "YouTube" := ["YouTube"]
  ]

  // ---------------------------------------------------------------------
  // Specification

  /** `validate_catalog_struct`: the three keys, then the type of `channels`
      (a `null` one included); it does not look inside the channels. */
  function CatalogStruct(catalog: map<string, Json>): seq<Issue>
  {
    MissingKeys(CatalogScope, catalog, CatalogKeys, |CatalogKeys|)
    + (if "channels" in catalog && !catalog["channels"].Array? then [ChannelsNotList] else [])
  }

  /** The `try` around the two `float()` calls of a window: a failure is
      reported and leaves `begin` and `end` unknown. */
  function LegacyWindowIssues(scope: Scope, obj: map<string, Json>): seq<Issue>
  {
    if Window(obj).None? then [BeginEndNotNumeric(scope)] else WindowIssues(scope, Window(obj))
  }

  function FillersPart(scope: Scope, fillers: Json): Outcome
  {
    if fillers.Array? then FillerRules(scope, fillers.items, |fillers.items|)
    else Report([FillersNotList(scope)])
  }

  /** What `validate_channel` checks before it looks at the blocks. */
  function LegacyChannelHead(channel: map<string, Json>, scope: Scope): Outcome
  {
    Then(Report(MissingKeys(scope, channel, ChannelKeys, |ChannelKeys|) + LegacyWindowIssues(scope, channel)),
         FillersPart(scope, GetOr(channel, "fillers", Array([]))))
  }

  /** What `float(b[key])` raises, if anything. */
  function FieldFault(b: Json, key: string): Option<Fault>
  {
    if !b.Object? then Some(NotADict(b))
    else if key !in b.fields then Some(MissingField(key))
    else if !IsNumber(b.fields[key]) then Some(NotNumeric(b.fields[key]))
    else None
  }

  /** `float(b[key])` where it does not raise. */
  function FieldHours(b: Json, key: string): real
    requires FieldFault(b, key).None?
  {
    NumericValue(b.fields[key])
  }

  /** `sorted(blocks, key=lambda b: float(b["begin"]))` completes. */
  predicate LegacySortable(blocks: seq<Json>)
  {
    forall j :: 0 <= j < |blocks| ==> FieldFault(blocks[j], "begin").None?
  }

  /** Round `i` of the pair loop; nothing in it is inside a `try`. */
  function LegacyPairRule(scope: Scope, i: nat, pair: (Json, Json)): Outcome
  {
    var e := FieldFault(pair.0, "end");
    var b := FieldFault(pair.1, "begin");
    if e.Some? then Raised(e.value)
    else if b.Some? then Raised(b.value)
    else Report(PairIssues(scope, i, FieldHours(pair.0, "end"), FieldHours(pair.1, "begin")))
  }

  function LegacyPairRules(scope: Scope, sorted: seq<Json>, n: nat): Outcome
    requires n <= |Pairs(sorted)|
  {
    GatherOutcome(Pairs(sorted), (i: nat, pr: (Json, Json)) => LegacyPairRule(scope, i, pr), n)
  }

  /** Round `j` of the range loop; nothing in it is inside a `try` either. */
  function LegacyRangeRule(scope: Scope, begin: real, end: real, j: nat, b: Json): Outcome
  {
    var fb := FieldFault(b, "begin");
    var fe := FieldFault(b, "end");
    if fb.Some? then Raised(fb.value)
    else if fe.Some? then Raised(fe.value)
    else
      var bb := FieldHours(b, "begin");
      var be := FieldHours(b, "end");
      Report(if bb < begin - Tolerance || be > end + Tolerance then [OutOfRange(scope, j, bb, be, begin, end)] else [])
  }

  function LegacyRangeRules(scope: Scope, begin: real, end: real, sorted: seq<Json>, n: nat): Outcome
    requires n <= |sorted|
  {
    GatherOutcome(sorted, (j: nat, b: Json) => LegacyRangeRule(scope, begin, end, j, b), n)
  }

  /** The checks run when the channel window is known: first and last block,
      consecutive pairs, then every block against the window. */
  function LegacyTemporal(scope: Scope, begin: real, end: real, sorted: seq<Json>): Outcome
    requires |sorted| > 0
  {
    var first := sorted[0];
    var last := sorted[|sorted| - 1];
    if FieldFault(first, "begin").Some? then Raised(FieldFault(first, "begin").value)
    else if FieldFault(last, "end").Some? then Raised(FieldFault(last, "end").value)
    else Then(Report(BoundaryIssues(scope, begin, end, FieldHours(first, "begin"), FieldHours(last, "end"))),
              Then(LegacyPairRules(scope, sorted, |sorted| - 1),
                   LegacyRangeRules(scope, begin, end, sorted, |sorted|)))
  }

  /** `(sf.get("slot_duration", 0) * slot_count) / 60.0` with no `float()` and
      no `try`: a non-numeric slot duration raises. */
  function LegacyDuration(scope: Scope, w: Option<(real, real)>, count: Json, sf: Json): Outcome
  {
    if sf.Object? && w.Some? && IsInteger(count) then
      var d := GetOr(sf.fields, "slot_duration", Int(0));
      if !IsNumber(d) then Raised(NotNumeric(d))
      else
        var expected := SlotHours(NumericValue(d), NumericValue(count));
        var actual := w.value.1 - w.value.0;
        Report(if !AlmostEqual(expected, actual) then [DurationMismatch(scope, actual, expected)] else [])
    else Report([])
  }

  /** `validate_criterion(crit, ...)`: the first `crit.get` raises on a non-dict. */
  function LegacyCriterionEntry(scope: Scope, k: nat, crit: Json): Outcome
  {
    if crit.Object? then CriterionRules(crit.fields, CriterionScope(scope, k)) else Raised(NotADict(crit))
  }

  function LegacyCriterionEntries(scope: Scope, criteria: seq<Json>, n: nat): Outcome
    requires n <= |criteria|
  {
    GatherOutcome(criteria, (k: nat, c: Json) => LegacyCriterionEntry(scope, k, c), n)
  }

  function LegacyCriteria(scope: Scope, criteria: Json): Outcome
  {
    if !IsNonEmptyList(criteria) then Report([CriteriaRequired(scope)])
    else LegacyCriterionEntries(scope, criteria.items, |criteria.items|)
  }

  /** A missing `shows` and one that is not a list (`null` included). */
  function LegacyShowsIssue(scope: Scope, block: map<string, Json>): seq<Issue>
  {
    if "shows" !in block then [ShowsMissing(scope)]
    else if !block["shows"].Array? then [ShowsNotList(scope)]
    else []
  }

  function LegacyBlockHead(block: map<string, Json>, scope: Scope): seq<Issue>
  {
    var count := GetOr(block, "slot_count", Null);
    var sf := GetOr(block, "slot_format", Object(map[]));
    MissingKeys(scope, block, BlockKeys, |BlockKeys|)
    + LegacyWindowIssues(scope, block)
    + (if !(EqualsInt(count, 1) || EqualsInt(count, 2)) then [SlotCountNotOneOrTwo(scope, count)] else [])
    + (if !sf.Object? || !IsAllowedSlotFormat(sf.fields) then [SlotFormatNotAllowed(scope, sf)] else [])
  }

  function LegacyBlock(block: map<string, Json>, scope: Scope): Outcome
  {
    var count := GetOr(block, "slot_count", Null);
    var sf := GetOr(block, "slot_format", Object(map[]));
    Then(Report(LegacyBlockHead(block, scope)),
         Then(LegacyDuration(scope, Window(block), count, sf),
              Then(LegacyCriteria(scope, GetOr(block, "criteria", Array([]))),
                   Report(LegacyShowsIssue(scope, block)))))
  }

  /** `validate_block(b, ...)`: `block.get` raises on a non-dict. */
  function LegacyBlockEntry(scope: Scope, j: nat, b: Json): Outcome
  {
    if b.Object? then LegacyBlock(b.fields, BlockScope(scope, j)) else Raised(NotADict(b))
  }

  function LegacyBlockEntries(scope: Scope, sorted: seq<Json>, n: nat): Outcome
    requires n <= |sorted|
  {
    GatherOutcome(sorted, (j: nat, b: Json) => LegacyBlockEntry(scope, j, b), n)
  }

  /** The blocks once sorted: continuity when the window is known, then each block. */
  function LegacyChannelBlocks(w: Option<(real, real)>, scope: Scope, blocks: seq<Json>): Outcome
    requires |blocks| > 0
  {
    var sorted := SortByBegin(blocks);
    SortPermutes(blocks, BeginKey);
    Then(if w.Some? then LegacyTemporal(scope, w.value.0, w.value.1, sorted) else Report([]),
         LegacyBlockEntries(scope, sorted, |sorted|))
  }

  /** `validate_channel` on a dict: an empty block list and an unsortable one
      end the channel with one issue. */
  function LegacyChannel(channel: map<string, Json>, idx: nat): Outcome
  {
    var scope := ChannelPrefix(channel, idx);
    var head := LegacyChannelHead(channel, scope);
    var blocks := GetOr(channel, "blocks", Array([]));
    if !IsNonEmptyList(blocks) then Then(head, Report([BlocksNotNonEmptyList(scope)]))
    else if !LegacySortable(blocks.items) then Then(head, Report([BlocksNotSortable(scope)]))
    else Then(head, LegacyChannelBlocks(Window(channel), scope, blocks.items))
  }

  /** `validate_channel(ch, i)`: `channel.get` raises on a non-dict. */
  function LegacyChannelEntry(i: nat, channel: Json): Outcome
  {
    if channel.Object? then LegacyChannel(channel.fields, i) else Raised(NotADict(channel))
  }

  function LegacyChannelEntries(channels: seq<Json>, n: nat): Outcome
    requires n <= |channels|
  {
    GatherOutcome(channels, (i: nat, ch: Json) => LegacyChannelEntry(i, ch), n)
  }

  function LegacyCatalog(catalog: map<string, Json>): Outcome
  {
    var channels := GetOr(catalog, "channels", Array([]));
    Then(Report(CatalogStruct(catalog)),
         if channels.Array? then LegacyChannelEntries(channels.items, |channels.items|) else Report([]))
  }

  // ---------------------------------------------------------------------
  // The validator as the source writes it

  method ValidateCatalog(catalog: map<string, Json>) returns (out: Outcome)
    ensures out == LegacyCatalog(catalog)
  {
    var errors := ValidateCatalogStruct(catalog);
    var channels := GetOr(catalog, "channels", Array([]));
    if channels.Array? {
      var more := CheckChannels(channels.items);
      if more.Raised? {
        return more;
      }
      errors := errors + more.issues;
    }
    out := Report(errors);
  }

  method ValidateCatalogStruct(catalog: map<string, Json>) returns (errors: seq<Issue>)
    ensures errors == CatalogStruct(catalog)
  {
    errors := CheckRequiredKeys(CatalogScope, catalog, CatalogKeys);
    if "channels" in catalog && !catalog["channels"].Array? {
      errors := errors + [ChannelsNotList];
    }
  }

  method CheckChannels(channels: seq<Json>) returns (out: Outcome)
    ensures out == LegacyChannelEntries(channels, |channels|)
  {
    var errors: seq<Issue> := [];
    for i := 0 to |channels|
      invariant LegacyChannelEntries(channels, i) == Report(errors)
    {
      var more := ValidateChannel(channels[i], i);
      if more.Raised? {
        GatherOutcomeRaisedAt(channels, (i: nat, ch: Json) => LegacyChannelEntry(i, ch), i);
        return more;
      }
      errors := errors + more.issues;
    }
    out := Report(errors);
  }

  method ValidateChannel(channel: Json, idx: nat) returns (out: Outcome)
    ensures out == LegacyChannelEntry(idx, channel)
  {
    if !channel.Object? {
      return Raised(NotADict(channel));
    }
    var fields := channel.fields;
    var prefix := ChannelScope(idx, GetOr(fields, "name", Str("?")));
    var head := CheckChannelHead(fields, prefix);
    if head.Raised? {
      return head;
    }
    var errors := head.issues;
    var blocks := GetOr(fields, "blocks", Array([]));
    if !IsNonEmptyList(blocks) {
      return Report(errors + [BlocksNotNonEmptyList(prefix)]);
    }
    var sortable := CanSortByBegin(blocks.items);
    if !sortable {
      return Report(errors + [BlocksNotSortable(prefix)]);
    }
    var rest := CheckSortedBlocks(prefix, Window(fields), blocks.items);
    if rest.Raised? {
      return rest;
    }
    out := Report(errors + rest.issues);
  }

  method CheckChannelHead(channel: map<string, Json>, prefix: Scope) returns (out: Outcome)
    ensures out == LegacyChannelHead(channel, prefix)
  {
    var errors := CheckRequiredKeys(prefix, channel, ChannelKeys);
    var window := CheckWindow(channel, prefix);
    errors := errors + window;
    var fillers := GetOr(channel, "fillers", Array([]));
    if !fillers.Array? {
      return Report(errors + [FillersNotList(prefix)]);
    }
    var more := CheckFillerRules(prefix, fillers.items);
    if more.Raised? {
      return more;
    }
    out := Report(errors + more.issues);
  }

  method CheckWindow(obj: map<string, Json>, prefix: Scope) returns (errors: seq<Issue>)
    ensures errors == LegacyWindowIssues(prefix, obj)
  {
    var begin := ToFloat(GetOr(obj, "begin", Int(0)));
    var end := ToFloat(GetOr(obj, "end", Int(0)));
    if begin.None? || end.None? {
      return [BeginEndNotNumeric(prefix)];
    }
    errors := [];
    if !(begin.value < end.value) {
      errors := [BeginNotBeforeEnd(prefix, begin.value, end.value)];
    }
  }

  /** The sort key of every block, computed until one raises. */
  method CanSortByBegin(blocks: seq<Json>) returns (ok: bool)
    ensures ok == LegacySortable(blocks)
  {
    for j := 0 to |blocks|
      invariant LegacySortable(blocks[..j])
    {
      if FieldFault(blocks[j], "begin").Some? {
        return false;
      }
    }
    assert blocks[..|blocks|] == blocks;
    ok := true;
  }

  method CheckSortedBlocks(prefix: Scope, window: Option<(real, real)>, blocks: seq<Json>) returns (out: Outcome)
    requires |blocks| > 0
    ensures out == LegacyChannelBlocks(window, prefix, blocks)
  {
    var sorted := SortByBegin(blocks);
    SortPermutes(blocks, BeginKey);
    var errors: seq<Issue> := [];
    if window.Some? {
      var temporal := CheckTemporal(prefix, window.value.0, window.value.1, sorted);
      if temporal.Raised? {
        return temporal;
      }
      errors := temporal.issues;
    }
    var more := CheckBlocks(prefix, sorted);
    if more.Raised? {
      return more;
    }
    out := Report(errors + more.issues);
  }

  method CheckTemporal(prefix: Scope, begin: real, end: real, sorted: seq<Json>) returns (out: Outcome)
    requires |sorted| > 0
    ensures out == LegacyTemporal(prefix, begin, end, sorted)
  {
    var first := sorted[0];
    var last := sorted[|sorted| - 1];
    if FieldFault(first, "begin").Some? {
      return Raised(FieldFault(first, "begin").value);
    }
    if FieldFault(last, "end").Some? {
      return Raised(FieldFault(last, "end").value);
    }
    var firstBegin := FieldHours(first, "begin");
    var lastEnd := FieldHours(last, "end");
    var errors: seq<Issue> := [];
    if !AlmostEqual(firstBegin, begin) {
      errors := errors + [FirstBlockMisaligned(prefix, begin, firstBegin)];
    }
    if !AlmostEqual(lastEnd, end) {
      errors := errors + [LastBlockMisaligned(prefix, end, lastEnd)];
    }
    assert errors == BoundaryIssues(prefix, begin, end, firstBegin, lastEnd);
    var pairs := CheckPairs(prefix, sorted);
    if pairs.Raised? {
      ThenOfThree(errors, pairs, LegacyRangeRules(prefix, begin, end, sorted, |sorted|));
      return pairs;
    }
    var ranges := CheckRanges(prefix, begin, end, sorted);
    ThenOfThree(errors, pairs, ranges);
    if ranges.Raised? {
      return ranges;
    }
    out := Report(errors + pairs.issues + ranges.issues);
  }

  method CheckPairs(prefix: Scope, sorted: seq<Json>) returns (out: Outcome)
    requires |sorted| > 0
    ensures out == LegacyPairRules(prefix, sorted, |sorted| - 1)
  {
    var errors: seq<Issue> := [];
    for i := 0 to |sorted| - 1
      invariant LegacyPairRules(prefix, sorted, i) == Report(errors)
    {
      assert Pairs(sorted)[i] == (sorted[i], sorted[i + 1]);
      var e := FieldFault(sorted[i], "end");
      var b := FieldFault(sorted[i + 1], "begin");
      if e.Some? || b.Some? {
        GatherOutcomeRaisedAt(Pairs(sorted), (i: nat, pr: (Json, Json)) => LegacyPairRule(prefix, i, pr), i);
        return if e.Some? then Raised(e.value) else Raised(b.value);
      }
      var curEnd := FieldHours(sorted[i], "end");
      var nextBegin := FieldHours(sorted[i + 1], "begin");
      if curEnd > nextBegin + Tolerance {
        errors := errors + [Overlap(prefix, i, curEnd, nextBegin)];
      }
      if !AlmostEqual(curEnd, nextBegin) {
        errors := errors + [Gap(prefix, i, curEnd, nextBegin)];
      }
    }
    out := Report(errors);
  }

  method CheckRanges(prefix: Scope, begin: real, end: real, sorted: seq<Json>) returns (out: Outcome)
    ensures out == LegacyRangeRules(prefix, begin, end, sorted, |sorted|)
  {
    var errors: seq<Issue> := [];
    for j := 0 to |sorted|
      invariant LegacyRangeRules(prefix, begin, end, sorted, j) == Report(errors)
    {
      var b := sorted[j];
      if FieldFault(b, "begin").Some? || FieldFault(b, "end").Some? {
        GatherOutcomeRaisedAt(sorted, (j: nat, b: Json) => LegacyRangeRule(prefix, begin, end, j, b), j);
        return LegacyRangeRule(prefix, begin, end, j, b);
      }
      var blockBegin := FieldHours(b, "begin");
      var blockEnd := FieldHours(b, "end");
      if blockBegin < begin - Tolerance || blockEnd > end + Tolerance {
        errors := errors + [OutOfRange(prefix, j, blockBegin, blockEnd, begin, end)];
      }
    }
    out := Report(errors);
  }

  method CheckBlocks(prefix: Scope, sorted: seq<Json>) returns (out: Outcome)
    ensures out == LegacyBlockEntries(prefix, sorted, |sorted|)
  {
    var errors: seq<Issue> := [];
    for j := 0 to |sorted|
      invariant LegacyBlockEntries(prefix, sorted, j) == Report(errors)
    {
      var more := ValidateBlock(sorted[j], BlockScope(prefix, j));
      if more.Raised? {
        GatherOutcomeRaisedAt(sorted, (j: nat, b: Json) => LegacyBlockEntry(prefix, j, b), j);
        return more;
      }
      errors := errors + more.issues;
    }
    out := Report(errors);
  }

  method ValidateBlock(block: Json, prefix: Scope) returns (out: Outcome)
    ensures block.Object? ==> out == LegacyBlock(block.fields, prefix)
    ensures !block.Object? ==> out == Raised(NotADict(block))
  {
    if !block.Object? {
      return Raised(NotADict(block));
    }
    out := CheckBlock(block.fields, prefix);
  }

  method CheckBlock(block: map<string, Json>, prefix: Scope) returns (out: Outcome)
    ensures out == LegacyBlock(block, prefix)
  {
    var head := CheckBlockHead(block, prefix);
    var slotCount := GetOr(block, "slot_count", Null);
    var sf := GetOr(block, "slot_format", Object(map[]));
    var duration := CheckDuration(prefix, Window(block), slotCount, sf);
    if duration.Raised? {
      ThenOfThree(head, duration, Report([]));
      return duration;
    }
    var rest := CheckBlockTail(block, prefix);
    ThenOfThree(head, duration, rest);
    if rest.Raised? {
      return rest;
    }
    out := Report(head + duration.issues + rest.issues);
  }

  /** The criteria, then `shows`. */
  method CheckBlockTail(block: map<string, Json>, prefix: Scope) returns (out: Outcome)
    ensures out == Then(LegacyCriteria(prefix, GetOr(block, "criteria", Array([]))),
                        Report(LegacyShowsIssue(prefix, block)))
  {
    var criteria := CheckCriteria(prefix, GetOr(block, "criteria", Array([])));
    if criteria.Raised? {
      return criteria;
    }
    var errors := criteria.issues;
    if "shows" !in block {
      errors := errors + [ShowsMissing(prefix)];
    } else if !block["shows"].Array? {
      errors := errors + [ShowsNotList(prefix)];
    }
    out := Report(errors);
  }

  /** Required keys, window, slot count and slot format. */
  method CheckBlockHead(block: map<string, Json>, prefix: Scope) returns (errors: seq<Issue>)
    ensures errors == LegacyBlockHead(block, prefix)
  {
    errors := CheckRequiredKeys(prefix, block, BlockKeys);
    var window := CheckWindow(block, prefix);
    errors := errors + window;
    var slotCount := GetOr(block, "slot_count", Null);
    if !(EqualsInt(slotCount, 1) || EqualsInt(slotCount, 2)) {
      errors := errors + [SlotCountNotOneOrTwo(prefix, slotCount)];
    }
    var sf := GetOr(block, "slot_format", Object(map[]));
    if !sf.Object? || !IsAllowedSlotFormat(sf.fields) {
      errors := errors + [SlotFormatNotAllowed(prefix, sf)];
    }
  }

  method CheckDuration(prefix: Scope, window: Option<(real, real)>, slotCount: Json, sf: Json) returns (out: Outcome)
    ensures out == LegacyDuration(prefix, window, slotCount, sf)
  {
    if !(sf.Object? && window.Some? && IsInteger(slotCount)) {
      return Report([]);
    }
    var slotDuration := GetOr(sf.fields, "slot_duration", Int(0));
    if !IsNumber(slotDuration) {
      return Raised(NotNumeric(slotDuration));
    }
    var expectedHours := SlotHours(NumericValue(slotDuration), NumericValue(slotCount));
    var actualHours := window.value.1 - window.value.0;
    if !AlmostEqual(expectedHours, actualHours) {
      out := Report([DurationMismatch(prefix, actualHours, expectedHours)]);
    } else {
      out := Report([]);
    }
  }

  method CheckCriteria(prefix: Scope, criteria: Json) returns (out: Outcome)
    ensures out == LegacyCriteria(prefix, criteria)
  {
    if !IsNonEmptyList(criteria) {
      return Report([CriteriaRequired(prefix)]);
    }
    var items := criteria.items;
    var errors: seq<Issue> := [];
    for k := 0 to |items|
      invariant LegacyCriterionEntries(prefix, items, k) == Report(errors)
    {
      var crit := items[k];
      var more: Outcome;
      if crit.Object? {
        more := ValidateCriterionRules(crit.fields, CriterionScope(prefix, k));
      } else {
        more := Raised(NotADict(crit));
      }
      if more.Raised? {
        GatherOutcomeRaisedAt(items, (k: nat, c: Json) => LegacyCriterionEntry(prefix, k, c), k);
        return more;
      }
      errors := errors + more.issues;
    }
    out := Report(errors);
  }
}
