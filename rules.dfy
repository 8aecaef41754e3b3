/** The business-rule layer (validate_catalog_rules.py): the structure
    issues, then per channel the time window, the fillers, the continuity of
    the blocks sorted by `begin`, and per block the slot count, the slot
    format, the block length and the criteria. Exceptions that the Python
    code does not catch (an unhashable value looked up in a set, `float()`
    of a block `end` outside any `try`) end the whole validation: the
    result is then `Raised`. */
module RulesValidation {
  import opened JsonValues
  import opened Issues
  import opened Gathering
  import opened Sorting
  import opened StructureValidation

  /** The absolute tolerance of `almost_equal`, in hours. */
  const Tolerance: real := 0.000001

  /** (show_min_duration, show_max_duration, slot_duration), in minutes. */
  const AllowedSlotFormats: seq<(int, int, int)> :=
    [(22, 26, 30), (45, 52, 60), (70, 80, 90), (95, 110, 120), (12, 13, 15)]

  const ShowTypes: set<string> := {"series", "movie"}
  const Categories: set<string> := {"genre", "type", "language", "duration"}

  function Abs(x: real): real
  {
    if x < 0.0 then -x else x
  }

  predicate AlmostEqual(a: real, b: real)
  {
    Abs(a - b) <= Tolerance
  }

  /** `sf.get(k) == x[k]` for the three keys; a missing key reads as None. */
  predicate MatchesFormat(sf: map<string, Json>, x: (int, int, int))
  {
    && EqualsInt(GetOr(sf, "show_min_duration", Null), x.0)
    && EqualsInt(GetOr(sf, "show_max_duration", Null), x.1)
    && EqualsInt(GetOr(sf, "slot_duration", Null), x.2)
  }

  predicate IsAllowedSlotFormat(sf: map<string, Json>)
  {
    exists i :: 0 <= i < |AllowedSlotFormats| && MatchesFormat(sf, AllowedSlotFormats[i])
  }

  // ---------------------------------------------------------------------
  // Specification

  /** `float(obj.get("begin", 0))`, `float(obj.get("end", 0))` inside a `try`. */
  function Window(obj: map<string, Json>): Option<(real, real)>
  {
    var b := ToFloat(GetOr(obj, "begin", Int(0)));
    var e := ToFloat(GetOr(obj, "end", Int(0)));
    if b.Some? && e.Some? then Some((b.value, e.value)) else None
  }

  function WindowIssues(scope: Scope, w: Option<(real, real)>): seq<Issue>
  {
    if w.Some? && !(w.value.0 < w.value.1) then [BeginNotBeforeEnd(scope, w.value.0, w.value.1)] else []
  }

  /** `if g not in GENRES_NORMALISES_KEYS`: raises on a list or dict. */
  function FillerRule(scope: Scope, g: Json): Outcome
  {
    if !Hashable(g) then Raised(Unhashable(g))
    else if IsMemberOf(g, GenreKeys) then Report([])
    else Report([UnknownFiller(scope, g)])
  }

  function FillerRules(scope: Scope, fillers: seq<Json>, n: nat): Outcome
    requires n <= |fillers|
  {
    GatherOutcome(fillers, (j: nat, g: Json) => FillerRule(scope, g), n)
  }

  /** `b.get("begin", 0)` and `b.get("end", 0)`; `Null` stands for the
      AttributeError of a non-dict block. */
  function BeginValue(b: Json): Json
  {
    if b.Object? then GetOr(b.fields, "begin", Int(0)) else Null
  }

  function EndValue(b: Json): Json
  {
    if b.Object? then GetOr(b.fields, "end", Int(0)) else Null
  }

  /** The sort key `float(b.get("begin", 0))` (0 where it would raise). */
  function BeginKey(b: Json): real
  {
    if IsNumber(BeginValue(b)) then NumericValue(BeginValue(b)) else 0.0
  }

  /** `sorted(blocks, key=...)` completes: every key can be computed. */
  predicate Sortable(blocks: seq<Json>)
  {
    forall j :: 0 <= j < |blocks| ==> IsNumber(BeginValue(blocks[j]))
  }

  function BoundaryIssues(scope: Scope, begin: real, end: real, firstBegin: real, lastEnd: real): seq<Issue>
  {
    (if !AlmostEqual(firstBegin, begin) then [FirstBlockMisaligned(scope, begin, firstBegin)] else [])
    + (if !AlmostEqual(lastEnd, end) then [LastBlockMisaligned(scope, end, lastEnd)] else [])
  }

  /** The consecutive pairs `(s[i], s[i + 1])`. */
  function Pairs(s: seq<Json>): (r: seq<(Json, Json)>)
    ensures |s| > 0 ==> |r| == |s| - 1
  {
    if |s| == 0 then [] else seq(|s| - 1, i requires 0 <= i < |s| - 1 => (s[i], s[i + 1]))
  }

  function PairIssues(scope: Scope, i: nat, curEnd: real, nextBegin: real): seq<Issue>
  {
    (if curEnd > nextBegin + Tolerance then [Overlap(scope, i, curEnd, nextBegin)] else [])
    + (if !AlmostEqual(curEnd, nextBegin) then [Gap(scope, i, curEnd, nextBegin)] else [])
  }

  /** Round `i` of the pair loop; its two `float()` calls are outside any `try`. */
  function PairRule(scope: Scope, i: nat, pair: (Json, Json)): Outcome
  {
    var e := EndValue(pair.0);
    var b := BeginValue(pair.1);
    if !IsNumber(e) then Raised(NotNumeric(e))
    else if !IsNumber(b) then Raised(NotNumeric(b))
    else Report(PairIssues(scope, i, NumericValue(e), NumericValue(b)))
  }

  function PairRules(scope: Scope, sorted: seq<Json>, n: nat): Outcome
    requires n <= |Pairs(sorted)|
  {
    GatherOutcome(Pairs(sorted), (i: nat, pr: (Json, Json)) => PairRule(scope, i, pr), n)
  }

  /** Round `j` of the range loop, whose conversions sit inside a `try`. */
  function RangeIssue(scope: Scope, begin: real, end: real, j: nat, b: Json): seq<Issue>
  {
    var bb := BeginValue(b);
    var be := EndValue(b);
    if IsNumber(bb) && IsNumber(be)
       && (NumericValue(bb) < begin - Tolerance || NumericValue(be) > end + Tolerance)
    then [OutOfRange(scope, j, NumericValue(bb), NumericValue(be), begin, end)]
    else []
  }

  function RangeIssues(scope: Scope, begin: real, end: real, sorted: seq<Json>, n: nat): seq<Issue>
    requires n <= |sorted|
  {
    Gather(sorted, (j: nat, b: Json) => RangeIssue(scope, begin, end, j, b), n)
  }

  /** The checks run when the channel window could be read. */
  function TemporalRules(scope: Scope, begin: real, end: real, sorted: seq<Json>): Outcome
    requires |sorted| > 0
  {
    var fb := BeginValue(sorted[0]);
    var le := EndValue(sorted[|sorted| - 1]);
    if !IsNumber(fb) then Raised(NotNumeric(fb))
    else if !IsNumber(le) then Raised(NotNumeric(le))
    else Then(Report(BoundaryIssues(scope, begin, end, NumericValue(fb), NumericValue(le))),
              Then(PairRules(scope, sorted, |sorted| - 1),
                   Report(RangeIssues(scope, begin, end, sorted, |sorted|))))
  }

  /** `(slot_duration * slot_count) / 60.0`: the length of a block, in hours. */
  function SlotHours(slotDuration: real, count: real): real
  {
    slotDuration * count / 60.0
  }

  function DurationIssue(scope: Scope, w: Option<(real, real)>, count: Json, sf: Json): seq<Issue>
  {
    if w.Some? && IsInteger(count) && sf.Object? then
      var d := ToFloat(GetOr(sf.fields, "slot_duration", Int(0)));
      if d.None? then []
      else
        var expected := SlotHours(d.value, NumericValue(count));
        var actual := w.value.1 - w.value.0;
        if !AlmostEqual(expected, actual) then [DurationMismatch(scope, actual, expected)] else []
    else []
  }

  /** Round `v` of the per-category value loop. */
  function ValueRule(scope: Scope, category: Json, v: Json): Outcome
  {
    if category == Str("genre") then
      if !Hashable(v) then Raised(Unhashable(v))
      else if IsMemberOf(v, GenreKeys) then Report([]) else Report([UnknownGenre(scope, v)])
    else if category == Str("type") then
      if !Hashable(v) then Raised(Unhashable(v))
      else if IsMemberOf(v, ShowTypes) then Report([]) else Report([InvalidType(scope, v)])
    else if category == Str("language") then
      if v.Str? then Report([]) else Report([LanguageNotString(scope, v)])
    else if category == Str("duration") then
      if !IsNumber(v) then Report([DurationNotNumeric(scope, v)])
      else if NumericValue(v) <= 0.0 then Report([DurationNotPositive(scope, v)])
      else Report([])
    else Report([])
  }

  function ValueRules(scope: Scope, category: Json, values: seq<Json>, n: nat): Outcome
    requires n <= |values|
  {
    GatherOutcome(values, (j: nat, v: Json) => ValueRule(scope, category, v), n)
  }

  function CriterionHeadIssues(crit: map<string, Json>, scope: Scope): seq<Issue>
  {
    var category := GetOr(crit, "category", Null);
    (if !IsMemberOf(category, Categories) then [InvalidCategory(scope, category)] else [])
    + (if !GetOr(crit, "forbidden", Null).Bool? then [ForbiddenNotBool(scope)] else [])
    + (if !IsNonEmptyList(GetOr(crit, "values", Null)) then [ValuesNotNonEmptyList(scope)] else [])
  }

  function CriterionRules(crit: map<string, Json>, scope: Scope): Outcome
  {
    var category := GetOr(crit, "category", Null);
    var values := GetOr(crit, "values", Null);
    if !Hashable(category) then Raised(Unhashable(category))
    else if !IsNonEmptyList(values) then Report(CriterionHeadIssues(crit, scope))
    else Then(Report(CriterionHeadIssues(crit, scope)), ValueRules(scope, category, values.items, |values.items|))
  }

  function CriterionRuleEntry(scope: Scope, k: nat, crit: Json): Outcome
  {
    if !crit.Object? then Report([NotAnObject(CriterionScope(scope, k))])
    else CriterionRules(crit.fields, CriterionScope(scope, k))
  }

  function CriterionRuleEntries(scope: Scope, criteria: seq<Json>, n: nat): Outcome
    requires n <= |criteria|
  {
    GatherOutcome(criteria, (k: nat, c: Json) => CriterionRuleEntry(scope, k, c), n)
  }

  /** `criteria = block.get("criteria", [])`: absent, null and empty all fail. */
  function CriteriaRules(scope: Scope, criteria: Json): Outcome
  {
    if !IsNonEmptyList(criteria) then Report([CriteriaRequired(scope)])
    else CriterionRuleEntries(scope, criteria.items, |criteria.items|)
  }

  function BlockHeadIssues(block: map<string, Json>, scope: Scope): seq<Issue>
  {
    var w := Window(block);
    var count := GetOr(block, "slot_count", Null);
    var sf := GetOr(block, "slot_format", Object(map[]));
    WindowIssues(scope, w)
    + (if !(EqualsInt(count, 1) || EqualsInt(count, 2)) then [SlotCountNotOneOrTwo(scope, count)] else [])
    + (if !sf.Object? || !IsAllowedSlotFormat(sf.fields) then [SlotFormatNotAllowed(scope, sf)] else [])
    + DurationIssue(scope, w, count, sf)
  }

  function BlockRules(block: map<string, Json>, scope: Scope): Outcome
  {
    Then(Report(BlockHeadIssues(block, scope)),
         Then(CriteriaRules(scope, GetOr(block, "criteria", Array([]))),
              Report(ShowsIssue(scope, GetOr(block, "shows", Null)))))
  }

  function BlockRuleEntry(scope: Scope, j: nat, block: Json): Outcome
  {
    if block.Object? then BlockRules(block.fields, BlockScope(scope, j)) else Report([])
  }

  function BlockRuleEntries(scope: Scope, sorted: seq<Json>, n: nat): Outcome
    requires n <= |sorted|
  {
    GatherOutcome(sorted, (j: nat, b: Json) => BlockRuleEntry(scope, j, b), n)
  }

  function SortByBegin(blocks: seq<Json>): seq<Json>
  {
    Sort(blocks, BeginKey)
  }

  /** What runs before the blocks are looked at. */
  function ChannelHead(channel: map<string, Json>, scope: Scope): Outcome
  {
    var fillers := GetOr(channel, "fillers", Array([]));
    Then(Report(WindowIssues(scope, Window(channel))),
         if fillers.Array? then FillerRules(scope, fillers.items, |fillers.items|) else Report([]))
  }

  function ChannelBlockRules(channel: map<string, Json>, scope: Scope, blocks: seq<Json>): Outcome
    requires |blocks| > 0
  {
    var w := Window(channel);
    var sorted := SortByBegin(blocks);
    SortPermutes(blocks, BeginKey);
    Then(if w.Some? then TemporalRules(scope, w.value.0, w.value.1, sorted) else Report([]),
         BlockRuleEntries(scope, sorted, |sorted|))
  }

  function ChannelRules(channel: map<string, Json>, idx: nat): Outcome
  {
    var scope := ChannelPrefix(channel, idx);
    var head := ChannelHead(channel, scope);
    var blocks := GetOr(channel, "blocks", Array([]));
    if !IsNonEmptyList(blocks) then head
    else if !Sortable(blocks.items) then Then(head, Report([BlocksNotSortable(scope)]))
    else Then(head, ChannelBlockRules(channel, scope, blocks.items))
  }

  function ChannelRuleEntry(i: nat, channel: Json): Outcome
  {
    if channel.Object? then ChannelRules(channel.fields, i) else Report([])
  }

  function ChannelRuleEntries(channels: seq<Json>, n: nat): Outcome
    requires n <= |channels|
  {
    GatherOutcome(channels, (i: nat, ch: Json) => ChannelRuleEntry(i, ch), n)
  }

  function CatalogRules(catalog: map<string, Json>): Outcome
  {
    var channels := GetOr(catalog, "channels", Array([]));
    Then(Report(CatalogStructure(catalog)),
         if channels.Array? then ChannelRuleEntries(channels.items, |channels.items|) else Report([]))
  }

  // ---------------------------------------------------------------------
  // The validator as the source writes it

  method ValidateCatalogRules(catalog: map<string, Json>) returns (out: Outcome)
    ensures out == CatalogRules(catalog)
  {
    var errors := ValidateCatalogStructure(catalog);
    var channels := GetOr(catalog, "channels", Array([]));
    if channels.Array? {
      var more := CheckChannelRuleEntries(channels.items);
      if more.Raised? {
        return more;
      }
      errors := errors + more.issues;
    }
    out := Report(errors);
  }

  method CheckChannelRuleEntries(channels: seq<Json>) returns (out: Outcome)
    ensures out == ChannelRuleEntries(channels, |channels|)
  {
    var errors: seq<Issue> := [];
    for i := 0 to |channels|
      invariant ChannelRuleEntries(channels, i) == Report(errors)
    {
      var channel := channels[i];
      if !channel.Object? {
        continue;
      }
      var more := ValidateChannelRules(channel.fields, i);
      if more.Raised? {
        GatherOutcomeRaisedAt(channels, (i: nat, ch: Json) => ChannelRuleEntry(i, ch), i);
        return more;
      }
      errors := errors + more.issues;
    }
    out := Report(errors);
  }

  method ValidateChannelRules(channel: map<string, Json>, idx: nat) returns (out: Outcome)
    ensures out == ChannelRules(channel, idx)
  {
    var prefix := ChannelScope(idx, GetOr(channel, "name", Str("?")));
    var errors: seq<Issue> := [];
    var begin := ToFloat(GetOr(channel, "begin", Int(0)));
    var end := ToFloat(GetOr(channel, "end", Int(0)));
    var window: Option<(real, real)> := None;
    if begin.Some? && end.Some? {
      window := Some((begin.value, end.value));
      if !(begin.value < end.value) {
        errors := errors + [BeginNotBeforeEnd(prefix, begin.value, end.value)];
      }
    }
    var fillers := GetOr(channel, "fillers", Array([]));
    if fillers.Array? {
      var fillerOut := CheckFillerRules(prefix, fillers.items);
      if fillerOut.Raised? {
        return fillerOut;
      }
      errors := errors + fillerOut.issues;
    }
    assert Report(errors) == ChannelHead(channel, prefix);
    var blocks := GetOr(channel, "blocks", Array([]));
    if !IsNonEmptyList(blocks) {
      return Report(errors);
    }
    if !Sortable(blocks.items) {
      return Report(errors + [BlocksNotSortable(prefix)]);
    }
    var rest := CheckChannelBlocks(prefix, window, blocks.items);
    assert window == Window(channel);
    if rest.Raised? {
      return rest;
    }
    out := Report(errors + rest.issues);
  }

  method CheckFillerRules(prefix: Scope, fillers: seq<Json>) returns (out: Outcome)
    ensures out == FillerRules(prefix, fillers, |fillers|)
  {
    var errors: seq<Issue> := [];
    for j := 0 to |fillers|
      invariant FillerRules(prefix, fillers, j) == Report(errors)
    {
      var g := fillers[j];
      if !Hashable(g) {
        GatherOutcomeRaisedAt(fillers, (j: nat, g: Json) => FillerRule(prefix, g), j);
        return Raised(Unhashable(g));
      }
      if !IsMemberOf(g, GenreKeys) {
        errors := errors + [UnknownFiller(prefix, g)];
      }
    }
    out := Report(errors);
  }

  /** The sorted blocks: continuity when the window is known, then each block. */
  method CheckChannelBlocks(prefix: Scope, window: Option<(real, real)>, blocks: seq<Json>) returns (out: Outcome)
    requires |blocks| > 0
    ensures out == Then(if window.Some? then TemporalRules(prefix, window.value.0, window.value.1, SortByBegin(blocks))
                        else Report([]),
                        BlockRuleEntries(prefix, SortByBegin(blocks), |SortByBegin(blocks)|))
  {
    var sorted := SortByBegin(blocks);
    SortPermutes(blocks, BeginKey);
    var errors: seq<Issue> := [];
    if window.Some? {
      var temporal := CheckTemporalRules(prefix, window.value.0, window.value.1, sorted);
      if temporal.Raised? {
        return temporal;
      }
      errors := temporal.issues;
    }
    var more := CheckBlockRuleEntries(prefix, sorted);
    if more.Raised? {
      return more;
    }
    out := Report(errors + more.issues);
  }

  method CheckTemporalRules(prefix: Scope, begin: real, end: real, sorted: seq<Json>) returns (out: Outcome)
    requires |sorted| > 0
    ensures out == TemporalRules(prefix, begin, end, sorted)
  {
    var fb := BeginValue(sorted[0]);
    var le := EndValue(sorted[|sorted| - 1]);
    if !IsNumber(fb) {
      return Raised(NotNumeric(fb));
    }
    if !IsNumber(le) {
      return Raised(NotNumeric(le));
    }
    var firstBegin := NumericValue(fb);
    var lastEnd := NumericValue(le);
    var errors: seq<Issue> := [];
    if !AlmostEqual(firstBegin, begin) {
      errors := errors + [FirstBlockMisaligned(prefix, begin, firstBegin)];
    }
    if !AlmostEqual(lastEnd, end) {
      errors := errors + [LastBlockMisaligned(prefix, end, lastEnd)];
    }
    assert errors == BoundaryIssues(prefix, begin, end, firstBegin, lastEnd);
    var pairs := CheckPairRules(prefix, sorted);
    var ranges := RangeIssues(prefix, begin, end, sorted, |sorted|);
    ThenOfThree(errors, pairs, Report(ranges));
    if pairs.Raised? {
      return pairs;
    }
    ranges := CheckRangeRules(prefix, begin, end, sorted);
    out := Report(errors + pairs.issues + ranges);
  }

  method CheckPairRules(prefix: Scope, sorted: seq<Json>) returns (out: Outcome)
    requires |sorted| > 0
    ensures out == PairRules(prefix, sorted, |sorted| - 1)
  {
    var errors: seq<Issue> := [];
    for i := 0 to |sorted| - 1
      invariant PairRules(prefix, sorted, i) == Report(errors)
    {
      assert Pairs(sorted)[i] == (sorted[i], sorted[i + 1]);
      var e := EndValue(sorted[i]);
      if !IsNumber(e) {
        GatherOutcomeRaisedAt(Pairs(sorted), (i: nat, pr: (Json, Json)) => PairRule(prefix, i, pr), i);
        return Raised(NotNumeric(e));
      }
      var b := BeginValue(sorted[i + 1]);
      if !IsNumber(b) {
        GatherOutcomeRaisedAt(Pairs(sorted), (i: nat, pr: (Json, Json)) => PairRule(prefix, i, pr), i);
        return Raised(NotNumeric(b));
      }
      var curEnd := NumericValue(e);
      var nextBegin := NumericValue(b);
      if curEnd > nextBegin + Tolerance {
        errors := errors + [Overlap(prefix, i, curEnd, nextBegin)];
      }
      if !AlmostEqual(curEnd, nextBegin) {
        errors := errors + [Gap(prefix, i, curEnd, nextBegin)];
      }
    }
    out := Report(errors);
  }

  method CheckRangeRules(prefix: Scope, begin: real, end: real, sorted: seq<Json>) returns (errors: seq<Issue>)
    ensures errors == RangeIssues(prefix, begin, end, sorted, |sorted|)
  {
    errors := [];
    for j := 0 to |sorted|
      invariant errors == RangeIssues(prefix, begin, end, sorted, j)
    {
      var bb := BeginValue(sorted[j]);
      var be := EndValue(sorted[j]);
      if IsNumber(bb) && IsNumber(be) {
        var blockBegin := NumericValue(bb);
        var blockEnd := NumericValue(be);
        if blockBegin < begin - Tolerance || blockEnd > end + Tolerance {
          errors := errors + [OutOfRange(prefix, j, blockBegin, blockEnd, begin, end)];
        }
      }
    }
  }

  method CheckBlockRuleEntries(prefix: Scope, sorted: seq<Json>) returns (out: Outcome)
    ensures out == BlockRuleEntries(prefix, sorted, |sorted|)
  {
    var errors: seq<Issue> := [];
    for j := 0 to |sorted|
      invariant BlockRuleEntries(prefix, sorted, j) == Report(errors)
    {
      var block := sorted[j];
      assert BlockRuleEntries(prefix, sorted, j + 1) == Then(Report(errors), BlockRuleEntry(prefix, j, block));
      if block.Object? {
        var more := ValidateBlockRules(block.fields, BlockScope(prefix, j));
        if more.Raised? {
          GatherOutcomeRaisedAt(sorted, (j: nat, b: Json) => BlockRuleEntry(prefix, j, b), j);
          return more;
        }
        errors := errors + more.issues;
      }
    }
    out := Report(errors);
  }

  method ValidateBlockRules(block: map<string, Json>, prefix: Scope) returns (out: Outcome)
    ensures out == BlockRules(block, prefix)
  {
    var errors := CheckBlockHead(block, prefix);
    var criteriaOut := CheckCriteriaRules(prefix, GetOr(block, "criteria", Array([])));
    if criteriaOut.Raised? {
      return criteriaOut;
    }
    errors := errors + criteriaOut.issues;
    var shows := GetOr(block, "shows", Null);
    if shows != Null && !shows.Array? {
      errors := errors + [ShowsNotList(prefix)];
    }
    out := Report(errors);
  }

  /** Window, slot count, slot format and block length. */
  method CheckBlockHead(block: map<string, Json>, prefix: Scope) returns (errors: seq<Issue>)
    ensures errors == BlockHeadIssues(block, prefix)
  {
    errors := [];
    var begin := ToFloat(GetOr(block, "begin", Int(0)));
    var end := ToFloat(GetOr(block, "end", Int(0)));
    var window: Option<(real, real)> := None;
    if begin.Some? && end.Some? {
      window := Some((begin.value, end.value));
      if !(begin.value < end.value) {
        errors := errors + [BeginNotBeforeEnd(prefix, begin.value, end.value)];
      }
    }
    assert window == Window(block) && errors == WindowIssues(prefix, window);
    var slotCount := GetOr(block, "slot_count", Null);
    if !(EqualsInt(slotCount, 1) || EqualsInt(slotCount, 2)) {
      errors := errors + [SlotCountNotOneOrTwo(prefix, slotCount)];
    }
    var sf := GetOr(block, "slot_format", Object(map[]));
    if !sf.Object? || !IsAllowedSlotFormat(sf.fields) {
      errors := errors + [SlotFormatNotAllowed(prefix, sf)];
    }
    var durationErrors := CheckDuration(prefix, window, slotCount, sf);
    errors := errors + durationErrors;
  }

  /** Block length against `slot_duration * slot_count / 60`. */
  method CheckDuration(prefix: Scope, window: Option<(real, real)>, slotCount: Json, sf: Json) returns (errors: seq<Issue>)
    ensures errors == DurationIssue(prefix, window, slotCount, sf)
  {
    errors := [];
    if window.Some? && IsInteger(slotCount) && sf.Object? {
      var slotDuration := ToFloat(GetOr(sf.fields, "slot_duration", Int(0)));
      if slotDuration.Some? {
        var expectedHours := SlotHours(slotDuration.value, NumericValue(slotCount));
        var actualHours := window.value.1 - window.value.0;
        if !AlmostEqual(expectedHours, actualHours) {
          errors := [DurationMismatch(prefix, actualHours, expectedHours)];
        }
      }
    }
  }

  /** `criteria = block.get("criteria", [])` and what follows it. */
  method CheckCriteriaRules(prefix: Scope, criteria: Json) returns (out: Outcome)
    ensures out == CriteriaRules(prefix, criteria)
  {
    if !IsNonEmptyList(criteria) {
      return Report([CriteriaRequired(prefix)]);
    }
    out := CheckCriterionRuleEntries(prefix, criteria.items);
  }

  method CheckCriterionRuleEntries(prefix: Scope, criteria: seq<Json>) returns (out: Outcome)
    ensures out == CriterionRuleEntries(prefix, criteria, |criteria|)
  {
    var errors: seq<Issue> := [];
    for k := 0 to |criteria|
      invariant CriterionRuleEntries(prefix, criteria, k) == Report(errors)
    {
      var crit := criteria[k];
      if !crit.Object? {
        errors := errors + [NotAnObject(CriterionScope(prefix, k))];
        continue;
      }
      var more := ValidateCriterionRules(crit.fields, CriterionScope(prefix, k));
      if more.Raised? {
        GatherOutcomeRaisedAt(criteria, (k: nat, c: Json) => CriterionRuleEntry(prefix, k, c), k);
        return more;
      }
      errors := errors + more.issues;
    }
    out := Report(errors);
  }

  method ValidateCriterionRules(crit: map<string, Json>, prefix: Scope) returns (out: Outcome)
    ensures out == CriterionRules(crit, prefix)
  {
    var errors: seq<Issue> := [];
    var category := GetOr(crit, "category", Null);
    if !Hashable(category) {
      return Raised(Unhashable(category));
    }
    if !IsMemberOf(category, Categories) {
      errors := errors + [InvalidCategory(prefix, category)];
    }
    var forbidden := GetOr(crit, "forbidden", Null);
    if !forbidden.Bool? {
      errors := errors + [ForbiddenNotBool(prefix)];
    }
    var values := GetOr(crit, "values", Null);
    if !IsNonEmptyList(values) {
      errors := errors + [ValuesNotNonEmptyList(prefix)];
      return Report(errors);
    }
    var more := CheckValueRules(prefix, category, values.items);
    if more.Raised? {
      return more;
    }
    out := Report(errors + more.issues);
  }

  method CheckValueRules(prefix: Scope, category: Json, values: seq<Json>) returns (out: Outcome)
    ensures out == ValueRules(prefix, category, values, |values|)
  {
    var errors: seq<Issue> := [];
    for j := 0 to |values|
      invariant ValueRules(prefix, category, values, j) == Report(errors)
    {
      var v := values[j];
      if category == Str("genre") {
        if !Hashable(v) {
          GatherOutcomeRaisedAt(values, (j: nat, v: Json) => ValueRule(prefix, category, v), j);
          return Raised(Unhashable(v));
        }
        if !IsMemberOf(v, GenreKeys) {
          errors := errors + [UnknownGenre(prefix, v)];
        }
      } else if category == Str("type") {
        if !Hashable(v) {
          GatherOutcomeRaisedAt(values, (j: nat, v: Json) => ValueRule(prefix, category, v), j);
          return Raised(Unhashable(v));
        }
        if !IsMemberOf(v, ShowTypes) {
          errors := errors + [InvalidType(prefix, v)];
        }
      } else if category == Str("language") {
        if !v.Str? {
          errors := errors + [LanguageNotString(prefix, v)];
        }
      } else if category == Str("duration") {
        if !IsNumber(v) {
          errors := errors + [DurationNotNumeric(prefix, v)];
        } else if NumericValue(v) <= 0.0 {
          errors := errors + [DurationNotPositive(prefix, v)];
        }
      }
    }
    out := Report(errors);
  }
}
