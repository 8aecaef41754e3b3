/** What the older standalone validator promises, and where it parts from
    the business-rule layer, proved about its specification. */
module LegacyProperties {
  import opened JsonValues
  import opened Issues
  import opened Gathering
  import opened Sorting
  import opened StructureValidation
  import opened StructureProperties
  import opened RulesValidation
  import opened RulesProperties
  import opened LegacyValidation

  /** Its genre table has exactly the keys the other validators accept. */
  lemma GenreTableKeys()
    ensures GenresNormalises.Keys == GenreKeys
  {
    forall g | g in GenresNormalises.Keys
      ensures g in GenreKeys
    {
    }
    forall g | g in GenreKeys
      ensures g in GenresNormalises.Keys
    {
    }
  }

  // ---------------------------------------------------------------------
  // Top level

  /** `validate_catalog_struct` reports the missing top-level keys and the type
      of `channels`, and nothing about what the channels contain. */
  lemma CatalogStructIff(catalog: map<string, Json>, u: Issue)
    ensures u in CatalogStruct(catalog) <==>
              || (u.MissingKey? && u.scope == CatalogScope && u.key in CatalogKeys && u.key !in catalog)
              || (u == ChannelsNotList && "channels" in catalog && !catalog["channels"].Array?)
  {
    GatherMember(CatalogKeys, (j: nat, key: string) => MissingKeyIssue(CatalogScope, catalog, key), |CatalogKeys|, u);
  }

  /** The top-level issues come first, and the whole call raises exactly when
      validating one of the channels raises. */
  lemma LegacyCatalogParts(catalog: map<string, Json>)
    ensures var channels := GetOr(catalog, "channels", Array([]));
            LegacyCatalog(catalog).Raised? <==>
              channels.Array? && exists i :: 0 <= i < |channels.items| && LegacyChannelEntry(i, channels.items[i]).Raised?
    ensures LegacyCatalog(catalog).Report? ==> CatalogStruct(catalog) <= LegacyCatalog(catalog).issues
  {
    var channels := GetOr(catalog, "channels", Array([]));
    if channels.Array? {
      GatherOutcomeRaises(channels.items, (i: nat, ch: Json) => LegacyChannelEntry(i, ch), |channels.items|);
    }
  }

  /** A `null` channel list is reported here, where the structure layer lets
      it through, and no channel is validated. */
  lemma NullChannelsReported(catalog: map<string, Json>)
    requires "channels" in catalog && catalog["channels"] == Null
    ensures LegacyCatalog(catalog) == Report(CatalogStruct(catalog))
    ensures ChannelsNotList in CatalogStruct(catalog)
    ensures ChannelsNotList !in CatalogStructure(catalog)
  {
    if ChannelsNotList in MissingKeys(CatalogScope, catalog, CatalogKeys, |CatalogKeys|) {
      MissingKeysScoped(CatalogScope, catalog, CatalogKeys, |CatalogKeys|, ChannelsNotList);
    }
  }

  /** A channel that is not a dict ends the whole validation with the error of
      its `.get`; the business-rule layer skips it. */
  lemma NonDictChannelRaises(channels: seq<Json>, i: nat)
    requires i < |channels| && !channels[i].Object?
    requires LegacyChannelEntries(channels, i).Report?
    ensures LegacyChannelEntries(channels, |channels|) == Raised(NotADict(channels[i]))
    ensures ChannelRuleEntry(i, channels[i]) == Report([])
  {
    GatherOutcomeRaisedAt(channels, (i: nat, ch: Json) => LegacyChannelEntry(i, ch), i);
  }

  // ---------------------------------------------------------------------
  // Channel head

  /** A window that cannot be converted is reported (once), and a numeric one
      is checked as in the business-rule layer. */
  lemma LegacyWindowIff(scope: Scope, obj: map<string, Json>)
    ensures BeginEndNotNumeric(scope) in LegacyWindowIssues(scope, obj) <==>
              !IsNumber(GetOr(obj, "begin", Int(0))) || !IsNumber(GetOr(obj, "end", Int(0)))
    ensures Window(obj).Some? ==> LegacyWindowIssues(scope, obj) == WindowIssues(scope, Window(obj))
    ensures |LegacyWindowIssues(scope, obj)| <= 1
  {
  }

  /** Fillers that are not a list are reported as such; otherwise each filler
      outside the genre keys is reported by value. */
  lemma FillersPartIff(p: Scope, fillers: Json, u: Issue)
    requires FillersPart(p, fillers).Report?
    ensures u in FillersPart(p, fillers).issues <==>
              || (!fillers.Array? && u == FillersNotList(p))
              || (fillers.Array? && exists j :: 0 <= j < |fillers.items|
                                                && u == UnknownFiller(p, fillers.items[j])
                                                && !IsMemberOf(fillers.items[j], GenreKeys))
  {
    if fillers.Array? {
      FillerRulesMember(p, fillers.items, u);
    }
  }

  predicate LegacyHeadKind(u: Issue)
  {
    u.MissingKey? || u.BeginEndNotNumeric? || u.BeginNotBeforeEnd? || u.FillersNotList? || u.UnknownFiller?
  }

  /** Before the blocks, only the keys, the window and the fillers of the channel are checked. */
  lemma LegacyChannelHeadKind(channel: map<string, Json>, p: Scope, u: Issue)
    requires LegacyChannelHead(channel, p).Report?
    requires u in LegacyChannelHead(channel, p).issues
    ensures LegacyHeadKind(u) && u.scope == p
  {
    var fillers := GetOr(channel, "fillers", Array([]));
    var keys := MissingKeys(p, channel, ChannelKeys, |ChannelKeys|);
    assert LegacyChannelHead(channel, p).issues
        == keys + LegacyWindowIssues(p, channel) + FillersPart(p, fillers).issues;
    if u in keys {
      MissingKeysScoped(p, channel, ChannelKeys, |ChannelKeys|, u);
    } else if u in FillersPart(p, fillers).issues {
      FillersPartIff(p, fillers, u);
    }
  }

  /** The head followed by one final issue that the head cannot produce. */
  lemma HeadThenStop(channel: map<string, Json>, p: Scope, u: Issue)
    requires LegacyChannelHead(channel, p).Report?
    requires !LegacyHeadKind(u)
    ensures var issues := Then(LegacyChannelHead(channel, p), Report([u])).issues;
            && |issues| > 0 && issues[|issues| - 1] == u
            && multiset(issues)[u] == 1
            && forall j :: 0 <= j < |issues| - 1 ==> LegacyHeadKind(issues[j])
  {
    var head := LegacyChannelHead(channel, p).issues;
    forall j | 0 <= j < |head|
      ensures LegacyHeadKind(head[j])
    {
      LegacyChannelHeadKind(channel, p, head[j]);
    }
    assert u !in head;
    assert Then(LegacyChannelHead(channel, p), Report([u])).issues == head + [u];
  }

  // ---------------------------------------------------------------------
  // Where a channel stops early

  /** Blocks that are not a non-empty list end the channel with one issue. The
      business-rule layer leaves that report to the structure layer. */
  lemma EmptyBlocksStop(channel: map<string, Json>, idx: nat)
    requires !IsNonEmptyList(GetOr(channel, "blocks", Array([])))
    requires LegacyChannelHead(channel, ChannelPrefix(channel, idx)).Report?
    ensures LegacyChannel(channel, idx).Report?
    ensures var issues := LegacyChannel(channel, idx).issues;
            var p := ChannelPrefix(channel, idx);
            && |issues| > 0 && issues[|issues| - 1] == BlocksNotNonEmptyList(p)
            && multiset(issues)[BlocksNotNonEmptyList(p)] == 1
            && forall j :: 0 <= j < |issues| - 1 ==> LegacyHeadKind(issues[j])
    ensures ChannelRules(channel, idx).Report? ==>
              BlocksNotNonEmptyList(ChannelPrefix(channel, idx)) !in ChannelRules(channel, idx).issues
  {
    var p := ChannelPrefix(channel, idx);
    HeadThenStop(channel, p, BlocksNotNonEmptyList(p));
    if ChannelRules(channel, idx).Report? && BlocksNotNonEmptyList(p) in ChannelRules(channel, idx).issues {
      ChannelHeadKind(channel, p, BlocksNotNonEmptyList(p));
    }
  }

  /** A block without `begin` makes the sort raise: the channel ends with one
      issue and no block is checked. The business-rule layer reads that block's
      `begin` as 0 and sorts it. */
  lemma MissingBeginStops(channel: map<string, Json>, idx: nat, j: nat)
    requires IsNonEmptyList(GetOr(channel, "blocks", Array([])))
    requires j < |GetOr(channel, "blocks", Array([])).items|
    requires GetOr(channel, "blocks", Array([])).items[j].Object?
    requires "begin" !in GetOr(channel, "blocks", Array([])).items[j].fields
    requires LegacyChannelHead(channel, ChannelPrefix(channel, idx)).Report?
    ensures LegacyChannel(channel, idx).Report?
    ensures var issues := LegacyChannel(channel, idx).issues;
            var p := ChannelPrefix(channel, idx);
            && |issues| > 0 && issues[|issues| - 1] == BlocksNotSortable(p)
            && multiset(issues)[BlocksNotSortable(p)] == 1
            && forall k :: 0 <= k < |issues| - 1 ==> LegacyHeadKind(issues[k])
    ensures BeginKey(GetOr(channel, "blocks", Array([])).items[j]) == 0.0
    ensures IsNumber(BeginValue(GetOr(channel, "blocks", Array([])).items[j]))
  {
    var p := ChannelPrefix(channel, idx);
    var blocks := GetOr(channel, "blocks", Array([])).items;
    assert FieldFault(blocks[j], "begin").Some?;
    assert !LegacySortable(blocks);
    HeadThenStop(channel, p, BlocksNotSortable(p));
  }

  // ---------------------------------------------------------------------
  // Continuity of the sorted blocks

  /** Every block is a dict with a numeric `begin` and some `end`. */
  predicate Timed(s: seq<Json>)
  {
    forall j :: 0 <= j < |s| ==> s[j].Object? && "end" in s[j].fields && FieldFault(s[j], "begin").None?
  }

  /** The sort keeps the blocks that can be sorted and the blocks that are timed. */
  lemma SortKeepsLegacyShape(blocks: seq<Json>)
    ensures LegacySortable(blocks) ==> LegacySortable(SortByBegin(blocks))
    ensures Timed(blocks) ==> Timed(SortByBegin(blocks))
  {
    var sorted := SortByBegin(blocks);
    SortByBeginKeepsBlocks(blocks);
    forall k | 0 <= k < |sorted|
      ensures exists j :: 0 <= j < |blocks| && blocks[j] == sorted[k]
    {
      assert sorted[k] in blocks;
    }
  }

  /** The legacy range loop, once every `begin` and `end` converts, reports
      what the business-rule range loop reports. */
  lemma {:induction false} RangeRulesAgree(p: Scope, begin: real, end: real, s: seq<Json>, n: nat)
    requires n <= |s|
    requires forall j :: 0 <= j < n ==> FieldFault(s[j], "begin").None? && FieldFault(s[j], "end").None?
    ensures LegacyRangeRules(p, begin, end, s, n) == Report(RangeIssues(p, begin, end, s, n))
    decreases n
  {
    if n > 0 {
      RangeRulesAgree(p, begin, end, s, n - 1);
      assert LegacyRangeRule(p, begin, end, n - 1, s[n - 1]) == Report(RangeIssue(p, begin, end, n - 1, s[n - 1]));
    }
  }

  /** On timed blocks the two pair loops agree, raised exceptions included. */
  lemma PairRulesAgree(p: Scope, s: seq<Json>)
    requires |s| > 0 && Timed(s)
    ensures LegacyPairRules(p, s, |s| - 1) == PairRules(p, s, |s| - 1)
  {
    forall i | 0 <= i < |s| - 1
      ensures LegacyPairRule(p, i, Pairs(s)[i]) == PairRule(p, i, Pairs(s)[i])
    {
      assert Pairs(s)[i] == (s[i], s[i + 1]);
    }
    GatherOutcomeCongruent(Pairs(s), (i: nat, pr: (Json, Json)) => LegacyPairRule(p, i, pr),
                           (i: nat, pr: (Json, Json)) => PairRule(p, i, pr), |s| - 1);
  }

  /** A pair loop that completes has converted every `end` but the last. */
  lemma PairRulesConvertEnds(p: Scope, s: seq<Json>, j: nat)
    requires j < |s| - 1
    requires PairRules(p, s, |s| - 1).Report?
    ensures IsNumber(EndValue(s[j]))
  {
    GatherOutcomeMember(Pairs(s), (i: nat, pr: (Json, Json)) => PairRule(p, i, pr), |s| - 1, ChannelsNotList);
    assert Pairs(s)[j] == (s[j], s[j + 1]);
    assert PairRule(p, j, Pairs(s)[j]).Report?;
  }

  /** On timed blocks the continuity checks of both validators agree, raised
      exceptions included: first and last block, overlaps, gaps and the range. */
  lemma LegacyTemporalAgrees(p: Scope, begin: real, end: real, s: seq<Json>)
    requires |s| > 0 && Timed(s)
    ensures LegacyTemporal(p, begin, end, s) == TemporalRules(p, begin, end, s)
  {
    var n := |s|;
    PairRulesAgree(p, s);
    if FieldFault(s[n - 1], "end").None? && PairRules(p, s, n - 1).Report? {
      forall j | 0 <= j < n
        ensures FieldFault(s[j], "begin").None? && FieldFault(s[j], "end").None?
      {
        if j < n - 1 {
          PairRulesConvertEnds(p, s, j);
        }
      }
      RangeRulesAgree(p, begin, end, s, n);
    }
  }

  /** Once the blocks can be sorted, the continuity checks raise exactly when
      some block has no numeric `end`: after the last block and the pairs, the
      range loop's conversions cannot fail. */
  lemma LegacyTemporalRaisesIff(p: Scope, begin: real, end: real, s: seq<Json>)
    requires |s| > 0 && LegacySortable(s)
    ensures LegacyTemporal(p, begin, end, s).Raised? <==>
              exists j :: 0 <= j < |s| && FieldFault(s[j], "end").Some?
  {
    var n := |s|;
    assert FieldFault(s[0], "begin").None?;
    LegacyPairsRaiseIff(p, s);
    LegacyRangesRaiseIff(p, begin, end, s);
    if FieldFault(s[n - 1], "end").None? {
      ThenOfThree(BoundaryIssues(p, begin, end, FieldHours(s[0], "begin"), FieldHours(s[n - 1], "end")),
                  LegacyPairRules(p, s, n - 1), LegacyRangeRules(p, begin, end, s, n));
    }
  }

  /** The pair loop raises exactly when a block before the last has no numeric `end`. */
  lemma LegacyPairsRaiseIff(p: Scope, s: seq<Json>)
    requires |s| > 0 && LegacySortable(s)
    ensures LegacyPairRules(p, s, |s| - 1).Raised? <==>
              exists j :: 0 <= j < |s| - 1 && FieldFault(s[j], "end").Some?
  {
    GatherOutcomeRaises(Pairs(s), (i: nat, pr: (Json, Json)) => LegacyPairRule(p, i, pr), |s| - 1);
    forall i | 0 <= i < |s| - 1
      ensures LegacyPairRule(p, i, Pairs(s)[i]).Raised? <==> FieldFault(s[i], "end").Some?
    {
      assert Pairs(s)[i] == (s[i], s[i + 1]);
    }
  }

  /** The range loop raises exactly when some block has no numeric `end`. */
  lemma LegacyRangesRaiseIff(p: Scope, begin: real, end: real, s: seq<Json>)
    requires LegacySortable(s)
    ensures LegacyRangeRules(p, begin, end, s, |s|).Raised? <==>
              exists j :: 0 <= j < |s| && FieldFault(s[j], "end").Some?
  {
    GatherOutcomeRaises(s, (j: nat, b: Json) => LegacyRangeRule(p, begin, end, j, b), |s|);
  }

  /** A block without `end` raises here; the business-rule layer reads it as 0. */
  lemma MissingEndRaises(p: Scope, begin: real, end: real, s: seq<Json>, j: nat)
    requires |s| > 0 && LegacySortable(s)
    requires j < |s| && "end" !in s[j].fields
    ensures LegacyTemporal(p, begin, end, s).Raised?
    ensures EndKey(s[j]) == 0.0 && IsNumber(EndValue(s[j]))
  {
    LegacyTemporalRaisesIff(p, begin, end, s);
    assert FieldFault(s[j], "end").Some?;
  }

  /** On timed blocks pair `i` is reported as overlapping, and as leaving a
      gap, exactly as in the business-rule layer. */
  lemma LegacyPairIff(p: Scope, begin: real, end: real, s: seq<Json>, i: nat)
    requires Timed(s) && i < |s| - 1
    requires LegacyTemporal(p, begin, end, s).Report?
    ensures Overlap(p, i, EndKey(s[i]), BeginKey(s[i + 1])) in LegacyTemporal(p, begin, end, s).issues
            <==> EndKey(s[i]) > BeginKey(s[i + 1]) + Tolerance
    ensures Gap(p, i, EndKey(s[i]), BeginKey(s[i + 1])) in LegacyTemporal(p, begin, end, s).issues
            <==> !AlmostEqual(EndKey(s[i]), BeginKey(s[i + 1]))
  {
    LegacyTemporalAgrees(p, begin, end, s);
    OverlapIff(p, begin, end, s, i);
    GapIff(p, begin, end, s, i);
  }

  /** On timed blocks the first and the last block are checked against the
      window exactly as in the business-rule layer. */
  lemma LegacyBoundaryIff(p: Scope, begin: real, end: real, s: seq<Json>)
    requires |s| > 0 && Timed(s)
    requires LegacyTemporal(p, begin, end, s).Report?
    ensures FirstBlockMisaligned(p, begin, BeginKey(s[0])) in LegacyTemporal(p, begin, end, s).issues
            <==> !AlmostEqual(BeginKey(s[0]), begin)
    ensures LastBlockMisaligned(p, end, EndKey(s[|s| - 1])) in LegacyTemporal(p, begin, end, s).issues
            <==> !AlmostEqual(EndKey(s[|s| - 1]), end)
  {
    LegacyTemporalAgrees(p, begin, end, s);
    FirstBlockIff(p, begin, end, s);
    LastBlockIff(p, begin, end, s);
  }

  // ---------------------------------------------------------------------
  // Blocks and criteria

  /** The slot duration is multiplied without `float()`: a numeric one gives
      the business-rule layer's length check, a non-numeric one raises where
      the business-rule layer skips the check. */
  lemma LegacyDurationAgrees(q: Scope, w: Option<(real, real)>, count: Json, sf: Json)
    ensures (sf.Object? ==> IsNumber(GetOr(sf.fields, "slot_duration", Int(0))))
            ==> LegacyDuration(q, w, count, sf) == Report(DurationIssue(q, w, count, sf))
    ensures sf.Object? && w.Some? && IsInteger(count) && !IsNumber(GetOr(sf.fields, "slot_duration", Int(0)))
            ==> LegacyDuration(q, w, count, sf) == Raised(NotNumeric(GetOr(sf.fields, "slot_duration", Int(0))))
                && DurationIssue(q, w, count, sf) == []
  {
  }

  /** With every criterion a dict, the criteria are checked exactly as in the
      business-rule layer. */
  lemma LegacyCriteriaAgrees(q: Scope, criteria: Json)
    requires IsNonEmptyList(criteria) ==> forall k :: 0 <= k < |criteria.items| ==> criteria.items[k].Object?
    ensures LegacyCriteria(q, criteria) == CriteriaRules(q, criteria)
  {
    if IsNonEmptyList(criteria) {
      GatherOutcomeCongruent(criteria.items, (k: nat, c: Json) => LegacyCriterionEntry(q, k, c),
                             (k: nat, c: Json) => CriterionRuleEntry(q, k, c), |criteria.items|);
    }
  }

  /** A criterion that is not a dict ends the whole call with the error of its
      `.get`; the business-rule layer reports it and goes on. */
  lemma NonDictCriterionRaises(q: Scope, criteria: Json, k: nat)
    requires IsNonEmptyList(criteria) && k < |criteria.items| && !criteria.items[k].Object?
    requires LegacyCriterionEntries(q, criteria.items, k).Report?
    ensures LegacyCriteria(q, criteria) == Raised(NotADict(criteria.items[k]))
    ensures CriterionRuleEntry(q, k, criteria.items[k]) == Report([NotAnObject(CriterionScope(q, k))])
  {
    GatherOutcomeRaisedAt(criteria.items, (k: nat, c: Json) => LegacyCriterionEntry(q, k, c), k);
  }

  lemma LegacyCriteriaKind(q: Scope, criteria: Json, u: Issue)
    requires LegacyCriteria(q, criteria).Report?
    requires u in LegacyCriteria(q, criteria).issues
    ensures CriterionKind(u)
  {
    if IsNonEmptyList(criteria) {
      var xs := criteria.items;
      GatherOutcomeMember(xs, (k: nat, c: Json) => LegacyCriterionEntry(q, k, c), |xs|, u);
      var k :| 0 <= k < |xs| && u in LegacyCriterionEntry(q, k, xs[k]).issues;
      CriterionRulesMember(xs[k].fields, CriterionScope(q, k), u);
    }
  }

  predicate LegacyBlockKind(u: Issue)
  {
    u.MissingKey? || u.BeginEndNotNumeric? || u.ShowsMissing? || BlockKind(u)
  }

  /** A block that is validated to the end reports its head, its length,
      its criteria and its `shows`, in that order. */
  lemma LegacyBlockParts(block: map<string, Json>, q: Scope)
    requires LegacyBlock(block, q).Report?
    ensures var duration := LegacyDuration(q, Window(block), GetOr(block, "slot_count", Null),
                                           GetOr(block, "slot_format", Object(map[])));
            var criteria := LegacyCriteria(q, GetOr(block, "criteria", Array([])));
            && duration.Report? && criteria.Report?
            && LegacyBlock(block, q).issues
               == LegacyBlockHead(block, q) + duration.issues + criteria.issues + LegacyShowsIssue(q, block)
  {
    var duration := LegacyDuration(q, Window(block), GetOr(block, "slot_count", Null),
                                   GetOr(block, "slot_format", Object(map[])));
    var criteria := LegacyCriteria(q, GetOr(block, "criteria", Array([])));
    ThenOfThree(LegacyBlockHead(block, q), duration, Then(criteria, Report(LegacyShowsIssue(q, block))));
  }

  lemma LegacyBlockHeadKind(block: map<string, Json>, q: Scope, u: Issue)
    requires u in LegacyBlockHead(block, q)
    ensures LegacyBlockKind(u)
  {
    if u in MissingKeys(q, block, BlockKeys, |BlockKeys|) {
      MissingKeysScoped(q, block, BlockKeys, |BlockKeys|, u);
    }
  }

  lemma LegacyDurationKind(q: Scope, w: Option<(real, real)>, count: Json, sf: Json, u: Issue)
    requires LegacyDuration(q, w, count, sf).Report?
    requires u in LegacyDuration(q, w, count, sf).issues
    ensures u.DurationMismatch?
  {
  }

  /** A block reports only on itself and its criteria. */
  lemma LegacyBlockIssueKind(block: map<string, Json>, q: Scope, u: Issue)
    requires LegacyBlock(block, q).Report?
    requires u in LegacyBlock(block, q).issues
    ensures LegacyBlockKind(u)
  {
    var w := Window(block);
    var count := GetOr(block, "slot_count", Null);
    var sf := GetOr(block, "slot_format", Object(map[]));
    var c := GetOr(block, "criteria", Array([]));
    var head := LegacyBlockHead(block, q);
    var duration := LegacyDuration(q, w, count, sf);
    var criteria := LegacyCriteria(q, c);
    var shows := LegacyShowsIssue(q, block);
    assert duration.Report? && criteria.Report? && u in head + duration.issues + criteria.issues + shows by {
      LegacyBlockParts(block, q);
    }
    if u in head {
      LegacyBlockHeadKind(block, q, u);
    } else if u in duration.issues {
      LegacyDurationKind(q, w, count, sf, u);
    } else if u in criteria.issues {
      LegacyCriteriaKind(q, c, u);
    }
  }

  /** The sorted blocks report only on themselves, never on continuity. */
  lemma LegacyBlockEntriesKind(p: Scope, s: seq<Json>, u: Issue)
    requires LegacyBlockEntries(p, s, |s|).Report?
    requires u in LegacyBlockEntries(p, s, |s|).issues
    ensures LegacyBlockKind(u) && !TemporalKind(u)
  {
    GatherOutcomeMember(s, (j: nat, b: Json) => LegacyBlockEntry(p, j, b), |s|, u);
    var j :| 0 <= j < |s| && u in LegacyBlockEntry(p, j, s[j]).issues;
    LegacyBlockIssueKind(s[j].fields, BlockScope(p, j), u);
    BlockKindNotTemporal(u);
  }

  lemma BlockKindNotTemporal(u: Issue)
    requires LegacyBlockKind(u)
    ensures !TemporalKind(u)
  {
  }

  /** A channel reports its head, then either one stopping issue or what the
      sorted blocks report. */
  lemma LegacyChannelParts(channel: map<string, Json>, idx: nat, u: Issue)
    requires LegacyChannel(channel, idx).Report?
    requires u in LegacyChannel(channel, idx).issues
    ensures var p := ChannelPrefix(channel, idx);
            var blocks := GetOr(channel, "blocks", Array([]));
            || u in LegacyChannelHead(channel, p).issues
            || u == BlocksNotNonEmptyList(p)
            || u == BlocksNotSortable(p)
            || (&& IsNonEmptyList(blocks) && LegacySortable(blocks.items)
                && LegacyChannelBlocks(Window(channel), p, blocks.items).Report?
                && u in LegacyChannelBlocks(Window(channel), p, blocks.items).issues)
  {
  }

  /** A channel window that cannot be converted is reported and switches off
      every continuity check of the channel. */
  lemma NoWindowNoContinuity(channel: map<string, Json>, idx: nat, u: Issue)
    requires Window(channel).None?
    requires LegacyChannel(channel, idx).Report?
    ensures BeginEndNotNumeric(ChannelPrefix(channel, idx)) in LegacyChannel(channel, idx).issues
    ensures u in LegacyChannel(channel, idx).issues ==> !TemporalKind(u)
  {
    var p := ChannelPrefix(channel, idx);
    var head := LegacyChannelHead(channel, p);
    var blocks := GetOr(channel, "blocks", Array([]));
    assert BeginEndNotNumeric(p) in head.issues;
    if u in LegacyChannel(channel, idx).issues {
      LegacyChannelParts(channel, idx, u);
      if u in head.issues {
        LegacyChannelHeadKind(channel, p, u);
      } else if IsNonEmptyList(blocks) && LegacySortable(blocks.items)
                && u in LegacyChannelBlocks(Window(channel), p, blocks.items).issues {
        var sorted := SortByBegin(blocks.items);
        SortPermutes(blocks.items, BeginKey);
        assert LegacyChannelBlocks(Window(channel), p, blocks.items) == LegacyBlockEntries(p, sorted, |sorted|);
        LegacyBlockEntriesKind(p, sorted, u);
      }
    }
  }

  /** A block without `shows` is reported twice: once among the missing keys
      and once by the dedicated check. */
  lemma ShowsMissingTwice(block: map<string, Json>, q: Scope)
    requires "shows" !in block
    requires LegacyBlock(block, q).Report?
    ensures MissingKey(q, "shows") in LegacyBlock(block, q).issues
    ensures ShowsMissing(q) in LegacyBlock(block, q).issues
  {
    GatherMember(BlockKeys, (j: nat, key: string) => MissingKeyIssue(q, block, key), |BlockKeys|, MissingKey(q, "shows"));
    assert MissingKey(q, "shows") in MissingKeyIssue(q, block, BlockKeys[5]);
  }

  /** A `null` shows list is reported here; the business-rule layer accepts it. */
  lemma NullShowsReported(block: map<string, Json>, q: Scope)
    requires "shows" in block && block["shows"] == Null
    ensures LegacyShowsIssue(q, block) == [ShowsNotList(q)]
    ensures ShowsIssue(q, GetOr(block, "shows", Null)) == []
  {
  }

  /** Apart from its missing keys, a block with a numeric window, a numeric
      slot duration, dict criteria and a `shows` value is checked exactly as
      in the business-rule layer. */
  lemma LegacyBlockAgrees(block: map<string, Json>, q: Scope)
    requires Window(block).Some?
    requires var sf := GetOr(block, "slot_format", Object(map[]));
             sf.Object? ==> IsNumber(GetOr(sf.fields, "slot_duration", Int(0)))
    requires var c := GetOr(block, "criteria", Array([]));
             IsNonEmptyList(c) ==> forall k :: 0 <= k < |c.items| ==> c.items[k].Object?
    requires "shows" in block && block["shows"] != Null
    ensures LegacyBlock(block, q) == Then(Report(MissingKeys(q, block, BlockKeys, |BlockKeys|)), BlockRules(block, q))
  {
    var count := GetOr(block, "slot_count", Null);
    var sf := GetOr(block, "slot_format", Object(map[]));
    var criteria := GetOr(block, "criteria", Array([]));
    var keys := MissingKeys(q, block, BlockKeys, |BlockKeys|);
    var head := LegacyBlockHead(block, q);
    var d := DurationIssue(q, Window(block), count, sf);
    var rest := Then(CriteriaRules(q, criteria), Report(ShowsIssue(q, GetOr(block, "shows", Null))));
    assert Then(LegacyCriteria(q, criteria), Report(LegacyShowsIssue(q, block))) == rest by {
      LegacyCriteriaAgrees(q, criteria);
    }
    assert LegacyBlock(block, q) == Then(Report(head), Then(Report(d), rest)) by {
      LegacyDurationAgrees(q, Window(block), count, sf);
    }
    assert head + d == keys + BlockHeadIssues(block, q) by {
      assert LegacyWindowIssues(q, block) == WindowIssues(q, Window(block));
    }
    ThenOfThree(head, Report(d), rest);
    ThenOfThree(keys, Report(BlockHeadIssues(block, q)), rest);
  }

  /** The blocks handed to `validate_block` are dicts: its raising branch is
      never taken once the blocks could be sorted. */
  lemma SortedBlocksAreDicts(blocks: seq<Json>)
    requires LegacySortable(blocks)
    ensures forall j :: 0 <= j < |SortByBegin(blocks)| ==> SortByBegin(blocks)[j].Object?
  {
    SortKeepsLegacyShape(blocks);
  }
}
