/** What the business-rule layer promises, proved about its specification. */
module RulesProperties {
  import opened JsonValues
  import opened Issues
  import opened Gathering
  import opened Sorting
  import opened StructureValidation
  import opened StructureProperties
  import opened RulesValidation

  // ---------------------------------------------------------------------
  // Tolerance and slot formats

  lemma AlmostEqualWithin(a: real, b: real)
    ensures AlmostEqual(a, b) <==> b - Tolerance <= a <= b + Tolerance
    ensures AlmostEqual(a, b) == AlmostEqual(b, a)
  {
  }

  /** The five (show_min_duration, show_max_duration, slot_duration) triples, as numbers. */
  const AllowedTriples: set<(real, real, real)> :=
    {(22.0, 26.0, 30.0), (45.0, 52.0, 60.0), (70.0, 80.0, 90.0), (95.0, 110.0, 120.0), (12.0, 13.0, 15.0)}

  function Triple(sf: map<string, Json>): Option<(real, real, real)>
  {
    var a := GetOr(sf, "show_min_duration", Null);
    var b := GetOr(sf, "show_max_duration", Null);
    var c := GetOr(sf, "slot_duration", Null);
    if IsNumber(a) && IsNumber(b) && IsNumber(c) then Some((NumericValue(a), NumericValue(b), NumericValue(c)))
    else None
  }

  /** A slot format is allowed exactly when its three fields are numbers
      forming one of the five listed triples. */
  lemma AllowedSlotFormatIff(sf: map<string, Json>)
    ensures IsAllowedSlotFormat(sf) <==> Triple(sf).Some? && Triple(sf).value in AllowedTriples
  {
    var t := Triple(sf);
    if IsAllowedSlotFormat(sf) {
      var i :| 0 <= i < |AllowedSlotFormats| && MatchesFormat(sf, AllowedSlotFormats[i]);
      assert t.Some?;
      assert i == 0 || i == 1 || i == 2 || i == 3 || i == 4;
    }
    if t.Some? && t.value in AllowedTriples {
      if t.value == (22.0, 26.0, 30.0) {
        assert MatchesFormat(sf, AllowedSlotFormats[0]);
      } else if t.value == (45.0, 52.0, 60.0) {
        assert MatchesFormat(sf, AllowedSlotFormats[1]);
      } else if t.value == (70.0, 80.0, 90.0) {
        assert MatchesFormat(sf, AllowedSlotFormats[2]);
      } else if t.value == (95.0, 110.0, 120.0) {
        assert MatchesFormat(sf, AllowedSlotFormats[3]);
      } else {
        assert MatchesFormat(sf, AllowedSlotFormats[4]);
      }
    }
  }

  // ---------------------------------------------------------------------
  // Catalog level: structure first, then each dict channel's rules

  lemma ThenReport(a: Outcome, b: Outcome)
    requires Then(a, b).Report?
    ensures a.Report? && b.Report? && Then(a, b).issues == a.issues + b.issues
  {
  }

  function Channels(catalog: map<string, Json>): seq<Json>
  {
    var channels := GetOr(catalog, "channels", Array([]));
    if channels.Array? then channels.items else []
  }

  /** The rule layer only appends to the structure issues, and what it
      appends comes from the dict channels' own rules. */
  lemma CatalogRulesExtendStructure(catalog: map<string, Json>, u: Issue)
    requires CatalogRules(catalog).Report?
    ensures CatalogStructure(catalog) <= CatalogRules(catalog).issues
    ensures u in CatalogRules(catalog).issues <==>
              u in CatalogStructure(catalog)
              || exists i :: 0 <= i < |Channels(catalog)| && Channels(catalog)[i].Object?
                              && ChannelRules(Channels(catalog)[i].fields, i).Report?
                              && u in ChannelRules(Channels(catalog)[i].fields, i).issues
  {
    var xs := Channels(catalog);
    var rest := if GetOr(catalog, "channels", Array([])).Array? then ChannelRuleEntries(xs, |xs|) else Report([]);
    ThenReport(Report(CatalogStructure(catalog)), rest);
    if GetOr(catalog, "channels", Array([])).Array? {
      GatherOutcomeMember(xs, (i: nat, ch: Json) => ChannelRuleEntry(i, ch), |xs|, u);
    }
  }

  /** The rule layer raises exactly when the rules of some dict channel raise. */
  lemma CatalogRulesRaise(catalog: map<string, Json>)
    ensures CatalogRules(catalog).Raised? <==>
              exists i :: 0 <= i < |Channels(catalog)| && Channels(catalog)[i].Object?
                          && ChannelRules(Channels(catalog)[i].fields, i).Raised?
  {
    var xs := Channels(catalog);
    if GetOr(catalog, "channels", Array([])).Array? {
      GatherOutcomeRaises(xs, (i: nat, ch: Json) => ChannelRuleEntry(i, ch), |xs|);
    }
  }

  /** A string filler outside the genre keys is reported by both layers,
      with the same message. */
  lemma UnknownFillerReportedTwice(catalog: map<string, Json>, i: nat, g: Json)
    requires CatalogRules(catalog).Report?
    requires i < |Channels(catalog)| && Channels(catalog)[i].Object?
    requires var fillers := GetOr(Channels(catalog)[i].fields, "fillers", Null);
             fillers.Array? && g in fillers.items
    requires g.Str? && g.s !in GenreKeys
    ensures multiset(CatalogRules(catalog).issues)[UnknownFiller(ChannelPrefix(Channels(catalog)[i].fields, i), g)] >= 2
  {
    var xs := Channels(catalog);
    var u := UnknownFiller(ChannelPrefix(xs[i].fields, i), g);
    var rest := ChannelRuleEntries(xs, |xs|);
    ThenReport(Report(CatalogStructure(catalog)), rest);
    UnknownFillerInStructure(catalog, i, g);
    UnknownFillerInRules(xs, i, g);
    var all := CatalogRules(catalog).issues;
    assert all == CatalogStructure(catalog) + rest.issues;
    assert multiset(all) == multiset(CatalogStructure(catalog)) + multiset(rest.issues);
  }

  /** The structure layer reports a string filler outside the genre keys. */
  lemma UnknownFillerInStructure(catalog: map<string, Json>, i: nat, g: Json)
    requires i < |Channels(catalog)| && Channels(catalog)[i].Object?
    requires var fillers := GetOr(Channels(catalog)[i].fields, "fillers", Null);
             fillers.Array? && g in fillers.items
    requires g.Str? && g.s !in GenreKeys
    ensures UnknownFiller(ChannelPrefix(Channels(catalog)[i].fields, i), g) in CatalogStructure(catalog)
  {
    var xs := Channels(catalog);
    var ch := xs[i].fields;
    var u := UnknownFiller(ChannelPrefix(ch, i), g);
    UnknownFillerReported(ChannelPrefix(ch, i), GetOr(ch, "fillers", Null), g);
    assert u in ChannelEntry(i, xs[i]);
    GatherMember(xs, (i: nat, c: Json) => ChannelEntry(i, c), |xs|, u);
  }

  /** The rule layer reports the same filler, from the channel's head checks. */
  lemma UnknownFillerInRules(xs: seq<Json>, i: nat, g: Json)
    requires ChannelRuleEntries(xs, |xs|).Report?
    requires i < |xs| && xs[i].Object?
    requires var fillers := GetOr(xs[i].fields, "fillers", Null);
             fillers.Array? && g in fillers.items
    requires g.Str? && g.s !in GenreKeys
    ensures UnknownFiller(ChannelPrefix(xs[i].fields, i), g) in ChannelRuleEntries(xs, |xs|).issues
  {
    var ch := xs[i].fields;
    var p := ChannelPrefix(ch, i);
    var u := UnknownFiller(p, g);
    var fillers := GetOr(ch, "fillers", Null);
    GatherOutcomeMember(xs, (i: nat, c: Json) => ChannelRuleEntry(i, c), |xs|, u);
    var rules := ChannelRules(ch, i);
    assert rules.Report?;
    var head := ChannelHead(ch, p);
    FillerRulesMember(p, fillers.items, u);
    assert u in head.issues;
    var blocks := GetOr(ch, "blocks", Array([]));
    if !IsNonEmptyList(blocks) {
    } else if !Sortable(blocks.items) {
      ThenReport(head, Report([BlocksNotSortable(p)]));
    } else {
      ThenReport(head, ChannelBlockRules(ch, p, blocks.items));
    }
    assert u in rules.issues;
  }

  lemma FillerRulesMember(p: Scope, fillers: seq<Json>, u: Issue)
    requires FillerRules(p, fillers, |fillers|).Report?
    ensures u in FillerRules(p, fillers, |fillers|).issues <==>
              exists j :: 0 <= j < |fillers| && u == UnknownFiller(p, fillers[j]) && !IsMemberOf(fillers[j], GenreKeys)
  {
    GatherOutcomeMember(fillers, (j: nat, g: Json) => FillerRule(p, g), |fillers|, u);
  }

  // ---------------------------------------------------------------------
  // Continuity of the sorted blocks

  /** `float(b.get("end", 0))`, 0 where it would raise. */
  function EndKey(b: Json): real
  {
    if IsNumber(EndValue(b)) then NumericValue(EndValue(b)) else 0.0
  }

  predicate EndsNumeric(s: seq<Json>)
  {
    forall j :: 0 <= j < |s| ==> IsNumber(EndValue(s[j]))
  }

  lemma PairRulesMember(p: Scope, s: seq<Json>, u: Issue)
    requires |s| > 0
    requires PairRules(p, s, |s| - 1).Report?
    ensures forall i :: 0 <= i < |s| - 1 ==> PairRule(p, i, (s[i], s[i + 1])).Report?
    ensures u in PairRules(p, s, |s| - 1).issues <==>
              exists i :: 0 <= i < |s| - 1 && u in PairRule(p, i, (s[i], s[i + 1])).issues
  {
    var f := (i: nat, pr: (Json, Json)) => PairRule(p, i, pr);
    GatherOutcomeMember(Pairs(s), f, |s| - 1, u);
    forall i | 0 <= i < |s| - 1
      ensures f(i, Pairs(s)[i]) == PairRule(p, i, (s[i], s[i + 1]))
    {
      assert Pairs(s)[i] == (s[i], s[i + 1]);
    }
  }

  lemma RangeIssuesMember(p: Scope, begin: real, end: real, s: seq<Json>, u: Issue)
    ensures u in RangeIssues(p, begin, end, s, |s|) <==>
              exists j :: 0 <= j < |s| && u in RangeIssue(p, begin, end, j, s[j])
  {
    GatherMember(s, (j: nat, b: Json) => RangeIssue(p, begin, end, j, b), |s|, u);
  }

  /** With readable begins, the continuity checks raise exactly when some
      block's `end` is not a number. */
  lemma TemporalRaisesIff(p: Scope, begin: real, end: real, s: seq<Json>)
    requires |s| > 0 && Sortable(s)
    ensures TemporalRules(p, begin, end, s).Raised? <==> !EndsNumeric(s)
  {
    var n := |s|;
    assert IsNumber(BeginValue(s[0]));
    PairRulesRaiseIff(p, s);
    if IsNumber(EndValue(s[n - 1])) {
      ThenOfThree(BoundaryIssues(p, begin, end, BeginKey(s[0]), EndKey(s[n - 1])),
                  PairRules(p, s, n - 1), Report(RangeIssues(p, begin, end, s, n)));
      if !EndsNumeric(s) {
        var j :| 0 <= j < n && !IsNumber(EndValue(s[j]));
        assert j < n - 1;
      }
    }
  }

  /** With readable begins, the pair loop raises exactly when a block before
      the last has no numeric `end`. */
  lemma PairRulesRaiseIff(p: Scope, s: seq<Json>)
    requires |s| > 0 && Sortable(s)
    ensures PairRules(p, s, |s| - 1).Raised? <==> exists j :: 0 <= j < |s| - 1 && !IsNumber(EndValue(s[j]))
  {
    GatherOutcomeRaises(Pairs(s), (i: nat, pr: (Json, Json)) => PairRule(p, i, pr), |s| - 1);
    forall i | 0 <= i < |s| - 1
      ensures PairRule(p, i, Pairs(s)[i]).Raised? <==> !IsNumber(EndValue(s[i]))
    {
      assert Pairs(s)[i] == (s[i], s[i + 1]);
    }
  }

  /** The issues of the continuity checks, when they do not raise. */
  lemma TemporalParts(p: Scope, begin: real, end: real, s: seq<Json>)
    requires |s| > 0
    requires TemporalRules(p, begin, end, s).Report?
    ensures IsNumber(BeginValue(s[0])) && IsNumber(EndValue(s[|s| - 1]))
    ensures PairRules(p, s, |s| - 1).Report?
    ensures TemporalRules(p, begin, end, s).issues
            == BoundaryIssues(p, begin, end, BeginKey(s[0]), EndKey(s[|s| - 1]))
               + PairRules(p, s, |s| - 1).issues + RangeIssues(p, begin, end, s, |s|)
  {
  }

  /** The first sorted block must start at the channel's `begin`. */
  lemma FirstBlockIff(p: Scope, begin: real, end: real, s: seq<Json>)
    requires |s| > 0
    requires TemporalRules(p, begin, end, s).Report?
    ensures FirstBlockMisaligned(p, begin, BeginKey(s[0])) in TemporalRules(p, begin, end, s).issues
            <==> !AlmostEqual(BeginKey(s[0]), begin)
  {
    var u := FirstBlockMisaligned(p, begin, BeginKey(s[0]));
    TemporalParts(p, begin, end, s);
    PairRulesKind(p, s, u);
    RangeIssuesAt(p, begin, end, s, u);
  }

  /** The last sorted block must end at the channel's `end`. */
  lemma LastBlockIff(p: Scope, begin: real, end: real, s: seq<Json>)
    requires |s| > 0
    requires TemporalRules(p, begin, end, s).Report?
    ensures LastBlockMisaligned(p, end, EndKey(s[|s| - 1])) in TemporalRules(p, begin, end, s).issues
            <==> !AlmostEqual(EndKey(s[|s| - 1]), end)
  {
    var u := LastBlockMisaligned(p, end, EndKey(s[|s| - 1]));
    TemporalParts(p, begin, end, s);
    PairRulesKind(p, s, u);
    RangeIssuesAt(p, begin, end, s, u);
  }

  lemma PairRuleShape(p: Scope, i: nat, pr: (Json, Json), u: Issue)
    requires PairRule(p, i, pr).Report? && u in PairRule(p, i, pr).issues
    ensures (u.Overlap? || u.Gap?) && u.pair == i
  {
  }

  lemma RangeIssueShape(p: Scope, begin: real, end: real, j: nat, b: Json, u: Issue)
    requires u in RangeIssue(p, begin, end, j, b)
    ensures u.OutOfRange? && u.block == j
  {
  }

  /** An issue of the pair loop is an overlap or a gap of one of the pairs. */
  lemma PairRulesKind(p: Scope, s: seq<Json>, u: Issue)
    requires |s| > 0
    requires PairRules(p, s, |s| - 1).Report?
    ensures u in PairRules(p, s, |s| - 1).issues ==> (u.Overlap? || u.Gap?) && u.pair < |s| - 1
  {
    if u in PairRules(p, s, |s| - 1).issues {
      var f := (i: nat, pr: (Json, Json)) => PairRule(p, i, pr);
      GatherOutcomeMember(Pairs(s), f, |s| - 1, u);
      var k :| 0 <= k < |s| - 1 && u in f(k, Pairs(s)[k]).issues;
      PairRuleShape(p, k, Pairs(s)[k], u);
    }
  }

  /** An issue of the range loop is an out-of-range report, made by the round of its own block. */
  lemma RangeIssuesAt(p: Scope, begin: real, end: real, s: seq<Json>, u: Issue)
    ensures u in RangeIssues(p, begin, end, s, |s|) <==>
              u.OutOfRange? && u.block < |s| && u in RangeIssue(p, begin, end, u.block, s[u.block])
  {
    RangeIssuesMember(p, begin, end, s, u);
    if u in RangeIssues(p, begin, end, s, |s|) {
      var j :| 0 <= j < |s| && u in RangeIssue(p, begin, end, j, s[j]);
      RangeIssueShape(p, begin, end, j, s[j], u);
    }
  }

  /** Round `i` of the pair loop, in a run that did not raise. */
  lemma PairRound(p: Scope, begin: real, end: real, s: seq<Json>, i: nat)
    requires i < |s| - 1
    requires TemporalRules(p, begin, end, s).Report?
    ensures PairRule(p, i, (s[i], s[i + 1])).Report?
    ensures PairRule(p, i, (s[i], s[i + 1])).issues == PairIssues(p, i, EndKey(s[i]), BeginKey(s[i + 1]))
  {
    TemporalParts(p, begin, end, s);
    PairRulesMember(p, s, Gap(p, i, 0.0, 0.0));
  }

  /** The only issues about pair `i` come from round `i` of the pair loop. */
  lemma PairIssueFromRound(p: Scope, begin: real, end: real, s: seq<Json>, i: nat, u: Issue)
    requires i < |s| - 1
    requires TemporalRules(p, begin, end, s).Report?
    requires (u.Overlap? || u.Gap?) && u.pair == i
    ensures u in TemporalRules(p, begin, end, s).issues <==> u in PairIssues(p, i, EndKey(s[i]), BeginKey(s[i + 1]))
  {
    TemporalParts(p, begin, end, s);
    PairRound(p, begin, end, s, i);
    PairRulesAtRound(p, s, i, u);
    RangeIssuesAt(p, begin, end, s, u);
  }

  /** An overlap or gap of pair `i` comes from round `i` of the pair loop and no other. */
  lemma PairRulesAtRound(p: Scope, s: seq<Json>, i: nat, u: Issue)
    requires i < |s| - 1
    requires PairRules(p, s, |s| - 1).Report?
    requires (u.Overlap? || u.Gap?) && u.pair == i
    ensures PairRule(p, i, (s[i], s[i + 1])).Report?
    ensures u in PairRules(p, s, |s| - 1).issues <==> u in PairRule(p, i, (s[i], s[i + 1])).issues
  {
    var f := (i: nat, pr: (Json, Json)) => PairRule(p, i, pr);
    GatherOutcomeMember(Pairs(s), f, |s| - 1, u);
    assert Pairs(s)[i] == (s[i], s[i + 1]);
    if u in PairRules(p, s, |s| - 1).issues {
      var k :| 0 <= k < |s| - 1 && u in f(k, Pairs(s)[k]).issues;
      PairRuleShape(p, k, Pairs(s)[k], u);
    }
  }

  /** Pair `i` overlaps exactly when block `i` ends more than the tolerance
      after block `i + 1` begins. */
  lemma OverlapIff(p: Scope, begin: real, end: real, s: seq<Json>, i: nat)
    requires i < |s| - 1
    requires TemporalRules(p, begin, end, s).Report?
    ensures Overlap(p, i, EndKey(s[i]), BeginKey(s[i + 1])) in TemporalRules(p, begin, end, s).issues
            <==> EndKey(s[i]) > BeginKey(s[i + 1]) + Tolerance
  {
    PairIssueFromRound(p, begin, end, s, i, Overlap(p, i, EndKey(s[i]), BeginKey(s[i + 1])));
  }

  /** Pair `i` leaves a gap exactly when its end and the next begin differ by more than the tolerance. */
  lemma GapIff(p: Scope, begin: real, end: real, s: seq<Json>, i: nat)
    requires i < |s| - 1
    requires TemporalRules(p, begin, end, s).Report?
    ensures Gap(p, i, EndKey(s[i]), BeginKey(s[i + 1])) in TemporalRules(p, begin, end, s).issues
            <==> !AlmostEqual(EndKey(s[i]), BeginKey(s[i + 1]))
  {
    PairIssueFromRound(p, begin, end, s, i, Gap(p, i, EndKey(s[i]), BeginKey(s[i + 1])));
  }

  /** Every overlap is also reported as a gap, with the same figures. */
  lemma OverlapIsAlsoGap(p: Scope, begin: real, end: real, s: seq<Json>, u: Issue)
    requires |s| > 0
    requires TemporalRules(p, begin, end, s).Report?
    requires u.Overlap? && u.pair < |s| - 1
    requires u in TemporalRules(p, begin, end, s).issues
    ensures Gap(u.scope, u.pair, u.currentEnd, u.nextBegin) in TemporalRules(p, begin, end, s).issues
  {
    var i := u.pair;
    PairIssueFromRound(p, begin, end, s, i, u);
    PairIssueFromRound(p, begin, end, s, i, Gap(u.scope, u.pair, u.currentEnd, u.nextBegin));
  }

  /** Block `j` is out of range exactly when it starts before the channel
      or ends after it, beyond the tolerance. */
  lemma OutOfRangeIff(p: Scope, begin: real, end: real, s: seq<Json>, j: nat)
    requires j < |s|
    requires TemporalRules(p, begin, end, s).Report?
    requires Sortable(s)
    ensures OutOfRange(p, j, BeginKey(s[j]), EndKey(s[j]), begin, end) in TemporalRules(p, begin, end, s).issues
            <==> BeginKey(s[j]) < begin - Tolerance || EndKey(s[j]) > end + Tolerance
  {
    var u := OutOfRange(p, j, BeginKey(s[j]), EndKey(s[j]), begin, end);
    TemporalParts(p, begin, end, s);
    TemporalRaisesIff(p, begin, end, s);
    assert IsNumber(BeginValue(s[j])) && IsNumber(EndValue(s[j]));
    PairRulesKind(p, s, u);
    RangeIssuesAt(p, begin, end, s, u);
    if BeginKey(s[j]) < begin - Tolerance || EndKey(s[j]) > end + Tolerance {
      assert u in RangeIssue(p, begin, end, j, s[j]);
    }
  }

  // ---------------------------------------------------------------------
  // Which part of the rule layer can produce which issue

  predicate CriterionKind(u: Issue)
  {
    u.CriteriaRequired? || u.NotAnObject? || u.InvalidCategory? || u.ForbiddenNotBool?
    || u.ValuesNotNonEmptyList? || u.UnknownGenre? || u.InvalidType? || u.LanguageNotString?
    || u.DurationNotNumeric? || u.DurationNotPositive?
  }

  predicate BlockKind(u: Issue)
  {
    u.BeginNotBeforeEnd? || u.SlotCountNotOneOrTwo? || u.SlotFormatNotAllowed?
    || u.DurationMismatch? || u.ShowsNotList? || CriterionKind(u)
  }

  predicate ValueKind(u: Issue)
  {
    u.UnknownGenre? || u.InvalidType? || u.LanguageNotString? || u.DurationNotNumeric? || u.DurationNotPositive?
  }

  lemma ValueRulesMember(p: Scope, category: Json, values: seq<Json>, u: Issue)
    requires ValueRules(p, category, values, |values|).Report?
    ensures u in ValueRules(p, category, values, |values|).issues <==>
              exists j :: 0 <= j < |values| && ValueRule(p, category, values[j]).Report?
                          && u in ValueRule(p, category, values[j]).issues
    ensures u in ValueRules(p, category, values, |values|).issues ==> ValueKind(u)
  {
    GatherOutcomeMember(values, (j: nat, v: Json) => ValueRule(p, category, v), |values|, u);
  }

  /** The issues of one criterion, split into its header checks and its value loop. */
  lemma CriterionRulesMember(crit: map<string, Json>, p: Scope, u: Issue)
    requires CriterionRules(crit, p).Report?
    ensures CriterionKind(u) || !(u in CriterionRules(crit, p).issues)
    ensures u in CriterionRules(crit, p).issues <==>
              u in CriterionHeadIssues(crit, p)
              || (IsNonEmptyList(GetOr(crit, "values", Null))
                  && (exists j ::
                        && 0 <= j < |GetOr(crit, "values", Null).items|
                        && ValueRule(p, GetOr(crit, "category", Null), GetOr(crit, "values", Null).items[j]).Report?
                        && u in ValueRule(p, GetOr(crit, "category", Null), GetOr(crit, "values", Null).items[j]).issues))
  {
    var values := GetOr(crit, "values", Null);
    var category := GetOr(crit, "category", Null);
    if IsNonEmptyList(values) {
      ThenReport(Report(CriterionHeadIssues(crit, p)), ValueRules(p, category, values.items, |values.items|));
      ValueRulesMember(p, category, values.items, u);
    }
  }

  lemma CriteriaRulesKind(p: Scope, criteria: Json, u: Issue)
    requires CriteriaRules(p, criteria).Report?
    requires u in CriteriaRules(p, criteria).issues
    ensures CriterionKind(u)
  {
    if IsNonEmptyList(criteria) {
      var xs := criteria.items;
      GatherOutcomeMember(xs, (k: nat, c: Json) => CriterionRuleEntry(p, k, c), |xs|, u);
      var k :| 0 <= k < |xs| && u in CriterionRuleEntry(p, k, xs[k]).issues;
      if xs[k].Object? {
        CriterionRulesMember(xs[k].fields, CriterionScope(p, k), u);
      }
    }
  }

  /** The issues of one block: its header checks, its criteria, its shows. */
  lemma BlockRulesParts(block: map<string, Json>, p: Scope)
    requires BlockRules(block, p).Report?
    ensures CriteriaRules(p, GetOr(block, "criteria", Array([]))).Report?
    ensures BlockRules(block, p).issues
            == BlockHeadIssues(block, p) + CriteriaRules(p, GetOr(block, "criteria", Array([]))).issues
               + ShowsIssue(p, GetOr(block, "shows", Null))
  {
  }

  lemma BlockRulesKind(block: map<string, Json>, p: Scope, u: Issue)
    requires BlockRules(block, p).Report?
    requires u in BlockRules(block, p).issues
    ensures BlockKind(u)
  {
    BlockRulesParts(block, p);
    if u in CriteriaRules(p, GetOr(block, "criteria", Array([]))).issues {
      CriteriaRulesKind(p, GetOr(block, "criteria", Array([])), u);
    }
  }

  /** A header issue of a block is reported exactly when its header check fails. */
  lemma BlockHeadMember(block: map<string, Json>, p: Scope, u: Issue)
    requires BlockRules(block, p).Report?
    requires !CriterionKind(u) && !u.ShowsNotList?
    ensures u in BlockRules(block, p).issues <==> u in BlockHeadIssues(block, p)
  {
    BlockRulesParts(block, p);
    if u in CriteriaRules(p, GetOr(block, "criteria", Array([]))).issues {
      CriteriaRulesKind(p, GetOr(block, "criteria", Array([])), u);
    }
  }

  // ---------------------------------------------------------------------
  // Block rules

  /** `slot_count not in (1, 2)`: `True`, `1.0` and `2.0` pass, as in Python. */
  lemma SlotCountIff(block: map<string, Json>, p: Scope)
    requires BlockRules(block, p).Report?
    ensures var count := GetOr(block, "slot_count", Null);
            SlotCountNotOneOrTwo(p, count) in BlockRules(block, p).issues
            <==> !(IsNumber(count) && (NumericValue(count) == 1.0 || NumericValue(count) == 2.0))
  {
    BlockHeadMember(block, p, SlotCountNotOneOrTwo(p, GetOr(block, "slot_count", Null)));
  }

  /** The slot format must be a dict equal to one of the five allowed triples. */
  lemma SlotFormatIff(block: map<string, Json>, p: Scope)
    requires BlockRules(block, p).Report?
    ensures var sf := GetOr(block, "slot_format", Object(map[]));
            SlotFormatNotAllowed(p, sf) in BlockRules(block, p).issues
            <==> !sf.Object? || Triple(sf.fields).None? || Triple(sf.fields).value !in AllowedTriples
  {
    var sf := GetOr(block, "slot_format", Object(map[]));
    BlockHeadMember(block, p, SlotFormatNotAllowed(p, sf));
    if sf.Object? {
      AllowedSlotFormatIff(sf.fields);
    }
  }

  /** The block length is checked against `slot_duration * slot_count / 60`
      exactly when begin, end, an int `slot_count`, a dict slot format and a
      numeric `slot_duration` (0 when absent) are all available. */
  lemma DurationIssueIff(p: Scope, w: Option<(real, real)>, count: Json, sf: Json)
    ensures DurationIssue(p, w, count, sf) != [] <==>
              (w.Some? && IsInteger(count) && sf.Object?
               && IsNumber(GetOr(sf.fields, "slot_duration", Int(0)))
               && !AlmostEqual(SlotHours(NumericValue(GetOr(sf.fields, "slot_duration", Int(0))), NumericValue(count)),
                               w.value.1 - w.value.0))
    ensures forall u :: u in DurationIssue(p, w, count, sf) ==> u.DurationMismatch?
  {
  }

  /** A duration mismatch is reported exactly when the block's duration check fails. */
  lemma DurationIff(block: map<string, Json>, p: Scope)
    requires BlockRules(block, p).Report?
    ensures (exists u :: u in BlockRules(block, p).issues && u.DurationMismatch?)
            <==> DurationIssue(p, Window(block), GetOr(block, "slot_count", Null),
                               GetOr(block, "slot_format", Object(map[]))) != []
  {
    var d := DurationIssue(p, Window(block), GetOr(block, "slot_count", Null), GetOr(block, "slot_format", Object(map[])));
    DurationIssueIff(p, Window(block), GetOr(block, "slot_count", Null), GetOr(block, "slot_format", Object(map[])));
    forall u | u in BlockRules(block, p).issues && u.DurationMismatch?
      ensures u in d
    {
      BlockHeadMember(block, p, u);
    }
    if d != [] {
      BlockHeadMember(block, p, d[0]);
    }
  }

  // ---------------------------------------------------------------------
  // Criterion rules

  /** A criterion raises exactly when its category, or a genre or type value, is a list or dict. */
  lemma CriterionRaisesIff(crit: map<string, Json>, p: Scope)
    ensures var category := GetOr(crit, "category", Null);
            var values := GetOr(crit, "values", Null);
            CriterionRules(crit, p).Raised? <==>
              !Hashable(category)
              || (IsNonEmptyList(values) && (category == Str("genre") || category == Str("type"))
                  && exists j :: 0 <= j < |values.items| && !Hashable(values.items[j]))
  {
    var category := GetOr(crit, "category", Null);
    var values := GetOr(crit, "values", Null);
    if Hashable(category) && IsNonEmptyList(values) {
      GatherOutcomeRaises(values.items, (j: nat, v: Json) => ValueRule(p, category, v), |values.items|);
    }
  }

  /** The three header checks of a criterion, each in both directions. */
  lemma CriterionHeadIff(crit: map<string, Json>, p: Scope)
    requires CriterionRules(crit, p).Report?
    ensures InvalidCategory(p, GetOr(crit, "category", Null)) in CriterionRules(crit, p).issues
            <==> !IsMemberOf(GetOr(crit, "category", Null), Categories)
    ensures ForbiddenNotBool(p) in CriterionRules(crit, p).issues <==> !GetOr(crit, "forbidden", Null).Bool?
    ensures ValuesNotNonEmptyList(p) in CriterionRules(crit, p).issues
            <==> !IsNonEmptyList(GetOr(crit, "values", Null))
  {
    CriterionHeadMember(crit, p, InvalidCategory(p, GetOr(crit, "category", Null)));
    CriterionHeadMember(crit, p, ForbiddenNotBool(p));
    CriterionHeadMember(crit, p, ValuesNotNonEmptyList(p));
  }

  /** An issue that no value check reports comes from the header checks. */
  lemma CriterionHeadMember(crit: map<string, Json>, p: Scope, u: Issue)
    requires CriterionRules(crit, p).Report?
    requires !ValueKind(u)
    ensures u in CriterionRules(crit, p).issues <==> u in CriterionHeadIssues(crit, p)
  {
    var values := GetOr(crit, "values", Null);
    if IsNonEmptyList(values) {
      var category := GetOr(crit, "category", Null);
      ThenReport(Report(CriterionHeadIssues(crit, p)), ValueRules(p, category, values.items, |values.items|));
      ValueRulesMember(p, category, values.items, u);
    }
  }

  /** One issue per genre value outside the normalised genre keys. */
  lemma UnknownGenreIff(crit: map<string, Json>, p: Scope, v: Json)
    requires CriterionRules(crit, p).Report?
    ensures var values := GetOr(crit, "values", Null);
            UnknownGenre(p, v) in CriterionRules(crit, p).issues <==>
              GetOr(crit, "category", Null) == Str("genre") && IsNonEmptyList(values)
              && v in values.items && !IsMemberOf(v, GenreKeys)
  {
    var values := GetOr(crit, "values", Null);
    CriterionRulesMember(crit, p, UnknownGenre(p, v));
    if GetOr(crit, "category", Null) == Str("genre") && IsNonEmptyList(values) && v in values.items {
      var j :| 0 <= j < |values.items| && values.items[j] == v;
      CriterionRaisesIff(crit, p);
      assert Hashable(values.items[j]);
    }
  }

  /** One issue per type value other than `series` and `movie`. */
  lemma InvalidTypeIff(crit: map<string, Json>, p: Scope, v: Json)
    requires CriterionRules(crit, p).Report?
    ensures var values := GetOr(crit, "values", Null);
            InvalidType(p, v) in CriterionRules(crit, p).issues <==>
              GetOr(crit, "category", Null) == Str("type") && IsNonEmptyList(values)
              && v in values.items && !IsMemberOf(v, ShowTypes)
  {
    var values := GetOr(crit, "values", Null);
    CriterionRulesMember(crit, p, InvalidType(p, v));
    if GetOr(crit, "category", Null) == Str("type") && IsNonEmptyList(values) && v in values.items {
      var j :| 0 <= j < |values.items| && values.items[j] == v;
      CriterionRaisesIff(crit, p);
      assert Hashable(values.items[j]);
    }
  }

  /** One issue per language value that is not a string. */
  lemma LanguageIff(crit: map<string, Json>, p: Scope, v: Json)
    requires CriterionRules(crit, p).Report?
    ensures var values := GetOr(crit, "values", Null);
            LanguageNotString(p, v) in CriterionRules(crit, p).issues <==>
              GetOr(crit, "category", Null) == Str("language") && IsNonEmptyList(values)
              && v in values.items && !v.Str?
  {
    CriterionRulesMember(crit, p, LanguageNotString(p, v));
  }

  /** One issue per duration value that is not a number, or is not positive. */
  lemma DurationValueIff(crit: map<string, Json>, p: Scope, v: Json)
    requires CriterionRules(crit, p).Report?
    ensures var values := GetOr(crit, "values", Null);
            var isDuration := GetOr(crit, "category", Null) == Str("duration") && IsNonEmptyList(values) && v in values.items;
            && (DurationNotNumeric(p, v) in CriterionRules(crit, p).issues <==> isDuration && !IsNumber(v))
            && (DurationNotPositive(p, v) in CriterionRules(crit, p).issues <==>
                  isDuration && IsNumber(v) && NumericValue(v) <= 0.0)
  {
    CriterionRulesMember(crit, p, DurationNotNumeric(p, v));
    CriterionRulesMember(crit, p, DurationNotPositive(p, v));
  }

  // ---------------------------------------------------------------------
  // Channel rules

  predicate HeadKind(u: Issue)
  {
    u.BeginNotBeforeEnd? || u.UnknownFiller?
  }

  predicate TemporalKind(u: Issue)
  {
    u.FirstBlockMisaligned? || u.LastBlockMisaligned? || u.Overlap? || u.Gap? || u.OutOfRange?
  }

  /** Before the blocks are looked at, only the window and the fillers are checked. */
  lemma ChannelHeadKind(channel: map<string, Json>, p: Scope, u: Issue)
    requires ChannelHead(channel, p).Report?
    requires u in ChannelHead(channel, p).issues
    ensures HeadKind(u)
  {
    var fillers := GetOr(channel, "fillers", Array([]));
    var rest := if fillers.Array? then FillerRules(p, fillers.items, |fillers.items|) else Report([]);
    ThenReport(Report(WindowIssues(p, Window(channel))), rest);
    if fillers.Array? && u in rest.issues {
      FillerRulesMember(p, fillers.items, u);
    }
  }

  /** Without a non-empty list of blocks, only the window and the fillers are checked. */
  lemma ChannelWithoutBlocks(channel: map<string, Json>, idx: nat, u: Issue)
    requires !IsNonEmptyList(GetOr(channel, "blocks", Array([])))
    requires ChannelRules(channel, idx).Report?
    requires u in ChannelRules(channel, idx).issues
    ensures HeadKind(u)
  {
    ChannelHeadKind(channel, ChannelPrefix(channel, idx), u);
  }

  /** When some block's `begin` cannot be converted, the sort fails: one
      issue says so, after the window and filler issues, and no block is checked. */
  lemma ChannelUnsortable(channel: map<string, Json>, idx: nat)
    requires IsNonEmptyList(GetOr(channel, "blocks", Array([])))
    requires !Sortable(GetOr(channel, "blocks", Array([])).items)
    requires ChannelHead(channel, ChannelPrefix(channel, idx)).Report?
    ensures ChannelRules(channel, idx).Report?
    ensures var issues := ChannelRules(channel, idx).issues;
            && |issues| > 0 && issues[|issues| - 1] == BlocksNotSortable(ChannelPrefix(channel, idx))
            && multiset(issues)[BlocksNotSortable(ChannelPrefix(channel, idx))] == 1
            && forall j :: 0 <= j < |issues| - 1 ==> HeadKind(issues[j])
  {
    var p := ChannelPrefix(channel, idx);
    var head := ChannelHead(channel, p).issues;
    forall j | 0 <= j < |head|
      ensures HeadKind(head[j])
    {
      ChannelHeadKind(channel, p, head[j]);
    }
    assert BlocksNotSortable(p) !in head by {
      if BlocksNotSortable(p) in head {
        ChannelHeadKind(channel, p, BlocksNotSortable(p));
      }
    }
    assert ChannelRules(channel, idx).issues == head + [BlocksNotSortable(p)];
  }

  /** The first block after sorting has the smallest begin of all blocks. */
  lemma SortedFirstIsMinimal(blocks: seq<Json>)
    requires |blocks| > 0
    ensures |SortByBegin(blocks)| == |blocks|
    ensures SortByBegin(blocks)[0] in blocks
    ensures forall j :: 0 <= j < |blocks| ==> BeginKey(SortByBegin(blocks)[0]) <= BeginKey(blocks[j])
  {
    var sorted := SortByBegin(blocks);
    SortSorted(blocks, BeginKey);
    SortPermutes(blocks, BeginKey);
    assert sorted[0] in multiset(sorted);
    forall j | 0 <= j < |blocks|
      ensures BeginKey(sorted[0]) <= BeginKey(blocks[j])
    {
      assert blocks[j] in multiset(blocks);
      var k :| 0 <= k < |sorted| && sorted[k] == blocks[j];
    }
  }

  /** Sorting keeps every block and adds none. */
  lemma SortByBeginKeepsBlocks(blocks: seq<Json>)
    ensures |SortByBegin(blocks)| == |blocks|
    ensures forall b :: b in blocks <==> b in SortByBegin(blocks)
  {
    SortPermutes(blocks, BeginKey);
    assert forall b :: b in blocks <==> b in multiset(blocks);
    assert forall b :: b in SortByBegin(blocks) <==> b in multiset(SortByBegin(blocks));
  }

  /** The sorted blocks all have a convertible `begin` exactly when the original ones do. */
  lemma SortByBeginSortable(blocks: seq<Json>)
    ensures Sortable(blocks) <==> Sortable(SortByBegin(blocks))
  {
    var sorted := SortByBegin(blocks);
    SortByBeginKeepsBlocks(blocks);
    if Sortable(blocks) {
      forall k | 0 <= k < |sorted|
        ensures IsNumber(BeginValue(sorted[k]))
      {
        assert sorted[k] in blocks;
        var j :| 0 <= j < |blocks| && blocks[j] == sorted[k];
      }
    }
    if Sortable(sorted) {
      forall j | 0 <= j < |blocks|
        ensures IsNumber(BeginValue(blocks[j]))
      {
        assert blocks[j] in sorted;
        var k :| 0 <= k < |sorted| && sorted[k] == blocks[j];
      }
    }
  }

  /** The sorted blocks all have a convertible `end` exactly when the original ones do. */
  lemma SortByBeginEndsNumeric(blocks: seq<Json>)
    ensures EndsNumeric(blocks) <==> EndsNumeric(SortByBegin(blocks))
  {
    var sorted := SortByBegin(blocks);
    SortByBeginKeepsBlocks(blocks);
    if EndsNumeric(blocks) {
      forall k | 0 <= k < |sorted|
        ensures IsNumber(EndValue(sorted[k]))
      {
        assert sorted[k] in blocks;
        var j :| 0 <= j < |blocks| && blocks[j] == sorted[k];
      }
    }
    if EndsNumeric(sorted) {
      forall j | 0 <= j < |blocks|
        ensures IsNumber(EndValue(blocks[j]))
      {
        assert blocks[j] in sorted;
        var k :| 0 <= k < |sorted| && sorted[k] == blocks[j];
      }
    }
  }

  /** The issues of a channel whose blocks could be sorted: its head, the
      continuity checks on the sorted blocks, then every block's own rules. */
  lemma ChannelRulesParts(channel: map<string, Json>, idx: nat)
    requires IsNonEmptyList(GetOr(channel, "blocks", Array([])))
    requires Sortable(GetOr(channel, "blocks", Array([])).items)
    requires ChannelRules(channel, idx).Report?
    ensures var p := ChannelPrefix(channel, idx);
            var w := Window(channel);
            var sorted := SortByBegin(GetOr(channel, "blocks", Array([])).items);
            && |sorted| > 0
            && ChannelHead(channel, p).Report?
            && (w.Some? ==> TemporalRules(p, w.value.0, w.value.1, sorted).Report?)
            && BlockRuleEntries(p, sorted, |sorted|).Report?
            && ChannelRules(channel, idx).issues
               == ChannelHead(channel, p).issues
                  + (if w.Some? then TemporalRules(p, w.value.0, w.value.1, sorted).issues else [])
                  + BlockRuleEntries(p, sorted, |sorted|).issues
  {
    var p := ChannelPrefix(channel, idx);
    var blocks := GetOr(channel, "blocks", Array([])).items;
    assert ChannelRules(channel, idx) == Then(ChannelHead(channel, p), ChannelBlockRules(channel, p, blocks));
    ThenReport(ChannelHead(channel, p), ChannelBlockRules(channel, p, blocks));
    ChannelBlockRulesParts(channel, p, blocks);
  }

  /** The block part of a channel: the continuity checks when the window is
      known, then every block's own rules, both on the sorted blocks. */
  lemma ChannelBlockRulesParts(channel: map<string, Json>, p: Scope, blocks: seq<Json>)
    requires |blocks| > 0
    requires ChannelBlockRules(channel, p, blocks).Report?
    ensures var w := Window(channel);
            var sorted := SortByBegin(blocks);
            && |sorted| > 0
            && (w.Some? ==> TemporalRules(p, w.value.0, w.value.1, sorted).Report?)
            && BlockRuleEntries(p, sorted, |sorted|).Report?
            && ChannelBlockRules(channel, p, blocks).issues
               == (if w.Some? then TemporalRules(p, w.value.0, w.value.1, sorted).issues else [])
                  + BlockRuleEntries(p, sorted, |sorted|).issues
  {
    var w := Window(channel);
    var sorted := SortByBegin(blocks);
    SortPermutes(blocks, BeginKey);
    var t := if w.Some? then TemporalRules(p, w.value.0, w.value.1, sorted) else Report([]);
    ThenReport(t, BlockRuleEntries(p, sorted, |sorted|));
  }

  /** Every issue that a block's own rules report is a block-level kind. */
  lemma BlockRuleEntriesKind(p: Scope, sorted: seq<Json>, u: Issue)
    requires BlockRuleEntries(p, sorted, |sorted|).Report?
    requires u in BlockRuleEntries(p, sorted, |sorted|).issues
    ensures BlockKind(u)
  {
    GatherOutcomeMember(sorted, (j: nat, b: Json) => BlockRuleEntry(p, j, b), |sorted|, u);
    var j :| 0 <= j < |sorted| && u in BlockRuleEntry(p, j, sorted[j]).issues;
    BlockRulesKind(sorted[j].fields, BlockScope(p, j), u);
  }

  /** The continuity issues of a channel are those of the checks on its
      sorted blocks, and there are none when its window cannot be read. */
  lemma ChannelTemporalMember(channel: map<string, Json>, idx: nat, u: Issue)
    requires IsNonEmptyList(GetOr(channel, "blocks", Array([])))
    requires Sortable(GetOr(channel, "blocks", Array([])).items)
    requires ChannelRules(channel, idx).Report?
    requires TemporalKind(u)
    ensures Window(channel).None? ==> u !in ChannelRules(channel, idx).issues
    ensures var w := Window(channel);
            var sorted := SortByBegin(GetOr(channel, "blocks", Array([])).items);
            w.Some? ==>
              && |sorted| > 0
              && TemporalRules(ChannelPrefix(channel, idx), w.value.0, w.value.1, sorted).Report?
              && (u in ChannelRules(channel, idx).issues
                  <==> u in TemporalRules(ChannelPrefix(channel, idx), w.value.0, w.value.1, sorted).issues)
  {
    var p := ChannelPrefix(channel, idx);
    var w := Window(channel);
    var sorted := SortByBegin(GetOr(channel, "blocks", Array([])).items);
    ChannelRulesParts(channel, idx);
    var head := ChannelHead(channel, p).issues;
    var temporal := if w.Some? then TemporalRules(p, w.value.0, w.value.1, sorted).issues else [];
    var rest := BlockRuleEntries(p, sorted, |sorted|).issues;
    assert ChannelRules(channel, idx).issues == head + temporal + rest;
    assert u !in head by {
      if u in head {
        ChannelHeadKind(channel, p, u);
      }
    }
    assert u !in rest by {
      if u in rest {
        BlockRuleEntriesKind(p, sorted, u);
      }
    }
  }

  /** The first-block check compares the channel's `begin` with the
      smallest block begin. */
  lemma ChannelFirstBlock(channel: map<string, Json>, idx: nat)
    requires IsNonEmptyList(GetOr(channel, "blocks", Array([])))
    requires Sortable(GetOr(channel, "blocks", Array([])).items)
    requires ChannelRules(channel, idx).Report?
    requires Window(channel).Some?
    ensures var blocks := GetOr(channel, "blocks", Array([])).items;
            var m := BeginKey(SortByBegin(blocks)[0]);
            var begin := Window(channel).value.0;
            && (exists j :: 0 <= j < |blocks| && BeginKey(blocks[j]) == m)
            && (forall j :: 0 <= j < |blocks| ==> m <= BeginKey(blocks[j]))
            && (FirstBlockMisaligned(ChannelPrefix(channel, idx), begin, m) in ChannelRules(channel, idx).issues
                <==> !AlmostEqual(m, begin))
  {
    var blocks := GetOr(channel, "blocks", Array([])).items;
    var w := Window(channel);
    var sorted := SortByBegin(blocks);
    var p := ChannelPrefix(channel, idx);
    SortedFirstIsMinimal(blocks);
    var m := BeginKey(sorted[0]);
    ChannelTemporalMember(channel, idx, FirstBlockMisaligned(p, w.value.0, m));
    FirstBlockIff(p, w.value.0, w.value.1, sorted);
  }

  /** A block whose `end` cannot be converted makes the channel's rules raise,
      once the window is readable and the blocks could be sorted. */
  lemma NonNumericEndRaises(channel: map<string, Json>, idx: nat, j: nat)
    requires IsNonEmptyList(GetOr(channel, "blocks", Array([])))
    requires Sortable(GetOr(channel, "blocks", Array([])).items)
    requires Window(channel).Some?
    requires ChannelHead(channel, ChannelPrefix(channel, idx)).Report?
    requires j < |GetOr(channel, "blocks", Array([])).items|
    requires !IsNumber(EndValue(GetOr(channel, "blocks", Array([])).items[j]))
    ensures ChannelRules(channel, idx).Raised?
  {
    var blocks := GetOr(channel, "blocks", Array([])).items;
    var w := Window(channel);
    var sorted := SortByBegin(blocks);
    SortByBeginSortable(blocks);
    SortByBeginEndsNumeric(blocks);
    TemporalRaisesIff(ChannelPrefix(channel, idx), w.value.0, w.value.1, sorted);
  }
}
