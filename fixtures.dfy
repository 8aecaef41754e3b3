/** The two catalogs of the validators' own test script (test_validation.py),
    and what the structure and rule layers report for them. The test asks
    that the first passes both layers and that the second fails one. */
module CatalogFixtures {
  import opened JsonValues
  import opened Issues
  import opened StructureValidation
  import opened StructureProperties
  import opened RulesValidation

  // ---------------------------------------------------------------------
  // Building blocks, each with the lookups the validators make

  function Criterion(category: string, value: string): Json
  {
    Object(map["category" := Str(category), "values" := Array([Str(value)]), "forbidden" := Bool(false)])
  }

  /** A genre criterion that lacks its `forbidden` key. */
  function NoForbidden(value: string): Json
  {
    Object(map["category" := Str("genre"), "values" := Array([Str(value)])])
  }

  function SlotFormat(x: (int, int, int)): Json
  {
    Object(map["show_min_duration" := Int(x.0), "show_max_duration" := Int(x.1), "slot_duration" := Int(x.2)])
  }

  function Block(criteria: seq<Json>, begin: real, end: real, count: int, sf: Json): Json
  {
    Object(map["criteria" := Array(criteria), "begin" := Float(begin), "end" := Float(end),
               "slot_count" := Int(count), "slot_format" := sf, "shows" := Array([])])
  }

  function Channel(name: string, description: string, begin: real, end: real, filler: string, blocks: seq<Json>): map<string, Json>
  {
    map["name" := Str(name), "description" := Str(description), "begin" := Float(begin),
        "end" := Float(end), "fillers" := Array([Str(filler)]), "blocks" := Array(blocks)]
  }

  function Catalog(name: string, channel: map<string, Json>): map<string, Json>
  {
    map["name" := Str(name), "step" := Int(0), "channels" := Array([Object(channel)])]
  }

  lemma BlockFacts(criteria: seq<Json>, begin: real, end: real, count: int, sf: Json)
    ensures var b := Block(criteria, begin, end, count, sf);
            && b.Object?
            && BeginValue(b) == Float(begin) && EndValue(b) == Float(end)
            && Window(b.fields) == Some((begin, end))
            && GetOr(b.fields, "criteria", Array([])) == Array(criteria)
            && GetOr(b.fields, "slot_count", Null) == Int(count)
            && GetOr(b.fields, "slot_format", Object(map[])) == sf
            && GetOr(b.fields, "shows", Null) == Array([])
  {
  }

  lemma SlotFormatFacts(x: (int, int, int))
    ensures SlotFormat(x).Object? && MatchesFormat(SlotFormat(x).fields, x)
    ensures GetOr(SlotFormat(x).fields, "slot_duration", Int(0)) == Int(x.2)
  {
  }

  lemma ChannelFacts(name: string, description: string, begin: real, end: real, filler: string, blocks: seq<Json>)
    ensures var ch := Channel(name, description, begin, end, filler, blocks);
            && Window(ch) == Some((begin, end))
            && GetOr(ch, "fillers", Array([])) == Array([Str(filler)])
            && GetOr(ch, "blocks", Array([])) == Array(blocks)
            && ChannelPrefix(ch, 0) == ChannelScope(0, Str(name))
  {
  }

  lemma CatalogFacts(name: string, channel: map<string, Json>)
    ensures GetOr(Catalog(name, channel), "channels", Array([])) == Array([Object(channel)])
  {
  }

  // ---------------------------------------------------------------------
  // Rules of the pieces, for any values

  lemma CriterionPasses(p: Scope, category: string, value: string)
    requires (category == "genre" && value in GenreKeys) || (category == "type" && value in ShowTypes)
    ensures CriterionRules(Criterion(category, value).fields, p) == Report([])
  {
    var crit := Criterion(category, value).fields;
    assert category in Categories;
    assert CriterionHeadIssues(crit, p) == [];
    assert ValueRule(p, Str(category), Str(value)) == Report([]);
    assert ValueRules(p, Str(category), [Str(value)], 1) == Report([]);
  }

  lemma NoForbiddenRules(p: Scope, value: string)
    requires value in GenreKeys
    ensures CriterionRules(NoForbidden(value).fields, p) == Report([ForbiddenNotBool(p)])
  {
    assert "genre" in Categories;
    assert CriterionHeadIssues(NoForbidden(value).fields, p) == [ForbiddenNotBool(p)];
    assert ValueRules(p, Str("genre"), [Str(value)], 1) == Report([]);
  }

  lemma InvalidTypeRules(p: Scope, value: string)
    requires value !in ShowTypes
    ensures CriterionRules(Criterion("type", value).fields, p) == Report([InvalidType(p, Str(value))])
  {
    assert "type" in Categories;
    assert CriterionHeadIssues(Criterion("type", value).fields, p) == [];
    assert ValueRules(p, Str("type"), [Str(value)], 1) == Report([InvalidType(p, Str(value))]);
  }

  /** Two criteria report what each reports, in order. */
  lemma TwoCriteria(p: Scope, c0: Json, c1: Json, r0: seq<Issue>, r1: seq<Issue>)
    requires c0.Object? && CriterionRules(c0.fields, CriterionScope(p, 0)) == Report(r0)
    requires c1.Object? && CriterionRules(c1.fields, CriterionScope(p, 1)) == Report(r1)
    ensures CriteriaRules(p, Array([c0, c1])) == Report(r0 + r1)
  {
    assert CriterionRuleEntries(p, [c0, c1], 1) == Report(r0);
  }

  lemma CriteriaPass(p: Scope, v0: string, v1: string)
    requires v0 in GenreKeys && v1 in ShowTypes
    ensures CriteriaRules(p, Array([Criterion("genre", v0), Criterion("type", v1)])) == Report([])
  {
    CriterionPasses(CriterionScope(p, 0), "genre", v0);
    CriterionPasses(CriterionScope(p, 1), "type", v1);
    TwoCriteria(p, Criterion("genre", v0), Criterion("type", v1), [], []);
  }

  /** A block with an allowed slot format reports its slot count, its
      duration and its criteria. */
  lemma BlockRulesOf(p: Scope, criteria: seq<Json>, begin: real, end: real, count: int, fmt: nat, rc: seq<Issue>)
    requires begin < end
    requires fmt < |AllowedSlotFormats|
    requires CriteriaRules(p, Array(criteria)) == Report(rc)
    ensures var expected := SlotHours(AllowedSlotFormats[fmt].2 as real, count as real);
            BlockRules(Block(criteria, begin, end, count, SlotFormat(AllowedSlotFormats[fmt])).fields, p)
            == Report((if count == 1 || count == 2 then [] else [SlotCountNotOneOrTwo(p, Int(count))])
                      + (if AlmostEqual(expected, end - begin) then [] else [DurationMismatch(p, end - begin, expected)])
                      + rc)
  {
    var x := AllowedSlotFormats[fmt];
    BlockFacts(criteria, begin, end, count, SlotFormat(x));
    SlotFormatFacts(x);
    assert IsAllowedSlotFormat(SlotFormat(x).fields);
  }

  /** The continuity checks on two blocks. */
  lemma TemporalOfTwo(p: Scope, begin: real, end: real, b0: Json, b1: Json, x0: real, y0: real, x1: real, y1: real)
    requires BeginValue(b0) == Float(x0) && EndValue(b0) == Float(y0)
    requires BeginValue(b1) == Float(x1) && EndValue(b1) == Float(y1)
    ensures TemporalRules(p, begin, end, [b0, b1])
            == Report(BoundaryIssues(p, begin, end, x0, y1) + PairIssues(p, 0, y0, x1)
                      + RangeIssue(p, begin, end, 0, b0) + RangeIssue(p, begin, end, 1, b1))
  {
    assert Pairs([b0, b1]) == [(b0, b1)];
    assert PairRules(p, [b0, b1], 1) == Report(PairIssues(p, 0, y0, x1));
    assert RangeIssues(p, begin, end, [b0, b1], 2) == RangeIssue(p, begin, end, 0, b0) + RangeIssue(p, begin, end, 1, b1);
  }

  lemma SortTwo(b0: Json, b1: Json)
    requires BeginKey(b0) <= BeginKey(b1)
    ensures SortByBegin([b0, b1]) == [b0, b1]
  {
    assert [b0, b1][1..] == [b1];
    assert [b1][1..] == [];
    assert Sorting.Sort([b1], BeginKey) == [b1];
  }

  /** The window and filler checks of a channel with one filler. */
  lemma ChannelHeadOfOne(ch: map<string, Json>, p: Scope, filler: string)
    requires GetOr(ch, "fillers", Array([])) == Array([Str(filler)])
    requires Window(ch).Some? && Window(ch).value.0 < Window(ch).value.1
    ensures ChannelHead(ch, p) == Report(if filler in GenreKeys then [] else [UnknownFiller(p, Str(filler))])
  {
    assert FillerRules(p, [Str(filler)], 1) == FillerRule(p, Str(filler));
  }

  /** The block part of a channel of two blocks already in order. */
  lemma ChannelBlocksOfTwo(ch: map<string, Json>, p: Scope, begin: real, end: real, b0: Json, b1: Json,
                           t: seq<Issue>, r0: seq<Issue>, r1: seq<Issue>)
    requires Window(ch) == Some((begin, end))
    requires b0.Object? && b1.Object? && BeginKey(b0) <= BeginKey(b1)
    requires TemporalRules(p, begin, end, [b0, b1]) == Report(t)
    requires BlockRules(b0.fields, BlockScope(p, 0)) == Report(r0)
    requires BlockRules(b1.fields, BlockScope(p, 1)) == Report(r1)
    ensures ChannelBlockRules(ch, p, [b0, b1]) == Report(t + r0 + r1)
  {
    SortTwo(b0, b1);
    assert BlockRuleEntries(p, [b0, b1], 1) == Report(r0);
    assert BlockRuleEntries(p, [b0, b1], 2) == Report(r0 + r1);
  }

  /** A channel of two blocks already in order, with one filler. */
  lemma ChannelOfTwo(ch: map<string, Json>, begin: real, end: real, filler: string, b0: Json, b1: Json,
                     head: seq<Issue>, t: seq<Issue>, r0: seq<Issue>, r1: seq<Issue>)
    requires Window(ch) == Some((begin, end)) && begin < end
    requires GetOr(ch, "fillers", Array([])) == Array([Str(filler)])
    requires GetOr(ch, "blocks", Array([])) == Array([b0, b1])
    requires b0.Object? && b1.Object?
    requires IsNumber(BeginValue(b0)) && IsNumber(BeginValue(b1)) && BeginKey(b0) <= BeginKey(b1)
    requires var p := ChannelPrefix(ch, 0);
             && head == (if filler in GenreKeys then [] else [UnknownFiller(p, Str(filler))])
             && TemporalRules(p, begin, end, [b0, b1]) == Report(t)
             && BlockRules(b0.fields, BlockScope(p, 0)) == Report(r0)
             && BlockRules(b1.fields, BlockScope(p, 1)) == Report(r1)
    ensures ChannelRules(ch, 0) == Report(head + t + r0 + r1)
  {
    var p := ChannelPrefix(ch, 0);
    assert ChannelHead(ch, p) == Report(head) by {
      ChannelHeadOfOne(ch, p, filler);
    }
    assert ChannelBlockRules(ch, p, [b0, b1]) == Report(t + r0 + r1) by {
      ChannelBlocksOfTwo(ch, p, begin, end, b0, b1, t, r0, r1);
    }
    assert Sortable([b0, b1]);
    assert ChannelRules(ch, 0) == Then(ChannelHead(ch, p), ChannelBlockRules(ch, p, [b0, b1]));
    Regroup(head, t, r0, r1);
  }

  lemma Regroup(a: seq<Issue>, b: seq<Issue>, c: seq<Issue>, d: seq<Issue>)
    ensures a + b + c + d == a + (b + c + d)
  {
  }

  /** A catalog of one channel reports its structure issues, then the channel's rule issues. */
  lemma CatalogOfOne(catalog: map<string, Json>, channel: map<string, Json>, r: seq<Issue>)
    requires GetOr(catalog, "channels", Array([])) == Array([Object(channel)])
    requires ChannelRules(channel, 0) == Report(r)
    ensures CatalogRules(catalog) == Report(CatalogStructure(catalog) + r)
  {
    assert ChannelRuleEntries([Object(channel)], 1) == Report(r);
  }

  // ---------------------------------------------------------------------
  // The valid catalog: one channel from 6h to 10h, two blocks meeting at 8h

  function ValidBlock0(): Json
  {
    Block([Criterion("genre", "Suspense"), Criterion("type", "series")], 6.0, 8.0, 2, SlotFormat((45, 52, 60)))
  }

  function ValidBlock1(): Json
  {
    Block([Criterion("genre", "Suspense"), Criterion("type", "movie")], 8.0, 10.0, 1, SlotFormat((95, 110, 120)))
  }

  function ValidChannel(): map<string, Json>
  {
    Channel("Chaîne Exemple", "Chaîne de test pour validation", 6.0, 10.0, "Suspense", [ValidBlock0(), ValidBlock1()])
  }

  function ValidCatalog(): map<string, Json>
  {
    Catalog("Catalogue Test", ValidChannel())
  }

  lemma CriterionWellTyped(category: string, value: string)
    ensures Criterion(category, value).Object? && WellTypedCriterion(Criterion(category, value).fields)
  {
  }

  lemma BlockWellTyped(c0: string, v0: string, c1: string, v1: string, begin: real, end: real, count: int, x: (int, int, int))
    ensures var b := Block([Criterion(c0, v0), Criterion(c1, v1)], begin, end, count, SlotFormat(x));
            b.Object? && WellTypedBlock(b.fields)
  {
    CriterionWellTyped(c0, v0);
    CriterionWellTyped(c1, v1);
    assert WellTypedCriteria(Array([Criterion(c0, v0), Criterion(c1, v1)]));
    assert WellTypedSlotFormat(SlotFormat(x));
  }

  lemma ValidChannelWellTyped()
    ensures WellTypedChannel(ValidChannel())
  {
    BlockWellTyped("genre", "Suspense", "type", "series", 6.0, 8.0, 2, (45, 52, 60));
    BlockWellTyped("genre", "Suspense", "type", "movie", 8.0, 10.0, 1, (95, 110, 120));
    assert "Suspense" in GenreKeys;
    var ch := ValidChannel();
    assert WellTypedFillers(ch["fillers"]);
    assert WellTypedBlocks(ch["blocks"]);
  }

  /** The valid catalog has no structure issue. */
  lemma ValidCatalogStructure()
    ensures CatalogStructure(ValidCatalog()) == []
  {
    ValidChannelWellTyped();
    assert WellTypedCatalog(ValidCatalog());
    CatalogStructureEmpty(ValidCatalog());
  }

  lemma ValidBlocksPass(p: Scope)
    ensures BlockRules(ValidBlock0().fields, BlockScope(p, 0)) == Report([])
    ensures BlockRules(ValidBlock1().fields, BlockScope(p, 1)) == Report([])
  {
    assert "series" in ShowTypes && "movie" in ShowTypes && "Suspense" in GenreKeys;
    assert AllowedSlotFormats[1] == (45, 52, 60) && AllowedSlotFormats[3] == (95, 110, 120);
    CriteriaPass(BlockScope(p, 0), "Suspense", "series");
    CriteriaPass(BlockScope(p, 1), "Suspense", "movie");
    BlockRulesOf(BlockScope(p, 0), [Criterion("genre", "Suspense"), Criterion("type", "series")], 6.0, 8.0, 2, 1, []);
    BlockRulesOf(BlockScope(p, 1), [Criterion("genre", "Suspense"), Criterion("type", "movie")], 8.0, 10.0, 1, 3, []);
  }

  lemma ValidTemporal(p: Scope)
    ensures TemporalRules(p, 6.0, 10.0, [ValidBlock0(), ValidBlock1()]) == Report([])
  {
    var b0 := ValidBlock0();
    var b1 := ValidBlock1();
    BlockFacts([Criterion("genre", "Suspense"), Criterion("type", "series")], 6.0, 8.0, 2, SlotFormat((45, 52, 60)));
    BlockFacts([Criterion("genre", "Suspense"), Criterion("type", "movie")], 8.0, 10.0, 1, SlotFormat((95, 110, 120)));
    TemporalOfTwo(p, 6.0, 10.0, b0, b1, 6.0, 8.0, 8.0, 10.0);
  }

  /** The valid catalog has no issue in either layer. */
  lemma ValidCatalogPasses()
    ensures CatalogStructure(ValidCatalog()) == []
    ensures CatalogRules(ValidCatalog()) == Report([])
  {
    var p := ChannelScope(0, Str("Chaîne Exemple"));
    ValidCatalogStructure();
    assert "Suspense" in GenreKeys;
    BlockFacts([Criterion("genre", "Suspense"), Criterion("type", "series")], 6.0, 8.0, 2, SlotFormat((45, 52, 60)));
    BlockFacts([Criterion("genre", "Suspense"), Criterion("type", "movie")], 8.0, 10.0, 1, SlotFormat((95, 110, 120)));
    ValidBlocksPass(p);
    ValidTemporal(p);
    ChannelFacts("Chaîne Exemple", "Chaîne de test pour validation", 6.0, 10.0, "Suspense", [ValidBlock0(), ValidBlock1()]);
    ChannelOfTwo(ValidChannel(), 6.0, 10.0, "Suspense", ValidBlock0(), ValidBlock1(), [], [], [], []);
    CatalogFacts("Catalogue Test", ValidChannel());
    CatalogOfOne(ValidCatalog(), ValidChannel(), []);
  }

  // ---------------------------------------------------------------------
  // The invalid catalog: an unknown filler, a criterion without `forbidden`,
  // an invalid type, two blocks that overlap, wrong slot count and durations

  function InvalidBlock0(): Json
  {
    Block([NoForbidden("Action"), Criterion("type", "documentary")], 7.0, 8.0, 1, SlotFormat((22, 26, 30)))
  }

  function InvalidBlock1(): Json
  {
    Block([Criterion("genre", "Action"), Criterion("type", "series")], 7.5, 9.0, 3, SlotFormat((45, 52, 60)))
  }

  function InvalidChannel(): map<string, Json>
  {
    Channel("Chaîne Mauvaise", "Chaîne avec erreurs", 7.0, 10.0, "Inexistant", [InvalidBlock0(), InvalidBlock1()])
  }

  function InvalidCatalog(): map<string, Json>
  {
    Catalog("Catalogue Erroné", InvalidChannel())
  }

  /** The structure layer reports something: the filler is unknown. */
  lemma InvalidCatalogStructure()
    ensures CatalogStructure(InvalidCatalog()) != []
  {
    var ch := InvalidChannel();
    assert "Inexistant" !in GenreKeys;
    assert ch["fillers"].items[0] == Str("Inexistant");
    assert !WellTypedFillers(ch["fillers"]);
    assert InvalidCatalog()["channels"].items[0] == Object(ch);
    CatalogStructureEmpty(InvalidCatalog());
  }

  function InvalidBlock0Issues(q: Scope): seq<Issue>
  {
    [DurationMismatch(q, 1.0, 0.5), ForbiddenNotBool(CriterionScope(q, 0)),
     InvalidType(CriterionScope(q, 1), Str("documentary"))]
  }

  function InvalidBlock1Issues(q: Scope): seq<Issue>
  {
    [SlotCountNotOneOrTwo(q, Int(3)), DurationMismatch(q, 1.5, 3.0)]
  }

  function InvalidTemporalIssues(p: Scope): seq<Issue>
  {
    [LastBlockMisaligned(p, 10.0, 9.0), Overlap(p, 0, 8.0, 7.5), Gap(p, 0, 8.0, 7.5)]
  }

  /** Everything the rule layer reports for the invalid channel, in order. */
  function InvalidChannelIssues(): seq<Issue>
  {
    var p := ChannelScope(0, Str("Chaîne Mauvaise"));
    [UnknownFiller(p, Str("Inexistant"))] + InvalidTemporalIssues(p)
    + InvalidBlock0Issues(BlockScope(p, 0)) + InvalidBlock1Issues(BlockScope(p, 1))
  }

  lemma InvalidBlock0Criteria(p: Scope)
    ensures CriteriaRules(p, Array([NoForbidden("Action"), Criterion("type", "documentary")]))
            == Report(InvalidBlock0Issues(p)[1..])
  {
    var rc := InvalidBlock0Issues(p)[1..];
    assert "Action" in GenreKeys && "documentary" !in ShowTypes;
    NoForbiddenRules(CriterionScope(p, 0), "Action");
    InvalidTypeRules(CriterionScope(p, 1), "documentary");
    TwoCriteria(p, NoForbidden("Action"), Criterion("type", "documentary"), [rc[0]], [rc[1]]);
  }

  lemma InvalidBlock0Rules(p: Scope)
    ensures BlockRules(InvalidBlock0().fields, p) == Report(InvalidBlock0Issues(p))
  {
    var criteria := [NoForbidden("Action"), Criterion("type", "documentary")];
    var issues := InvalidBlock0Issues(p);
    var b := Block(criteria, 7.0, 8.0, 1, SlotFormat(AllowedSlotFormats[0]));
    assert AllowedSlotFormats[0] == (22, 26, 30);
    assert InvalidBlock0() == b;
    InvalidBlock0Criteria(p);
    BlockRulesOf(p, criteria, 7.0, 8.0, 1, 0, issues[1..]);
    assert SlotHours(30 as real, 1 as real) == 0.5;
    assert !AlmostEqual(0.5, 8.0 - 7.0);
    assert BlockRules(b.fields, p) == Report([] + [DurationMismatch(p, 1.0, 0.5)] + issues[1..]);
    assert issues == [] + [issues[0]] + issues[1..];
  }

  lemma InvalidBlock1Rules(p: Scope)
    ensures BlockRules(InvalidBlock1().fields, p) == Report(InvalidBlock1Issues(p))
  {
    var criteria := [Criterion("genre", "Action"), Criterion("type", "series")];
    var b := Block(criteria, 7.5, 9.0, 3, SlotFormat(AllowedSlotFormats[1]));
    assert AllowedSlotFormats[1] == (45, 52, 60);
    assert InvalidBlock1() == b;
    assert "Action" in GenreKeys && "series" in ShowTypes;
    CriteriaPass(p, "Action", "series");
    BlockRulesOf(p, criteria, 7.5, 9.0, 3, 1, []);
    assert SlotHours(60 as real, 3 as real) == 3.0;
    assert !AlmostEqual(3.0, 9.0 - 7.5);
    assert BlockRules(b.fields, p) == Report([SlotCountNotOneOrTwo(p, Int(3))] + [DurationMismatch(p, 1.5, 3.0)] + []);
  }

  /** Block 0 ends at 8h, block 1 starts at 7h30, and the last block ends at 9h instead of 10h. */
  lemma InvalidTemporal(p: Scope)
    ensures TemporalRules(p, 7.0, 10.0, [InvalidBlock0(), InvalidBlock1()]) == Report(InvalidTemporalIssues(p))
  {
    var b0 := InvalidBlock0();
    var b1 := InvalidBlock1();
    BlockFacts([NoForbidden("Action"), Criterion("type", "documentary")], 7.0, 8.0, 1, SlotFormat((22, 26, 30)));
    BlockFacts([Criterion("genre", "Action"), Criterion("type", "series")], 7.5, 9.0, 3, SlotFormat((45, 52, 60)));
    TemporalOfTwo(p, 7.0, 10.0, b0, b1, 7.0, 8.0, 7.5, 9.0);
  }

  lemma InvalidChannelRules()
    ensures ChannelRules(InvalidChannel(), 0) == Report(InvalidChannelIssues())
  {
    var p := ChannelScope(0, Str("Chaîne Mauvaise"));
    assert "Inexistant" !in GenreKeys;
    assert BlockRules(InvalidBlock0().fields, BlockScope(p, 0)) == Report(InvalidBlock0Issues(BlockScope(p, 0))) by {
      InvalidBlock0Rules(BlockScope(p, 0));
    }
    assert BlockRules(InvalidBlock1().fields, BlockScope(p, 1)) == Report(InvalidBlock1Issues(BlockScope(p, 1))) by {
      InvalidBlock1Rules(BlockScope(p, 1));
    }
    assert TemporalRules(p, 7.0, 10.0, [InvalidBlock0(), InvalidBlock1()]) == Report(InvalidTemporalIssues(p)) by {
      InvalidTemporal(p);
    }
    BlockFacts([NoForbidden("Action"), Criterion("type", "documentary")], 7.0, 8.0, 1, SlotFormat((22, 26, 30)));
    BlockFacts([Criterion("genre", "Action"), Criterion("type", "series")], 7.5, 9.0, 3, SlotFormat((45, 52, 60)));
    ChannelFacts("Chaîne Mauvaise", "Chaîne avec erreurs", 7.0, 10.0, "Inexistant", [InvalidBlock0(), InvalidBlock1()]);
    ChannelOfTwo(InvalidChannel(), 7.0, 10.0, "Inexistant", InvalidBlock0(), InvalidBlock1(),
                 [UnknownFiller(p, Str("Inexistant"))], InvalidTemporalIssues(p),
                 InvalidBlock0Issues(BlockScope(p, 0)), InvalidBlock1Issues(BlockScope(p, 1)));
  }

  /** Both layers report the invalid catalog; among the rule issues is the overlap. */
  lemma InvalidCatalogFails()
    ensures CatalogStructure(InvalidCatalog()) != []
    ensures CatalogRules(InvalidCatalog()) == Report(CatalogStructure(InvalidCatalog()) + InvalidChannelIssues())
    ensures Overlap(ChannelScope(0, Str("Chaîne Mauvaise")), 0, 8.0, 7.5) in CatalogRules(InvalidCatalog()).issues
  {
    var p := ChannelScope(0, Str("Chaîne Mauvaise"));
    InvalidCatalogStructure();
    assert ChannelRules(InvalidChannel(), 0) == Report(InvalidChannelIssues()) by {
      InvalidChannelRules();
    }
    CatalogFacts("Catalogue Erroné", InvalidChannel());
    CatalogOfOne(InvalidCatalog(), InvalidChannel(), InvalidChannelIssues());
    assert Overlap(p, 0, 8.0, 7.5) in InvalidTemporalIssues(p);
  }
}
