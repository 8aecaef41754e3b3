# pseudo_tv core, modelled in Dafny

pseudo_tv builds the programme grids of home-made TV channels from a show
library. This project models its three self-contained pieces of logic and
proves properties about them.

1. **Catalog validators.** Three Python scripts take a JSON catalog and return
   an ordered list of error messages, never stopping at the first one:
   - `validate_json_structure.py` checks keys and value types
     (`StructureValidation`, with properties in `StructureProperties`);
   - `validate_catalog_rules.py` runs the structure check and then checks the
     business rules (`RulesValidation`, `RulesProperties`): continuity of the
     blocks sorted by `begin`, the five allowed slot formats, slot counts,
     block lengths and criterion values;
   - `catalog_validation.py` is an older stand-alone validator with different
     edge behaviour (`LegacyValidation`, `LegacyProperties`). Its properties
     include agreement lemmas that tie it to the business-rule layer where the
     two coincide, and name the inputs where they differ.

   Each validator appears twice. A specification function (one per level and
   per loop round) says what the error list is. A method with the source's
   loops and early returns is proved to produce exactly that list. The
   properties are lemmas about the specification functions. `CatalogFixtures`
   evaluates both layers on the valid and invalid catalogs of
   `test_validation.py`.
2. **Grid generation** (`grid_generator.py`):
   - `ShowSelection` models `ShowSelector` (matching shows against criteria and
     curating each block) and `ShowAnalyzer` (collecting the property values
     of a library);
   - `ChannelMaking` models `ChannelMaker`, which draws a slot configuration
     and a property sample and then lays blocks greedily from 6h until the
     next day's 4h.

   The channel dictionary that these classes fill in place is the class
   `GridTypes.GridChannel`. Random choices are nondeterministic picks (`:|`),
   constrained to the range Python allows them.
3. **Enum-key conversion** (`utils.py`, module `EnumKeys`). This covers the
   round trip between JSON-like values with string keys and values whose
   category keys are `CategoryCriteria` members.

Shared pieces:
- `JsonValues` is the JSON value, with Python's `isinstance(True, int)` quirk
  kept.
- `Issues` holds one constructor per message format. It also defines
  `Outcome`: either the accumulated report, or the exception that escapes the
  validator.
- `Gathering` describes the "loop that extends a list" pattern.
- `Sorting` is a stable insertion sort standing for Python's `sorted`.

Hours are reals and the tolerance `1e-6` is a real constant. Where the two
older validators print messages that differ only in the spacing before a
colon, they share one `Issue` constructor.

## Model

| member | source | states |
|---|---|---|
| JsonValues.ToFloat | data/prompts/scripts/validate_catalog_rules.py:132-133 | `float(x)` of a JSON value succeeds exactly on numbers (bools included) and yields their value |
| Gathering.GatherMember | data/prompts/scripts/validate_json_structure.py:92-97 | a loop that extends the error list holds an issue exactly when some round produced it |
| Gathering.GatherEmpty | data/prompts/scripts/validate_json_structure.py:92-97 | such a loop reports nothing exactly when no round reports anything |
| Gathering.GatherEmptyIff | data/prompts/scripts/validate_json_structure.py:92-97 | a loop reports nothing exactly when every element satisfies the per-round emptiness condition |
| Gathering.GatherPrefix | data/prompts/scripts/validate_json_structure.py:92-97 | later rounds only append: earlier output is a prefix of the whole |
| Gathering.GatherSlice | data/prompts/scripts/validate_json_structure.py:92-97 | round j's issues sit contiguously, in order, inside the whole output |
| Issues.ThenAssociative | data/prompts/scripts/validate_catalog_rules.py:102-112 | running steps in sequence, where the first exception aborts, is associative |
| Issues.GatherOutcomeRaises | data/prompts/scripts/validate_catalog_rules.py:107-111 | a loop whose rounds may raise raises exactly when one of its rounds raises |
| Issues.GatherOutcomeStaysRaised | data/prompts/scripts/validate_catalog_rules.py:107-111 | once a round has raised, later rounds do not change the outcome |
| Issues.GatherOutcomeRaisedAt | data/prompts/scripts/validate_catalog_rules.py:107-111 | the loop raises what its first raising round raised |
| Issues.GatherOutcomeMember | data/prompts/scripts/validate_catalog_rules.py:107-111 | a completed loop holds an issue exactly when some round reported it |
| Issues.GatherOutcomeEmpty | data/prompts/scripts/validate_catalog_rules.py:107-111 | a loop reports nothing exactly when every round reports nothing |
| Issues.GatherOutcomeCongruent | data/prompts/scripts/validate_catalog_rules.py:107-111 | two loops whose rounds agree element by element agree |
| Sorting.SortSorted | data/prompts/scripts/validate_catalog_rules.py:153 | `sorted(..., key=...)` yields a list ordered by key |
| Sorting.SortPermutes | data/prompts/scripts/validate_catalog_rules.py:153 | the sorted list is a permutation of the input |
| Sorting.SortStable | data/prompts/scripts/validate_catalog_rules.py:153 | elements with equal keys keep their relative order (Python's sort is stable) |
| Sorting.InsertSorted | data/prompts/scripts/validate_catalog_rules.py:153 | inserting into a sorted list keeps it sorted; its head is the smaller key |
| Sorting.InsertMultiset | data/prompts/scripts/validate_catalog_rules.py:153 | insertion adds exactly one element |
| StructureValidation.CheckRequiredKeys | data/prompts/scripts/validate_json_structure.py:119-122 | the required-key loop yields exactly the missing-key issues of the specification, in key order |
| StructureValidation.CheckTimeTypes | data/prompts/scripts/validate_json_structure.py:129-132 | the begin/end loop yields one issue per present non-number |
| StructureValidation.ValidateCatalogStructure | data/prompts/scripts/validate_json_structure.py:68-98 | validate_catalog_structure returns exactly the catalog specification's issues |
| StructureValidation.CheckChannelEntries | data/prompts/scripts/validate_json_structure.py:92-97 | the channel loop: one issue per non-dict entry, otherwise that channel's issues |
| StructureValidation.ValidateChannelStructure | data/prompts/scripts/validate_json_structure.py:101-155 | validate_channel_structure returns exactly the channel specification's issues |
| StructureValidation.CheckFillersField | data/prompts/scripts/validate_json_structure.py:134-143 | an absent or null `fillers` is silent, a non-list is one issue, otherwise each filler is checked |
| StructureValidation.CheckFillers | data/prompts/scripts/validate_json_structure.py:139-143 | per filler: a type issue for a non-string, an unknown-genre issue for an unknown string |
| StructureValidation.CheckBlocksField | data/prompts/scripts/validate_json_structure.py:145-154 | a present `blocks` that is not a non-empty list is one issue, otherwise each block is checked |
| StructureValidation.CheckBlockEntries | data/prompts/scripts/validate_json_structure.py:150-154 | one issue per non-dict block, otherwise that block's issues |
| StructureValidation.ValidateBlockStructure | data/prompts/scripts/validate_json_structure.py:158-215 | validate_block_structure returns exactly the block specification's issues |
| StructureValidation.CheckSlotFormatField | data/prompts/scripts/validate_json_structure.py:185-199 | a present non-dict slot format is one issue, otherwise its three keys are checked |
| StructureValidation.CheckSlotFormatKeys | data/prompts/scripts/validate_json_structure.py:191-199 | per slot-format key: one issue if missing, one if not a number |
| StructureValidation.CheckCriteriaField | data/prompts/scripts/validate_json_structure.py:201-210 | a present `criteria` that is not a non-empty list is one issue, otherwise each criterion is checked |
| StructureValidation.CheckCriterionEntries | data/prompts/scripts/validate_json_structure.py:206-210 | one issue per non-dict criterion, otherwise its issues |
| StructureValidation.ValidateCriterionStructure | data/prompts/scripts/validate_json_structure.py:218-247 | validate_criterion_structure returns exactly the criterion specification's issues |
| StructureProperties.Absent | data/prompts/scripts/validate_json_structure.py:83-86 | the absent keys are exactly the listed keys missing from the object |
| StructureProperties.MissingKeysAreAbsentKeys | data/prompts/scripts/validate_json_structure.py:119-122 | one missing-key issue per absent key, in the order of the key list |
| StructureProperties.MissingKeysNone | data/prompts/scripts/validate_json_structure.py:119-122 | no missing-key issue exactly when every required key is present |
| StructureProperties.CatalogMissingKeys | data/prompts/scripts/validate_json_structure.py:83-86 | the catalog's report opens with the missing keys among name, step, channels, in that order |
| StructureProperties.UnknownFillerReported | data/prompts/scripts/validate_json_structure.py:139-143 | an unknown-genre issue for a filler appears exactly when `fillers` is a list holding that string outside the genre keys |
| StructureProperties.FillerTypeReported | data/prompts/scripts/validate_json_structure.py:139-141 | the type issue appears exactly when some filler is not a string |
| StructureProperties.CriterionKeysPresent | data/prompts/scripts/validate_json_structure.py:233-235 | the criterion's required keys are category, values, forbidden |
| StructureProperties.BlockKeysPresent | data/prompts/scripts/validate_json_structure.py:173-176 | the block's required keys are the six listed |
| StructureProperties.ChannelKeysPresent | data/prompts/scripts/validate_json_structure.py:119-122 | the channel's required keys are the six listed |
| StructureProperties.CatalogKeysPresent | data/prompts/scripts/validate_json_structure.py:83-86 | the catalog's required keys are name, step, channels |
| StructureProperties.CriterionStructureEmpty | data/prompts/scripts/validate_json_structure.py:218-247 | a criterion has no issue exactly when it has its keys, a string category, a non-empty list of values and a bool `forbidden` |
| StructureProperties.SlotFormatStructureEmpty | data/prompts/scripts/validate_json_structure.py:185-199 | a slot format has no issue exactly when it is absent, null, or a dict with three numeric durations |
| StructureProperties.CriterionEntryEmpty | data/prompts/scripts/validate_json_structure.py:206-210 | a criterion entry is silent exactly when it is a well-typed dict |
| StructureProperties.CriteriaStructureEmpty | data/prompts/scripts/validate_json_structure.py:201-210 | `criteria` is silent exactly when absent, null, or a non-empty list of well-typed dicts |
| StructureProperties.TimeTypesEmpty | data/prompts/scripts/validate_json_structure.py:178-180 | begin and end are silent exactly when each, if present, is a number (bools included) |
| StructureProperties.BlockStructureEmpty | data/prompts/scripts/validate_json_structure.py:158-215 | a block has no issue exactly when it matches the block schema |
| StructureProperties.BlockEntryEmpty | data/prompts/scripts/validate_json_structure.py:150-154 | a block entry is silent exactly when it is a dict matching the schema |
| StructureProperties.FillersStructureEmpty | data/prompts/scripts/validate_json_structure.py:134-143 | `fillers` is silent exactly when absent, null, or a list of known genre strings |
| StructureProperties.BlocksStructureEmpty | data/prompts/scripts/validate_json_structure.py:145-154 | `blocks` is silent exactly when absent, null, or a non-empty list of schema-conforming dicts |
| StructureProperties.ChannelStructureEmpty | data/prompts/scripts/validate_json_structure.py:101-155 | a channel has no issue exactly when it matches the channel schema |
| StructureProperties.ChannelEntryEmpty | data/prompts/scripts/validate_json_structure.py:93-97 | a channel entry is silent exactly when it is a dict matching the schema |
| StructureProperties.ChannelEntriesEmpty | data/prompts/scripts/validate_json_structure.py:92-97 | the channel loop is silent exactly when every entry is a conforming dict |
| StructureProperties.CatalogStructureEmpty | data/prompts/scripts/validate_json_structure.py:68-98 | the structure layer accepts a catalog exactly when it matches the whole schema |
| StructureProperties.MissingKeysScoped | data/prompts/scripts/validate_json_structure.py:119-122 | missing-key issues carry the scope they were checked in |
| StructureProperties.TimeTypesScoped | data/prompts/scripts/validate_json_structure.py:129-132 | time-type issues carry the scope they were checked in |
| StructureProperties.CriterionStructureScoped | data/prompts/scripts/validate_json_structure.py:218-247 | a criterion's issues carry its prefix |
| StructureProperties.CriterionEntriesScoped | data/prompts/scripts/validate_json_structure.py:206-210 | issues of a block's criteria stay within the block's channel |
| StructureProperties.SlotFormatScoped | data/prompts/scripts/validate_json_structure.py:185-199 | slot-format issues carry the block's prefix |
| StructureProperties.BlockStructureScoped | data/prompts/scripts/validate_json_structure.py:158-215 | a block's issues stay within its channel |
| StructureProperties.BlockEntriesScoped | data/prompts/scripts/validate_json_structure.py:150-154 | issues of a channel's blocks stay within that channel |
| StructureProperties.FillersScoped | data/prompts/scripts/validate_json_structure.py:134-143 | filler issues carry the channel prefix |
| StructureProperties.ChannelStructureScoped | data/prompts/scripts/validate_json_structure.py:101-155 | every issue of channel i is attributed to channel i |
| StructureProperties.ChannelIssuesScoped | data/prompts/scripts/validate_json_structure.py:93-97 | every issue reported for channel entry i, dict or not, is about channel i |
| RulesValidation.Pairs | data/prompts/scripts/validate_catalog_rules.py:169-171 | the consecutive pairs of the sorted blocks, one fewer than the blocks |
| RulesValidation.ValidateCatalogRules | data/prompts/scripts/validate_catalog_rules.py:88-112 | validate_catalog_rules returns exactly the specification's outcome: structure issues, then dict channels' rules |
| RulesValidation.CheckChannelRuleEntries | data/prompts/scripts/validate_catalog_rules.py:107-111 | the channel loop skips non-dicts and appends each dict channel's rules |
| RulesValidation.ValidateChannelRules | data/prompts/scripts/validate_catalog_rules.py:115-196 | validate_channel_rules returns exactly the specification's outcome, early returns and exceptions included |
| RulesValidation.CheckFillerRules | data/prompts/scripts/validate_catalog_rules.py:141-145 | one issue per filler outside the genre keys; an unhashable filler raises |
| RulesValidation.CheckChannelBlocks | data/prompts/scripts/validate_catalog_rules.py:153-196 | continuity checks on the sorted blocks when the window is known, then each block's rules |
| RulesValidation.CheckTemporalRules | data/prompts/scripts/validate_catalog_rules.py:158-191 | first/last boundary, pair and range checks as specified |
| RulesValidation.CheckPairRules | data/prompts/scripts/validate_catalog_rules.py:169-179 | overlap and gap checks per consecutive pair; a non-numeric value raises |
| RulesValidation.CheckRangeRules | data/prompts/scripts/validate_catalog_rules.py:181-191 | out-of-range checks per block; conversion failures are swallowed |
| RulesValidation.CheckBlockRuleEntries | data/prompts/scripts/validate_catalog_rules.py:193-195 | each dict block's rules, with its index in the sorted order |
| RulesValidation.ValidateBlockRules | data/prompts/scripts/validate_catalog_rules.py:199-269 | validate_block_rules returns exactly the specification's outcome |
| RulesValidation.CheckBlockHead | data/prompts/scripts/validate_catalog_rules.py:214-249 | window, slot count, slot format and length issues, in that order |
| RulesValidation.CheckDuration | data/prompts/scripts/validate_catalog_rules.py:233-249 | the length check runs only with a window, an int count and a dict format with a numeric duration |
| RulesValidation.CheckCriteriaRules | data/prompts/scripts/validate_catalog_rules.py:251-264 | absent, null or empty criteria give one issue, otherwise each criterion is checked |
| RulesValidation.CheckCriterionRuleEntries | data/prompts/scripts/validate_catalog_rules.py:255-264 | one issue per non-dict criterion, otherwise its rules |
| RulesValidation.ValidateCriterionRules | data/prompts/scripts/validate_catalog_rules.py:272-332 | validate_criterion_rules returns exactly the specification's outcome |
| RulesValidation.CheckValueRules | data/prompts/scripts/validate_catalog_rules.py:304-331 | the per-category value loop, one issue per bad value |
| RulesProperties.AlmostEqualWithin | data/prompts/scripts/validate_catalog_rules.py:53-67 | almost_equal holds exactly when the values are within 1e-6, and is symmetric |
| RulesProperties.AllowedSlotFormatIff | data/prompts/scripts/validate_catalog_rules.py:38-85 | a slot format is allowed exactly when its three fields are numbers forming one of the five listed triples |
| RulesProperties.ThenReport | data/prompts/scripts/validate_catalog_rules.py:104-111 | a sequence that did not raise reports the first step's issues, then the second's |
| RulesProperties.CatalogRulesExtendStructure | data/prompts/scripts/validate_catalog_rules.py:102-112 | the structure issues are a prefix; every other issue comes from some dict channel's rules, and all of them appear |
| RulesProperties.CatalogRulesRaise | data/prompts/scripts/validate_catalog_rules.py:105-111 | the rule layer raises exactly when some dict channel's rules raise |
| RulesProperties.UnknownFillerReportedTwice | data/prompts/scripts/validate_catalog_rules.py:141-145 | an unknown string filler appears at least twice in the combined output, with the same message |
| RulesProperties.UnknownFillerInStructure | data/prompts/scripts/validate_json_structure.py:139-143 | an unknown string filler of a dict channel is reported by the structure layer |
| RulesProperties.UnknownFillerInRules | data/prompts/scripts/validate_catalog_rules.py:141-145 | an unknown string filler of a dict channel is reported by the channel-rules loop when it completes |
| RulesProperties.FillerRulesMember | data/prompts/scripts/validate_catalog_rules.py:141-145 | a filler issue appears exactly for fillers outside the genre keys |
| RulesProperties.PairRulesMember | data/prompts/scripts/validate_catalog_rules.py:169-179 | the pair loop's issues are exactly those of its rounds |
| RulesProperties.RangeIssuesMember | data/prompts/scripts/validate_catalog_rules.py:181-191 | the range loop's issues are exactly those of its rounds |
| RulesProperties.RangeIssuesAt | data/prompts/scripts/validate_catalog_rules.py:181-191 | an issue comes from the range loop exactly when it is an out-of-range issue that its own block's round reports |
| RulesProperties.PairRulesKind | data/prompts/scripts/validate_catalog_rules.py:169-179 | the pair loop only reports overlaps and gaps, each naming a pair index below the last block |
| RulesProperties.PairRulesAtRound | data/prompts/scripts/validate_catalog_rules.py:169-179 | an overlap or gap for pair i is reported by the completed loop exactly when round i reports it |
| RulesProperties.PairRulesRaiseIff | data/prompts/scripts/validate_catalog_rules.py:169-171 | once sortable, the pair loop raises exactly when some block before the last has a non-numeric `end` |
| RulesProperties.TemporalRaisesIff | data/prompts/scripts/validate_catalog_rules.py:158-171 | with readable begins, the continuity checks raise exactly when some block's `end` is not a number |
| RulesProperties.TemporalParts | data/prompts/scripts/validate_catalog_rules.py:158-191 | the continuity issues are the boundary issues, then the pair issues, then the range issues |
| RulesProperties.FirstBlockIff | data/prompts/scripts/validate_catalog_rules.py:159-164 | the first-block issue appears exactly when the first begin is more than 1e-6 from the channel's begin |
| RulesProperties.LastBlockIff | data/prompts/scripts/validate_catalog_rules.py:160-168 | the last-block issue appears exactly when the last end is more than 1e-6 from the channel's end |
| RulesProperties.PairRuleShape | data/prompts/scripts/validate_catalog_rules.py:169-179 | round i only reports overlap or gap of pair i |
| RulesProperties.RangeIssueShape | data/prompts/scripts/validate_catalog_rules.py:181-188 | round j only reports block j out of range |
| RulesProperties.PairRound | data/prompts/scripts/validate_catalog_rules.py:169-179 | in a run that did not raise, round i compares end i with begin i+1 |
| RulesProperties.PairIssueFromRound | data/prompts/scripts/validate_catalog_rules.py:169-179 | issues about pair i come only from round i |
| RulesProperties.OverlapIff | data/prompts/scripts/validate_catalog_rules.py:172-175 | pair i overlaps exactly when end i > begin i+1 + 1e-6 |
| RulesProperties.GapIff | data/prompts/scripts/validate_catalog_rules.py:176-179 | pair i leaves a gap exactly when end i and begin i+1 differ by more than 1e-6 |
| RulesProperties.OverlapIsAlsoGap | data/prompts/scripts/validate_catalog_rules.py:172-179 | every overlap issue comes with a gap issue with the same figures |
| RulesProperties.OutOfRangeIff | data/prompts/scripts/validate_catalog_rules.py:181-191 | block j is out of range exactly when it begins before begin − 1e-6 or ends after end + 1e-6 |
| RulesProperties.ValueRulesMember | data/prompts/scripts/validate_catalog_rules.py:304-331 | the value loop's issues are exactly those of its rounds, all of value kinds |
| RulesProperties.CriterionRulesMember | data/prompts/scripts/validate_catalog_rules.py:288-332 | a criterion's issues are its header issues plus, with a non-empty list of values, those of the value rounds |
| RulesProperties.CriteriaRulesKind | data/prompts/scripts/validate_catalog_rules.py:251-264 | the criteria of a block only report criterion-level issues |
| RulesProperties.BlockRulesParts | data/prompts/scripts/validate_catalog_rules.py:213-269 | a block's issues are its header issues, then its criteria's, then the `shows` issue |
| RulesProperties.BlockRulesKind | data/prompts/scripts/validate_catalog_rules.py:199-269 | a block only reports block- and criterion-level issues |
| RulesProperties.BlockHeadMember | data/prompts/scripts/validate_catalog_rules.py:214-249 | a header issue appears exactly when the header check produces it |
| RulesProperties.SlotCountIff | data/prompts/scripts/validate_catalog_rules.py:225-227 | the slot-count issue appears exactly when the count does not equal 1 or 2 (True, 1.0 and 2.0 pass) |
| RulesProperties.SlotFormatIff | data/prompts/scripts/validate_catalog_rules.py:229-231 | the slot-format issue appears exactly when the format is not a dict equal to an allowed triple |
| RulesProperties.DurationIssueIff | data/prompts/scripts/validate_catalog_rules.py:233-249 | a length issue exactly when window, int count, dict format and numeric duration are present and slot_duration·count/60 differs from end − begin by more than 1e-6 |
| RulesProperties.DurationIff | data/prompts/scripts/validate_catalog_rules.py:233-249 | a block reports a length mismatch exactly when its length check fails |
| RulesProperties.CriterionRaisesIff | data/prompts/scripts/validate_catalog_rules.py:289-315 | a criterion raises exactly when its category, or a genre/type value, is unhashable (a list or dict) |
| RulesProperties.CriterionHeadIff | data/prompts/scripts/validate_catalog_rules.py:289-301 | one issue each, exactly when the category is unknown, `forbidden` is not a bool, `values` is not a non-empty list |
| RulesProperties.CriterionHeadMember | data/prompts/scripts/validate_catalog_rules.py:289-301 | any issue other than a value issue is in a criterion's output exactly when the criterion head reports it |
| RulesProperties.UnknownGenreIff | data/prompts/scripts/validate_catalog_rules.py:304-309 | an unknown-genre issue exactly for genre values outside the genre keys |
| RulesProperties.InvalidTypeIff | data/prompts/scripts/validate_catalog_rules.py:310-315 | an invalid-type issue exactly for type values other than series and movie |
| RulesProperties.LanguageIff | data/prompts/scripts/validate_catalog_rules.py:316-321 | a language issue exactly for non-string language values |
| RulesProperties.DurationValueIff | data/prompts/scripts/validate_catalog_rules.py:322-331 | a duration issue for a non-number value, another for a number ≤ 0 |
| RulesProperties.ChannelHeadKind | data/prompts/scripts/validate_catalog_rules.py:128-145 | before the blocks, only window and filler issues arise |
| RulesProperties.ChannelWithoutBlocks | data/prompts/scripts/validate_catalog_rules.py:147-150 | without a non-empty list of blocks no temporal or block check runs |
| RulesProperties.ChannelUnsortable | data/prompts/scripts/validate_catalog_rules.py:152-156 | a failed sort adds exactly one issue, last, and the remaining checks are skipped |
| RulesProperties.SortedFirstIsMinimal | data/prompts/scripts/validate_catalog_rules.py:153-159 | the first sorted block has the smallest begin |
| RulesProperties.SortByBeginKeepsBlocks | data/prompts/scripts/validate_catalog_rules.py:153 | sorting keeps every block and adds none |
| RulesProperties.SortByBeginSortable | data/prompts/scripts/validate_catalog_rules.py:153 | the sorted blocks have convertible begins exactly when the originals do |
| RulesProperties.SortByBeginEndsNumeric | data/prompts/scripts/validate_catalog_rules.py:153-170 | the sorted blocks have numeric ends exactly when the originals do |
| RulesProperties.ChannelRulesParts | data/prompts/scripts/validate_catalog_rules.py:128-196 | a channel's issues are its head, the continuity issues (with a window), then each sorted block's rules |
| RulesProperties.ChannelBlockRulesParts | data/prompts/scripts/validate_catalog_rules.py:158-196 | after sorting, a channel's block issues are the continuity issues (with a window), then each sorted block's rules |
| RulesProperties.BlockRuleEntriesKind | data/prompts/scripts/validate_catalog_rules.py:193-195 | the block loop reports only block-level issues |
| RulesProperties.ChannelTemporalMember | data/prompts/scripts/validate_catalog_rules.py:136-158 | continuity issues appear exactly as the sorted-block checks give them, and not at all without a window |
| RulesProperties.ChannelFirstBlock | data/prompts/scripts/validate_catalog_rules.py:153-164 | the first-block check compares the channel's begin with the smallest block begin |
| RulesProperties.NonNumericEndRaises | data/prompts/scripts/validate_catalog_rules.py:160-170 | a block whose `end` is not a number makes the channel's rules raise (the conversions sit outside any try) |
| LegacyValidation.ValidateCatalog | data/prompts/scripts/catalog_validation.py:228-235 | validate_catalog returns exactly the specification's outcome |
| LegacyValidation.ValidateCatalogStruct | data/prompts/scripts/catalog_validation.py:65-72 | validate_catalog_struct returns the missing top-level keys, then the channels-type issue |
| LegacyValidation.CheckChannels | data/prompts/scripts/catalog_validation.py:233-234 | the channel loop appends each channel's outcome; the first exception aborts |
| LegacyValidation.ValidateChannel | data/prompts/scripts/catalog_validation.py:74-141 | validate_channel returns exactly the specification's outcome; a non-dict raises |
| LegacyValidation.CheckChannelHead | data/prompts/scripts/catalog_validation.py:75-99 | required keys, window and fillers, in that order |
| LegacyValidation.CheckWindow | data/prompts/scripts/catalog_validation.py:82-90 | begin < end, or one issue when a value does not convert |
| LegacyValidation.CanSortByBegin | data/prompts/scripts/catalog_validation.py:108-112 | the sort succeeds exactly when every block is a dict with a numeric `begin` |
| LegacyValidation.CheckSortedBlocks | data/prompts/scripts/catalog_validation.py:114-141 | continuity checks when the window is known, then each block |
| LegacyValidation.CheckTemporal | data/prompts/scripts/catalog_validation.py:115-136 | first/last, pair and range checks with direct indexing |
| LegacyValidation.CheckPairs | data/prompts/scripts/catalog_validation.py:123-129 | overlap and gap checks per consecutive pair |
| LegacyValidation.CheckRanges | data/prompts/scripts/catalog_validation.py:132-136 | out-of-range checks per block, outside any try |
| LegacyValidation.CheckBlocks | data/prompts/scripts/catalog_validation.py:139-140 | each sorted block's outcome in order |
| LegacyValidation.ValidateBlock | data/prompts/scripts/catalog_validation.py:143-189 | a dict block gets its specification's outcome; a non-dict raises |
| LegacyValidation.CheckBlock | data/prompts/scripts/catalog_validation.py:143-189 | validate_block returns exactly the specification's outcome |
| LegacyValidation.CheckBlockHead | data/prompts/scripts/catalog_validation.py:145-166 | required keys, window, slot count and slot format issues |
| LegacyValidation.CheckDuration | data/prompts/scripts/catalog_validation.py:168-173 | the length check without `float()`; a non-numeric duration raises |
| LegacyValidation.CheckCriteria | data/prompts/scripts/catalog_validation.py:175-181 | criteria issues, each criterion validated with no dict guard |
| LegacyValidation.CheckBlockTail | data/prompts/scripts/catalog_validation.py:175-187 | the criteria, then the `shows` checks |
| LegacyProperties.GenreTableKeys | data/prompts/scripts/catalog_validation.py:25-52 | GENRE_KEYS is exactly the other validators' set of normalised genres |
| LegacyProperties.CatalogStructIff | data/prompts/scripts/catalog_validation.py:65-72 | the top-level check reports missing keys and a non-list `channels` (null included) and nothing about the channels |
| LegacyProperties.LegacyCatalogParts | data/prompts/scripts/catalog_validation.py:228-235 | the top-level issues come first; the call raises exactly when some channel's validation raises |
| LegacyProperties.NullChannelsReported | data/prompts/scripts/catalog_validation.py:70-71 | a null `channels` is reported here, while the structure layer lets it through |
| LegacyProperties.NonDictChannelRaises | data/prompts/scripts/catalog_validation.py:74-76 | a non-dict channel ends the whole call with an exception; the rule layer skips it |
| LegacyProperties.LegacyWindowIff | data/prompts/scripts/catalog_validation.py:82-90 | a non-numeric begin or end gives exactly one conversion issue; a numeric window is checked as in the rule layer |
| LegacyProperties.FillersPartIff | data/prompts/scripts/catalog_validation.py:93-99 | a non-list `fillers` is one issue; otherwise one issue per filler outside the genre keys |
| LegacyProperties.LegacyChannelHeadKind | data/prompts/scripts/catalog_validation.py:75-99 | the head reports only key, window and filler issues, with the channel prefix |
| LegacyProperties.HeadThenStop | data/prompts/scripts/catalog_validation.py:103-112 | a stopping issue is the last one and appears once |
| LegacyProperties.EmptyBlocksStop | data/prompts/scripts/catalog_validation.py:102-105 | empty or non-list blocks give one final issue and stop; the rule layer never reports it |
| LegacyProperties.MissingBeginStops | data/prompts/scripts/catalog_validation.py:108-112 | a block without `begin` gives one sort issue and stops, where the rule layer reads its begin as 0 |
| LegacyProperties.SortKeepsLegacyShape | data/prompts/scripts/catalog_validation.py:109 | sorting keeps the blocks sortable and timed |
| LegacyProperties.RangeRulesAgree | data/prompts/scripts/catalog_validation.py:132-136 | once every field converts, the range loop agrees with the rule layer's |
| LegacyProperties.PairRulesAgree | data/prompts/scripts/catalog_validation.py:123-129 | on timed blocks, the pair loop agrees with the rule layer's, exceptions included |
| LegacyProperties.PairRulesConvertEnds | data/prompts/scripts/validate_catalog_rules.py:169-171 | a completed pair loop has converted every end but the last |
| LegacyProperties.LegacyTemporalAgrees | data/prompts/scripts/catalog_validation.py:115-136 | on timed blocks, the continuity checks agree with the rule layer's, exceptions included |
| LegacyProperties.LegacyTemporalRaisesIff | data/prompts/scripts/catalog_validation.py:115-136 | once sortable, the continuity checks raise exactly when some block has no numeric `end` |
| LegacyProperties.LegacyPairsRaiseIff | data/prompts/scripts/catalog_validation.py:123-129 | once sortable, the pair loop raises exactly when some block before the last has a faulty `end` |
| LegacyProperties.LegacyRangesRaiseIff | data/prompts/scripts/catalog_validation.py:131-136 | once sortable, the range loop raises exactly when some block has a faulty `end` |
| LegacyProperties.MissingEndRaises | data/prompts/scripts/catalog_validation.py:117-134 | a block without `end` raises here; the rule layer reads it as 0 |
| LegacyProperties.LegacyPairIff | data/prompts/scripts/catalog_validation.py:126-129 | overlap exactly when end i > begin i+1 + 1e-6; gap exactly when they differ by more than 1e-6 |
| LegacyProperties.LegacyBoundaryIff | data/prompts/scripts/catalog_validation.py:116-121 | first and last block checked against the window as in the rule layer |
| LegacyProperties.LegacyDurationAgrees | data/prompts/scripts/catalog_validation.py:168-173 | a numeric duration gives the rule layer's length check; a non-numeric one raises where the rule layer is silent |
| LegacyProperties.LegacyCriteriaAgrees | data/prompts/scripts/catalog_validation.py:175-226 | with dict criteria the criterion checks equal the rule layer's |
| LegacyProperties.NonDictCriterionRaises | data/prompts/scripts/catalog_validation.py:180-193 | a non-dict criterion raises here; the rule layer reports it and continues |
| LegacyProperties.LegacyCriteriaKind | data/prompts/scripts/catalog_validation.py:175-181 | criteria report only criterion-level issues |
| LegacyProperties.LegacyBlockParts | data/prompts/scripts/catalog_validation.py:143-189 | a block reports its head, its length, its criteria and its `shows`, in that order |
| LegacyProperties.LegacyBlockHeadKind | data/prompts/scripts/catalog_validation.py:145-166 | the block head reports only block-level issues |
| LegacyProperties.LegacyDurationKind | data/prompts/scripts/catalog_validation.py:168-173 | the length check reports only length mismatches |
| LegacyProperties.LegacyBlockIssueKind | data/prompts/scripts/catalog_validation.py:143-189 | a block reports only on itself and its criteria |
| LegacyProperties.LegacyBlockEntriesKind | data/prompts/scripts/catalog_validation.py:139-140 | the block loop never reports continuity issues |
| LegacyProperties.LegacyChannelParts | data/prompts/scripts/catalog_validation.py:74-141 | a channel reports its head, then one stopping issue or what its sorted blocks report |
| LegacyProperties.NoWindowNoContinuity | data/prompts/scripts/catalog_validation.py:87-115 | a non-numeric window is reported and switches off every continuity check |
| LegacyProperties.ShowsMissingTwice | data/prompts/scripts/catalog_validation.py:145-185 | a block without `shows` is reported twice: missing key and `'shows'` missing |
| LegacyProperties.NullShowsReported | data/prompts/scripts/catalog_validation.py:186-187 | a null `shows` is reported here; the rule layer accepts it |
| LegacyProperties.LegacyBlockAgrees | data/prompts/scripts/catalog_validation.py:143-189 | apart from missing keys, a block with numeric window and duration, dict criteria and a `shows` value is checked as in the rule layer |
| LegacyProperties.SortedBlocksAreDicts | data/prompts/scripts/catalog_validation.py:109-140 | once sorted, every block handed to validate_block is a dict |
| CatalogFixtures.CriterionPasses | data/prompts/scripts/test_validation.py:53-54 | a genre criterion with a known genre, or a type criterion with series/movie, reports nothing |
| CatalogFixtures.NoForbiddenRules | data/prompts/scripts/test_validation.py:112 | a criterion without `forbidden` reports exactly the non-bool issue |
| CatalogFixtures.InvalidTypeRules | data/prompts/scripts/test_validation.py:114 | an unknown type value reports exactly the invalid-type issue |
| CatalogFixtures.TwoCriteria | data/prompts/scripts/validate_catalog_rules.py:255-264 | two criteria report what each reports, in order |
| CatalogFixtures.CriteriaPass | data/prompts/scripts/test_validation.py:52-55 | the fixture's genre-and-type criteria report nothing |
| CatalogFixtures.BlockRulesOf | data/prompts/scripts/validate_catalog_rules.py:213-269 | a block with an allowed format reports exactly its slot-count, length and criteria issues |
| CatalogFixtures.TemporalOfTwo | data/prompts/scripts/validate_catalog_rules.py:158-191 | the continuity issues of two blocks, in order |
| CatalogFixtures.SortTwo | data/prompts/scripts/validate_catalog_rules.py:153 | two blocks already in order stay in order |
| CatalogFixtures.ChannelHeadOfOne | data/prompts/scripts/validate_catalog_rules.py:128-145 | a channel with a valid window and one filler reports only an unknown filler |
| CatalogFixtures.ChannelBlocksOfTwo | data/prompts/scripts/validate_catalog_rules.py:152-196 | two ordered blocks report continuity issues, then each block's |
| CatalogFixtures.ChannelOfTwo | data/prompts/scripts/validate_catalog_rules.py:115-196 | the whole report of a two-block channel |
| CatalogFixtures.ValidChannelWellTyped | data/prompts/scripts/test_validation.py:42-83 | the valid fixture's channel matches the structure schema |
| CatalogFixtures.ValidCatalogStructure | data/prompts/scripts/test_validation.py:152-158 | the valid catalog has no structure issue |
| CatalogFixtures.ValidBlocksPass | data/prompts/scripts/test_validation.py:50-81 | both valid blocks report no rule issue |
| CatalogFixtures.ValidTemporal | data/prompts/scripts/test_validation.py:46-73 | the contiguous 6→8→10 blocks report no continuity issue |
| CatalogFixtures.ValidCatalogPasses | data/prompts/scripts/test_validation.py:150-159 | the valid catalog passes both layers |
| CatalogFixtures.CatalogOfOne | data/prompts/scripts/validate_catalog_rules.py:102-112 | a catalog with one dict channel yields its structure issues followed by that channel's rules |
| CatalogFixtures.InvalidCatalogStructure | data/prompts/scripts/test_validation.py:107 | the invalid catalog has a structure issue: its unknown filler |
| CatalogFixtures.InvalidBlock0Rules | data/prompts/scripts/test_validation.py:109-125 | the first invalid block reports the missing `forbidden`, the invalid type and its length mismatch |
| CatalogFixtures.InvalidBlock1Rules | data/prompts/scripts/test_validation.py:126-141 | the second invalid block reports slot count 3 and its length mismatch |
| CatalogFixtures.InvalidTemporal | data/prompts/scripts/test_validation.py:116-133 | the overlapping blocks report overlap, gap and the wrong last end |
| CatalogFixtures.InvalidChannelRules | data/prompts/scripts/test_validation.py:102-143 | the exact rule report of the invalid channel |
| CatalogFixtures.InvalidCatalogFails | data/prompts/scripts/test_validation.py:162-171 | the invalid catalog fails both layers, and its report includes the overlap of blocks 0 and 1 |
| GridTypes.CategoryName | data_types.py:11-16 | each category's string value is non-empty |
| GridTypes.KeysOf | data_types.py:45 | the keys of a property table are exactly its entries' categories |
| GridTypes.PermutedListsTrans | grid_generator.py:163 | permuting the lists of a table twice is a permutation |
| GridTypes.GridChannel.constructor | grid_generator.py:67 | the channel starts empty |
| ShowSelection.MinNumber | grid_generator.py:57 | `min(props)` is one of the values and below all of them |
| ShowSelection.MaxNumber | grid_generator.py:57 | `max(props)` is one of the values and above all of them |
| ShowSelection.AnySharedIff | grid_generator.py:59 | `any(props ∩ values)` holds exactly when a truthy value lies in both |
| ShowSelection.NoValuesNoMatch | grid_generator.py:51-60 | a criterion with no values is never satisfied |
| ShowSelection.CheckCriteriaSharedIff | grid_generator.py:52-59 | genre/type/language: a match exactly when a truthy value is both a property and a criterion value |
| ShowSelection.CheckCriteriaTextIff | grid_generator.py:52-59 | for non-empty strings the match is plain non-empty intersection |
| ShowSelection.DurationWithNoneFails | grid_generator.py:53-60 | a None among the duration properties means no match |
| ShowSelection.CheckDurationIff | grid_generator.py:53-57 | duration: a match exactly when some value is below every duration and some value above every duration |
| ShowSelection.MatchingShowsMember | grid_generator.py:29-37 | a show is kept exactly when it satisfies every criterion |
| ShowSelection.MatchingShowsAppend | grid_generator.py:31-36 | filtering keeps the original order (it commutes with concatenation) |
| ShowSelection.MatchingShowsNoCriteria | grid_generator.py:32-36 | with no criteria every show is kept |
| ShowSelection.GetMatchingShows | grid_generator.py:29-37 | the nested loop returns exactly the matching shows, in order |
| ShowSelection.CuratedFrom | grid_generator.py:42-44 | a curated list has at most ten shows, all from the list before |
| ShowSelection.ShuffleAndCut | grid_generator.py:42-44 | keeps min(10, n) shows, a sub-multiset of the list |
| ShowSelection.CurateChannel | grid_generator.py:39-44 | each block keeps min(10, n) of its own shows, multiplicity respected; nothing else changes |
| ShowSelection.ShowSelector.constructor | grid_generator.py:18-21 | the selector holds the channel and the show list |
| ShowSelection.ShowSelector.GenerateSchedules | grid_generator.py:23-27 | each block ends with at most ten of its matching shows; criteria, hours and the rest of the channel are unchanged |
| ShowSelection.ListOfSet | grid_generator.py:306 | `list(set(...))` holds each element of the set exactly once |
| ShowSelection.KeysSeenIff | grid_generator.py:303-304 | a category is seen exactly when some show carries it |
| ShowSelection.ValuesSeenIff | grid_generator.py:303-305 | a value is seen under a category exactly when some show carries it there |
| ShowSelection.UnseenKeyNoValues | grid_generator.py:302 | a category no show carries has no values |
| ShowSelection.IndexOfKey | grid_generator.py:306 | `properties[p]` finds the entry for p, or reports it absent |
| ShowSelection.MergeValues | grid_generator.py:306 | the entry for p becomes the set of its old and new values, in place or appended |
| ShowSelection.MergeKeys | grid_generator.py:306 | merging keeps keys distinct and adds p |
| ShowSelection.CollectedMerge | grid_generator.py:304-306 | merging one category keeps the collected-values invariant |
| ShowSelection.MergeEntries | grid_generator.py:304-306 | after merging category p, every entry holds the values seen so far, p's included |
| ShowSelection.MergedEntry | grid_generator.py:306 | the merged entry for p holds distinct values: its old ones plus the show's |
| ShowSelection.UntouchedEntry | grid_generator.py:304-306 | merging p leaves every other entry distinct and unchanged |
| ShowSelection.CollectedNext | grid_generator.py:303-306 | after the inner loop the table covers one more show |
| ShowSelection.MergeCategory | grid_generator.py:305-306 | one inner-loop step preserves the invariant |
| ShowSelection.MergeShow | grid_generator.py:304-306 | the inner loop merges every category of one show |
| ShowSelection.ShowAnalyzer.constructor | grid_generator.py:298-299 | the analyzer holds the shows |
| ShowSelection.ShowAnalyzer.GetAvailableProperties | grid_generator.py:301-307 | per category some show carries, every value some show carries there, each once; nothing else |
| ChannelMaking.MinuteToFloatHour | grid_generator.py:167-169 | hours times 60 give back the minutes |
| ChannelMaking.NormalizeHourToDay | grid_generator.py:171-173 | the hour, or the hour less 24; within two days the result is in [0, 24) |
| ChannelMaking.NormalizeIdempotent | grid_generator.py:171-173 | within two days, normalising twice is normalising once |
| ChannelMaking.PastChannelEndIff | grid_generator.py:130-134 | a block is rejected exactly when its end is at least 24 and end − 24 exceeds the channel's end |
| ChannelMaking.ShortestFormat | grid_generator.py:124 | `min(..., key=slot_duration)`: a format with the shortest slot, the first such |
| ChannelMaking.SmallestCount | grid_generator.py:126-127 | `min(counts)`: an element no larger than any other |
| ChannelMaking.CriteriaFitPermuted | grid_generator.py:151 | later shuffles keep earlier criteria fitting the sampled lists |
| ChannelMaking.PrefixOfPermutation | grid_generator.py:163-164 | a kept element of a shuffled list belongs to the original list |
| ChannelMaking.ChannelMaker.constructor | grid_generator.py:65-78 | six and four o'clock, the five formats and counts 1-3; an empty channel |
| ChannelMaking.ChannelMaker.MultipleRandomSelection | grid_generator.py:158-165 | the options are permuted; between 1 and min(n, maximum) of them are kept, a prefix of the permutation |
| ChannelMaking.ChannelMaker.SetSlotConfig | grid_generator.py:93-99 | one or two formats and counts, prefixes of the shuffled lists; the channel's hours are set |
| ChannelMaking.ChannelMaker.SetProperties | grid_generator.py:85-91 | per category, one to ten values kept from the shuffled list, keys in order |
| ChannelMaking.ChannelMaker.SelectBlockCriteria | grid_generator.py:141-156 | one criterion per sampled category; duration gets [min, max] of the format; others one to three values of the shuffled list |
| ChannelMaking.ChannelMaker.GenerateBlock | grid_generator.py:119-139 | none exactly when the drawn (or minimal, when forced) block would end past the channel's end; otherwise the block with unnormalised end and fitting criteria |
| ChannelMaking.ChannelMaker.SetBlocks | grid_generator.py:101-117 | blocks chained from the channel's begin, each well formed and of positive length; the loop stops once even the shortest block no longer fits |
| ChannelMaking.ChannelMaker.MakeChannelFrame | grid_generator.py:80-83 | the channel's hours, formats and counts are set and its blocks chained from six o'clock until the shortest block would overrun |
| ChannelMaking.BlocksStayFit | grid_generator.py:138-151 | shuffling the sampled lists keeps the laid blocks well formed |
| ChannelMaking.BlockStep | grid_generator.py:129-135 | a block that fits ends a whole number of minutes later and before the bound, so the loop terminates |
| EnumKeys.CategoryNameInjective | data_types.py:11-16 | distinct categories have distinct values |
| EnumKeys.Insert | utils.py:26 | `new_obj[k] = v` keeps keys distinct; an equal key is updated in place, otherwise appended |
| EnumKeys.ToCategoryKey | utils.py:22-25 | converting a key keeps the string it compares as |
| EnumKeys.ToCategoryKeyIff | utils.py:22-25 | a key becomes category c exactly when it names c; other keys are kept |
| EnumKeys.DeserializeDict | utils.py:19-27 | a dict keeps all its entries, in order, keys converted and values deserialized |
| EnumKeys.DeserializeShape | utils.py:28-31 | lists keep length and order; other leaves are unchanged |
| EnumKeys.DeserializeIdempotent | utils.py:18-31 | deserializing twice is deserializing once |
| EnumKeys.SerializeUndoesDeserialize | utils.py:7-31 | serializing deserialized JSON gives back the JSON |
| EnumKeys.SerializeNoCategories | utils.py:7-15 | a serialized value holds no category: keys are strings, members are their values |

## Left out

- The `main` functions of the three validators: reading the file, parsing JSON, printing and exit codes are I/O.
- `JellyfinShowRetriever`, `jellyfin_api.py`, `main.py`, `settings.py`, `ersatz_builder.py` and `channel_description.py` are not part of this model. They are HTTP clients, environment lookups, browser automation and printing.
- `hour_float_to_hour_minute` in `utils.py` wraps `datetime` formatting.
- Message texts are not rendered. Each message is an `Issue` constructor carrying the interpolated values; Python's `str()`/`repr()` of floats, dicts and type names is not modelled.
- `float()` of a numeric string succeeds in Python. The model treats it as failing, so only numeric JSON values convert.
- Floating-point rounding: hours and durations are exact reals.
- The distribution of `random.choice`, `random.shuffle` and `random.randint`: each is a nondeterministic choice within its range.
- The debug `print` for "totoro" in `check_criteria`.
- EnumKeys.Serialize: `str(k)` of a category key depends on the Python version. It is the parameter `render`. The round-trip lemma uses the category's value.
- catalog_validation.py indexes channels and criteria without a dict guard. A non-dict one is modelled as the exception it raises (`Raised(NotADict(...))`), not as a precondition.
- The catalog argument of each validator is a dict (`map<string, Json>`), as its signature types it. The `isinstance(catalog, dict)` fallback is therefore not modelled.
- GridTypes.GridChannel: the channel's name and description are set elsewhere. The model leaves them out, together with the misspelt keys `available_slow_format` and `slow_format`; these are plain fields.
- ShowSelection.GetAvailableProperties: a dictionary's iteration order over a show's categories and `list(set(...))`'s order are arbitrary in the model. Values are compared as reals, so Python's `1 == 1.0` merge is kept.
- ShowSelection.CheckCriteria: a duration criterion over a show with no duration properties makes `min` raise. That input is excluded by the precondition `Comparable`, which also requires numbers to be compared only with numbers.
- A block's `shows` key is absent until schedules are generated; the model starts it as the empty list.
- Aliasing of block dictionaries between the channel and the selector is not modelled. The selector updates the channel's `blocks` field.
- ChannelMaking.ChannelMaker.SetBlocks: the facts about the loop's own variables are loop invariants, not postconditions. They are that `retry` stays 0 or 1, that a pending rejection means force-minimum mode, and that `begin` is the last block's end.
- ChannelMaking.ChannelMaker.GenerateBlock: the chosen format and count are ghost outputs, because the source does not return them separately.
