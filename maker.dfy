// Channel frame generation (grid_generator.py, ChannelMaker): the slot
// configuration and property sample of a new channel, and the chain of blocks
// laid from the channel's start hour until no further block fits before the
// channel's end hour on the next day.

module ChannelMaking {
  import opened JsonValues
  import opened GridTypes

  function Min(a: int, b: int): int
  {
    if a < b then a else b
  }

  /** ChannelMaker.minute_to_float_hour. */
  function MinuteToFloatHour(duration: real): (r: real)
    ensures r * 60.0 == duration
  {
    duration / 60.0
  }

  /** ChannelMaker.normalize_hour_to_day: an hour of the next day is brought back to 0-24. */
  function NormalizeHourToDay(hour: real): (r: real)
    ensures r == hour || r + 24.0 == hour
    ensures 0.0 <= hour < 48.0 ==> 0.0 <= r < 24.0
  {
    if hour < 24.0 then hour else hour - 24.0
  }

  /** Within two days, normalising twice is normalising once. */
  lemma NormalizeIdempotent(hour: real)
    requires 0.0 <= hour < 48.0
    ensures NormalizeHourToDay(NormalizeHourToDay(hour)) == NormalizeHourToDay(hour)
  {
  }

  /** The five slot formats the maker starts from, in minutes. */
  const SlotFormats: seq<SlotFormat> := [
    SlotFormat(22, 26, 30),
    SlotFormat(45, 52, 60),
    SlotFormat(70, 80, 90),
    SlotFormat(95, 110, 120),
    SlotFormat(12, 13, 15)
  ]

  const SlotCountOptions: seq<int> := [1, 2, 3]

  const ChannelBeginAt: int := 6
  const ChannelEndAt: int := 4

  /** End hour of a block starting at `begin` with `count` slots of format `f`. */
  function BlockEnd(begin: real, f: SlotFormat, count: int): real
  {
    begin + MinuteToFloatHour((f.slotDuration * count) as real)
  }

  /** generate_block's rejection test: the end falls on the next day, after the channel's end hour. */
  predicate PastChannelEnd(end: real, channelEnd: int)
  {
    end != NormalizeHourToDay(end) && NormalizeHourToDay(end) > channelEnd as real
  }

  lemma PastChannelEndIff(end: real, channelEnd: int)
    ensures PastChannelEnd(end, channelEnd) <==> end >= 24.0 && end - 24.0 > channelEnd as real
  {
  }

  /** `min(formats, key=slot_duration)`: the first format of shortest slot. */
  function ShortestFormat(formats: seq<SlotFormat>): (r: SlotFormat)
    requires |formats| > 0
    ensures forall i :: 0 <= i < |formats| ==> r.slotDuration <= formats[i].slotDuration
    ensures exists k :: 0 <= k < |formats| && formats[k] == r && FirstOfItsLength(formats, k)
  {
    if |formats| == 1 then formats[0]
    else
      var m := ShortestFormat(formats[1..]);
      if formats[0].slotDuration <= m.slotDuration then formats[0]
      else
        var k :| 0 <= k < |formats| - 1 && formats[1..][k] == m && FirstOfItsLength(formats[1..], k);
        assert formats[k + 1] == m && FirstOfItsLength(formats, k + 1);
        m
  }

  /** No format before position `k` has a slot as short as the one at `k`. */
  predicate FirstOfItsLength(formats: seq<SlotFormat>, k: int)
    requires 0 <= k < |formats|
  {
    forall i :: 0 <= i < k ==> formats[i].slotDuration > formats[k].slotDuration
  }

  /** `min(counts)`. */
  function SmallestCount(counts: seq<int>): (r: int)
    requires |counts| > 0
    ensures r in counts
    ensures forall i :: 0 <= i < |counts| ==> r <= counts[i]
  {
    if |counts| == 1 then counts[0]
    else
      var m := SmallestCount(counts[1..]);
      if counts[0] <= m then counts[0] else m
  }

  /** The format and slot count generate_block may pick. */
  predicate Picked(f: SlotFormat, count: int, forceMinimum: bool,
                   formats: seq<SlotFormat>, counts: seq<int>)
    requires |formats| > 0 && |counts| > 0
  {
    if forceMinimum then f == ShortestFormat(formats) && count == SmallestCount(counts)
    else f in formats && count in counts
  }

  /** Formats and counts to draw from, all positive, so every block lasts a while. */
  predicate SlotConfigReady(formats: seq<SlotFormat>, counts: seq<int>)
  {
    |formats| > 0 && |counts| > 0 &&
    (forall i :: 0 <= i < |formats| ==> formats[i].slotDuration > 0) &&
    (forall i :: 0 <= i < |counts| ==> counts[i] > 0)
  }

  /** Every sampled list of a category other than duration has a value to draw. */
  predicate PropertiesReady(props: PropertyTable)
  {
    forall i :: 0 <= i < |props| ==> props[i].0 != Duration ==> |props[i].1| > 0
  }

  /**
   * Criteria select_block_criteria may build for slot format `sf`: one per
   * sampled category, in table order; the duration criterion is the format's
   * show-length range; any other takes one to three of the category's values.
   */
  predicate CriteriaFit(criteria: seq<Criterion>, sf: SlotFormat, props: PropertyTable)
  {
    |criteria| == |props| &&
    forall i :: 0 <= i < |props| ==>
      criteria[i].category == props[i].0 &&
      (props[i].0 == Duration ==>
        criteria[i].values == [Number(sf.showMinDuration as real), Number(sf.showMaxDuration as real)]) &&
      (props[i].0 != Duration ==>
        1 <= |criteria[i].values| <= Min(3, |props[i].1|) &&
        multiset(criteria[i].values) <= multiset(props[i].1))
  }

  /** Later shuffles of the sampled lists keep earlier criteria fitting. */
  lemma CriteriaFitPermuted(criteria: seq<Criterion>, sf: SlotFormat, a: PropertyTable, b: PropertyTable)
    requires CriteriaFit(criteria, sf, a) && PermutedLists(a, b)
    ensures CriteriaFit(criteria, sf, b)
  {
    forall i | 0 <= i < |b|
      ensures |b[i].1| == |a[i].1|
    {
      assert |multiset(b[i].1)| == |multiset(a[i].1)|;
    }
  }

  /** `kept` samples `source`: same keys in order, each list a non-empty prefix of at most `maximum`. */
  predicate Sampled(source: PropertyTable, kept: PropertyTable, maximum: int)
  {
    |kept| == |source| &&
    forall i :: 0 <= i < |source| ==>
      kept[i].0 == source[i].0 &&
      1 <= |kept[i].1| <= Min(|source[i].1|, maximum) &&
      kept[i].1 == source[i].1[..|kept[i].1|]
  }

  /** Blocks follow one another from `start`, each beginning where the previous one ends. */
  predicate Chained(blocks: seq<Block>, start: real)
  {
    (|blocks| > 0 ==> blocks[0].begin == start) &&
    forall i :: 0 < i < |blocks| ==> blocks[i].begin == blocks[i - 1].end
  }

  /** Where the next block would begin. */
  function NextBegin(blocks: seq<Block>, start: real): real
  {
    if |blocks| == 0 then start else blocks[|blocks| - 1].end
  }

  /** A generated block as generate_block builds it, before any show is scheduled. */
  predicate WellFormedBlock(b: Block, formats: seq<SlotFormat>, counts: seq<int>,
                            channelEnd: int, props: PropertyTable)
  {
    b.slotFormat in formats && b.slotCount in counts &&
    b.end == BlockEnd(b.begin, b.slotFormat, b.slotCount) &&
    !PastChannelEnd(b.end, channelEnd) &&
    b.shows == [] &&
    CriteriaFit(b.criteria, b.slotFormat, props)
  }

  /** A sampled element of a permuted list belongs to the original list. */
  lemma PrefixOfPermutation<T>(original: seq<T>, shuffled: seq<T>, k: int)
    requires multiset(shuffled) == multiset(original) && 0 <= k <= |shuffled|
    ensures forall x :: x in shuffled[..k] ==> x in original
  {
    forall x | x in shuffled[..k]
      ensures x in original
    {
      assert x in shuffled;
      assert x in multiset(shuffled);
    }
  }

  lemma PrefixSubMultiset<T>(s: seq<T>, k: int)
    requires 0 <= k <= |s|
    ensures multiset(s[..k]) <= multiset(s)
  {
    assert s == s[..k] + s[k..];
  }

  class ChannelMaker {
    var availableProperties: PropertyTable
    const channel: GridChannel
    const channelBeginAt: int
    const channelEndAt: int
    var availableSlotFormats: seq<SlotFormat>
    var slotCountOptions: seq<int>

    constructor(availableProperties: PropertyTable)
      ensures this.availableProperties == availableProperties
      ensures fresh(channel) && channel.blocks == [] && channel.availableProperties == []
      ensures channelBeginAt == ChannelBeginAt && channelEndAt == ChannelEndAt
      ensures availableSlotFormats == SlotFormats && slotCountOptions == SlotCountOptions
    {
      this.availableProperties := availableProperties;
      channel := new GridChannel();
      channelBeginAt := ChannelBeginAt;
      channelEndAt := ChannelEndAt;
      availableSlotFormats := SlotFormats;
      slotCountOptions := SlotCountOptions;
    }

    /**
     * multiple_random_selection: shuffles `options` in place (returned as
     * `shuffled`) and keeps a prefix of one up to `maximumOptionCount` elements.
     */
    static method MultipleRandomSelection<T(==)>(options: seq<T>, maximumOptionCount: int)
      returns (shuffled: seq<T>, kept: seq<T>)
      requires |options| > 0 && maximumOptionCount > 0
      ensures multiset(shuffled) == multiset(options) && |shuffled| == |options|
      ensures 1 <= |kept| <= Min(|options|, maximumOptionCount)
      ensures kept == shuffled[..|kept|]
    {
      var optionCount := |options|;
      optionCount := if optionCount < maximumOptionCount then optionCount else maximumOptionCount;
      var keptCount :| 1 <= keptCount <= optionCount;
      assert multiset(options) == multiset(options);
      shuffled :| multiset(shuffled) == multiset(options);
      assert |shuffled| == |multiset(shuffled)| == |options|;
      kept := shuffled[..keptCount];
    }

    /** set_slot_config: up to two formats and two slot counts, and the channel's hours. */
    method SetSlotConfig()
      requires |availableSlotFormats| > 0 && |slotCountOptions| > 0
      modifies this, channel
      ensures multiset(availableSlotFormats) == multiset(old(availableSlotFormats))
      ensures multiset(slotCountOptions) == multiset(old(slotCountOptions))
      ensures 1 <= |channel.availableSlotFormats| <= Min(|availableSlotFormats|, 2)
      ensures channel.availableSlotFormats == availableSlotFormats[..|channel.availableSlotFormats|]
      ensures 1 <= |channel.availableSlotCount| <= Min(|slotCountOptions|, 2)
      ensures channel.availableSlotCount == slotCountOptions[..|channel.availableSlotCount|]
      ensures channel.begin == channelBeginAt && channel.end == channelEndAt
      ensures channel.availableProperties == old(channel.availableProperties)
      ensures channel.blocks == old(channel.blocks)
      ensures availableProperties == old(availableProperties)
    {
      var formats, selectedSlotFormats := MultipleRandomSelection(availableSlotFormats, 2);
      availableSlotFormats := formats;
      var counts, selectedSlotCounts := MultipleRandomSelection(slotCountOptions, 2);
      slotCountOptions := counts;
      channel.availableSlotCount := selectedSlotCounts;
      channel.availableSlotFormats := selectedSlotFormats;
      channel.begin := channelBeginAt;
      channel.end := channelEndAt;
    }

    /** set_properties: up to ten values of every category, shuffling the maker's lists. */
    method SetProperties()
      requires forall i :: 0 <= i < |availableProperties| ==> |availableProperties[i].1| > 0
      modifies this, channel
      ensures PermutedLists(old(availableProperties), availableProperties)
      ensures Sampled(availableProperties, channel.availableProperties, 10)
      ensures availableSlotFormats == old(availableSlotFormats)
      ensures slotCountOptions == old(slotCountOptions)
      ensures channel.begin == old(channel.begin) && channel.end == old(channel.end)
      ensures channel.availableSlotFormats == old(channel.availableSlotFormats)
      ensures channel.availableSlotCount == old(channel.availableSlotCount)
      ensures channel.blocks == old(channel.blocks)
    {
      var result: PropertyTable := [];
      for i := 0 to |availableProperties|
        invariant PermutedLists(old(availableProperties), availableProperties)
        invariant forall k :: i <= k < |availableProperties| ==> availableProperties[k] == old(availableProperties)[k]
        invariant Sampled(availableProperties[..i], result, 10)
        invariant availableSlotFormats == old(availableSlotFormats)
        invariant slotCountOptions == old(slotCountOptions)
        invariant channel.begin == old(channel.begin) && channel.end == old(channel.end)
        invariant channel.availableSlotFormats == old(channel.availableSlotFormats)
        invariant channel.availableSlotCount == old(channel.availableSlotCount)
        invariant channel.blocks == old(channel.blocks)
      {
        var key := availableProperties[i].0;
        var options, optionKept := MultipleRandomSelection(availableProperties[i].1, 10);
        availableProperties := availableProperties[i := (key, options)];
        result := result + [(key, optionKept)];
      }
      assert availableProperties[..|availableProperties|] == availableProperties;
      channel.availableProperties := result;
    }

    /** select_block_criteria: one criterion per sampled category, shuffling the channel's lists. */
    method SelectBlockCriteria(sf: SlotFormat) returns (result: seq<Criterion>)
      requires PropertiesReady(channel.availableProperties)
      modifies channel
      ensures PermutedLists(old(channel.availableProperties), channel.availableProperties)
      ensures CriteriaFit(result, sf, channel.availableProperties)
      ensures forall i :: 0 <= i < |result| && result[i].category != Duration ==>
        result[i].values == channel.availableProperties[i].1[..|result[i].values|]
      ensures channel.begin == old(channel.begin) && channel.end == old(channel.end)
      ensures channel.availableSlotFormats == old(channel.availableSlotFormats)
      ensures channel.availableSlotCount == old(channel.availableSlotCount)
      ensures channel.blocks == old(channel.blocks)
    {
      result := [];
      ghost var before := channel.availableProperties;
      for i := 0 to |channel.availableProperties|
        invariant PermutedLists(before, channel.availableProperties)
        invariant forall k :: i <= k < |before| ==> channel.availableProperties[k] == before[k]
        invariant CriteriaFit(result, sf, channel.availableProperties[..i])
        invariant forall k :: 0 <= k < i && result[k].category != Duration ==>
          result[k].values == channel.availableProperties[k].1[..|result[k].values|]
        invariant channel.begin == old(channel.begin) && channel.end == old(channel.end)
        invariant channel.availableSlotFormats == old(channel.availableSlotFormats)
        invariant channel.availableSlotCount == old(channel.availableSlotCount)
        invariant channel.blocks == old(channel.blocks)
      {
        var prop := channel.availableProperties[i].0;
        var criterion;
        if prop == Duration {
          criterion := Criterion(Duration, [Number(sf.showMinDuration as real), Number(sf.showMaxDuration as real)]);
        } else {
          var values := channel.availableProperties[i].1;
          var shuffled, selected := MultipleRandomSelection(values, 3);
          PrefixSubMultiset(shuffled, |selected|);
          channel.availableProperties := channel.availableProperties[i := (prop, shuffled)];
          criterion := Criterion(prop, selected);
        }
        result := result + [criterion];
      }
      assert channel.availableProperties[..|channel.availableProperties|] == channel.availableProperties;
    }

    /**
     * generate_block: a block from `begin` with a drawn format and slot count
     * (the shortest format and smallest count when forced); none when it
     * would end on the next day after the channel's end hour.
     */
    method GenerateBlock(begin: real, forceMinimum: bool)
      returns (block: Option<Block>, ghost format: SlotFormat, ghost count: int)
      requires |channel.availableSlotFormats| > 0 && |channel.availableSlotCount| > 0
      requires PropertiesReady(channel.availableProperties)
      modifies channel
      ensures channel.begin == old(channel.begin) && channel.end == old(channel.end)
      ensures channel.availableSlotFormats == old(channel.availableSlotFormats)
      ensures channel.availableSlotCount == old(channel.availableSlotCount)
      ensures channel.blocks == old(channel.blocks)
      ensures PermutedLists(old(channel.availableProperties), channel.availableProperties)
      ensures Picked(format, count, forceMinimum, channel.availableSlotFormats, channel.availableSlotCount)
      ensures block.None? <==> PastChannelEnd(BlockEnd(begin, format, count), channel.end)
      ensures block.Some? ==>
        block.value.begin == begin && block.value.slotFormat == format && block.value.slotCount == count &&
        WellFormedBlock(block.value, channel.availableSlotFormats, channel.availableSlotCount,
                        channel.end, channel.availableProperties)
    {
      var formats := channel.availableSlotFormats;
      var counts := channel.availableSlotCount;
      var selectedSlowFormat: SlotFormat;
      if !forceMinimum {
        var k :| 0 <= k < |formats|;
        selectedSlowFormat := formats[k];
      } else {
        selectedSlowFormat := ShortestFormat(formats);
      }
      var selectedSlotCount: int;
      if !forceMinimum {
        var k :| 0 <= k < |counts|;
        selectedSlotCount := counts[k];
      } else {
        selectedSlotCount := SmallestCount(counts);
      }
      format, count := selectedSlowFormat, selectedSlotCount;
      var blockDuration := MinuteToFloatHour((selectedSlowFormat.slotDuration * selectedSlotCount) as real);
      var endDate := begin + blockDuration;
      var normalizedEndDate := NormalizeHourToDay(endDate);
      if endDate != normalizedEndDate && normalizedEndDate > channel.end as real {
        return None, format, count;
      }
      var criteria := SelectBlockCriteria(selectedSlowFormat);
      block := Some(Block(criteria, begin, endDate, [], selectedSlotCount, selectedSlowFormat));
    }

    /**
     * set_blocks: lays blocks from the channel's begin hour, each starting
     * where the previous one ends; after the first rejected block only the
     * shortest format and smallest count are tried; stops after two rejections
     * in a row, when even the shortest block no longer fits.
     */
    method SetBlocks()
      requires SlotConfigReady(channel.availableSlotFormats, channel.availableSlotCount)
      requires PropertiesReady(channel.availableProperties)
      modifies channel
      ensures channel.begin == old(channel.begin) && channel.end == old(channel.end)
      ensures channel.availableSlotFormats == old(channel.availableSlotFormats)
      ensures channel.availableSlotCount == old(channel.availableSlotCount)
      ensures PermutedLists(old(channel.availableProperties), channel.availableProperties)
      ensures Chained(channel.blocks, channel.begin as real)
      ensures forall i :: 0 <= i < |channel.blocks| ==>
        channel.blocks[i].begin < channel.blocks[i].end &&
        WellFormedBlock(channel.blocks[i], channel.availableSlotFormats, channel.availableSlotCount,
                        channel.end, channel.availableProperties)
      ensures PastChannelEnd(
        BlockEnd(NextBegin(channel.blocks, channel.begin as real),
                 ShortestFormat(channel.availableSlotFormats), SmallestCount(channel.availableSlotCount)),
        channel.end)
    {
      var begin: real := channel.begin as real;
      var blocks: seq<Block> := [];
      var forceMinimum := false;
      var retry := 0;
      ghost var minutes: int := 60 * channel.begin;
      ghost var limit: int := Max(60 * (24 + Max(channel.end, 0)), 60 * channel.begin);
      ghost var before := channel.availableProperties;
      while true
        invariant 0 <= retry <= 1 && (retry == 1 ==> forceMinimum)
        invariant begin == minutes as real / 60.0 && minutes <= limit
        invariant begin == NextBegin(blocks, channel.begin as real)
        invariant Chained(blocks, channel.begin as real)
        invariant forall i :: 0 <= i < |blocks| ==>
          blocks[i].begin < blocks[i].end &&
          WellFormedBlock(blocks[i], channel.availableSlotFormats, channel.availableSlotCount,
                          channel.end, channel.availableProperties)
        invariant PermutedLists(before, channel.availableProperties)
        invariant PropertiesReady(channel.availableProperties)
        invariant channel.begin == old(channel.begin) && channel.end == old(channel.end)
        invariant channel.availableSlotFormats == old(channel.availableSlotFormats)
        invariant channel.availableSlotCount == old(channel.availableSlotCount)
        decreases (if forceMinimum then 0 else 1), limit - minutes, 1 - retry
      {
        ghost var props := channel.availableProperties;
        var block, format, count := GenerateBlock(begin, forceMinimum);
        BlocksStayFit(blocks, channel.availableSlotFormats, channel.availableSlotCount, channel.end,
                      props, channel.availableProperties);
        PermutedListsTrans(before, props, channel.availableProperties);
        if block.Some? {
          minutes := BlockStep(begin, minutes, format, count, channel.availableSlotFormats,
                               channel.availableSlotCount, channel.end, limit);
          begin := block.value.end;
          blocks := blocks + [block.value];
          retry := 0;
        } else {
          forceMinimum := true;
          retry := retry + 1;
        }
        if retry > 1 {
          break;
        }
      }
      channel.blocks := blocks;
    }

    /** make_channel_frame: slot configuration, property sample, then the blocks. */
    method MakeChannelFrame()
      requires SlotConfigReady(availableSlotFormats, slotCountOptions)
      requires forall i :: 0 <= i < |availableProperties| ==> |availableProperties[i].1| > 0
      modifies this, channel
      ensures channel.begin == channelBeginAt && channel.end == channelEndAt
      ensures 1 <= |channel.availableSlotFormats| <= 2 && 1 <= |channel.availableSlotCount| <= 2
      ensures forall f :: f in channel.availableSlotFormats ==> f in old(availableSlotFormats)
      ensures forall c :: c in channel.availableSlotCount ==> c in old(slotCountOptions)
      ensures Chained(channel.blocks, channelBeginAt as real)
      ensures forall i :: 0 <= i < |channel.blocks| ==>
        channel.blocks[i].begin < channel.blocks[i].end &&
        WellFormedBlock(channel.blocks[i], channel.availableSlotFormats, channel.availableSlotCount,
                        channel.end, channel.availableProperties)
      ensures PastChannelEnd(
        BlockEnd(NextBegin(channel.blocks, channelBeginAt as real),
                 ShortestFormat(channel.availableSlotFormats), SmallestCount(channel.availableSlotCount)),
        channelEndAt)
    {
      SetSlotConfig();
      PrefixOfPermutation(old(availableSlotFormats), availableSlotFormats, |channel.availableSlotFormats|);
      PrefixOfPermutation(old(slotCountOptions), slotCountOptions, |channel.availableSlotCount|);
      forall i | 0 <= i < |channel.availableSlotFormats|
        ensures channel.availableSlotFormats[i].slotDuration > 0
      {
        assert channel.availableSlotFormats[i] in old(availableSlotFormats);
      }
      forall i | 0 <= i < |channel.availableSlotCount|
        ensures channel.availableSlotCount[i] > 0
      {
        assert channel.availableSlotCount[i] in old(slotCountOptions);
      }
      SetProperties();
      SetBlocks();
    }
  }

  function Max(a: int, b: int): int
  {
    if a < b then b else a
  }

  /** Shuffling the sampled lists keeps the laid blocks well formed. */
  lemma BlocksStayFit(blocks: seq<Block>, formats: seq<SlotFormat>, counts: seq<int>, channelEnd: int,
                      a: PropertyTable, b: PropertyTable)
    requires forall i :: 0 <= i < |blocks| ==> WellFormedBlock(blocks[i], formats, counts, channelEnd, a)
    requires PermutedLists(a, b)
    ensures forall i :: 0 <= i < |blocks| ==> WellFormedBlock(blocks[i], formats, counts, channelEnd, b)
  {
    forall i | 0 <= i < |blocks|
      ensures CriteriaFit(blocks[i].criteria, blocks[i].slotFormat, b)
    {
      CriteriaFitPermuted(blocks[i].criteria, blocks[i].slotFormat, a, b);
    }
  }

  /**
   * A block that fits ends a whole number of minutes later, at least one, and
   * no later than the limit: the measure that makes set_blocks terminate.
   */
  lemma BlockStep(begin: real, minutes: int, f: SlotFormat, count: int,
                  formats: seq<SlotFormat>, counts: seq<int>, channelEnd: int, limit: int)
    returns (next: int)
    requires SlotConfigReady(formats, counts) && f in formats && count in counts
    requires begin == minutes as real / 60.0
    requires !PastChannelEnd(BlockEnd(begin, f, count), channelEnd)
    requires 60 * (24 + Max(channelEnd, 0)) <= limit
    ensures BlockEnd(begin, f, count) == next as real / 60.0
    ensures minutes < next <= limit
  {
    var d := f.slotDuration * count;
    assert f.slotDuration > 0 && count > 0;
    assert d >= 1 by {
      assert f.slotDuration >= 1 && count >= 1;
    }
    next := minutes + d;
    assert BlockEnd(begin, f, count) == next as real / 60.0;
  }
}
