/** The data manager: the static category, deity and fortune data, and the
    saved prayer records. The records stand for the list the browser keeps
    in local storage under 'prayer_records'; every operation reads that list,
    changes it and writes it back, so it is modelled as one field that the
    methods reassign. Ids, timestamps and the random draw are parameters. */
module Manager {
  import opened JsCore
  import opened Fortunes
  import opened PrayerRecords

  /** A category of deities. */
  datatype Category = Category(id: string, name: string, deities: seq<string>)

  /** A deity of the static database. */
  datatype Deity = Deity(name: string, description: string, category: string)

  /** The prayer statistics; the counters are in the order their keys were
      first met. */
  datatype Statistics = Statistics(
    totalCount: nat,
    categoryStats: Counts,
    deityStats: Counts,
    mostPrayedDeity: Option<string>,
    lastPrayTime: Option<string>)

  /** Shown as the most prayed-to deity when there are no records. */
  const NoDeity := "无"

  /** Entry `j` is the first entry with the largest count, and that count is
      positive. */
  predicate IsFirstMax(es: Counts, j: nat)
  {
    && j < |es|
    && es[j].1 > 0
    && (forall i :: 0 <= i < |es| ==> es[i].1 <= es[j].1)
    && (forall i :: 0 <= i < j ==> es[i].1 < es[j].1)
  }

  /** The scan for the most frequent deity: a strictly greater count replaces
      the current choice, starting from a maximum of 0. */
  method MostPrayed(es: Counts) returns (best: Option<nat>)
    ensures best.None? <==> forall i :: 0 <= i < |es| ==> es[i].1 == 0
    ensures best.Some? ==> IsFirstMax(es, best.value)
  {
    var maxCount := 0;
    best := None;
    var i := 0;
    while i < |es|
      invariant 0 <= i <= |es|
      invariant best.None? ==> maxCount == 0 && forall j :: 0 <= j < i ==> es[j].1 == 0
      invariant best.Some? ==> best.value < i && maxCount == es[best.value].1 > 0
      invariant best.Some? ==> forall j :: 0 <= j < i ==> es[j].1 <= maxCount
      invariant best.Some? ==> forall j :: 0 <= j < best.value ==> es[j].1 < maxCount
    {
      if es[i].1 > maxCount {
        maxCount := es[i].1;
        best := Some(i);
      }
      i := i + 1;
    }
  }

  class DataManager {
    const categories: seq<Category>
    const deities: map<string, Deity>
    /** The merged fortune database. */
    const fortunes: FortuneTable
    /** The saved prayer records, newest first. */
    var records: seq<PrayerRecord>

    /** Loads the static data, merges the fortune parts, and starts from the
        records already stored. */
    constructor(categories: seq<Category>, deities: map<string, Deity>,
                main: Option<FortuneTable>, parts: seq<Option<FortuneTable>>,
                stored: seq<PrayerRecord>)
      ensures this.categories == categories && this.deities == deities
      ensures this.fortunes == Merged([main] + parts)
      ensures records == stored
    {
      this.categories := categories;
      this.deities := deities;
      var merged := MergeFortunes(main, parts);
      this.fortunes := merged;
      records := stored;
    }

    // -------------------------------------------------------------------
    // Categories, deities, fortunes
    // -------------------------------------------------------------------

    /** The number of deities of the first category with the id, 0 when
        there is no such category. */
    function GetDeityCountByCategory(categoryId: string): (r: nat)
      ensures (forall i :: 0 <= i < |categories| ==> categories[i].id != categoryId) ==> r == 0
      ensures forall i ::
        (0 <= i < |categories| && categories[i].id == categoryId
         && forall j :: 0 <= j < i ==> categories[j].id != categoryId) ==> r == |categories[i].deities|
    {
      match FindIndex(categories, (c: Category) => c.id == categoryId)
      case None => 0
      case Some(i) => |categories[i].deities|
    }

    /** `this.fortunes[deityId] || []`. */
    function SlipsOf(deityId: string): (r: seq<FortuneSlip>)
      ensures deityId in fortunes ==> r == fortunes[deityId]
      ensures deityId !in fortunes ==> r == []
    {
      if deityId in fortunes then fortunes[deityId] else []
    }

    /** `this.deities[deityId]?.name`. */
    function DeityName(deityId: string): (r: Option<string>)
      ensures r.Some? <==> deityId in deities
      ensures r.Some? ==> r.value == deities[deityId].name
    {
      if deityId in deities then Some(deities[deityId].name) else None
    }

    /** Draws a slip of the deity: the slip at `floor(roll * n)` among its n
        slips, or the general slip when it has none. `roll` is the value of
        `Math.random()` and `now` the current time. */
    function DrawFortune(deityId: string, roll: real, now: string): (r: DrawnFortune)
      requires 0.0 <= roll < 1.0
      ensures SlipsOf(deityId) == [] ==> r == DefaultFortune()
      ensures SlipsOf(deityId) != [] ==>
        && r.slip in SlipsOf(deityId)
        && r.color == LevelColor(r.slip.level)
        && r.deityId == Some(deityId)
        && r.deityName == DeityName(deityId)
        && r.timestamp == Some(now)
    {
      var slips := SlipsOf(deityId);
      if slips == [] then DefaultFortune()
      else
        var randomIndex := (roll * |slips| as real).Floor;
        ScaledFloorInRange(roll, |slips|);
        var fortune := slips[randomIndex];
        DrawnFortune(fortune, LevelColor(fortune.level), Some(deityId), DeityName(deityId), Some(now))
    }

    /** Counts one deity's slips in total and per known level. */
    method GetFortuneStatistics(deityId: string) returns (stats: FortuneStats)
      ensures stats.total == |SlipsOf(deityId)|
      ensures stats.byLevel == LevelStats(CountLevel(SlipsOf(deityId), Best), CountLevel(SlipsOf(deityId), Good),
        CountLevel(SlipsOf(deityId), Middle), CountLevel(SlipsOf(deityId), Poor))
      ensures stats.byLevel.best + stats.byLevel.good + stats.byLevel.middle + stats.byLevel.poor <= stats.total
    {
      var slips := SlipsOf(deityId);
      var best, good, middle, poor := 0, 0, 0, 0;
      var i := 0;
      while i < |slips|
        invariant 0 <= i <= |slips|
        invariant best == CountLevel(slips[..i], Best) && good == CountLevel(slips[..i], Good)
        invariant middle == CountLevel(slips[..i], Middle) && poor == CountLevel(slips[..i], Poor)
      {
        assert slips[..i + 1][..i] == slips[..i];
        var level := slips[i].level;
        if level == Best {
          best := best + 1;
        } else if level == Good {
          good := good + 1;
        } else if level == Middle {
          middle := middle + 1;
        } else if level == Poor {
          poor := poor + 1;
        }
        i := i + 1;
      }
      assert slips[..i] == slips;
      LevelCountsPartition(slips);
      stats := FortuneStats(|slips|, LevelStats(best, good, middle, poor));
    }

    // -------------------------------------------------------------------
    // Prayer records
    // -------------------------------------------------------------------

    /** Saves a draft as the newest record, dropping the oldest one when more
        than 100 would be kept, and returns the saved record. */
    method SavePrayerRecord(draft: RecordDraft, id: string, timestamp: string) returns (saved: PrayerRecord)
      modifies this
      ensures saved == Stamp(draft, id, timestamp)
      ensures records == Prepended(old(records), saved)
    {
      var list := records;
      list := [Stamp(draft, id, timestamp)] + list;
      if |list| > MaxRecords {
        list := list[..|list| - 1];
      }
      records := list;
      saved := list[0];
    }

    /** Deletes every record with the id and returns what is left. */
    method DeletePrayerRecord(id: string) returns (remaining: seq<PrayerRecord>)
      modifies this
      ensures records == WithoutId(old(records), id)
      ensures remaining == records
    {
      records := WithoutId(records, id);
      remaining := records;
    }

    /** The position of the first record with the id. */
    method FindRecord(id: string) returns (found: Option<nat>)
      ensures found == FirstIndex(records, id)
    {
      var i := 0;
      while i < |records| && records[i].id != id
        invariant 0 <= i <= |records|
        invariant forall j :: 0 <= j < i ==> records[j].id != id
      {
        i := i + 1;
      }
      found := if i < |records| then Some(i) else None;
    }

    /** Flips the favourite flag of the first record with the id; None when
        no record has it. */
    method ToggleFavorite(id: string) returns (r: Option<PrayerRecord>)
      modifies this
      ensures FirstIndex(old(records), id).None? ==> r.None? && records == old(records)
      ensures FirstIndex(old(records), id).Some? ==>
        var i := FirstIndex(old(records), id).value;
        && records == old(records)[i := old(records)[i].(isFavorite := !old(records)[i].isFavorite)]
        && r == Some(records[i])
    {
      var found := FindRecord(id);
      if found.None? {
        return None;
      }
      var i := found.value;
      var rec := records[i].(isFavorite := !records[i].isFavorite);
      records := records[i := rec];
      r := Some(rec);
    }

    /** Sets the note and the edit time of the first record with the id;
        None when no record has it. */
    method UpdateRecordNote(id: string, note: string, now: string) returns (r: Option<PrayerRecord>)
      modifies this
      ensures FirstIndex(old(records), id).None? ==> r.None? && records == old(records)
      ensures FirstIndex(old(records), id).Some? ==>
        var i := FirstIndex(old(records), id).value;
        && records == old(records)[i := old(records)[i].(note := Some(note), updatedAt := Some(now))]
        && r == Some(records[i])
    {
      var found := FindRecord(id);
      if found.None? {
        return None;
      }
      var i := found.value;
      var rec := records[i].(note := Some(note), updatedAt := Some(now));
      records := records[i := rec];
      r := Some(rec);
    }

    /** `records.slice(0, count)`: the newest records, in order; a negative
        count leaves out that many of the oldest. */
    function GetRecentRecords(count: int): (r: seq<PrayerRecord>)
      reads this
      ensures |r| <= |records| && r == records[..|r|]
      ensures count >= 0 ==> |r| == if count < |records| then count else |records|
      ensures count < 0 ==> |r| == if |records| + count > 0 then |records| + count else 0
    {
      var end := if count >= 0 then (if count < |records| then count else |records|)
                 else (if |records| + count > 0 then |records| + count else 0);
      records[..end]
    }

    /** The loop of the statistics: the records counted per category and
        per deity, newest first. */
    method CountRecords() returns (categoryStats: Counts, deityStats: Counts)
      ensures categoryStats == Tally(CategoryKeys(records))
      ensures deityStats == Tally(DeityKeys(records))
    {
      categoryStats, deityStats := [], [];
      ghost var categoryKeys, deityKeys := CategoryKeys(records), DeityKeys(records);
      var i := 0;
      while i < |records|
        invariant 0 <= i <= |records|
        invariant categoryStats == Tally(categoryKeys[..i])
        invariant deityStats == Tally(deityKeys[..i])
      {
        TallyStep(categoryKeys, i);
        TallyStep(deityKeys, i);
        categoryStats := Bump(categoryStats, CategoryKey(records[i]));
        deityStats := Bump(deityStats, DeityKey(records[i]));
        i := i + 1;
      }
      assert categoryKeys[..i] == categoryKeys && deityKeys[..i] == deityKeys;
    }

    /** Counts the records per category and per deity, and picks the deity
        with the most records, the earliest-met one on a tie. */
    method GetStatistics() returns (stats: Statistics)
      ensures stats.totalCount == |records|
      ensures stats.categoryStats == Tally(CategoryKeys(records))
      ensures stats.deityStats == Tally(DeityKeys(records))
      ensures stats.lastPrayTime == if records == [] then None else Some(records[0].timestamp)
      ensures records == [] ==> stats.mostPrayedDeity == Some(NoDeity)
      ensures records != [] ==>
        exists j: nat :: IsFirstMax(stats.deityStats, j) && stats.mostPrayedDeity == DeityName(stats.deityStats[j].0)
    {
      var categoryStats, deityStats := CountRecords();
      var most := MostPrayed(deityStats);
      var name: Option<string>;
      if most.None? {
        name := Some(NoDeity);
        if records != [] {
          NonEmptyTallyHasCounts(DeityKeys(records));
        }
      } else {
        name := DeityName(deityStats[most.value].0);
      }
      var last := if |records| > 0 then Some(records[0].timestamp) else None;
      stats := Statistics(|records|, categoryStats, deityStats, name, last);
    }
  }

  /** Counting a non-empty list leaves some positive count. */
  lemma NonEmptyTallyHasCounts(keys: seq<string>)
    requires keys != []
    ensures exists i :: 0 <= i < |Tally(keys)| && Tally(keys)[i].1 != 0
  {
    TallyCounts(keys);
    assert keys[0] in keys;
    var i := KeyIndex(Tally(keys), keys[0]).value;
    assert Tally(keys)[i].1 >= 1;
  }
}
