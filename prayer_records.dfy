/** The saved prayer records and what the data manager computes from them:
    the list after a save (newest first, at most 100), after a delete, the
    first record with an id, and the counts per
    deity and per category in first-seen order. */
module PrayerRecords {
  import opened JsCore
  import opened Fortunes

  /** What the drawing page hands over when it saves a record. */
  datatype RecordDraft = RecordDraft(
    categoryId: string,
    categoryName: string,
    deityId: string,
    deityName: string,
    wish: string,
    fortune: DrawnFortune)

  /** A saved record: the draft plus the fields the manager adds or edits. */
  datatype PrayerRecord = PrayerRecord(
    draft: RecordDraft,
    id: string,
    timestamp: string,
    isFavorite: bool,
    note: Option<string>,
    updatedAt: Option<string>)

  /** At most this many records are kept. */
  const MaxRecords := 100

  /** The record a draft becomes when saved with the given id and time. */
  function Stamp(draft: RecordDraft, id: string, timestamp: string): (r: PrayerRecord)
    ensures r.draft == draft && r.id == id && r.timestamp == timestamp
    ensures !r.isFavorite && r.note.None? && r.updatedAt.None?
  {
    PrayerRecord(draft, id, timestamp, false, None, None)
  }

  // ---------------------------------------------------------------------
  // Save, delete, look up, slice
  // ---------------------------------------------------------------------

  /** The list after `unshift(rec)` followed by one `pop()` when the list has
      grown past the cap. */
  function Prepended(records: seq<PrayerRecord>, rec: PrayerRecord): (r: seq<PrayerRecord>)
    ensures |r| >= 1 && r[0] == rec
    ensures |r| == if |records| < MaxRecords then |records| + 1 else |records|
    ensures r[1..] == records[..|r| - 1]
    ensures |records| <= MaxRecords ==> |r| <= MaxRecords
  {
    var grown := [rec] + records;
    if |grown| > MaxRecords then grown[..|grown| - 1] else grown
  }

  /** `records.filter(r => r.id !== id)`. */
  function WithoutId(records: seq<PrayerRecord>, id: string): (r: seq<PrayerRecord>)
    ensures forall x :: x in r <==> x in records && x.id != id
    ensures |r| <= |records|
  {
    if records == [] then []
    else (if records[0].id != id then [records[0]] else []) + WithoutId(records[1..], id)
  }

  /** Filtering distributes over concatenation: the kept records stay in
      their original relative order. */
  lemma {:induction false} WithoutIdConcat(a: seq<PrayerRecord>, b: seq<PrayerRecord>, id: string)
    ensures WithoutId(a + b, id) == WithoutId(a, id) + WithoutId(b, id)
  {
    if a != [] {
      assert (a + b)[1..] == a[1..] + b;
      WithoutIdConcat(a[1..], b, id);
    } else {
      assert a + b == b;
    }
  }

  /** Deleting an id no record carries changes nothing. */
  lemma {:induction false} WithoutAbsentId(records: seq<PrayerRecord>, id: string)
    requires forall i :: 0 <= i < |records| ==> records[i].id != id
    ensures WithoutId(records, id) == records
  {
    if records != [] {
      WithoutAbsentId(records[1..], id);
    }
  }

  /** The number of records carrying the id. */
  function CountId(records: seq<PrayerRecord>, id: string): (r: nat)
    ensures r <= |records|
  {
    if records == [] then 0 else (if records[0].id == id then 1 else 0) + CountId(records[1..], id)
  }

  /** Deleting removes exactly the records that carry the id. */
  lemma {:induction false} WithoutIdLength(records: seq<PrayerRecord>, id: string)
    ensures |WithoutId(records, id)| == |records| - CountId(records, id)
  {
    if records != [] {
      WithoutIdLength(records[1..], id);
    }
  }

  /** The position of the first record with the id (`find`), if any. */
  function FirstIndex(records: seq<PrayerRecord>, id: string): (r: Option<nat>)
    ensures r.Some? ==> r.value < |records| && records[r.value].id == id
    ensures r.Some? ==> forall j :: 0 <= j < r.value ==> records[j].id != id
    ensures r.None? ==> forall j :: 0 <= j < |records| ==> records[j].id != id
  {
    FindIndex(records, (r: PrayerRecord) => r.id == id)
  }

  // ---------------------------------------------------------------------
  // Counting by key
  // ---------------------------------------------------------------------

  /** The deity a record is counted under: its deity id, or 'unknown'. */
  function DeityKey(r: PrayerRecord): (k: string)
    ensures k != ""
    ensures r.draft.deityId != "" ==> k == r.draft.deityId
    ensures r.draft.deityId == "" ==> k == "unknown"
  {
    if r.draft.deityId != "" then r.draft.deityId else "unknown"
  }

  /** The category a record is counted under: its category id, or 'unknown'. */
  function CategoryKey(r: PrayerRecord): (k: string)
    ensures k != ""
    ensures r.draft.categoryId != "" ==> k == r.draft.categoryId
    ensures r.draft.categoryId == "" ==> k == "unknown"
  {
    if r.draft.categoryId != "" then r.draft.categoryId else "unknown"
  }

  /** The deity keys of the records, in order. */
  function DeityKeys(records: seq<PrayerRecord>): (ks: seq<string>)
    ensures |ks| == |records|
    ensures forall i :: 0 <= i < |records| ==> ks[i] == DeityKey(records[i])
  {
    seq(|records|, i requires 0 <= i < |records| => DeityKey(records[i]))
  }

  /** The category keys of the records, in order. */
  function CategoryKeys(records: seq<PrayerRecord>): (ks: seq<string>)
    ensures |ks| == |records|
    ensures forall i :: 0 <= i < |records| ==> ks[i] == CategoryKey(records[i])
  {
    seq(|records|, i requires 0 <= i < |records| => CategoryKey(records[i]))
  }

  /** A counter object seen as its entries in insertion order. */
  type Counts = seq<(string, nat)>

  /** No key occurs twice. */
  predicate DistinctKeys(es: Counts)
  {
    forall i, j :: 0 <= i < j < |es| ==> es[i].0 != es[j].0
  }

  /** The entry of a key, if the counter has one. */
  function KeyIndex(es: Counts, k: string): (r: Option<nat>)
    ensures r.Some? ==> r.value < |es| && es[r.value].0 == k
    ensures r.None? ==> forall i :: 0 <= i < |es| ==> es[i].0 != k
  {
    FindIndex(es, (e: (string, nat)) => e.0 == k)
  }

  /** `stats[k] = (stats[k] || 0) + 1`: an existing key keeps its place, a new
      key is appended; the key is then present, every other entry is as it
      was, and the counts sum to one more. */
  function Bump(es: Counts, k: string): (r: Counts)
    ensures |r| == |es| + (if KeyIndex(es, k).Some? then 0 else 1)
    ensures KeyIndex(r, k).Some?
    ensures forall i :: 0 <= i < |es| && es[i].0 != k ==> r[i] == es[i]
    ensures SumCounts(r) == SumCounts(es) + 1
  {
    match KeyIndex(es, k)
    case Some(i) =>
      SumCountsIncrement(es, i, k);
      assert es[i := (k, es[i].1 + 1)][i].0 == k;
      es[i := (k, es[i].1 + 1)]
    case None =>
      SumCountsAppend(es, (k, 1));
      assert (es + [(k, 1)])[|es|].0 == k;
      es + [(k, 1)]
  }

  /** The counter after counting every key of the list, left to right: one
      entry at most per key counted, with counts summing to the number of
      keys. */
  function Tally(keys: seq<string>): (r: Counts)
    ensures |r| <= |keys|
    ensures SumCounts(r) == |keys|
  {
    if keys == [] then [] else Bump(Tally(keys[..|keys| - 1]), keys[|keys| - 1])
  }

  /** Counting one more key of a list bumps the counter by that key. */
  lemma TallyStep(keys: seq<string>, i: nat)
    requires i < |keys|
    ensures Tally(keys[..i + 1]) == Bump(Tally(keys[..i]), keys[i])
  {
    assert keys[..i + 1][..i] == keys[..i];
  }

  /** How often a key occurs. */
  function Occurrences(keys: seq<string>, k: string): (r: nat)
    ensures r <= |keys|
  {
    if keys == [] then 0
    else Occurrences(keys[..|keys| - 1], k) + (if keys[|keys| - 1] == k then 1 else 0)
  }

  /** The sum of the counts. */
  function SumCounts(es: Counts): nat
  {
    if es == [] then 0 else es[0].1 + SumCounts(es[1..])
  }

  /** Raising one count by one raises the sum by one. */
  lemma {:induction false} SumCountsIncrement(es: Counts, i: nat, k: string)
    requires i < |es|
    ensures SumCounts(es[i := (k, es[i].1 + 1)]) == SumCounts(es) + 1
  {
    if i > 0 {
      assert es[i := (k, es[i].1 + 1)][1..] == es[1..][i - 1 := (k, es[i].1 + 1)];
      SumCountsIncrement(es[1..], i - 1, k);
    }
  }

  /** Appending an entry adds its count to the sum. */
  lemma {:induction false} SumCountsAppend(es: Counts, e: (string, nat))
    ensures SumCounts(es + [e]) == SumCounts(es) + e.1
  {
    if es != [] {
      assert (es + [e])[1..] == es[1..] + [e];
      SumCountsAppend(es[1..], e);
    }
  }

  /** What a counter holds after counting a list: one entry per distinct
      key, each with the number of times the key occurs, and counts that sum
      to the length of the list. */
  ghost predicate Counted(keys: seq<string>, t: Counts)
  {
    && DistinctKeys(t)
    && (forall i :: 0 <= i < |t| ==> t[i].1 == Occurrences(keys, t[i].0) && t[i].1 >= 1)
    && (forall x :: x in keys <==> KeyIndex(t, x).Some?)
    && SumCounts(t) == |keys|
  }

  /** Counting the list holds exactly what `Counted` describes. */
  lemma {:induction false} TallyCounts(keys: seq<string>)
    ensures DistinctKeys(Tally(keys))
    ensures forall i :: 0 <= i < |Tally(keys)| ==>
      Tally(keys)[i].1 == Occurrences(keys, Tally(keys)[i].0) && Tally(keys)[i].1 >= 1
    ensures forall k :: k in keys <==> KeyIndex(Tally(keys), k).Some?
    ensures SumCounts(Tally(keys)) == |keys|
  {
    if keys != [] {
      var init, k := keys[..|keys| - 1], keys[|keys| - 1];
      TallyCounts(init);
      assert keys == init + [k];
      match KeyIndex(Tally(init), k)
      case Some(i) => CountedStepFound(init, k, Tally(init), i);
      case None => CountedStepNew(init, k, Tally(init));
    }
  }

  /** Counting one more occurrence of a key already in the counter. */
  lemma CountedStepFound(init: seq<string>, k: string, es: Counts, i: nat)
    requires Counted(init, es) && KeyIndex(es, k) == Some(i)
    ensures Counted(init + [k], Bump(es, k))
  {
    var keys := init + [k];
    assert keys[..|init|] == init;
    forall x
      ensures x in keys <==> x in init || x == k
    {
    }
    SumCountsIncrement(es, i, k);
    var t := Bump(es, k);
    assert t == es[i := (k, es[i].1 + 1)];
    forall x
      ensures x in keys <==> KeyIndex(t, x).Some?
    {
      if KeyIndex(es, x).Some? {
        assert t[KeyIndex(es, x).value].0 == x;
      }
    }
  }

  /** Counting the first occurrence of a key. */
  lemma CountedStepNew(init: seq<string>, k: string, es: Counts)
    requires Counted(init, es) && KeyIndex(es, k).None?
    ensures Counted(init + [k], Bump(es, k))
  {
    var keys := init + [k];
    assert keys[..|init|] == init;
    forall x
      ensures x in keys <==> x in init || x == k
    {
    }
    SumCountsAppend(es, (k, 1));
    assert k !in init;
    assert Occurrences(keys, k) == 1 by {
      OccurrencesAbsent(init, k);
    }
    var t := Bump(es, k);
    assert t == es + [(k, 1)];
    forall i | 0 <= i < |t|
      ensures t[i].1 == Occurrences(keys, t[i].0) && t[i].1 >= 1
    {
      if i < |es| {
        assert t[i] == es[i] && es[i].0 != k;
      }
    }
    forall x
      ensures x in keys <==> KeyIndex(t, x).Some?
    {
      if x == k {
        assert t[|es|].0 == k;
      } else if KeyIndex(es, x).Some? {
        assert t[KeyIndex(es, x).value].0 == x;
      }
    }
  }

  /** A key that does not occur has no occurrences. */
  lemma {:induction false} OccurrencesAbsent(keys: seq<string>, k: string)
    requires k !in keys
    ensures Occurrences(keys, k) == 0
  {
    if keys != [] {
      assert k !in keys[..|keys| - 1];
      OccurrencesAbsent(keys[..|keys| - 1], k);
    }
  }

  /** The first position of a key in the list. */
  function FirstPos(keys: seq<string>, k: string): (r: nat)
    requires k in keys
    ensures r < |keys| && keys[r] == k
    ensures forall j :: 0 <= j < r ==> keys[j] != k
  {
    FindIndex(keys, (x: string) => x == k).value
  }

  /** Every key in the counter was counted. */
  lemma TallyKeyIn(keys: seq<string>, i: nat)
    requires i < |Tally(keys)|
    ensures Tally(keys)[i].0 in keys
  {
    TallyCounts(keys);
    assert KeyIndex(Tally(keys), Tally(keys)[i].0).Some?;
  }

  /** A key the counter lacks was never counted. */
  lemma TallyKeyAbsent(keys: seq<string>, k: string)
    requires KeyIndex(Tally(keys), k).None?
    ensures k !in keys
  {
    TallyCounts(keys);
  }

  /** The entries of the counter are in the order in which their keys first
      occur in the list. */
  lemma {:induction false} TallyFirstSeenOrder(keys: seq<string>, i: nat, j: nat)
    requires i < j < |Tally(keys)|
    ensures Tally(keys)[i].0 in keys && Tally(keys)[j].0 in keys
    ensures FirstPos(keys, Tally(keys)[i].0) < FirstPos(keys, Tally(keys)[j].0)
  {
    TallyKeyIn(keys, i);
    TallyKeyIn(keys, j);
    var init, k := keys[..|keys| - 1], keys[|keys| - 1];
    var es := Tally(init);
    assert keys == init + [k];
    var a, b := Tally(keys)[i].0, Tally(keys)[j].0;
    match KeyIndex(es, k)
    case Some(x) =>
      assert Tally(keys) == es[x := (k, es[x].1 + 1)];
      assert es[i].0 == a && es[j].0 == b;
      TallyFirstSeenOrder(init, i, j);
      FirstPosPrefix(init, k, a);
      FirstPosPrefix(init, k, b);
    case None =>
      assert Tally(keys) == es + [(k, 1)];
      assert es[i].0 == a;
      FirstPosPrefix(init, k, a);
      if j < |es| {
        assert es[j].0 == b;
        TallyFirstSeenOrder(init, i, j);
        FirstPosPrefix(init, k, b);
      } else {
        TallyKeyAbsent(init, k);
        assert b == k;
        FirstPosLast(init, k);
      }
  }

  /** Appending a key leaves the first positions of earlier keys unchanged. */
  lemma FirstPosPrefix(init: seq<string>, k: string, a: string)
    requires a in init
    ensures a in init + [k] && FirstPos(init + [k], a) == FirstPos(init, a)
  {
    var keys := init + [k];
    var p := FirstPos(init, a);
    assert keys[p] == a;
    assert forall j :: 0 <= j < p ==> keys[j] == init[j];
  }

  /** A key that first occurs at the end sits at the last position. */
  lemma FirstPosLast(init: seq<string>, k: string)
    requires k !in init
    ensures k in init + [k] && FirstPos(init + [k], k) == |init|
  {
    var keys := init + [k];
    assert keys[|init|] == k;
  }
}
