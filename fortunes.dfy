/** Fortune slips and the pure helpers around them: the colour of a slip's
    level, the formatting of its poem, the fallback slip, the merge of the
    fortune database parts, and the per-level counts. */
module Fortunes {
  import opened JsCore

  /** One fortune slip of the database. */
  datatype FortuneSlip = FortuneSlip(
    number: string,
    level: string,
    poem: seq<string>,
    interpretation: string,
    suggestions: seq<string>)

  /** The slips of each deity, keyed by deity id. */
  type FortuneTable = map<string, seq<FortuneSlip>>

  /** A slip as handed to the drawing page: the slip, its display colour and,
      when it was drawn from a deity's own slips, the deity and the time. */
  datatype DrawnFortune = DrawnFortune(
    slip: FortuneSlip,
    color: string,
    deityId: Option<string>,
    deityName: Option<string>,
    timestamp: Option<string>)

  // ---------------------------------------------------------------------
  // Levels and colours
  // ---------------------------------------------------------------------

  const Best := "上上签"
  const Good := "上签"
  const Middle := "中签"
  const Poor := "下签"

  /** The display colour of each of the four known levels. */
  const LevelColors: map<string, string> := map[
    Best := "#D4AF37", Good := "#F4A460", Middle := "#87CEEB", Poor := "#B0C4DE"]

  /** The colour used for a level outside the table. */
  const FallbackColor := "#999999"

  /** `colors[level] || '#999999'`. */
  function LevelColor(level: string): (r: string)
    ensures level in LevelColors ==> r == LevelColors[level]
    ensures level !in LevelColors ==> r == FallbackColor
    ensures r != ""
  {
    if level in LevelColors && LevelColors[level] != "" then LevelColors[level] else FallbackColor
  }

  /** The four known levels get four different colours, none of them the
      fallback, so the colour identifies the level. */
  lemma LevelColorIdentifiesLevel(l1: string, l2: string)
    requires l1 in LevelColors
    ensures LevelColor(l1) != FallbackColor
    ensures l2 in LevelColors && LevelColor(l1) == LevelColor(l2) ==> l1 == l2
  {
  }

  // ---------------------------------------------------------------------
  // Poem formatting
  // ---------------------------------------------------------------------

  /** `lines.join(sep)` in JavaScript. */
  function Join(lines: seq<string>, sep: string): (r: string)
    ensures lines == [] ==> r == ""
    ensures lines != [] ==> |lines[0]| <= |r| && r[..|lines[0]|] == lines[0]
  {
    if |lines| == 0 then ""
    else if |lines| == 1 then lines[0]
    else lines[0] + sep + Join(lines[1..], sep)
  }

  /** The total number of characters of the lines. */
  function TotalLength(lines: seq<string>): nat
  {
    if lines == [] then 0 else |lines[0]| + TotalLength(lines[1..])
  }

  /** Where line `i` starts in a join with a two-character separator. */
  function LineOffset(lines: seq<string>, i: nat): nat
    requires i <= |lines|
  {
    TotalLength(lines[..i]) + 2 * i
  }

  /** The poem lines joined by a comma and a line break, closed by a full stop. */
  function FormatPoem(lines: seq<string>): (r: string)
    ensures |r| >= 1 && r[|r| - 1] == '。'
    ensures lines == [] ==> r == "。"
    ensures lines != [] ==> |r| == TotalLength(lines) + 2 * (|lines| - 1) + 1
  {
    JoinLength(lines, ",\n");
    Join(lines, ",\n") + "。"
  }

  /** The length of a join: every line plus one separator between each pair. */
  lemma {:induction false} JoinLength(lines: seq<string>, sep: string)
    ensures |lines| >= 1 ==> |Join(lines, sep)| == TotalLength(lines) + |sep| * (|lines| - 1)
    ensures lines == [] ==> Join(lines, sep) == ""
  {
    if |lines| >= 2 {
      JoinLength(lines[1..], sep);
    }
  }

  /** Each poem line appears in the formatted poem at its offset, followed by
      the separator unless it is the last line. */
  lemma {:induction false} PoemLineAt(lines: seq<string>, i: nat)
    requires i < |lines|
    ensures LineOffset(lines, i) + |lines[i]| < |FormatPoem(lines)|
    ensures FormatPoem(lines)[LineOffset(lines, i)..LineOffset(lines, i) + |lines[i]|] == lines[i]
    ensures i + 1 < |lines| ==>
      LineOffset(lines, i) + |lines[i]| + 2 <= |FormatPoem(lines)| &&
      FormatPoem(lines)[LineOffset(lines, i) + |lines[i]|..LineOffset(lines, i) + |lines[i]| + 2] == ",\n"
  {
    JoinLineAt(lines, ",\n", i);
    var j := Join(lines, ",\n");
    var o := LineOffset(lines, i);
    JoinLength(lines, ",\n");
    assert FormatPoem(lines)[..|j|] == j;
  }

  /** The same for a bare join with a two-character separator. */
  lemma {:induction false} JoinLineAt(lines: seq<string>, sep: string, i: nat)
    requires i < |lines| && |sep| == 2
    ensures LineOffset(lines, i) + |lines[i]| <= |Join(lines, sep)|
    ensures Join(lines, sep)[LineOffset(lines, i)..LineOffset(lines, i) + |lines[i]|] == lines[i]
    ensures i + 1 < |lines| ==>
      LineOffset(lines, i) + |lines[i]| + 2 <= |Join(lines, sep)| &&
      Join(lines, sep)[LineOffset(lines, i) + |lines[i]|..LineOffset(lines, i) + |lines[i]| + 2] == sep
  {
    var j := Join(lines, sep);
    if i == 0 {
      assert lines[..0] == [];
      if |lines| >= 2 {
        JoinFirstLine(lines, sep);
      }
    } else {
      var rest := lines[1..];
      JoinLineAt(rest, sep, i - 1);
      var pre := lines[0] + sep;
      assert j == pre + Join(rest, sep);
      assert lines[..i] == [lines[0]] + rest[..i - 1];
      assert lines[..i][1..] == rest[..i - 1];
      var o := LineOffset(rest, i - 1);
      assert LineOffset(lines, i) == |pre| + o;
      SliceAfter(pre, Join(rest, sep), o, |lines[i]|);
      if i + 1 < |lines| {
        SliceAfter(pre, Join(rest, sep), o + |lines[i]|, 2);
      }
    }
  }

  /** In a join of two or more lines, the first line is followed by the
      separator. */
  lemma JoinFirstLine(lines: seq<string>, sep: string)
    requires |lines| >= 2 && |sep| == 2
    ensures |lines[0]| + 2 <= |Join(lines, sep)|
    ensures Join(lines, sep)[|lines[0]|..|lines[0]| + 2] == sep
  {
    var j := Join(lines, sep);
    assert j == (lines[0] + sep) + Join(lines[1..], sep);
    assert (lines[0] + sep)[|lines[0]|..] == sep;
  }

  /** A slice of the second part of a concatenation. */
  lemma SliceAfter(x: string, y: string, o: nat, n: nat)
    requires o + n <= |y|
    ensures (x + y)[|x| + o..|x| + o + n] == y[o..o + n]
  {
    assert (x + y)[|x|..] == y;
    assert (x + y)[|x| + o..|x| + o + n] == (x + y)[|x|..][o..o + n];
  }

  // ---------------------------------------------------------------------
  // The fallback slip
  // ---------------------------------------------------------------------

  /** The general-purpose slip used when a deity has no slips of its own. */
  function DefaultFortune(): (r: DrawnFortune)
    ensures r.slip.level == Middle && r.color == LevelColor(r.slip.level)
    ensures r.deityId.None? && r.timestamp.None?
  {
    DrawnFortune(
      FortuneSlip(
        "第一签",
        "中签",
        ["诚心所至金石开", "神明护佑在身边", "保持善念行善事", "福报自然会到来"],
        "您的诚心已被神明感知。虽然当前可能还没有明显的变化,但只要保持善念,积极行动,好的结果终会到来。建议您保持耐心,继续努力,相信一切都是最好的安排。",
        ["保持积极乐观的心态", "多做善事,积累福报", "相信自己,坚持努力", "保持耐心,等待时机", "感恩当下,珍惜拥有"]),
      "#87CEEB",
      None,
      None,
      None)
  }

  // ---------------------------------------------------------------------
  // Merging the database parts
  // ---------------------------------------------------------------------

  /** The result of `Object.assign`-ing the present tables, in order, into an
      empty object: a later table overrides an earlier one key by key. */
  function Merged(tables: seq<Option<FortuneTable>>): (r: FortuneTable)
    ensures tables == [] ==> r == map[]
    ensures tables != [] && tables[|tables| - 1].Some? ==>
      forall k :: k in tables[|tables| - 1].value ==> k in r && r[k] == tables[|tables| - 1].value[k]
  {
    if tables == [] then map[]
    else
      var before := Merged(tables[..|tables| - 1]);
      match tables[|tables| - 1]
      case None => before
      case Some(t) => before + t
  }

  /** A deity has slips after the merge exactly when some present part has
      slips for it. */
  lemma {:induction false} MergedKeys(tables: seq<Option<FortuneTable>>, k: string)
    ensures k in Merged(tables) <==> exists i :: 0 <= i < |tables| && tables[i].Some? && k in tables[i].value
  {
    if tables != [] {
      var init := tables[..|tables| - 1];
      MergedKeys(init, k);
      if exists i :: 0 <= i < |init| && init[i].Some? && k in init[i].value {
        var i :| 0 <= i < |init| && init[i].Some? && k in init[i].value;
        assert tables[i] == init[i];
      }
      if exists i :: 0 <= i < |tables| && tables[i].Some? && k in tables[i].value {
        var i :| 0 <= i < |tables| && tables[i].Some? && k in tables[i].value;
        if i < |init| {
          assert init[i] == tables[i];
        }
      }
    }
  }

  /** The slips of a deity after the merge come from the last present part
      that has slips for it. */
  lemma {:induction false} MergedLastWins(tables: seq<Option<FortuneTable>>, i: nat, k: string)
    requires i < |tables| && tables[i].Some? && k in tables[i].value
    requires forall j :: i < j < |tables| && tables[j].Some? ==> k !in tables[j].value
    ensures k in Merged(tables) && Merged(tables)[k] == tables[i].value[k]
  {
    var init := tables[..|tables| - 1];
    if i < |tables| - 1 {
      assert init[i] == tables[i];
      forall j | i < j < |init| && init[j].Some?
        ensures k !in init[j].value
      {
        assert init[j] == tables[j];
      }
      MergedLastWins(init, i, k);
    }
  }

  /** `mergeFortunes`: `Object.assign` the main table, then each present part,
      into an initially empty table. */
  method MergeFortunes(main: Option<FortuneTable>, parts: seq<Option<FortuneTable>>) returns (merged: FortuneTable)
    ensures merged == Merged([main] + parts)
  {
    merged := map[];
    if main.Some? {
      merged := merged + main.value;
    }
    assert [main][..0] == [];
    var i := 0;
    while i < |parts|
      invariant 0 <= i <= |parts|
      invariant merged == Merged([main] + parts[..i])
    {
      var ts := [main] + parts[..i + 1];
      assert ts[..|ts| - 1] == [main] + parts[..i];
      if parts[i].Some? {
        merged := merged + parts[i].value;
      }
      i := i + 1;
    }
    assert parts[..|parts|] == parts;
  }

  // ---------------------------------------------------------------------
  // Per-level counts
  // ---------------------------------------------------------------------

  /** The counters of the four known levels. */
  datatype LevelStats = LevelStats(best: nat, good: nat, middle: nat, poor: nat)

  /** The statistics of one deity's slips. */
  datatype FortuneStats = FortuneStats(total: nat, byLevel: LevelStats)

  /** How many slips carry the given level. */
  function CountLevel(slips: seq<FortuneSlip>, level: string): (r: nat)
    ensures r <= |slips|
  {
    if slips == [] then 0
    else CountLevel(slips[..|slips| - 1], level) + (if slips[|slips| - 1].level == level then 1 else 0)
  }

  /** How many slips carry a level outside the four known ones. */
  function CountUnlisted(slips: seq<FortuneSlip>): (r: nat)
    ensures r <= |slips|
  {
    if slips == [] then 0
    else CountUnlisted(slips[..|slips| - 1]) + (if slips[|slips| - 1].level !in LevelColors then 1 else 0)
  }

  /** The four level counters and the unlisted slips together account for
      every slip once, so the counters sum to at most the total. */
  lemma {:induction false} LevelCountsPartition(slips: seq<FortuneSlip>)
    ensures CountLevel(slips, Best) + CountLevel(slips, Good) + CountLevel(slips, Middle)
      + CountLevel(slips, Poor) + CountUnlisted(slips) == |slips|
  {
    if slips != [] {
      LevelCountsPartition(slips[..|slips| - 1]);
    }
  }
}
