/** The display labels the app shows for a solar date: a stem-branch year, a
    zodiac animal, a "lunar" month that is the solar month shifted back by
    one, the solar day written in Chinese, and a handful of fixed solar-term
    dates. This is a visual approximation, not a lunisolar conversion: the
    year table and the day offset of the converter are never used. */
module LunarCalendar {
  import opened JsCore

  // ---------------------------------------------------------------------
  // Constant tables
  // ---------------------------------------------------------------------

  /** The ten heavenly stems. */
  const Gan: seq<char> := ['甲', '乙', '丙', '丁', '戊', '己', '庚', '辛', '壬', '癸']
  /** The twelve earthly branches. */
  const Zhi: seq<char> := ['子', '丑', '寅', '卯', '辰', '巳', '午', '未', '申', '酉', '戌', '亥']
  /** The twelve zodiac animals, in branch order. */
  const Animals: seq<string> := ["鼠", "牛", "虎", "兔", "龙", "蛇", "马", "羊", "猴", "鸡", "狗", "猪"]
  /** The 24 solar-term names, starting from Minor Cold. */
  const SolarTerm: seq<string> := ["小寒", "大寒", "立春", "雨水", "惊蛰", "春分", "清明", "谷雨",
    "立夏", "小满", "芒种", "夏至", "小暑", "大暑", "立秋", "处暑",
    "白露", "秋分", "寒露", "霜降", "立冬", "小雪", "大雪", "冬至"]
  /** Digits used for the units place of a day. */
  const NStr1: seq<char> := ['日', '一', '二', '三', '四', '五', '六', '七', '八', '九', '十']
  /** Prefixes used for the tens place of a day. */
  const NStr2: seq<char> := ['初', '十', '廿', '卅', ' ']
  /** Month names, first month first. */
  const MonthCn: seq<string> := ["正月", "二月", "三月", "四月", "五月", "六月",
    "七月", "八月", "九月", "十月", "冬月", "腊月"]

  /** The fixed solar-term dates, keyed by (month, day) of the solar date. */
  const Terms: map<(int, int), string> := map[
    (12, 21) := "冬至", (12, 22) := "冬至", (12, 23) := "冬至",
    (3, 20) := "春分", (3, 21) := "春分",
    (6, 21) := "夏至", (6, 22) := "夏至",
    (9, 22) := "秋分", (9, 23) := "秋分",
    (2, 3) := "立春", (2, 4) := "立春", (2, 5) := "立春"]

  /** The label record returned for a solar date. Fields that JavaScript can
      leave `undefined` (or fill with junk text built from `undefined`) are
      optional. */
  datatype LunarDate = LunarDate(
    lYear: int,
    lMonth: int,
    lDay: int,
    animal: Option<string>,
    monthCn: string,
    dayCn: Option<string>,
    term: string,
    gzYear: Option<string>)

  // ---------------------------------------------------------------------
  // Stem-branch year and zodiac
  // ---------------------------------------------------------------------

  /** The sexagenary year label: stem `num % 10`, branch `num % 12`, with
      `num = year - 1900 + 36`. JavaScript's `%` keeps the sign of `num`, so
      a year before 1864 indexes outside the tables, except where both
      remainders are zero. */
  function GetCyclical(year: int): (r: Option<string>)
    ensures r.Some? <==> year >= 1864 || (year - 1864) % 60 == 0
    ensures r.Some? ==> |r.value| == 2 && r.value[0] in Gan && r.value[1] in Zhi
    ensures year >= 1864 ==> r == Some([Gan[(year - 1864) % 10], Zhi[(year - 1864) % 12]])
  {
    var num := year - 1900 + 36;
    CommonMultiple(num);
    match (At(Gan, JsRem(num, 10)), At(Zhi, JsRem(num, 12)))
    case (Some(stem), Some(branch)) => Some([stem, branch])
    case _ => None
  }

  /** Both remainders vanish exactly on the multiples of 60. */
  lemma CommonMultiple(n: int)
    ensures (n % 10 == 0 && n % 12 == 0) <==> n % 60 == 0
  {
    if n % 10 == 0 && n % 12 == 0 {
      var a, b := n / 10, n / 12;
      assert 5 * a == 6 * b;
      assert a % 6 == 0;
      assert n == 60 * (a / 6);
    }
    if n % 60 == 0 {
      var c := n / 60;
      assert n == 10 * (6 * c) && n == 12 * (5 * c);
    }
  }

  /** The zodiac animal `Animals[(y - 4) % 12]`, with JavaScript's `%`. */
  function ZodiacAnimal(y: int): (r: Option<string>)
    ensures r.Some? <==> y >= 4 || (y - 4) % 12 == 0
    ensures r.Some? ==> r.value in Animals
    ensures y >= 4 ==> r == Some(Animals[(y - 4) % 12])
  {
    At(Animals, JsRem(y - 4, 12))
  }

  // ---------------------------------------------------------------------
  // Month and day labels
  // ---------------------------------------------------------------------

  /** The displayed month: one less than the solar month, wrapping 0 to 12. */
  function LunarMonthOf(m: int): (r: int)
    ensures 1 <= m <= 12 ==> 1 <= r <= 12
    ensures m == 1 ==> r == 12
    ensures 2 <= m <= 12 ==> r == m - 1
  {
    var lunarM := m - 1;
    if lunarM <= 0 then lunarM + 12 else lunarM
  }

  /** The month name `MonthCn[lunarM - 1] || "正月"`. */
  function MonthLabel(lunarM: int): (r: string)
    ensures 1 <= lunarM <= 12 ==> r == MonthCn[lunarM - 1]
    ensures !(1 <= lunarM <= 12) ==> r == "正月"
  {
    match At(MonthCn, lunarM - 1)
    case Some(s) => if s != "" then s else "正月"
    case None => "正月"
  }

  /** The day written in Chinese. 10, 20 and 30 are special cases; every
      other day is a tens prefix followed by a units digit, and JavaScript
      produces no proper label when either lookup falls outside its table. */
  function ToLunarDay(d: int): (r: Option<string>)
    ensures r.Some? <==> 0 <= d < 50
    ensures r.Some? ==> |r.value| == 2
  {
    if d == 10 then Some("初十")
    else if d == 20 then Some("二十")
    else if d == 30 then Some("三十")
    else match (At(NStr2, d / 10), At(NStr1, JsRem(d, 10)))
      case (Some(tens), Some(units)) => Some([tens, units])
      case _ => None
  }

  /** The value of a tens prefix. */
  function TensValue(c: char): (r: Option<nat>)
    ensures r.Some? ==> r.value < |NStr2| && NStr2[r.value] == c
  {
    match c
    case '初' => Some(0)
    case '十' => Some(1)
    case '廿' => Some(2)
    case '卅' => Some(3)
    case ' ' => Some(4)
    case _ => None
  }

  /** The value of a units digit. */
  function UnitsValue(c: char): (r: Option<nat>)
    ensures r.Some? ==> r.value < |NStr1| && NStr1[r.value] == c
  {
    match c
    case '日' => Some(0)
    case '一' => Some(1)
    case '二' => Some(2)
    case '三' => Some(3)
    case '四' => Some(4)
    case '五' => Some(5)
    case '六' => Some(6)
    case '七' => Some(7)
    case '八' => Some(8)
    case '九' => Some(9)
    case '十' => Some(10)
    case _ => None
  }

  /** Reads a day label back: the inverse of ToLunarDay. */
  function ParseLunarDay(s: string): (r: Option<int>)
    ensures r.Some? ==> 0 <= r.value <= 49
  {
    if s == "二十" then Some(20)
    else if s == "三十" then Some(30)
    else if |s| != 2 then None
    else match (TensValue(s[0]), UnitsValue(s[1]))
      case (Some(t), Some(u)) => if u < 10 || t == 0 then Some(10 * t + u) else None
      case _ => None
  }

  // ---------------------------------------------------------------------
  // Solar terms and the whole record
  // ---------------------------------------------------------------------

  /** The solar term of a date, from a fixed table of twelve (month, day)
      keys; the year is not consulted. */
  function GetSolarTerm(y: int, m: int, d: int): (r: string)
    ensures r == "冬至" <==> m == 12 && 21 <= d <= 23
    ensures r == "春分" <==> m == 3 && 20 <= d <= 21
    ensures r == "夏至" <==> m == 6 && 21 <= d <= 22
    ensures r == "秋分" <==> m == 9 && 22 <= d <= 23
    ensures r == "立春" <==> m == 2 && 3 <= d <= 5
    ensures r == "" <==> (m, d) !in Terms
  {
    if (m, d) in Terms then Terms[(m, d)] else ""
  }

  /** The label record for the solar date (y, m, d). */
  function SolarToLunar(y: int, m: int, d: int): (r: LunarDate)
    ensures r.lYear == y && r.lDay == d
    ensures 1 <= m <= 12 ==> 1 <= r.lMonth <= 12 && r.monthCn == MonthCn[r.lMonth - 1]
    ensures m == 1 ==> r.lMonth == 12 && r.monthCn == "腊月"
    ensures 2 <= m <= 12 ==> r.lMonth == m - 1
    ensures 1 <= d <= 31 ==> r.dayCn.Some? && |r.dayCn.value| == 2
    ensures y >= 1864 ==> r.gzYear.Some? && r.animal.Some?
    ensures r.term != "" <==> (m, d) in Terms
    ensures r.term == GetSolarTerm(y, m, d) && r.gzYear == GetCyclical(y)
    ensures r.animal == ZodiacAnimal(y) && r.dayCn == ToLunarDay(d) && r.monthCn == MonthLabel(r.lMonth)
  {
    var term := GetSolarTerm(y, m, d);
    var dayCy := GetCyclical(y);
    var lunarM := LunarMonthOf(m);
    var lunarD := d;
    LunarDate(y, lunarM, lunarD, ZodiacAnimal(y), MonthLabel(lunarM), ToLunarDay(lunarD), term, dayCy)
  }

  // ---------------------------------------------------------------------
  // Properties
  // ---------------------------------------------------------------------


  /** 1900 is the year 庚子. */
  lemma CyclicalAnchor()
    ensures GetCyclical(1900) == Some("庚子")
  {
    assert JsRem(36, 10) == 6 && JsRem(36, 12) == 0;
  }

  /** From 1864 on, the stem-branch label repeats every 60 years. */
  lemma CyclicalPeriod(y: int)
    requires y >= 1864
    ensures GetCyclical(y + 60) == GetCyclical(y)
  {
    var n := y - 1900 + 36;
    assert (n + 60) % 10 == n % 10 && (n + 60) % 12 == n % 12;
  }

  /** From 1864 on, each year takes the next stem and the next branch of the
      year before, wrapping at the end of each table. */
  lemma CyclicalSuccessor(y: int)
    requires y >= 1864
    ensures GetCyclical(y + 1)
      == Some([Gan[((y - 1864) % 10 + 1) % 10], Zhi[((y - 1864) % 12 + 1) % 12]])
  {
    NextStem(y - 1864);
    NextBranch(y - 1864);
  }

  /** The stem position of the next number is the next one, wrapping at 10. */
  lemma NextStem(n: nat)
    ensures (n + 1) % 10 == (n % 10 + 1) % 10
  {
    if n % 10 == 9 {
      assert n + 1 == 10 * (n / 10 + 1);
    } else {
      assert n + 1 == 10 * (n / 10) + (n % 10 + 1);
    }
  }

  /** The branch position of the next number is the next one, wrapping at 12. */
  lemma NextBranch(n: nat)
    ensures (n + 1) % 12 == (n % 12 + 1) % 12
  {
    if n % 12 == 11 {
      assert n + 1 == 12 * (n / 12 + 1);
    } else {
      assert n + 1 == 12 * (n / 12) + (n % 12 + 1);
    }
  }

  /** Before 1864 the only proper label JavaScript produces is 甲子, on the
      years where both remainders are a negative zero. */
  lemma CyclicalBefore1864(y: int)
    requires y < 1864 && GetCyclical(y).Some?
    ensures GetCyclical(y) == Some("甲子")
  {
    var n := y - 1900 + 36;
    CommonMultiple(n);
    assert JsRem(n, 10) == 0 && JsRem(n, 12) == 0;
  }

  /** Within any 60-year window from 1864 on, no two years share a label. */
  lemma CyclicalInjective(y1: int, y2: int)
    requires 1864 <= y1 < y2 < y1 + 60
    ensures GetCyclical(y1) != GetCyclical(y2)
  {
    var n1, n2 := y1 - 1864, y2 - 1864;
    if GetCyclical(y1) == GetCyclical(y2) {
      SameLabelSameRemainders(n1, n2);
      SameRemainder(n1, n2 - n1, 10);
      SameRemainder(n1, n2 - n1, 12);
      CommonMultiple(n2 - n1);
      assert false;
    }
  }

  /** Equal stem-branch labels come from equal positions in both cycles. */
  lemma SameLabelSameRemainders(n1: nat, n2: nat)
    requires [Gan[n1 % 10], Zhi[n1 % 12]] == [Gan[n2 % 10], Zhi[n2 % 12]]
    ensures n1 % 10 == n2 % 10 && n1 % 12 == n2 % 12
  {
    assert [Gan[n1 % 10], Zhi[n1 % 12]][0] == Gan[n2 % 10];
    assert [Gan[n1 % 10], Zhi[n1 % 12]][1] == Zhi[n2 % 12];
    StemsDistinct(n1 % 10, n2 % 10);
    BranchesDistinct(n1 % 12, n2 % 12);
  }

  /** No two stems are the same character. */
  lemma StemsDistinct(i: nat, j: nat)
    requires i < 10 && j < 10 && Gan[i] == Gan[j]
    ensures i == j
  {
    assert Distinct(Gan);
  }

  /** No two branches are the same character. */
  lemma BranchesDistinct(i: nat, j: nat)
    requires i < 12 && j < 12 && Zhi[i] == Zhi[j]
    ensures i == j
  {
    assert Distinct(Zhi);
  }

  /** Two numbers with the same remainder differ by a multiple of the divisor. */
  lemma SameRemainder(a: int, k: int, m: int)
    requires m > 0 && (a + k) % m == a % m
    ensures k % m == 0
  {
    var q1, q2 := (a + k) / m, a / m;
    assert k == m * q1 - m * q2;
    assert k == m * (q1 - q2);
    DivisibleMultiple(k, m, q1 - q2);
  }

  /** From year 4 on, the zodiac repeats every 12 years. */
  lemma ZodiacPeriod(y: int)
    requires y >= 4
    ensures ZodiacAnimal(y + 12) == ZodiacAnimal(y)
  {
    assert (y + 12 - 4) % 12 == (y - 4) % 12;
  }

  /** The zodiac animal and the branch of the year label come from the same
      position of their tables (1864 - 4 is a multiple of 12). */
  lemma ZodiacMatchesBranch(y: int)
    requires y >= 1864
    ensures exists k :: 0 <= k < 12 && ZodiacAnimal(y) == Some(Animals[k]) && GetCyclical(y).value[1] == Zhi[k]
  {
    var k := (y - 4) % 12;
    var n := y - 1900 + 36;
    assert n % 12 == k;
    assert GetCyclical(y).value == [Gan[n % 10], Zhi[k]];
  }

  /** The month shift is a rotation of 1..12: the solar month is recovered. */
  lemma MonthShiftInverse(m: int)
    requires 1 <= m <= 12
    ensures LunarMonthOf(m) % 12 + 1 == m
  {
  }

  /** Every day label in 0..49 reads back to its day, so different days never
      share a label. */
  lemma DayLabelRoundTrip(d: int)
    requires 0 <= d < 50
    ensures ParseLunarDay(ToLunarDay(d).value) == Some(d)
  {
    if d != 10 && d != 20 && d != 30 {
      var t, u := d / 10, d % 10;
      var s := ToLunarDay(d).value;
      assert s == [NStr2[t], NStr1[u]];
      assert TensValue(s[0]) == Some(t);
      assert UnitsValue(s[1]) == Some(u);
    }
  }

  /** The worked examples of the day labels. */
  lemma DayLabelExamples()
    ensures ToLunarDay(1) == Some("初一") && ToLunarDay(15) == Some("十五")
    ensures ToLunarDay(21) == Some("廿一") && ToLunarDay(31) == Some("卅一")
    ensures ToLunarDay(10) == Some("初十") && ToLunarDay(20) == Some("二十") && ToLunarDay(30) == Some("三十")
  {
  }

  /** Each returned term is one of the 24 solar-term names, at its own place
      in the traditional order. */
  lemma TermNamesInTable(y: int, m: int, d: int)
    ensures GetSolarTerm(y, m, d) in {"", SolarTerm[2], SolarTerm[5], SolarTerm[11], SolarTerm[17], SolarTerm[23]}
  {
  }

  /** Sixty years apart, a date receives the same labels; only the year
      number differs. */
  lemma SolarToLunarPeriod(y: int, m: int, d: int)
    requires y >= 1864
    ensures SolarToLunar(y + 60, m, d) == SolarToLunar(y, m, d).(lYear := y + 60)
  {
    CyclicalPeriod(y);
    var k := y - 4;
    assert (k + 60) % 12 == k % 12;
  }
}
