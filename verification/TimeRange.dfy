/** The time range in the page's URL: writing it into the search parameters and reading it back. */
module TimeRange {

  import opened Prelude
  import opened Decimals

  // ----- search parameters -----

  datatype Param = Param(key: string, value: string)

  const FROM := "from"
  const TO := "to"

  class URLSearchParams {
    var list: seq<Param>

    constructor (list: seq<Param>)
      ensures this.list == list
    {
      this.list := list;
    }

    method Append(key: string, value: string)
      modifies this
      ensures list == old(list) + [Param(key, value)]
    {
      list := list + [Param(key, value)];
    }

    method Set(key: string, value: string)
      modifies this
      ensures list == SetParam(old(list), key, value)
    {
      list := SetParam(list, key, value);
    }

    method Delete(key: string)
      modifies this
      ensures list == WithoutKey(old(list), key)
    {
      list := WithoutKey(list, key);
    }
  }

  /** The value of the first parameter with the key. */
  function Get(list: seq<Param>, key: string): Option<string> {
    if list == [] then None
    else
      var before := Get(list[..|list| - 1], key);
      if before.Some? then before
      else if list[|list| - 1].key == key then Some(list[|list| - 1].value) else None
  }

  function WithoutKey(list: seq<Param>, key: string): seq<Param> {
    if list == [] then []
    else WithoutKey(list[..|list| - 1], key) + if list[|list| - 1].key == key then [] else [list[|list| - 1]]
  }

  /** The first parameter with the key takes the value and later ones go; without one, the parameter is appended. */
  function SetParam(list: seq<Param>, key: string, value: string): seq<Param> {
    if HasKey(list, key) then Replaced(list, key, value) else list + [Param(key, value)]
  }

  predicate HasKey(list: seq<Param>, key: string) {
    Get(list, key).Some?
  }

  function Replaced(list: seq<Param>, key: string, value: string): seq<Param> {
    if list == [] then []
    else
      var before, last := list[..|list| - 1], list[|list| - 1];
      Replaced(before, key, value)
        + if last.key != key then [last] else if HasKey(before, key) then [] else [Param(key, value)]
  }

  /** The parameters that are not part of the time range. */
  function Others(list: seq<Param>): seq<Param> {
    if list == [] then []
    else Others(list[..|list| - 1]) + if IsTime(list[|list| - 1].key) then [] else [list[|list| - 1]]
  }

  predicate IsTime(key: string) {
    key == FROM || key == TO
  }

  function TimeParams(from: Option<string>, to: Option<string>): seq<Param> {
    (if from.Some? then [Param(FROM, from.value)] else []) + if to.Some? then [Param(TO, to.value)] else []
  }

  lemma {:induction false} NoTimeInOthers(list: seq<Param>, key: string)
    requires IsTime(key)
    ensures Get(Others(list), key) == None
  {
    if list != [] {
      NoTimeInOthers(list[..|list| - 1], key);
      GetAppend(Others(list[..|list| - 1]), list[|list| - 1], key);
      assert IsTime(list[|list| - 1].key) ==> Others(list) == Others(list[..|list| - 1]);
    }
  }

  lemma GetAppend(list: seq<Param>, p: Param, key: string)
    ensures Get(list + [p], key)
      == if Get(list, key).Some? then Get(list, key) else if p.key == key then Some(p.value) else None
  {
    assert (list + [p])[..|list|] == list;
  }

  /** `withTimeParamsLast`: the other parameters in their order, then from, then to. */
  method WithTimeParamsLast(search: URLSearchParams) returns (ordered: URLSearchParams)
    ensures fresh(ordered)
    ensures ordered.list == Others(search.list) + TimeParams(Get(search.list, FROM), Get(search.list, TO))
  {
    var from := Get(search.list, FROM);
    var to := Get(search.list, TO);
    ordered := new URLSearchParams([]);
    for n := 0 to |search.list|
      invariant ordered.list == Others(search.list[..n]) && fresh(ordered)
    {
      assert search.list[..n + 1][..n] == search.list[..n];
      if search.list[n].key == FROM || search.list[n].key == TO {
        continue;
      }
      ordered.Append(search.list[n].key, search.list[n].value);
    }
    assert search.list[..|search.list|] == search.list;
    SetTimeParams(search.list, from, to);
    if from.Some? {
      ordered.Set(FROM, from.value);
    }
    if to.Some? {
      ordered.Set(TO, to.value);
    }
  }

  /** Setting from and then to appends them, there being neither among the others. */
  lemma SetTimeParams(list: seq<Param>, from: Option<string>, to: Option<string>)
    ensures
      var others := Others(list);
      var once := if from.Some? then SetParam(others, FROM, from.value) else others;
      (if to.Some? then SetParam(once, TO, to.value) else once) == others + TimeParams(from, to)
  {
    NoTimeInOthers(list, FROM);
    NoTimeInOthers(list, TO);
    if from.Some? {
      GetAppend(Others(list), Param(FROM, from.value), TO);
    }
  }

  // ----- what setting and deleting do to the other parameters and to each other -----

  lemma {:induction false} GetReplaced(list: seq<Param>, key: string, value: string, k: string)
    ensures Get(Replaced(list, key, value), k) == if k == key && HasKey(list, key) then Some(value) else Get(list, k)
  {
    if list != [] {
      var before, last := list[..|list| - 1], list[|list| - 1];
      GetReplaced(before, key, value, k);
      GetReplaced(before, key, value, key);
      if last.key != key {
        GetAppend(Replaced(before, key, value), last, k);
      } else if !HasKey(before, key) {
        GetAppend(Replaced(before, key, value), Param(key, value), k);
      } else {
        assert Replaced(list, key, value) == Replaced(before, key, value);
      }
    }
  }

  lemma GetSet(list: seq<Param>, key: string, value: string, k: string)
    ensures Get(SetParam(list, key, value), k) == if k == key then Some(value) else Get(list, k)
  {
    GetReplaced(list, key, value, k);
    GetAppend(list, Param(key, value), k);
  }

  lemma {:induction false} GetWithout(list: seq<Param>, key: string, k: string)
    ensures Get(WithoutKey(list, key), k) == if k == key then None else Get(list, k)
  {
    if list != [] {
      var before, last := list[..|list| - 1], list[|list| - 1];
      GetWithout(before, key, k);
      GetAppend(WithoutKey(before, key), last, k);
      assert last.key == key ==> WithoutKey(list, key) == WithoutKey(before, key);
    }
  }

  lemma OthersAppend(list: seq<Param>, p: Param)
    ensures Others(list + [p]) == Others(list) + if IsTime(p.key) then [] else [p]
  {
    assert (list + [p])[..|list|] == list;
  }

  lemma {:induction false} OthersReplaced(list: seq<Param>, key: string, value: string)
    requires IsTime(key)
    ensures Others(Replaced(list, key, value)) == Others(list)
  {
    if list != [] {
      var before, last := list[..|list| - 1], list[|list| - 1];
      OthersReplaced(before, key, value);
      OthersAppend(Replaced(before, key, value), last);
      OthersAppend(Replaced(before, key, value), Param(key, value));
      assert last.key == key && HasKey(before, key) ==> Replaced(list, key, value) == Replaced(before, key, value);
    }
  }

  lemma OthersSet(list: seq<Param>, key: string, value: string)
    requires IsTime(key)
    ensures Others(SetParam(list, key, value)) == Others(list)
  {
    OthersReplaced(list, key, value);
    OthersAppend(list, Param(key, value));
  }

  lemma {:induction false} OthersWithout(list: seq<Param>, key: string)
    requires IsTime(key)
    ensures Others(WithoutKey(list, key)) == Others(list)
  {
    if list != [] {
      var before, last := list[..|list| - 1], list[|list| - 1];
      OthersWithout(before, key);
      OthersAppend(WithoutKey(before, key), last);
      assert last.key == key ==> WithoutKey(list, key) == WithoutKey(before, key);
    }
  }

  // ----- ranges -----

  const MAX_TIME := 8_640_000_000_000_000
  const DAY_MS := 86_400_000
  const DEFAULT_DAYS := 30

  /** A JavaScript date: an instant within the time range of ECMA-262 (section 21.4.1.1), or invalid. */
  datatype Time = Invalid | Instant(ms: int)

  predicate IsTimeValue(t: Time) {
    t.Instant? ==> -MAX_TIME <= t.ms <= MAX_TIME
  }

  datatype StoredRange = Preset(days: Option<nat>) | Absolute(from: Option<Time>, to: Option<Time>)

  /**
    * What the calendar says of the numbers in a token: the day number of a year, month and day, and the
    * instant of a date with a time of day. None where there is no such date.
    */
  datatype Calendar = Calendar(day: (nat, nat, nat) -> Option<int>, instant: string -> Option<int>) {
    ghost predicate Valid() {
      forall y, m, d :: day(y, m, d).Some? ==> 1 <= m <= 12
    }
  }

  // ----- writing -----

  function TimeString(t: Time): string {
    if t.Invalid? then "NaN" else IntString(t.ms)
  }

  /** The from and to strings; `default` is the start of the default range on the clock. */
  function RangeToParams(range: StoredRange, default: Time): (string, Option<string>) {
    match range
    case Preset(days) => ("now-" + NatString(if days.Some? then days.value else DEFAULT_DAYS) + "d", None)
    case Absolute(from, to) =>
      (TimeString(if from.Some? then from.value else default), if to.Some? then Some(TimeString(to.value)) else None)
  }

  /** `writeRange`: the search parameters of the next location. */
  method WriteRange(prev: URLSearchParams, next: StoredRange, default: Time) returns (search: URLSearchParams)
    ensures fresh(search)
    ensures
      var (from, to) := RangeToParams(next, default);
      search.list == Others(prev.list) + TimeParams(Some(from), to)
  {
    var (from, to) := RangeToParams(next, default);
    var edited := new URLSearchParams(prev.list);
    edited.Set(FROM, from);
    GetSet(prev.list, FROM, from, FROM);
    OthersSet(prev.list, FROM, from);
    ghost var once := edited.list;
    if to.Some? {
      edited.Set(TO, to.value);
      GetSet(once, TO, to.value, FROM);
      GetSet(once, TO, to.value, TO);
      OthersSet(once, TO, to.value);
    } else {
      edited.Delete(TO);
      GetWithout(once, TO, FROM);
      GetWithout(once, TO, TO);
      OthersWithout(once, TO);
    }
    search := WithTimeParamsLast(edited);
  }

  // ----- reading -----

  /** `^now-(\\d+)d$` */
  function PresetDays(s: string): Option<nat> {
    if |s| >= 6 && s[..4] == "now-" && s[|s| - 1] == 'd' && AllDigits(s[4..|s| - 1])
      then Some(DigitsValue(s[4..|s| - 1]))
    else None
  }

  predicate IsDateTime(s: string) {
    |s| == 15 && s[8] == 'T' && AllDigits(s[..8]) && AllDigits(s[9..])
  }

  predicate IsDateOnly(s: string) {
    |s| == 8 && AllDigits(s)
  }

  function Within(ms: int): Option<Time> {
    if -MAX_TIME <= ms <= MAX_TIME then Some(Instant(ms)) else None
  }

  function ParseAbsoluteToken(token: string, endOfDay: bool, calendar: Calendar): Option<Time> {
    if IsDateTime(token) then
      var ms := calendar.instant(token);
      if ms.Some? then Within(ms.value) else None
    else if IsDateOnly(token) then
      var day := calendar.day(DigitsValue(token[..4]), DigitsValue(token[4..6]), DigitsValue(token[6..8]));
      if day.Some? then Within(day.value * DAY_MS + if endOfDay then DAY_MS - 1 else 0) else None
    else if AllDigits(token) then Within(DigitsValue(token))
    else None
  }

  function ParseTimeParams(from: Option<string>, to: Option<string>, calendar: Calendar): Option<StoredRange> {
    if from.None? || from.value == "" then None
    else if PresetDays(from.value).Some? then Some(Preset(PresetDays(from.value)))
    else
      var fromTime := ParseAbsoluteToken(from.value, false, calendar);
      if fromTime.None? then None
      else
        Some(Absolute(fromTime,
          if to.None? || to.value == "" then None else ParseAbsoluteToken(to.value, true, calendar)))
  }

  /** What the page reads from its search parameters. */
  function ReadRange(list: seq<Param>, calendar: Calendar): Option<StoredRange> {
    ParseTimeParams(Get(list, FROM), Get(list, TO), calendar)
  }

  /** The search parameters with a range written into them. */
  function Written(list: seq<Param>, range: StoredRange, default: Time): seq<Param> {
    var (from, to) := RangeToParams(range, default);
    Others(list) + TimeParams(Some(from), to)
  }

  // ----- round trips -----

  /** The instants whose printed form is read as itself: not negative, and not eight digits long. */
  predicate IsPrintable(t: Time) {
    t.Instant? && 0 <= t.ms && !(10_000_000 <= t.ms < 100_000_000)
  }

  lemma EightDigits(n: nat)
    ensures |NatString(n)| == 8 <==> 10_000_000 <= n < 100_000_000
    ensures Power10(7) == 10_000_000 && Power10(8) == 100_000_000
  {
    NatStringLength(n, 8);
    NatStringLength(n, 7);
    assert Power10(4) == 10000;
    assert Power10(7) == 1000 * Power10(4);
  }

  /** A calendar day is never the instant that its eight digits count. */
  lemma DayIsNotItsDigits(s: string, endOfDay: bool, calendar: Calendar)
    requires calendar.Valid() && IsDateOnly(s)
    ensures ParseAbsoluteToken(s, endOfDay, calendar) != Some(Instant(DigitsValue(s)))
  {
    var y, m, d := DigitsValue(s[..4]), DigitsValue(s[4..6]), DigitsValue(s[6..8]);
    DigitsBounds(s, 8);
    EightDigits(0);
    DateDigits(s);
    var day := calendar.day(y, m, d);
    if day.Some? {
      NoSuchDay(y, m, d, day.value, endOfDay);
    }
  }

  /**
    * Below a hundred million the only day boundaries are 0, 86399999 and 86400000, and no month has the number 0
    * or 99.
    */
  lemma NoSuchDay(y: nat, m: nat, d: nat, day: int, endOfDay: bool)
    requires 1 <= m <= 12 && d < 100 && 10_000 * y + 100 * m + d < 100_000_000
    ensures 10_000 * y + 100 * m + d != day * DAY_MS + if endOfDay then DAY_MS - 1 else 0
  {
    var digits := 10_000 * y + 100 * m + d;
    assert digits / 10_000 == y && digits % 10_000 == 100 * m + d;
    if digits == day * DAY_MS + if endOfDay then DAY_MS - 1 else 0 {
      DayBoundaries(digits, day, endOfDay);
    }
  }

  lemma DayBoundaries(ms: nat, day: int, endOfDay: bool)
    requires ms < 100_000_000 && ms == day * DAY_MS + if endOfDay then DAY_MS - 1 else 0
    ensures ms == 0 || ms == 86_399_999 || ms == 86_400_000
  {
    assert 0 <= day <= 1;
  }

  lemma DateDigits(s: string)
    requires IsDateOnly(s)
    ensures DigitsValue(s) == 10_000 * DigitsValue(s[..4]) + 100 * DigitsValue(s[4..6]) + DigitsValue(s[6..8])
    ensures DigitsValue(s[4..6]) < 100 && DigitsValue(s[6..8]) < 100
  {
    SamePrefix(s[..4], s, 4);
    TwoDigits(s, 4);
    TwoDigits(s, 6);
  }

  lemma TwoDigits(s: string, k: nat)
    requires AllDigits(s) && k + 2 <= |s|
    ensures DigitsTo(s, k + 2) == 100 * DigitsTo(s, k) + DigitsValue(s[k..k + 2])
    ensures DigitsValue(s[k..k + 2]) < 100
  {
    var t := s[k..k + 2];
    assert DigitsTo(s, k + 2) == 10 * DigitsTo(s, k + 1) + DigitValue(s[k + 1]);
    assert DigitsTo(t, 2) == 10 * DigitsTo(t, 1) + DigitValue(t[1]);
    assert DigitsTo(t, 1) == 10 * DigitsTo(t, 0) + DigitValue(t[0]);
  }

  /** An instant survives printing and parsing exactly when it is printable. */
  lemma TokenRoundTrip(t: Time, endOfDay: bool, calendar: Calendar)
    requires calendar.Valid() && IsTimeValue(t)
    ensures ParseAbsoluteToken(TimeString(t), endOfDay, calendar) == Some(t) <==> IsPrintable(t)
    ensures TimeString(t) != ""
  {
    if t.Instant? && t.ms >= 0 {
      NatStringRoundTrip(t.ms);
      EightDigits(t.ms);
      if |NatString(t.ms)| == 8 {
        DayIsNotItsDigits(NatString(t.ms), endOfDay, calendar);
      } else {
        DigitsAreNotDateTime(NatString(t.ms));
      }
    } else {
      assert TimeString(t)[0] == if t.Invalid? then 'N' else '-';
      NotDigitsAtStart(TimeString(t));
    }
  }

  lemma DigitsAreNotDateTime(s: string)
    requires AllDigits(s)
    ensures !IsDateTime(s)
  {}

  lemma NotDigitsAtStart(s: string)
    requires s != "" && !IsDigit(s[0])
    ensures !AllDigits(s) && !IsDateTime(s)
  {
    if |s| >= 8 { assert s[..8][0] == s[0]; }
  }

  lemma TimeIsNotPreset(t: Time)
    ensures PresetDays(TimeString(t)) == None
  {
    if t.Instant? && t.ms >= 0 {
      NatStringRoundTrip(t.ms);
    }
    assert TimeString(t) != "" && TimeString(t)[0] != 'n';
    if |TimeString(t)| >= 4 {
      assert TimeString(t)[..4][0] == TimeString(t)[0];
    }
  }

  /** What the parameters written for a range read as, whatever else is in the URL. */
  lemma GetWritten(list: seq<Param>, range: StoredRange, default: Time)
    ensures
      var (from, to) := RangeToParams(range, default);
      Get(Written(list, range, default), FROM) == Some(from) && Get(Written(list, range, default), TO) == to
  {
    var (from, to) := RangeToParams(range, default);
    var others := Others(list);
    NoTimeInOthers(list, FROM);
    NoTimeInOthers(list, TO);
    GetAppend(others, Param(FROM, from), FROM);
    GetAppend(others, Param(FROM, from), TO);
    if to.Some? {
      GetAppend(others + [Param(FROM, from)], Param(TO, to.value), FROM);
      GetAppend(others + [Param(FROM, from)], Param(TO, to.value), TO);
      assert Written(list, range, default) == others + [Param(FROM, from)] + [Param(TO, to.value)];
    } else {
      assert Written(list, range, default) == others + [Param(FROM, from)];
    }
  }

  /** Writing a range keeps the other parameters, in order, and writing it again changes nothing. */
  lemma WrittenKeepsOthers(list: seq<Param>, range: StoredRange, default: Time)
    ensures Others(Written(list, range, default)) == Others(list)
    ensures Written(Written(list, range, default), range, default) == Written(list, range, default)
  {
    var (from, to) := RangeToParams(range, default);
    var others := Others(list);
    OthersOfOthers(list);
    OthersAppend(others, Param(FROM, from));
    if to.Some? {
      OthersAppend(others + [Param(FROM, from)], Param(TO, to.value));
      assert Written(list, range, default) == others + [Param(FROM, from)] + [Param(TO, to.value)];
    } else {
      assert Written(list, range, default) == others + [Param(FROM, from)];
    }
  }

  lemma {:induction false} OthersOfOthers(list: seq<Param>)
    ensures Others(Others(list)) == Others(list)
  {
    if list != [] {
      OthersOfOthers(list[..|list| - 1]);
      OthersAppend(Others(list[..|list| - 1]), list[|list| - 1]);
      assert IsTime(list[|list| - 1].key) ==> Others(list) == Others(list[..|list| - 1]);
    }
  }

  lemma PresetString(days: nat)
    ensures PresetDays("now-" + NatString(days) + "d") == Some(days)
  {
    NatStringRoundTrip(days);
    var s := "now-" + NatString(days) + "d";
    assert s[4..|s| - 1] == NatString(days);
  }

  /** A preset of any number of days reads back as itself; JavaScript's numbers are exact up to 2^53. */
  lemma PresetRoundTrip(list: seq<Param>, days: nat, default: Time, calendar: Calendar)
    ensures ReadRange(Written(list, Preset(Some(days)), default), calendar) == Some(Preset(Some(days)))
  {
    GetWritten(list, Preset(Some(days)), default);
    PresetString(days);
  }

  /** An absolute range reads back as itself exactly when its instants are printable. */
  lemma AbsoluteRoundTrip(list: seq<Param>, from: Time, to: Option<Time>, default: Time, calendar: Calendar)
    requires calendar.Valid() && IsTimeValue(from) && (to.Some? ==> IsTimeValue(to.value))
    ensures ReadRange(Written(list, Absolute(Some(from), to), default), calendar) == Some(Absolute(Some(from), to))
        <==> IsPrintable(from) && (to.Some? ==> IsPrintable(to.value))
  {
    GetWritten(list, Absolute(Some(from), to), default);
    TimeIsNotPreset(from);
    TokenRoundTrip(from, false, calendar);
    if to.Some? {
      TokenRoundTrip(to.value, true, calendar);
    }
  }
}
