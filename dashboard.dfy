/**
 * The dashboard's display rules: the greeting for the hour of the day, the
 * colour of a schedule card, the login-status badge, the guest fallbacks for
 * name and NIM, and the card list with its tips text.
 */
module Dashboard {
  import opened Wrappers
  import opened KotlinText
  import opened Entities

  // ---------------------------------------------------------------------------
  // Greeting

  datatype Greeting = Morning | Afternoon | Evening | Night

  /** The greeting chosen for an hour; every hour outside 0..18 falls to the `else` arm. */
  function GreetingFor(hour: int): (g: Greeting)
    ensures g == Morning <==> 0 <= hour <= 10
    ensures g == Afternoon <==> 11 <= hour <= 14
    ensures g == Evening <==> 15 <= hour <= 18
    ensures g == Night <==> hour < 0 || 18 < hour
  {
    if 0 <= hour <= 10 then Morning
    else if 11 <= hour <= 14 then Afternoon
    else if 15 <= hour <= 18 then Evening
    else Night
  }

  /** The greeting for each hour of the day 0..23, written out hour by hour. */
  const GreetingTable: seq<Greeting> := [
    Morning, Morning, Morning, Morning, Morning, Morning, Morning, Morning, Morning, Morning, Morning,
    Afternoon, Afternoon, Afternoon, Afternoon,
    Evening, Evening, Evening, Evening,
    Night, Night, Night, Night, Night]

  /** The four ranges cover the day without gap or overlap: each hour gets its tabulated greeting. */
  lemma GreetingCoversDay(hour: int)
    requires 0 <= hour < 24
    ensures |GreetingTable| == 24
    ensures GreetingFor(hour) == GreetingTable[hour]
  {
  }

  lemma GreetingBoundaries()
    ensures GreetingFor(0) == Morning && GreetingFor(10) == Morning
    ensures GreetingFor(11) == Afternoon && GreetingFor(14) == Afternoon
    ensures GreetingFor(15) == Evening && GreetingFor(18) == Evening
    ensures GreetingFor(19) == Night && GreetingFor(23) == Night
  {
  }

  // ---------------------------------------------------------------------------
  // Days of the week, as java.util.Calendar numbers them

  const Sunday: int := 1
  const Monday: int := 2
  const Tuesday: int := 3
  const Wednesday: int := 4
  const Thursday: int := 5
  const Friday: int := 6
  const Saturday: int := 7

  const DayMap: map<string, int> := map[
    "Senin" := Monday,
    "Selasa" := Tuesday,
    "Rabu" := Wednesday,
    "Kamis" := Thursday,
    "Jumat" := Friday,
    "Sabtu" := Saturday,
    "Minggu" := Sunday]

  /** The calendar day of a schedule's day name; a name outside the seven is taken as Monday. */
  function ScheduleDay(name: string): (d: int)
    ensures Sunday <= d <= Saturday
    ensures name !in DayMap ==> d == Monday
    ensures name in DayMap ==> d == DayMap[name]
  {
    if name in DayMap then DayMap[name] else Monday
  }

  /** The Indonesian name of a calendar day. */
  function DayName(d: int): string
    requires Sunday <= d <= Saturday
  {
    match d
    case 1 => "Minggu"
    case 2 => "Senin"
    case 3 => "Selasa"
    case 4 => "Rabu"
    case 5 => "Kamis"
    case 6 => "Jumat"
    case 7 => "Sabtu"
  }

  /** The seven names and the seven days correspond one to one. */
  lemma DayNameRoundTrip(d: int, name: string)
    requires Sunday <= d <= Saturday
    ensures DayName(d) in DayMap && ScheduleDay(DayName(d)) == d
    ensures name in DayMap ==> DayName(ScheduleDay(name)) == name
  {
  }

  // ---------------------------------------------------------------------------
  // End time

  datatype EndTime = EndTime(hour: int, minute: int)

  /**
   * The end time split at ':'; the first part read as the hour, the second as
   * the minute, 23 and 59 standing in for a part that is missing or not an integer.
   */
  function ParseEndTime(endTime: string): (t: EndTime)
    ensures NoDelimiter(endTime, ':') ==> t == EndTime(ToIntOrNull(endTime).GetOr(23), 59)
    ensures t.hour == 23 || InIntRange(t.hour)
    ensures t.minute == 59 || InIntRange(t.minute)
  {
    var parts := Split(endTime, ':');
    EndTime(
      ToIntOrNull(parts[0]).GetOr(23),
      if |parts| > 1 then ToIntOrNull(parts[1]).GetOr(59) else 59)
  }

  /**
   * An end time "<hour>:<rest>" reads the hour before the first ':' and the
   * minute from what `rest` holds before its own first ':', so "10:30:00" is 10:30.
   */
  lemma ParseHourMinute(hour: string, rest: string)
    requires NoDelimiter(hour, ':')
    ensures ParseEndTime(hour + ":" + rest) ==
      EndTime(ToIntOrNull(hour).GetOr(23), ToIntOrNull(Split(rest, ':')[0]).GetOr(59))
  {
    SplitPrefix(hour, rest, ':');
    assert hour + ":" + rest == hour + [':'] + rest;
  }

  /** Two digits, zero-padded, as the schedule rows store hours and minutes. */
  function TwoDigits(n: nat): (s: string)
    requires n < 100
    ensures |s| == 2 && AllDigits(s) && NoDelimiter(s, ':')
  {
    if n < 10 then "0" + IntToString(n)
    else
      assert IntToString(n) == Digits(n / 10) + [DigitChar(n % 10)];
      IntToString(n)
  }

  function FormatTime(hour: nat, minute: nat): string
    requires hour < 24 && minute < 60
  {
    TwoDigits(hour) + ":" + TwoDigits(minute)
  }

  lemma TwoDigitsParse(n: nat)
    requires n < 100
    ensures ToIntOrNull(TwoDigits(n)) == Some(n)
  {
    IntToStringRoundTrip(n);
    if n < 10 {
      LeadingZero(IntToString(n));
    }
  }

  /** A well-formed "HH:MM" end time parses back to its hour and minute. */
  lemma ParseFormatTime(hour: nat, minute: nat)
    requires hour < 24 && minute < 60
    ensures ParseEndTime(FormatTime(hour, minute)) == EndTime(hour, minute)
  {
    TwoDigitsParse(hour);
    TwoDigitsParse(minute);
    SplitNoDelimiter(TwoDigits(minute), ':');
    ParseHourMinute(TwoDigits(hour), TwoDigits(minute));
  }

  // ---------------------------------------------------------------------------
  // Schedule colour

  /** The wall clock: `Calendar.DAY_OF_WEEK`, `HOUR_OF_DAY` and `MINUTE`. */
  datatype Clock = Clock(dayOfWeek: int, hour: int, minute: int)

  predicate ValidClock(now: Clock) {
    Sunday <= now.dayOfWeek <= Saturday && 0 <= now.hour <= 23 && 0 <= now.minute <= 59
  }

  const FutureDayColor: string := "#E74C3C"
  const PassedColor: string := "#95A5A6"
  const TodayColor: string := "#27AE60"

  /** (h1, m1) comes strictly after (h2, m2) in lexicographic order. */
  predicate LexAfter(h1: int, m1: int, h2: int, m2: int) {
    h1 > h2 || (h1 == h2 && m1 > m2)
  }

  /**
   * The colour of a schedule card: red when the schedule is on another day,
   * else gray when the clock is past the end time, else green.
   */
  function ScheduleColor(schedule: Schedule, now: Clock): (color: string)
    ensures color == FutureDayColor || color == PassedColor || color == TodayColor
    ensures color == FutureDayColor <==> ScheduleDay(schedule.day) != now.dayOfWeek
    ensures color == PassedColor <==>
      ScheduleDay(schedule.day) == now.dayOfWeek &&
      LexAfter(now.hour, now.minute, ParseEndTime(schedule.endTime).hour, ParseEndTime(schedule.endTime).minute)
  {
    var scheduleDay := ScheduleDay(schedule.day);
    var end := ParseEndTime(schedule.endTime);
    if scheduleDay != now.dayOfWeek then FutureDayColor
    else if now.hour > end.hour || (now.hour == end.hour && now.minute > end.minute) then PassedColor
    else TodayColor
  }

  /** On the same day and with a sensible end minute, "passed" is "later in the day, counted in minutes". */
  lemma PassedIsLaterMinuteOfDay(schedule: Schedule, now: Clock)
    requires ValidClock(now)
    requires ScheduleDay(schedule.day) == now.dayOfWeek
    requires 0 <= ParseEndTime(schedule.endTime).minute < 60
    ensures var end := ParseEndTime(schedule.endTime);
      ScheduleColor(schedule, now) == PassedColor <==> now.hour * 60 + now.minute > end.hour * 60 + end.minute
  {
  }

  /** At the exact end minute the class still counts as today's (green), not passed. */
  lemma ExactEndMinuteIsToday(schedule: Schedule, now: Clock)
    requires ScheduleDay(schedule.day) == now.dayOfWeek
    requires ParseEndTime(schedule.endTime) == EndTime(now.hour, now.minute)
    ensures ScheduleColor(schedule, now) == TodayColor
  {
  }

  /** An end time with neither an hour nor a minute that parses is never "passed" on a real clock. */
  lemma UnparseableEndTimeNeverPassed(schedule: Schedule, now: Clock)
    requires ValidClock(now)
    requires var parts := Split(schedule.endTime, ':');
      ToIntOrNull(parts[0]).None? && (|parts| == 1 || ToIntOrNull(parts[1]).None?)
    ensures ScheduleColor(schedule, now) != PassedColor
  {
  }

  /** A schedule on "Senin" seen on a Tuesday is red, whatever the times. */
  lemma OtherDayIsRed(schedule: Schedule, now: Clock)
    requires schedule.day == "Senin" && now.dayOfWeek == Tuesday
    ensures ScheduleColor(schedule, now) == FutureDayColor
  {
  }

  /** A class ending "10:00" on the current day is green at 09:59 and 10:00 and gray at 10:01. */
  lemma TenOClockExamples(schedule: Schedule, day: int)
    requires schedule.endTime == "10:00" && ScheduleDay(schedule.day) == day
    ensures ScheduleColor(schedule, Clock(day, 9, 59)) == TodayColor
    ensures ScheduleColor(schedule, Clock(day, 10, 0)) == TodayColor
    ensures ScheduleColor(schedule, Clock(day, 10, 1)) == PassedColor
  {
    ParseFormatTime(10, 0);
    assert FormatTime(10, 0) == "10:00";
  }

  // ---------------------------------------------------------------------------
  // User header, status badges, today's classes

  const GuestName: string := "Guest User"
  const GuestNim: string := "00000000"

  /** Kotlin's `ifEmpty { default }`. */
  function IfEmpty(s: string, default: string): (r: string)
    ensures s != [] ==> r == s
    ensures s == [] ==> r == default
  {
    if s == [] then default else s
  }

  datatype BadgeText = StatusValid | StatusInvalid | StatusYes | StatusNo
  datatype Badge = Badge(text: BadgeText, tint: Tint)

  /** A card of today's class list; a click opens attendance for `scheduleId`. */
  datatype Card = Card(
    scheduleId: int,
    subjectName: string,
    timeText: string,
    room: string,
    color: string,
    topMargin: bool)

  /**
   * The card for the schedule at `index`: it opens that schedule, shows its
   * subject, its "start - end" time line and room, takes the schedule's
   * colour (one of three: red exactly for another day, gray once the class
   * has passed today, green otherwise) and has a top margin unless it is the first.
   */
  function CardFor(schedule: Schedule, index: int, now: Clock): (card: Card)
    ensures card.scheduleId == schedule.id && card.subjectName == schedule.subjectName
    ensures card.room == schedule.room
    ensures card.timeText == schedule.startTime + " - " + schedule.endTime
    ensures card.color == ScheduleColor(schedule, now)
    ensures card.color == FutureDayColor || card.color == PassedColor || card.color == TodayColor
    ensures card.color == FutureDayColor <==> ScheduleDay(schedule.day) != now.dayOfWeek
    ensures card.topMargin <==> index > 0
  {
    Card(schedule.id, schedule.subjectName, schedule.startTime + " - " + schedule.endTime,
      schedule.room, ScheduleColor(schedule, now), index > 0)
  }

  const NoClassesTips: string := "Tidak ada kuliah hari ini. " + "Waktu yang tepat untuk belajar mandiri!"
  const TipsPrefix: string := "Kamu memiliki "
  const TipsSuffix: string := " kelas hari ini. Semangat belajar!"

  /** The tips line for a day with `count` classes. */
  function TipsText(count: nat): (tips: string)
    ensures count == 0 <==> tips == NoClassesTips
    ensures count > 0 ==> |tips| > |TipsPrefix| + |TipsSuffix|
  {
    if count == 0 then NoClassesTips
    else
      var tips := TipsPrefix + IntToString(count) + TipsSuffix;
      assert tips[0] == TipsPrefix[0] == 'K';
      assert NoClassesTips[0] == 'T';
      tips
  }

  /** The class count can be read back out of a non-empty day's tips line. */
  lemma TipsCountReadable(count: nat)
    requires 0 < count <= IntMax
    ensures var tips := TipsText(count);
      ToIntOrNull(tips[|TipsPrefix|..|tips| - |TipsSuffix|]) == Some(count)
  {
    var tips := TipsText(count);
    assert tips[|TipsPrefix|..|tips| - |TipsSuffix|] == IntToString(count);
    IntToStringRoundTrip(count);
  }

  /** The fields of the dashboard that its loaders write. */
  class DashboardView {
    var greeting: Option<Greeting>
    var studentName: string
    /** The NIM handed to the formatter (`StringUtils.formatNim` is not part of this model). */
    var nimSource: string
    var quoteShown: bool
    var loginStatus: Option<Badge>
    var webStatus: Option<Badge>
    var cards: seq<Card>
    var noClassesVisible: bool
    var tips: string

    /** A freshly inflated dashboard: nothing loaded yet. */
    constructor ()
      ensures greeting == None && loginStatus == None && webStatus == None
      ensures studentName == [] && nimSource == [] && !quoteShown
      ensures cards == [] && !noClassesVisible && tips == []
    {
      greeting, studentName, nimSource, quoteShown := None, [], [], false;
      loginStatus, webStatus := None, None;
      cards, noClassesVisible, tips := [], false, [];
    }

    method SetupGreeting(hour: int)
      modifies this`greeting
      ensures greeting == Some(GreetingFor(hour))
    {
      greeting := Some(GreetingFor(hour));
    }

    /** The current user's name and NIM, or the stored ones with guest fallbacks when there is no user. */
    method LoadUserData(user: Option<User>, prefs: Prefs)
      modifies this`studentName, this`nimSource, this`quoteShown
      ensures user.Some? ==> studentName == user.value.name && nimSource == user.value.nim
      ensures user.None? ==> studentName == IfEmpty(prefs.userName, GuestName)
      ensures user.None? ==> nimSource == IfEmpty(prefs.savedNim, GuestNim)
      ensures user.None? ==> studentName != [] && nimSource != []
      ensures quoteShown
    {
      if user.Some? {
        studentName := user.value.name;
        nimSource := user.value.nim;
      } else {
        var name := IfEmpty(prefs.userName, GuestName);
        var nim := IfEmpty(prefs.savedNim, GuestNim);
        studentName := name;
        nimSource := nim;
      }
      quoteShown := true;
    }

    /** The login badge is valid exactly for a logged-in or guest session; the web badge always says yes. */
    method LoadAppStatus(prefs: Prefs)
      modifies this`loginStatus, this`webStatus
      ensures loginStatus.Some? && webStatus == Some(Badge(StatusYes, Success))
      ensures loginStatus.value.text == StatusValid <==> prefs.isLoggedIn || prefs.isGuestMode
      ensures loginStatus.value == (if prefs.isLoggedIn || prefs.isGuestMode
        then Badge(StatusValid, Success) else Badge(StatusInvalid, Error))
    {
      var isLoggedIn := prefs.isLoggedIn || prefs.isGuestMode;
      loginStatus := Some(if isLoggedIn then Badge(StatusValid, Success) else Badge(StatusInvalid, Error));
      var isWebConnected := true;
      webStatus := Some(if isWebConnected then Badge(StatusYes, Success) else Badge(StatusNo, Error));
    }

    /**
     * Rebuilds the card list from today's schedules (`getTodaySchedules` is
     * not part of this model: its result is the parameter), one card per
     * schedule in order, and sets the empty-day card and the tips line.
     */
    method LoadTodayClasses(todaySchedules: seq<Schedule>, now: Clock)
      modifies this`cards, this`noClassesVisible, this`tips
      ensures |cards| == |todaySchedules|
      ensures forall i :: 0 <= i < |cards| ==> cards[i] == CardFor(todaySchedules[i], i, now)
      ensures noClassesVisible <==> todaySchedules == []
      ensures tips == TipsText(|todaySchedules|)
    {
      cards := [];
      if todaySchedules == [] {
        noClassesVisible := true;
      } else {
        noClassesVisible := false;
        var index := 0;
        while index < |todaySchedules|
          invariant 0 <= index <= |todaySchedules|
          invariant |cards| == index && !noClassesVisible
          invariant forall i :: 0 <= i < index ==> cards[i] == CardFor(todaySchedules[i], i, now)
        {
          cards := cards + [CardFor(todaySchedules[index], index, now)];
          index := index + 1;
        }
      }
      tips := TipsText(|todaySchedules|);
    }

    /** `setupUI`: the four loaders in order; they write disjoint fields. */
    method SetupUI(hour: int, user: Option<User>, prefs: Prefs, todaySchedules: seq<Schedule>, now: Clock)
      modifies this
      ensures greeting == Some(GreetingFor(hour))
      ensures user.Some? ==> studentName == user.value.name && nimSource == user.value.nim
      ensures user.None? ==> studentName == IfEmpty(prefs.userName, GuestName)
      ensures user.None? ==> nimSource == IfEmpty(prefs.savedNim, GuestNim)
      ensures quoteShown
      ensures loginStatus.Some? && (loginStatus.value.text == StatusValid <==> prefs.isLoggedIn || prefs.isGuestMode)
      ensures loginStatus.value == (if prefs.isLoggedIn || prefs.isGuestMode
        then Badge(StatusValid, Success) else Badge(StatusInvalid, Error))
      ensures webStatus == Some(Badge(StatusYes, Success))
      ensures |cards| == |todaySchedules|
      ensures forall i :: 0 <= i < |cards| ==> cards[i] == CardFor(todaySchedules[i], i, now)
      ensures noClassesVisible <==> todaySchedules == []
      ensures tips == TipsText(|todaySchedules|)
    {
      SetupGreeting(hour);
      LoadUserData(user, prefs);
      LoadAppStatus(prefs);
      LoadTodayClasses(todaySchedules, now);
    }
  }
}
