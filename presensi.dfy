/**
 * The attendance ("presensi") screen: the schedule lookup that turns a fault
 * into "no schedule", the attend button, and the generated attendance history
 * with its three counters.
 */
module Presensi {
  import opened Wrappers
  import opened KotlinText
  import opened Entities

  // ---------------------------------------------------------------------------
  // Status of one generated record

  datatype Status = Hadir | Izin | Alpha

  /** The status for one `Random.nextInt(100)` draw: below 85 present, below 95 excused, else absent. */
  function StatusOf(draw: int): (s: Status)
    ensures s == Hadir <==> draw < 85
    ensures s == Izin <==> 85 <= draw < 95
    ensures s == Alpha <==> 95 <= draw
  {
    if draw < 85 then Hadir else if draw < 95 then Izin else Alpha
  }

  /** Each status has its own chip colour: green for present, amber for excused, red for absent. */
  function StatusTint(s: Status): (t: Tint)
    ensures t == Success <==> s == Hadir
    ensures t == Warning <==> s == Izin
    ensures t == Error <==> s == Alpha
  {
    match s
    case Hadir => Success
    case Izin => Warning
    case Alpha => Error
  }

  /** How many of the draws lo, lo+1, ..., hi-1 give status `s`. */
  function CountIn(lo: int, hi: int, s: Status): nat
    decreases hi - lo
  {
    if hi <= lo then 0 else CountIn(lo, hi - 1, s) + (if StatusOf(hi - 1) == s then 1 else 0)
  }

  function Min(a: int, b: int): int { if a <= b then a else b }
  function Max(a: int, b: int): int { if a >= b then a else b }

  lemma {:induction false} CountInPrefix(hi: nat)
    ensures CountIn(0, hi, Hadir) == Min(hi, 85)
    ensures CountIn(0, hi, Izin) == Min(Max(hi - 85, 0), 10)
    ensures CountIn(0, hi, Alpha) == Max(hi - 95, 0)
  {
    if hi > 0 {
      CountInPrefix(hi - 1);
    }
  }

  /** Over the hundred equally likely draws 0..99 the statuses split 85 / 10 / 5. */
  lemma StatusDistribution()
    ensures CountIn(0, 100, Hadir) == 85
    ensures CountIn(0, 100, Izin) == 10
    ensures CountIn(0, 100, Alpha) == 5
  {
    CountInPrefix(100);
  }

  // ---------------------------------------------------------------------------
  // The generated history

  /** A child of the history container: a record row (number, date as a day number, PTM, status) or a divider. */
  datatype AttendanceView = Item(number: int, day: int, ptm: int, status: Status, tint: Tint) | Divider

  /** Record `i` of `n`: `i` weeks before `today`, with its status; a divider follows all but the last. */
  function Piece(i: int, n: int, draw: int, today: int): seq<AttendanceView> {
    [ItemFor(i, draw, today)] + (if i < n then [Divider] else [])
  }

  /** The row of record `i`: number and PTM `i`, dated `i` weeks before `today`, with the draw's status. */
  function ItemFor(i: int, draw: int, today: int): AttendanceView {
    Item(i, today - 7 * i, i, StatusOf(draw), StatusTint(StatusOf(draw)))
  }

  /** The children after the first `k` of `n` iterations. */
  function ViewsUpTo(k: nat, n: int, draws: seq<int>, today: int): seq<AttendanceView>
    requires k <= |draws|
  {
    if k == 0 then [] else ViewsUpTo(k - 1, n, draws, today) + Piece(k, n, draws[k - 1], today)
  }

  /** How many draws give status `s`. */
  function Tally(draws: seq<int>, s: Status): nat {
    if draws == [] then 0
    else Tally(draws[..|draws| - 1], s) + (if StatusOf(draws[|draws| - 1]) == s then 1 else 0)
  }

  /** Each record increments exactly one counter, so the counters add up to the record count. */
  lemma {:induction false} TallySum(draws: seq<int>)
    ensures Tally(draws, Hadir) + Tally(draws, Izin) + Tally(draws, Alpha) == |draws|
  {
    if draws != [] {
      TallySum(draws[..|draws| - 1]);
    }
  }

  /**
   * After `k` of `n` iterations: `2k` children (one fewer once the last
   * record is in), record `j` at position `2(j-1)` and a divider after every
   * record but the `n`-th.
   */
  lemma {:induction false} ViewsUpToShape(k: nat, n: int, draws: seq<int>, today: int)
    requires k <= |draws| && k <= n
    ensures |ViewsUpTo(k, n, draws, today)| == if 0 < k == n then 2 * k - 1 else 2 * k
    ensures forall p :: 0 <= p < |ViewsUpTo(k, n, draws, today)| ==>
      ViewsUpTo(k, n, draws, today)[p] == if p % 2 == 0 then ItemFor(p / 2 + 1, draws[p / 2], today) else Divider
  {
    if k > 0 {
      ViewsUpToShape(k - 1, n, draws, today);
      var prev := ViewsUpTo(k - 1, n, draws, today);
      var v := ViewsUpTo(k, n, draws, today);
      assert |prev| == 2 * (k - 1);
      forall p | 0 <= p < |v|
        ensures v[p] == if p % 2 == 0 then ItemFor(p / 2 + 1, draws[p / 2], today) else Divider
      {
        if p < |prev| {
          assert v[p] == prev[p];
        } else if p == |prev| {
          assert v[p] == ItemFor(k, draws[k - 1], today);
        } else {
          assert v[p] == Divider;
        }
      }
    }
  }

  /** The draws the generator consumes, within what `Random.nextInt` promises: 8..14 records, one draw each. */
  predicate RandomDraws(countDraw: int, statusDraws: seq<int>) {
    8 <= countDraw < 15 && |statusDraws| == countDraw
  }

  /**
   * The finished history: record rows and dividers alternating, starting and
   * ending with a record, 2n - 1 children for n records, 15 to 27 in all.
   */
  lemma HistoryLayout(countDraw: int, statusDraws: seq<int>, today: int)
    requires RandomDraws(countDraw, statusDraws)
    ensures var v := ViewsUpTo(countDraw, countDraw, statusDraws, today);
      |v| == 2 * countDraw - 1 && 15 <= |v| <= 27 &&
      (forall j :: 1 <= j <= countDraw ==> v[2 * j - 2] == ItemFor(j, statusDraws[j - 1], today)) &&
      (forall p :: 0 <= p < |v| ==> (v[p] == Divider <==> p % 2 == 1)) &&
      v[|v| - 1].Item?
  {
    ViewsUpToShape(countDraw, countDraw, statusDraws, today);
    var v := ViewsUpTo(countDraw, countDraw, statusDraws, today);
    forall j | 1 <= j <= countDraw ensures v[2 * j - 2] == ItemFor(j, statusDraws[j - 1], today) {
      assert (2 * j - 2) / 2 + 1 == j;
    }
  }

  // ---------------------------------------------------------------------------
  // Schedule lookup and the screen

  /**
   * `getScheduleById`: the row with that id, or `None` when there is no such
   * row or when the lookup throws (`fails`).
   */
  function GetScheduleById(rows: map<int, Schedule>, id: int, fails: bool): (r: Option<Schedule>)
    ensures r.Some? <==> !fails && id in rows
    ensures r.Some? ==> r.value == rows[id]
  {
    if fails then None else if id in rows then Some(rows[id]) else None
  }

  /** A failing lookup cannot be told apart from a lookup of a missing row. */
  lemma FaultLooksLikeMissing(rows: map<int, Schedule>, id: int)
    ensures GetScheduleById(rows, id, true) == GetScheduleById(rows - {id}, id, false) == None
  {
  }

  datatype ButtonText = PresensiLabel | PresensiAlready

  /** The header texts filled in from a loaded schedule. */
  datatype Details = Details(
    subjectName: string,
    scheduleTime: string,
    dosen: string,
    room: string,
    kode: string,
    sks: string)

  /**
   * The header of a schedule: its subject and day, each other field after its
   * label, and the credit count in decimal, which reads back as the count.
   */
  function DetailsOf(s: Schedule): (d: Details)
    ensures d.subjectName == s.subjectName
    ensures |s.day| <= |d.scheduleTime| && d.scheduleTime[..|s.day|] == s.day
    ensures |d.dosen| >= 7 && d.dosen[7..] == s.dosen
    ensures |d.room| >= 7 && d.room[7..] == s.room
    ensures |d.kode| >= 6 && d.kode[6..] == s.subjectCode
    ensures |d.sks| > 5 && ToIntOrNull(d.sks[5..]) == Some(s.sks as int)
  {
    IntToStringRoundTrip(s.sks as int);
    Details(s.subjectName, s.day + " - " + s.startTime + "-" + s.endTime,
      "Dosen: " + s.dosen, "Ruang: " + s.room, "Kode: " + s.subjectCode, "SKS: " + IntToString(s.sks))
  }

  datatype Summary = Summary(hadir: int, izin: int, alpha: int)

  class PresensiActivity {
    var scheduleId: int
    var schedule: Option<Schedule>
    var details: Option<Details>
    var buttonEnabled: bool
    var buttonText: ButtonText
    /** The children of the history container, in order. */
    var children: seq<AttendanceView>
    /** The three summary counters, once generated. */
    var summary: Option<Summary>

    /** A loaded schedule is the row of the screen's id. */
    ghost predicate Valid()
      reads this
    {
      schedule.Some? ==> schedule.value.id == scheduleId
    }

    /** `onCreate`: the id comes from the intent extra, -1 when it is missing; nothing is loaded yet. */
    constructor (extra: Option<int>)
      ensures Valid()
      ensures scheduleId == extra.GetOr(-1)
      ensures extra.None? ==> scheduleId == -1
      ensures schedule == None && details == None && summary == None && children == []
      ensures buttonEnabled && buttonText == PresensiLabel
    {
      scheduleId := extra.GetOr(-1);
      schedule, details, summary, children := None, None, None, [];
      buttonEnabled, buttonText := true, PresensiLabel;
    }

    /**
     * Clears the container and appends, for records 1..n, the record row and,
     * for all but the last, a divider; counts the statuses as it goes.
     */
    method GenerateAttendanceList(countDraw: int, statusDraws: seq<int>, today: int)
      requires RandomDraws(countDraw, statusDraws)
      modifies this`children, this`summary
      ensures children == ViewsUpTo(countDraw, countDraw, statusDraws, today)
      ensures summary == Some(Summary(Tally(statusDraws, Hadir), Tally(statusDraws, Izin), Tally(statusDraws, Alpha)))
    {
      children := [];
      var day := today;
      var hadirCount, izinCount, alphaCount := 0, 0, 0;
      var recordCount := countDraw;
      var i := 1;
      while i <= recordCount
        invariant 1 <= i <= recordCount + 1
        invariant day == today - 7 * (i - 1)
        invariant children == ViewsUpTo(i - 1, recordCount, statusDraws, today)
        invariant hadirCount == Tally(statusDraws[..i - 1], Hadir)
        invariant izinCount == Tally(statusDraws[..i - 1], Izin)
        invariant alphaCount == Tally(statusDraws[..i - 1], Alpha)
      {
        day := day - 7;
        var statusRandom := statusDraws[i - 1];
        var status;
        if statusRandom < 85 {
          hadirCount := hadirCount + 1;
          status := Hadir;
        } else if statusRandom < 95 {
          izinCount := izinCount + 1;
          status := Izin;
        } else {
          alphaCount := alphaCount + 1;
          status := Alpha;
        }
        var itemView := Item(i, day, i, status, StatusTint(status));
        if i < recordCount {
          children := children + [itemView] + [Divider];
        } else {
          children := children + [itemView];
        }
        assert statusDraws[..i][..i - 1] == statusDraws[..i - 1];
        i := i + 1;
      }
      assert statusDraws[..recordCount] == statusDraws;
      summary := Some(Summary(hadirCount, izinCount, alphaCount));
    }

    /**
     * `loadScheduleData`: looks the schedule up; when there is one, fills the
     * header, shows the button as already attended if it is, and generates
     * the history. With no schedule nothing else changes.
     */
    method LoadScheduleData(store: ScheduleStore, fails: bool, countDraw: int, statusDraws: seq<int>, today: int)
      requires Valid() && store.Valid()
      requires RandomDraws(countDraw, statusDraws)
      modifies this
      ensures Valid()
      ensures scheduleId == old(scheduleId)
      ensures schedule == GetScheduleById(store.rows, scheduleId, fails)
      ensures schedule.None? ==>
        details == old(details) && buttonEnabled == old(buttonEnabled) && buttonText == old(buttonText) &&
        children == old(children) && summary == old(summary)
      ensures schedule.Some? ==> details == Some(DetailsOf(schedule.value))
      ensures schedule.Some? && schedule.value.isAttended ==> !buttonEnabled && buttonText == PresensiAlready
      ensures schedule.Some? && !schedule.value.isAttended ==>
        buttonEnabled == old(buttonEnabled) && buttonText == old(buttonText)
      ensures schedule.Some? ==>
        children == ViewsUpTo(countDraw, countDraw, statusDraws, today) &&
        summary == Some(Summary(Tally(statusDraws, Hadir), Tally(statusDraws, Izin), Tally(statusDraws, Alpha)))
    {
      schedule := GetScheduleById(store.rows, scheduleId, fails);
      if schedule.Some? {
        var s := schedule.value;
        details := Some(DetailsOf(s));
        if s.isAttended {
          buttonText := PresensiAlready;
          buttonEnabled := false;
        }
        GenerateAttendanceList(countDraw, statusDraws, today);
      }
    }

    /**
     * `performPresensi`, run by a press of the attend button, which needs the
     * button enabled: with a loaded schedule, marks its row attended at
     * `now` and disables the button; without one, changes nothing. The
     * screen's own copy of the schedule is not reloaded.
     */
    method PerformPresensi(store: ScheduleStore, now: int)
      requires buttonEnabled
      requires Valid() && store.Valid()
      modifies this`buttonEnabled, this`buttonText, store
      ensures Valid() && store.Valid()
      ensures schedule.None? ==>
        store.rows == old(store.rows) && buttonEnabled == old(buttonEnabled) && buttonText == old(buttonText)
      ensures schedule.Some? ==> !buttonEnabled && buttonText == PresensiAlready
      ensures schedule.Some? ==> store.rows.Keys == old(store.rows).Keys
      ensures schedule.Some? && scheduleId in old(store.rows) ==>
        store.rows == old(store.rows)[scheduleId := old(store.rows)[scheduleId].(isAttended := true, attendedAt := Some(now))]
      ensures schedule.Some? && scheduleId !in old(store.rows) ==> store.rows == old(store.rows)
    {
      if schedule.Some? {
        var s := schedule.value;
        store.UpdateAttendance(s.id, true, now);
        buttonText := PresensiAlready;
        buttonEnabled := false;
      }
    }
  }
}
