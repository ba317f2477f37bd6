/**
 * The records the three screens read and write: the schedule and user rows of
 * the embedded store, and the key-value preferences.
 */
module Entities {
  import opened Wrappers
  import opened KotlinText

  /** A weekly class slot; `day` is an Indonesian day name, times are "HH:MM" text. */
  datatype Schedule = Schedule(
    id: int,
    subjectName: string,
    subjectCode: string,
    day: string,
    startTime: string,
    endTime: string,
    room: string,
    dosen: string,
    sks: Int32,
    isAttended: bool,
    attendedAt: Option<int>)

  /**
   * The `status_success`, `status_warning` and `status_error` colour
   * resources, shared by the dashboard's badges and the attendance chips.
   */
  datatype Tint = Success | Warning | Error

  datatype User = User(id: int, name: string, nim: string)

  /** The fields of the preference store that the screens use. */
  datatype Prefs = Prefs(
    isLoggedIn: bool,
    isGuestMode: bool,
    rememberMe: bool,
    savedNim: string,
    userName: string)

  /**
   * The schedule table, keyed by row id. Room's DAO implementation is not part
   * of this model; it is taken to behave as a map whose keys are the rows' ids.
   */
  class ScheduleStore {
    var rows: map<int, Schedule>

    ghost predicate Valid()
      reads this
    {
      forall id :: id in rows ==> rows[id].id == id
    }

    constructor (initial: map<int, Schedule>)
      requires forall id :: id in initial ==> initial[id].id == id
      ensures Valid() && rows == initial
    {
      rows := initial;
    }

    /**
     * `updateAttendance(id, attended, timestamp)`: overwrites the two
     * attendance fields of row `id`; an unknown id affects no row.
     */
    method UpdateAttendance(id: int, attended: bool, timestamp: int)
      requires Valid()
      modifies this
      ensures Valid()
      ensures rows.Keys == old(rows).Keys
      ensures id in rows ==> rows[id] == old(rows)[id].(isAttended := attended, attendedAt := Some(timestamp))
      ensures forall k :: k in rows && k != id ==> rows[k] == old(rows)[k]
    {
      if id in rows {
        rows := rows[id := rows[id].(isAttended := attended, attendedAt := Some(timestamp))];
      }
    }
  }
}
