/** The open/closed life of a timesheet shared by clock-in, clock-out and
    the timesheet list: which rows are a user's open shifts, the invariant
    that a user has at most one, and the floored duration arithmetic. */
module Shifts {
  import opened Common
  import opened Store
  import opened Listing

  /** `WHERE user_id = user AND clock_out_time IS NULL`. */
  function OpenOf(timesheets: map<nat, Timesheet>, user: nat): (ids: set<nat>)
    ensures forall id | id in ids :: id in timesheets && timesheets[id].userId == user && timesheets[id].IsOpen()
    ensures forall id | id in timesheets && timesheets[id].userId == user && timesheets[id].IsOpen() :: id in ids
  {
    set id | id in timesheets && timesheets[id].userId == user && timesheets[id].IsOpen()
  }

  /** No user has two open timesheets. */
  predicate OneOpenPerUser(timesheets: map<nat, Timesheet>)
  {
    forall a, b | a in timesheets && b in timesheets && timesheets[a].IsOpen() && timesheets[b].IsOpen()
                  && timesheets[a].userId == timesheets[b].userId :: a == b
  }

  /** `clock_in_time` as a sort key. */
  function ClockInKey(timesheets: map<nat, Timesheet>): (key: map<nat, Option<int>>)
    ensures forall id | id in timesheets :: id in key && key[id] == Some(timesheets[id].clockInMs)
  {
    map id | id in timesheets :: Some(timesheets[id].clockInMs)
  }

  /** `Math.floor((out - in) / 1000)`: whole seconds between two instants
      given in milliseconds. */
  function DurationSec(inMs: int, outMs: int): (d: int)
    ensures d * 1000 <= outMs - inMs < d * 1000 + 1000
  {
    (outMs - inMs) / 1000
  }

  /** `Math.floor(durationSec / 60)`: whole minutes. */
  function Minutes(sec: int): (m: int)
    ensures m * 60 <= sec < m * 60 + 60
  {
    sec / 60
  }

  /** The location a clock-in or clock-out reply reports. */
  datatype Fix = Fix(lat: int, lng: int, accuracy: Option<int>)

  /** `lat && lng ? { lat, lng, accuracy } : null`. */
  function FixOf(lat: Option<int>, lng: Option<int>, accuracy: Option<int>): (f: Option<Fix>)
    ensures f.Some? <==> Nonzero(lat) && Nonzero(lng)
    ensures f.Some? ==> f.value == Fix(lat.value, lng.value, accuracy)
  {
    if Nonzero(lat) && Nonzero(lng) then Some(Fix(lat.value, lng.value, accuracy)) else None
  }

  /** The location sample a clock-in or clock-out appends for shift `id`:
      one row carrying the reported fix, or none when there is no fix. */
  function Sample(userId: nat, id: nat, fix: Option<Fix>, nowMs: int): (s: seq<LocationUpdate>)
    ensures |s| == 1 <==> fix.Some?
    ensures fix.None? ==> s == []
    ensures fix.Some? ==>
      && s[0].userId == userId && s[0].timesheetId == Some(id) && s[0].recordedAtMs == nowMs
      && s[0].lat == fix.value.lat && s[0].lng == fix.value.lng && s[0].accuracy == fix.value.accuracy
  {
    if fix.Some? then [LocationUpdate(userId, Some(id), fix.value.lat, fix.value.lng, fix.value.accuracy, None, None, None, nowMs)]
    else []
  }

  // ---------------------------------------------------------------------
  // Properties

  lemma OneOpenMeansAtMostOne(timesheets: map<nat, Timesheet>, user: nat)
    requires OneOpenPerUser(timesheets)
    ensures forall a, b | a in OpenOf(timesheets, user) && b in OpenOf(timesheets, user) :: a == b
  {
  }

  /** Opening a shift for a user who has none keeps the invariant, and the
      new row is then that user's only open shift. */
  lemma OpenKeepsOne(timesheets: map<nat, Timesheet>, id: nat, t: Timesheet)
    requires OneOpenPerUser(timesheets) && id !in timesheets
    requires OpenOf(timesheets, t.userId) == {}
    ensures OneOpenPerUser(timesheets[id := t])
    ensures t.IsOpen() ==> OpenOf(timesheets[id := t], t.userId) == {id}
  {
    var after := timesheets[id := t];
    forall a, b | a in after && b in after && after[a].IsOpen() && after[b].IsOpen() && after[a].userId == after[b].userId
      ensures a == b
    {
      if a != id && b != id {
        assert timesheets[a] == after[a] && timesheets[b] == after[b];
      }
    }
    if t.IsOpen() {
      assert id in OpenOf(after, t.userId);
    }
  }

  /** Rewriting a row keeps the invariant as long as the row does not open,
      and does not move an open shift to another user: closing a shift and
      setting its survey flag both qualify. */
  lemma UpdateKeepsOne(timesheets: map<nat, Timesheet>, id: nat, t: Timesheet)
    requires OneOpenPerUser(timesheets) && id in timesheets
    requires t.IsOpen() ==> timesheets[id].IsOpen() && t.userId == timesheets[id].userId
    ensures OneOpenPerUser(timesheets[id := t])
  {
    var after := timesheets[id := t];
    forall a, b | a in after && b in after && after[a].IsOpen() && after[b].IsOpen() && after[a].userId == after[b].userId
      ensures a == b
    {
      assert timesheets[a].IsOpen() && timesheets[b].IsOpen() && timesheets[a].userId == timesheets[b].userId;
    }
  }

  /** The stored minutes and the reported seconds agree:
      `minutes * 60 <= durationSec < (minutes + 1) * 60`, and a shift of
      non-negative length has non-negative duration. */
  lemma DurationAgrees(inMs: int, outMs: int)
    ensures Minutes(DurationSec(inMs, outMs)) * 60000 <= outMs - inMs
    ensures outMs - inMs < Minutes(DurationSec(inMs, outMs)) * 60000 + 60000
    ensures inMs <= outMs ==> 0 <= Minutes(DurationSec(inMs, outMs)) <= DurationSec(inMs, outMs)
  {
    var d := DurationSec(inMs, outMs);
    var m := Minutes(d);
    assert m * 60 * 1000 <= d * 1000;
    assert (d + 1) * 1000 <= (m * 60 + 60) * 1000;
  }
}
