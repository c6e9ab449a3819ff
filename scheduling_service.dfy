// Mentor scheduling: the free half-hour slots of a day from the mentor's
// availability windows and existing bookings, and the booking transitions.

module SchedulingServiceModel {
  import opened Common

  const SecondsPerDayOfTime: int := 86400
  /** plusMinutes(30) */
  const SlotStep: int := 30 * 60

  /** A whole number of half hours: the offsets a slot can have from the start of its window. */
  predicate OnHalfHourGrid(seconds: int) {
    seconds % 1800 == 0
  }

  /** A LocalTime, as seconds since midnight. */
  type TimeOfDay = t: int | 0 <= t < 86400

  /** One availability window of the mentor on the requested day of the week. */
  datatype Window = Window(startTime: TimeOfDay, endTime: TimeOfDay)

  // ---------------------------------------------------------------------
  // getAvailableSlots

  /** LocalTime.plusMinutes(30) as written: the time of day wraps around at midnight. */
  function AsWrittenNextSlot(slot: TimeOfDay): TimeOfDay {
    (slot + SlotStep) % SecondsPerDayOfTime
  }

  /** The value of the loop's slot variable after k steps, as written. */
  function AsWrittenSlot(start: TimeOfDay, k: nat): TimeOfDay
    decreases k
  {
    if k == 0 then start else AsWrittenNextSlot(AsWrittenSlot(start, k - 1))
  }

  /** From midnight the wrapping slot only ever takes the 48 half-hour marks of the day. */
  lemma {:induction false} AsWrittenSlotsFromMidnight(k: nat)
    ensures OnHalfHourGrid(AsWrittenSlot(0, k))
    ensures AsWrittenSlot(0, k) <= SecondsPerDayOfTime - SlotStep
    decreases k
  {
    if k > 0 {
      AsWrittenSlotsFromMidnight(k - 1);
      var x := AsWrittenSlot(0, k - 1);
      if x + SlotStep < SecondsPerDayOfTime {
        assert AsWrittenSlot(0, k) == x + SlotStep;
      } else {
        assert AsWrittenSlot(0, k) == 0;
      }
    }
  }

  /**
   * A window from 00:00 to 23:45: every value the wrapping slot takes is
   * before 23:45, so the while loop never ends.
   */
  lemma AsWrittenLoopNeverEnds(k: nat)
    ensures AsWrittenSlot(Window(0, 85500).startTime, k) < Window(0, 85500).endTime
  {
    AsWrittenSlotsFromMidnight(k);
  }

  /** The slots of one window from `slot` on, without wrap-around: every half hour before the end that is not booked. */
  function WindowSlotsFrom(day: Time, slot: int, end: TimeOfDay, bookings: seq<Time>): seq<Time>
    decreases end - slot
  {
    if slot >= end then []
    else (if day + slot in bookings then [] else [day + slot]) + WindowSlotsFrom(day, slot + SlotStep, end, bookings)
  }

  /** Every slot of a window from `slot` on lies before its end, on the half-hour grid from `slot`, and is not booked. */
  lemma {:induction false} WindowSlotLiesInWindow(day: Time, slot: int, end: TimeOfDay, bookings: seq<Time>, t: Time)
    requires t in WindowSlotsFrom(day, slot, end, bookings)
    ensures day + slot <= t < day + end && OnHalfHourGrid(t - day - slot) && t !in bookings
    decreases end - slot
  {
    if t != day + slot || day + slot in bookings {
      WindowSlotLiesInWindow(day, slot + SlotStep, end, bookings, t);
      assert t - day - slot == (t - day - (slot + SlotStep)) + SlotStep;
    }
  }

  /** Every half-hour mark of the window that is free is one of its slots. */
  lemma {:induction false} EveryFreeMarkIsASlot(day: Time, slot: int, end: TimeOfDay, bookings: seq<Time>, k: nat)
    requires slot + k * SlotStep < end && day + slot + k * SlotStep !in bookings
    ensures day + slot + k * SlotStep in WindowSlotsFrom(day, slot, end, bookings)
    decreases k
  {
    if k > 0 {
      EveryFreeMarkIsASlot(day, slot + SlotStep, end, bookings, k - 1);
    }
  }

  /** The slots of all windows, window by window in order. */
  function AllSlots(day: Time, windows: seq<Window>, bookings: seq<Time>): (r: seq<Time>)
    decreases |windows|
  {
    if windows == [] then []
    else AllSlots(day, windows[..|windows| - 1], bookings)
         + WindowSlotsFrom(day, windows[|windows| - 1].startTime, windows[|windows| - 1].endTime, bookings)
  }

  /** Each slot lies in [start, end) of some window, on its half-hour grid, and is not a booked start. */
  lemma {:induction false} SlotsLieInWindows(day: Time, windows: seq<Window>, bookings: seq<Time>, t: Time)
    requires t in AllSlots(day, windows, bookings)
    ensures t !in bookings
    ensures exists w :: 0 <= w < |windows| && day + windows[w].startTime <= t < day + windows[w].endTime
                        && OnHalfHourGrid(t - day - windows[w].startTime)
    decreases |windows|
  {
    var n := |windows| - 1;
    var front := windows[..n];
    if t in AllSlots(day, front, bookings) {
      SlotsLieInWindows(day, front, bookings, t);
      var w :| 0 <= w < |front| && day + front[w].startTime <= t < day + front[w].endTime
               && OnHalfHourGrid(t - day - front[w].startTime);
      assert windows[w] == front[w];
    } else {
      WindowSlotLiesInWindow(day, windows[n].startTime, windows[n].endTime, bookings, t);
    }
  }

  /** One turn of the inner loop: the mark at `slot` is added when free, and the rest of the window follows. */
  lemma CollectStep(day: Time, slot: int, end: TimeOfDay, bookings: seq<Time>, slots: seq<Time>, total: seq<Time>)
    requires slot < end
    requires slots + WindowSlotsFrom(day, slot, end, bookings) == total
    ensures day + slot in bookings ==> slots + WindowSlotsFrom(day, slot + SlotStep, end, bookings) == total
    ensures day + slot !in bookings ==> (slots + [day + slot]) + WindowSlotsFrom(day, slot + SlotStep, end, bookings) == total
  {
    var rest := WindowSlotsFrom(day, slot + SlotStep, end, bookings);
    if day + slot in bookings {
      assert WindowSlotsFrom(day, slot, end, bookings) == rest;
    } else {
      assert WindowSlotsFrom(day, slot, end, bookings) == [day + slot] + rest;
      assert (slots + [day + slot]) + rest == slots + ([day + slot] + rest);
    }
  }

  /** The inner loop over one window. */
  method CollectWindow(day: Time, w: Window, bookings: seq<Time>) returns (slots: seq<Time>)
    ensures slots == WindowSlotsFrom(day, w.startTime, w.endTime, bookings)
  {
    slots := [];
    var slot: int := w.startTime;
    while slot < w.endTime
      invariant slots + WindowSlotsFrom(day, slot, w.endTime, bookings) == WindowSlotsFrom(day, w.startTime, w.endTime, bookings)
      decreases w.endTime - slot
    {
      CollectStep(day, slot, w.endTime, bookings, slots, WindowSlotsFrom(day, w.startTime, w.endTime, bookings));
      var isBooked := day + slot in bookings;
      if !isBooked {
        slots := slots + [day + slot];
      }
      slot := slot + SlotStep;
    }
  }

  /**
   * getAvailableSlots with the slot stepping stopped at the end of the day
   * instead of wrapping: for each window, every half hour from its start up
   * to its end that no booking starts at, on the given day.
   */
  method GetAvailableSlots(day: Time, windows: seq<Window>, bookings: seq<Time>) returns (slots: seq<Time>)
    ensures slots == AllSlots(day, windows, bookings)
  {
    slots := [];
    var i := 0;
    while i < |windows|
      invariant 0 <= i <= |windows|
      invariant slots == AllSlots(day, windows[..i], bookings)
    {
      var ws := CollectWindow(day, windows[i], bookings);
      assert windows[..i + 1][..i] == windows[..i];
      slots := slots + ws;
      i := i + 1;
    }
    assert windows[..|windows|] == windows;
  }

  // ---------------------------------------------------------------------
  // Bookings

  /** The statuses the service uses; the enum's own file is not part of this model. */
  datatype BookingStatus = Requested | Confirmed | Cancelled

  datatype Booking = Booking(
    mentee: UserId,
    mentor: UserId,
    startTime: Time,
    endTime: Time,
    bookingTime: Time,
    status: BookingStatus,
    cancellationReason: Option<string>)

  const NotFoundForMentor: string := "Booking not found or you are not the mentor for this booking."

  /** The booking store, with the ids the repository hands out. */
  class BookingService {
    var bookings: map<nat, Booking>
    var nextId: nat

    /** Every stored booking has an id below the next one. */
    ghost predicate Valid()
      reads this
    {
      forall id :: id in bookings ==> id < nextId
    }

    constructor ()
      ensures Valid() && bookings == map[] && nextId == 0
    {
      bookings := map[];
      nextId := 0;
    }

    /**
     * requestBooking: "Mentor not found" when the user repository does not
     * know the mentor; otherwise a new REQUESTED booking that ends
     * durationMinutes after its start. The known user ids stand for the
     * user repository.
     */
    method RequestBooking(knownUsers: set<UserId>, mentee: UserId, mentor: UserId, startTime: Time, durationMinutes: int, now: Time)
      returns (r: Outcome<nat>)
      requires Valid()
      modifies this
      ensures Valid()
      ensures r.Fail? <==> mentor !in knownUsers
      ensures r.Fail? ==> r.message == "Mentor not found" && bookings == old(bookings) && nextId == old(nextId)
      ensures r.Ok? ==> r.value == old(nextId) && r.value !in old(bookings)
      ensures r.Ok? ==> bookings == old(bookings)[r.value := Booking(mentee, mentor, startTime, startTime + durationMinutes * SecondsPerMinute, now, Requested, None)]
      ensures r.Ok? ==> nextId == old(nextId) + 1
    {
      if mentor !in knownUsers {
        return Fail("Mentor not found");
      }
      var id := nextId;
      bookings := bookings[id := Booking(mentee, mentor, startTime, startTime + durationMinutes * SecondsPerMinute, now, Requested, None)];
      nextId := nextId + 1;
      return Ok(id);
    }

    /** confirmBooking: only the booking's mentor, and only from REQUESTED. */
    method ConfirmBooking(id: nat, mentor: UserId) returns (r: Outcome<Booking>)
      modifies this`bookings
      ensures r.Ok? <==> id in old(bookings) && old(bookings)[id].mentor == mentor && old(bookings)[id].status == Requested
      ensures r.Ok? ==> r.value == old(bookings)[id].(status := Confirmed) && bookings == old(bookings)[id := r.value]
      ensures !(id in old(bookings) && old(bookings)[id].mentor == mentor) ==> r == Fail(NotFoundForMentor)
      ensures id in old(bookings) && old(bookings)[id].mentor == mentor && old(bookings)[id].status != Requested ==>
                r == Fail("Only requested bookings can be confirmed.")
      ensures r.Fail? ==> bookings == old(bookings)
    {
      if id !in bookings || bookings[id].mentor != mentor {
        return Fail(NotFoundForMentor);
      }
      var b := bookings[id];
      if b.status != Requested {
        return Fail("Only requested bookings can be confirmed.");
      }
      var confirmed := b.(status := Confirmed);
      bookings := bookings[id := confirmed];
      return Ok(confirmed);
    }

    /** cancelBooking: the mentee or the mentor may cancel, whatever the current status. */
    method CancelBooking(id: nat, user: UserId, reason: string) returns (r: Outcome<Booking>)
      modifies this`bookings
      ensures r.Ok? <==> id in old(bookings) && (old(bookings)[id].mentee == user || old(bookings)[id].mentor == user)
      ensures r.Ok? ==> r.value == old(bookings)[id].(status := Cancelled, cancellationReason := Some(reason))
                        && bookings == old(bookings)[id := r.value]
      ensures id !in old(bookings) ==> r == Fail("Booking not found")
      ensures id in old(bookings) && r.Fail? ==> r.message == "You are not authorized to cancel this booking."
      ensures r.Fail? ==> bookings == old(bookings)
    {
      if id !in bookings {
        return Fail("Booking not found");
      }
      var b := bookings[id];
      if b.mentee != user && b.mentor != user {
        return Fail("You are not authorized to cancel this booking.");
      }
      var cancelled := b.(status := Cancelled, cancellationReason := Some(reason));
      bookings := bookings[id := cancelled];
      return Ok(cancelled);
    }
  }

  /** A booking is confirmed at most once: the second confirmation fails and changes nothing. */
  method ConfirmTwice(s: BookingService, id: nat, mentor: UserId) returns (first: Outcome<Booking>, second: Outcome<Booking>)
    modifies s
    ensures second.Fail?
  {
    first := s.ConfirmBooking(id, mentor);
    second := s.ConfirmBooking(id, mentor);
  }
}
