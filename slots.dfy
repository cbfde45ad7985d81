// The appointment catalogue types of the booking store and its availability
// engine: for one stylist and one date, the half-hourly candidate start times
// inside the working window, each flagged unavailable when it collides with an
// appointment already booked for that stylist on that date.

module BookingTypes {
  import opened Wrappers
  import Seqs

  /** A stylist id is a JavaScript number; None stands for NaN (an id `parseInt` could not read). */
  type StylistId = Option<int>

  /** `a === b` on stylist ids: NaN equals nothing, itself included. */
  predicate SameId(a: StylistId, b: StylistId)
  {
    a.Some? && a == b
  }

  /** A bookable service; the price is in whole currency units, the duration in minutes. */
  datatype Service = Service(
    id: string, name: string, price: nat, duration: nat, description: string, image: string)

  /**
   * The daily working window. The seeded stylists carry a `{start, end}` record;
   * stylists read back from the document store carry a list instead.
   */
  datatype WorkingHours = Window(start: string, end: string) | Listed(hours: seq<string>)

  datatype Stylist = Stylist(
    id: StylistId, name: string, specialty: string, image: string,
    availableDays: seq<int>, workingHours: WorkingHours)

  datatype Status = Confirmed | Cancelled | Completed | NoShow

  datatype Appointment = Appointment(
    id: string, userId: string, stylistId: StylistId, services: seq<Service>,
    date: string, startTime: string, endTime: string,
    totalDuration: int, totalPrice: int, status: Status,
    createdAt: string, notes: Option<string>)

  datatype TimeSlot = TimeSlot(id: string, time: string, available: bool)

  /** `services.reduce((sum, s) => sum + s.duration, 0)`. */
  function TotalDuration(services: seq<Service>): int
  {
    Seqs.Sum(services, (s: Service) => s.duration)
  }

  /** `services.reduce((sum, s) => sum + s.price, 0)`. */
  function TotalPrice(services: seq<Service>): int
  {
    Seqs.Sum(services, (s: Service) => s.price)
  }

  lemma TotalsNonNegative(services: seq<Service>)
    ensures TotalDuration(services) >= 0 && TotalPrice(services) >= 0
  {
    Seqs.SumNonNegative(services, (s: Service) => s.duration);
    Seqs.SumNonNegative(services, (s: Service) => s.price);
  }
}

module Slots {
  import opened Wrappers
  import opened BookingTypes
  import Clock

  /** Candidate start times are this many minutes apart. */
  const SlotStep: nat := 30
  // Products below are written `30 * k` so that the solver sees linear arithmetic.

  /** What `generateTimeSlots` throws: the stylist has no `{start, end}` working window. */
  datatype SlotError = WorkingHoursMissing

  /** The collision test as written: three disjuncts over [slotStart, slotEnd) and [aStart, aEnd]. */
  predicate ThreeWayOverlap(slotStart: int, slotEnd: int, aStart: int, aEnd: int)
  {
    || (slotStart >= aStart && slotStart < aEnd)
    || (slotEnd > aStart && slotEnd <= aEnd)
    || (slotStart <= aStart && slotEnd >= aEnd)
  }

  /** Half-open intervals [s1, e1) and [s2, e2) share a minute. */
  predicate HalfOpenOverlap(s1: int, e1: int, s2: int, e2: int)
  {
    s1 < e2 && e1 > s2
  }

  /**
   * An existing appointment blocks the slot starting at minute `t` and lasting `d` minutes.
   * Only the stylist and the date are compared; the status is not looked at. A start or
   * end time that does not parse is an invalid Date, and every comparison with it is false.
   */
  predicate Blocks(a: Appointment, stylistId: StylistId, date: string, t: int, d: int)
  {
    && SameId(a.stylistId, stylistId)
    && a.date == date
    && Clock.ParseTime(a.startTime).Some?
    && Clock.ParseTime(a.endTime).Some?
    && ThreeWayOverlap(t, t + d, Clock.ParseTime(a.startTime).value, Clock.ParseTime(a.endTime).value)
  }

  /** `existingAppointments.some(...)`. */
  predicate HasConflict(existing: seq<Appointment>, stylistId: StylistId, date: string, t: int, d: int)
  {
    exists i :: 0 <= i < |existing| && Blocks(existing[i], stylistId, date, t, d)
  }

  /** The working window in minutes, when it is a `{start, end}` record of two valid times. */
  function WindowOf(hours: WorkingHours): (w: Option<(nat, nat)>)
    ensures w.Some? ==> w.value.0 < Clock.MinutesPerDay && w.value.1 < Clock.MinutesPerDay
    ensures w.Some? ==> hours.Window?
  {
    match hours
    case Window(start, end) =>
      if Clock.ParseTime(start).Some? && Clock.ParseTime(end).Some? then
        Some((Clock.ParseTime(start).value, Clock.ParseTime(end).value))
      else None
    case Listed(_) => None
  }

  /** Number of starts `start, start + 30, ...` strictly before `end`. */
  function SlotCount(start: int, end: int): (n: nat)
    ensures start < end ==> 30 * (n - 1) < end - start <= 30 * n
    ensures end <= start ==> n == 0
  {
    if start < end then (end - start + SlotStep - 1) / SlotStep else 0
  }

  /**
   * Where the slots' day begins on the clock the appointments are read on, in minutes.
   * `new Date(date)` is midnight UTC, and `setHours` moves within the local day that instant
   * falls on: `date` itself at a UTC offset of zero or more, the day before west of UTC.
   * Appointment times, ``new Date(`${date} ${time}`)``, are read on `date` in local time.
   */
  function SlotOrigin(utcOffset: int): int
  {
    if utcOffset < 0 then 0 - Clock.MinutesPerDay as int else 0
  }

  /**
   * The slot emitted for start minute `t` (local time). `utcOffset` is the local zone's
   * offset from UTC in minutes, positive east of Greenwich.
   */
  function SlotAt(date: string, stylist: Stylist, existing: seq<Appointment>, duration: int, utcOffset: int, t: nat): TimeSlot
    requires t < Clock.MinutesPerDay
  {
    var time := Clock.FormatTime(t);
    TimeSlot(date + "-" + time, time, !HasConflict(existing, stylist.id, date, SlotOrigin(utcOffset) + t, duration))
  }

  /** Slots with distinct start times have distinct ids. */
  lemma SlotIdsDiffer(date: string, stylist: Stylist, existing: seq<Appointment>, duration: int, utcOffset: int, t1: nat, t2: nat)
    requires t1 < Clock.MinutesPerDay && t2 < Clock.MinutesPerDay && t1 != t2
    ensures SlotAt(date, stylist, existing, duration, utcOffset, t1).id != SlotAt(date, stylist, existing, duration, utcOffset, t2).id
  {
    Clock.FormatInjective(t1, t2);
    PrefixedDiffer(date + "-", Clock.FormatTime(t1), Clock.FormatTime(t2));
  }

  /** The slots of a window: the `k`-th starts `30 * k` minutes after `start`, and all start before `end`. */
  function WindowSlotList(date: string, stylist: Stylist, existing: seq<Appointment>, duration: int, utcOffset: int, start: nat, end: nat)
    : (r: seq<TimeSlot>)
    requires end <= Clock.MinutesPerDay
    ensures |r| == SlotCount(start, end)
  {
    seq(SlotCount(start, end), k requires 0 <= k < SlotCount(start, end) =>
      SlotAt(date, stylist, existing, duration, utcOffset, start + 30 * k))
  }

  /** `slots` are the slots of the window from `start` to `end`. */
  ghost predicate WindowSlots(slots: seq<TimeSlot>, date: string, stylist: Stylist, existing: seq<Appointment>,
                              duration: int, utcOffset: int, start: nat, end: nat)
  {
    end <= Clock.MinutesPerDay && slots == WindowSlotList(date, stylist, existing, duration, utcOffset, start, end)
  }

  /** The while loop of `generateTimeSlots` (bookinStore.ts:97-122). */
  method EnumerateSlots(date: string, stylist: Stylist, existing: seq<Appointment>, duration: int, utcOffset: int, start: nat, end: nat)
    returns (slots: seq<TimeSlot>)
    requires end <= Clock.MinutesPerDay
    ensures WindowSlots(slots, date, stylist, existing, duration, utcOffset, start, end)
  {
    slots := [];
    var current: nat := start;
    while current < end
      invariant current == start + 30 * |slots|
      invariant |slots| > 0 ==> current - SlotStep < end
      invariant forall k :: 0 <= k < |slots| ==>
        start + 30 * k < end && slots[k] == SlotAt(date, stylist, existing, duration, utcOffset, start + 30 * k)
      decreases end - current
    {
      var slot := SlotAt(date, stylist, existing, duration, utcOffset, current);
      PushSlot(slots, slot, date, stylist, existing, duration, utcOffset, start, end, current);
      slots := slots + [slot];
      current := current + SlotStep;
    }
    if start < end {
      var n := SlotCount(start, end);
      assert 30 * (|slots| - 1) < end - start <= 30 * |slots|;
      assert 30 * (n - 1) < end - start <= 30 * n;
    }
    assert |slots| == SlotCount(start, end);
    WindowSlotsIntro(slots, date, stylist, existing, duration, utcOffset, start, end);
  }

  /** Appending the slot for the next start keeps a prefix of the window a prefix of the window. */
  lemma PushSlot(slots: seq<TimeSlot>, slot: TimeSlot, date: string, stylist: Stylist, existing: seq<Appointment>,
                 duration: int, utcOffset: int, start: nat, end: nat, t: nat)
    requires end <= Clock.MinutesPerDay && t == start + 30 * |slots| && t < end
    requires slot == SlotAt(date, stylist, existing, duration, utcOffset, t)
    requires forall k :: 0 <= k < |slots| ==>
      start + 30 * k < end && slots[k] == SlotAt(date, stylist, existing, duration, utcOffset, start + 30 * k)
    ensures forall k :: 0 <= k < |slots + [slot]| ==>
      start + 30 * k < end && (slots + [slot])[k] == SlotAt(date, stylist, existing, duration, utcOffset, start + 30 * k)
  {
    forall k | 0 <= k < |slots + [slot]|
      ensures start + 30 * k < end && (slots + [slot])[k] == SlotAt(date, stylist, existing, duration, utcOffset, start + 30 * k)
    {
      if k < |slots| {
        assert (slots + [slot])[k] == slots[k];
      }
    }
  }

  /** A list of the window's length whose `k`-th slot starts at `start + 30 * k` is the window's list. */
  lemma WindowSlotsIntro(slots: seq<TimeSlot>, date: string, stylist: Stylist, existing: seq<Appointment>,
                         duration: int, utcOffset: int, start: nat, end: nat)
    requires end <= Clock.MinutesPerDay && |slots| == SlotCount(start, end)
    requires forall k :: 0 <= k < |slots| ==>
      start + 30 * k < end && slots[k] == SlotAt(date, stylist, existing, duration, utcOffset, start + 30 * k)
    ensures WindowSlots(slots, date, stylist, existing, duration, utcOffset, start, end)
  {
    var w := WindowSlotList(date, stylist, existing, duration, utcOffset, start, end);
    forall k | 0 <= k < |slots|
      ensures slots[k] == w[k]
    {
    }
  }

  /** The slot for start minute `t` shows `t` as its time, which reads back as `t`. */
  lemma SlotAtTime(date: string, stylist: Stylist, existing: seq<Appointment>, duration: int, utcOffset: int, t: nat)
    requires t < Clock.MinutesPerDay
    ensures SlotAt(date, stylist, existing, duration, utcOffset, t).time == Clock.FormatTime(t)
    ensures Clock.ParseTime(SlotAt(date, stylist, existing, duration, utcOffset, t).time) == Some(t)
  {
    Clock.ParseFormat(t);
  }

  /** The `k`-th slot of a window is the slot for minute `start + 30 * k`, which lies inside the day. */
  lemma WindowSlotAt(slots: seq<TimeSlot>, date: string, stylist: Stylist, existing: seq<Appointment>,
                     duration: int, utcOffset: int, start: nat, end: nat, k: int)
    requires WindowSlots(slots, date, stylist, existing, duration, utcOffset, start, end)
    requires 0 <= k < |slots|
    ensures start + 30 * k < Clock.MinutesPerDay
    ensures slots[k] == SlotAt(date, stylist, existing, duration, utcOffset, start + 30 * k)
  {
  }

  /** The `k`-th slot of a window reads back as start minute `start + 30 * k`. */
  lemma WindowSlotTime(slots: seq<TimeSlot>, date: string, stylist: Stylist,
                       existing: seq<Appointment>, duration: int, utcOffset: int, start: nat, end: nat, k: int)
    requires WindowSlots(slots, date, stylist, existing, duration, utcOffset, start, end)
    requires 0 <= k < |slots|
    ensures Clock.ParseTime(slots[k].time) == Some(start + 30 * k)
  {
    WindowSlotAt(slots, date, stylist, existing, duration, utcOffset, start, end, k);
    SlotAtTime(date, stylist, existing, duration, utcOffset, start + 30 * k);
  }

  /** Within one window the start times strictly increase. */
  lemma WindowSlotTimesIncrease(slots: seq<TimeSlot>, date: string, stylist: Stylist,
                                existing: seq<Appointment>, duration: int, utcOffset: int, start: nat, end: nat, i: int, j: int)
    requires WindowSlots(slots, date, stylist, existing, duration, utcOffset, start, end)
    requires 0 <= i < j < |slots|
    ensures Clock.ParseTime(slots[i].time) == Some(start + 30 * i)
    ensures Clock.ParseTime(slots[j].time) == Some(start + 30 * j)
    ensures start + 30 * i < start + 30 * j
  {
    WindowSlotTime(slots, date, stylist, existing, duration, utcOffset, start, end, i);
    WindowSlotTime(slots, date, stylist, existing, duration, utcOffset, start, end, j);
  }

  /** Two different slots of one window have different ids. */
  lemma WindowSlotIdsDiffer(slots: seq<TimeSlot>, date: string, stylist: Stylist,
                            existing: seq<Appointment>, duration: int, utcOffset: int, start: nat, end: nat, i: int, j: int)
    requires WindowSlots(slots, date, stylist, existing, duration, utcOffset, start, end)
    requires 0 <= i < j < |slots|
    ensures slots[i].id != slots[j].id
  {
    WindowSlotTimesIncrease(slots, date, stylist, existing, duration, utcOffset, start, end, i, j);
    WindowSlotId(slots, date, stylist, existing, duration, utcOffset, start, end, i);
    WindowSlotId(slots, date, stylist, existing, duration, utcOffset, start, end, j);
    PrefixedDiffer(date + "-", slots[i].time, slots[j].time);
  }

  /** A slot's id is its date, a dash and its time. */
  lemma WindowSlotId(slots: seq<TimeSlot>, date: string, stylist: Stylist,
                     existing: seq<Appointment>, duration: int, utcOffset: int, start: nat, end: nat, k: int)
    requires WindowSlots(slots, date, stylist, existing, duration, utcOffset, start, end)
    requires 0 <= k < |slots|
    ensures slots[k].id == date + "-" + slots[k].time
  {
    WindowSlotAt(slots, date, stylist, existing, duration, utcOffset, start, end, k);
  }

  /** Different strings stay different behind a common prefix. */
  lemma PrefixedDiffer(p: string, a: string, b: string)
    requires a != b
    ensures p + a != p + b
  {
    assert a == (p + a)[|p|..] && b == (p + b)[|p|..];
  }

  /** Within one window every slot id is different. */
  lemma WindowSlotIdsDistinct(slots: seq<TimeSlot>, date: string, stylist: Stylist,
                              existing: seq<Appointment>, duration: int, utcOffset: int, start: nat, end: nat)
    requires WindowSlots(slots, date, stylist, existing, duration, utcOffset, start, end)
    ensures forall i, j :: 0 <= i < j < |slots| ==> slots[i].id != slots[j].id
  {
    forall i, j | 0 <= i < j < |slots|
      ensures slots[i].id != slots[j].id
    {
      WindowSlotIdsDiffer(slots, date, stylist, existing, duration, utcOffset, start, end, i, j);
    }
  }

  /**
   * What `generateTimeSlots` returns: nothing for an empty date or a day the stylist does
   * not work (whatever the appointments); a TypeError for a stylist without a `{start, end}`
   * window; nothing when the window's times are invalid Dates; otherwise the window's slots.
   */
  ghost predicate GeneratedSlots(r: Result<seq<TimeSlot>, SlotError>, date: string, weekday: int, stylist: Stylist,
                                 existing: seq<Appointment>, duration: int, utcOffset: int)
  {
    if date == "" || weekday !in stylist.availableDays then r == Ok([])
    else if stylist.workingHours.Listed? then r == Err(WorkingHoursMissing)
    else if WindowOf(stylist.workingHours).None? then r == Ok([])
    else
      var (start, end) := WindowOf(stylist.workingHours).value;
      r.Ok? && WindowSlots(r.value, date, stylist, existing, duration, utcOffset, start, end)
  }

  /**
   * `generateTimeSlots` (bookinStore.ts:75-125). `weekday` is the weekday of `date`
   * (0 = Sunday) as the caller's `Date` reports it, and `utcOffset` the local zone's offset
   * from UTC in minutes.
   */
  method GenerateTimeSlots(date: string, weekday: int, stylist: Stylist, existing: seq<Appointment>, duration: int, utcOffset: int)
    returns (r: Result<seq<TimeSlot>, SlotError>)
    ensures GeneratedSlots(r, date, weekday, stylist, existing, duration, utcOffset)
    ensures date == "" || weekday !in stylist.availableDays ==> r == Ok([])
    ensures r.Ok? ==> forall i, j :: 0 <= i < j < |r.value| ==> r.value[i].id != r.value[j].id
  {
    if date == "" || weekday !in stylist.availableDays {
      return Ok([]);
    }
    if stylist.workingHours.Listed? {
      return Err(WorkingHoursMissing);
    }
    var w := WindowOf(stylist.workingHours);
    if w.None? {
      return Ok([]);
    }
    var slots := EnumerateSlots(date, stylist, existing, duration, utcOffset, w.value.0, w.value.1);
    WindowSlotIdsDistinct(slots, date, stylist, existing, duration, utcOffset, w.value.0, w.value.1);
    return Ok(slots);
  }

  /**
   * The last slot is the last start before the window's end, whatever the duration: a
   * 60-minute booking may be offered 30 minutes before closing.
   */
  lemma LastSlotNotClipped(slots: seq<TimeSlot>, date: string, stylist: Stylist,
                           existing: seq<Appointment>, duration: int, utcOffset: int, start: nat, end: nat)
    requires WindowSlots(slots, date, stylist, existing, duration, utcOffset, start, end)
    requires start < end
    ensures |slots| > 0
    ensures end - SlotStep <= start + 30 * (|slots| - 1) < end
    ensures Clock.ParseTime(slots[|slots| - 1].time) == Some(start + 30 * (|slots| - 1))
  {
    WindowSlotTime(slots, date, stylist, existing, duration, utcOffset, start, end, |slots| - 1);
  }

  /**
   * West of UTC the slots lie on the day before their date, so a slot that ends before
   * midnight starts and ends before every appointment of its date and never collides.
   */
  lemma WestOfUtcNeverBlocks(existing: seq<Appointment>, stylistId: StylistId, date: string, t: int, d: int)
    requires t < Clock.MinutesPerDay && t + d < Clock.MinutesPerDay
    ensures !HasConflict(existing, stylistId, date, t - Clock.MinutesPerDay, d)
  {
    forall i | 0 <= i < |existing|
      ensures !Blocks(existing[i], stylistId, date, t - Clock.MinutesPerDay, d)
    {
    }
  }

  /**
   * A slot's availability: at a UTC offset of zero or more it is free exactly when no
   * appointment of the stylist on that date collides with it; west of UTC every slot that
   * ends before midnight is shown as free, whatever is booked.
   */
  lemma WindowSlotAvailable(slots: seq<TimeSlot>, date: string, stylist: Stylist, existing: seq<Appointment>,
                            duration: int, utcOffset: int, start: nat, end: nat, k: int)
    requires WindowSlots(slots, date, stylist, existing, duration, utcOffset, start, end)
    requires 0 <= k < |slots|
    ensures utcOffset >= 0 ==>
      (slots[k].available <==> !HasConflict(existing, stylist.id, date, start + 30 * k, duration))
    ensures utcOffset < 0 && start + 30 * k + duration < Clock.MinutesPerDay ==> slots[k].available
  {
    WindowSlotAt(slots, date, stylist, existing, duration, utcOffset, start, end, k);
    if utcOffset < 0 && start + 30 * k + duration < Clock.MinutesPerDay {
      WestOfUtcNeverBlocks(existing, stylist.id, date, start + 30 * k, duration);
    }
  }

  /**
   * The three-way test agrees with half-open interval overlap whenever the slot has a
   * positive length and the appointment ends after it starts.
   */
  lemma ThreeWayIsHalfOpen(slotStart: int, d: int, aStart: int, aEnd: int)
    requires d > 0 && aStart < aEnd
    ensures ThreeWayOverlap(slotStart, slotStart + d, aStart, aEnd) <==> HalfOpenOverlap(slotStart, slotStart + d, aStart, aEnd)
  {
  }

  /**
   * An appointment whose end time wrapped past midnight (23:00 to 00:30) makes the two
   * tests disagree: the three-way test blocks a 00:00-01:00 slot the half-open test keeps.
   */
  lemma WrappedEndDiffers()
    ensures ThreeWayOverlap(0, 60, 1380, 30) && !HalfOpenOverlap(0, 60, 1380, 30)
  {
  }

  /** Well-formed appointments block a slot exactly when their intervals overlap it. */
  lemma {:induction false} ConflictIsOverlap(existing: seq<Appointment>, stylistId: StylistId, date: string, t: int, d: int)
    requires d > 0
    requires forall i :: 0 <= i < |existing| && Clock.IsTime(existing[i].startTime) && Clock.IsTime(existing[i].endTime) ==>
      Clock.ParseTime(existing[i].startTime).value < Clock.ParseTime(existing[i].endTime).value
    ensures HasConflict(existing, stylistId, date, t, d) <==>
      exists i :: 0 <= i < |existing| && Overlapping(existing[i], stylistId, date, t, d)
  {
    forall i | 0 <= i < |existing|
      ensures Blocks(existing[i], stylistId, date, t, d) <==> Overlapping(existing[i], stylistId, date, t, d)
    {
      var a := existing[i];
      if Clock.ParseTime(a.startTime).Some? && Clock.ParseTime(a.endTime).Some? {
        ThreeWayIsHalfOpen(t, d, Clock.ParseTime(a.startTime).value, Clock.ParseTime(a.endTime).value);
      }
    }
  }

  /** The same-stylist, same-date appointment `a` occupies a minute of [t, t + d). */
  predicate Overlapping(a: Appointment, stylistId: StylistId, date: string, t: int, d: int)
  {
    && SameId(a.stylistId, stylistId)
    && a.date == date
    && Clock.ParseTime(a.startTime).Some?
    && Clock.ParseTime(a.endTime).Some?
    && HalfOpenOverlap(t, t + d, Clock.ParseTime(a.startTime).value, Clock.ParseTime(a.endTime).value)
  }

  /** Appointments of other stylists or other dates never block a slot. */
  lemma OnlySameStylistAndDate(existing: seq<Appointment>, others: seq<Appointment>, stylistId: StylistId, date: string, t: int, d: int)
    requires forall i :: 0 <= i < |others| ==> !SameId(others[i].stylistId, stylistId) || others[i].date != date
    ensures HasConflict(existing + others, stylistId, date, t, d) <==> HasConflict(existing, stylistId, date, t, d)
  {
    if HasConflict(existing + others, stylistId, date, t, d) {
      var i :| 0 <= i < |existing + others| && Blocks((existing + others)[i], stylistId, date, t, d);
      assert i < |existing|;
      assert Blocks(existing[i], stylistId, date, t, d);
    }
    if HasConflict(existing, stylistId, date, t, d) {
      var i :| 0 <= i < |existing| && Blocks(existing[i], stylistId, date, t, d);
      assert (existing + others)[i] == existing[i];
    }
  }

  /** Whether an appointment blocks a slot depends on everything but its status. */
  lemma StatusIsIgnored(a: Appointment, s: Status, stylistId: StylistId, date: string, t: int, d: int)
    ensures Blocks(a.(status := s), stylistId, date, t, d) == Blocks(a, stylistId, date, t, d)
  {
  }
}
