// The booking store: the catalogue, the appointments booked so far and the
// booking session (chosen services, stylist, date and time slot) with the
// actions that update them. Writes to the hosted document store are outcomes
// passed in by the caller.

module Booking {
  import opened Wrappers
  import opened BookingTypes
  import Seqs
  import Clock
  import Slots

  /** The four selections a booking is made of. */
  datatype Session = Session(
    services: seq<Service>, stylist: Option<Stylist>, date: Option<string>, slot: Option<TimeSlot>)

  /** Nothing selected. */
  const NoSelection := Session([], None, None, None)

  /** `createAppointment`'s guard: a stylist, a non-empty date, a slot and at least one service. */
  predicate Bookable(s: Session)
  {
    s.stylist.Some? && s.date.Some? && s.date.value != "" && s.slot.Some? && |s.services| > 0
  }

  /** What `createAppointment` rejects with. */
  datatype BookingError = MissingBookingInformation | PersistenceFailed

  /** `removeService`: every selected service with that id dropped, the rest in order. */
  function WithoutService(selected: seq<Service>, id: string): (r: seq<Service>)
    ensures forall i :: 0 <= i < |r| ==> r[i].id != id
    ensures Seqs.IsSubsequence(r, selected)
  {
    Seqs.FilterIsSubsequence(selected, (s: Service) => s.id != id);
    Seqs.Filter(selected, (s: Service) => s.id != id)
  }

  /** A selected service with id `id`, i.e. `selectedServices.find(s => s.id === id)` is defined. */
  predicate HasService(selected: seq<Service>, id: string)
  {
    exists i :: 0 <= i < |selected| && selected[i].id == id
  }

  /** `removeService` keeps every service with another id. */
  lemma WithoutServiceKeepsOthers(selected: seq<Service>, id: string, s: Service)
    requires s in selected && s.id != id
    ensures s in WithoutService(selected, id)
  {
    var i :| 0 <= i < |selected| && selected[i] == s;
  }

  /**
   * The end time stored with a booking: `d` minutes after the slot time, read back through
   * `toTimeString().slice(0, 5)`; a slot time that is not a clock time gives an invalid Date,
   * whose `toTimeString()` is "Invalid Date", so the slice is "Inval".
   */
  function EndTime(startTime: string, d: nat): (r: string)
    ensures Clock.ParseTime(startTime).Some? ==>
      Clock.ParseTime(r) == Some(Clock.AddMinutes(Clock.ParseTime(startTime).value, d))
    ensures Clock.ParseTime(startTime).None? ==> Clock.ParseTime(r).None?
  {
    match Clock.ParseTime(startTime)
    case Some(m) =>
      Clock.ParseFormat(Clock.AddMinutes(m, d));
      Clock.FormatTime(Clock.AddMinutes(m, d))
    case None => "Inval"
  }

  /** The appointment `createAppointment` builds from a complete session. */
  function NewAppointment(s: Session, id: string, userId: string, notes: Option<string>, createdAt: string): Appointment
    requires Bookable(s)
  {
    TotalsNonNegative(s.services);
    Appointment(
      id, userId, s.stylist.value.id, s.services, s.date.value, s.slot.value.time,
      EndTime(s.slot.value.time, TotalDuration(s.services)),
      TotalDuration(s.services), TotalPrice(s.services), Confirmed, createdAt, notes)
  }

  /**
   * A new appointment is confirmed, belongs to the session's stylist and date, starts at the
   * slot time, carries the session's services and their summed duration and price, and ends
   * that many minutes later on the 24-hour clock.
   */
  lemma NewAppointmentShape(s: Session, id: string, userId: string, notes: Option<string>, createdAt: string)
    requires Bookable(s)
    ensures var a := NewAppointment(s, id, userId, notes, createdAt);
      && a.status == Confirmed && a.id == id && a.userId == userId
      && a.stylistId == s.stylist.value.id && a.date == s.date.value && a.date != ""
      && a.services == s.services && |a.services| > 0
      && a.startTime == s.slot.value.time
      && a.totalDuration == TotalDuration(s.services) >= 0
      && a.totalPrice == TotalPrice(s.services) >= 0
      && (Clock.ParseTime(a.startTime).Some? ==>
            Clock.ParseTime(a.endTime) == Some((Clock.ParseTime(a.startTime).value + a.totalDuration) % Clock.MinutesPerDay))
  {
    TotalsNonNegative(s.services);
    var a := NewAppointment(s, id, userId, notes, createdAt);
    var d := TotalDuration(s.services);
    assert a.endTime == EndTime(a.startTime, d);
    if Clock.ParseTime(a.startTime).Some? {
      var m := Clock.ParseTime(a.startTime).value;
      assert Clock.ParseTime(a.endTime) == Some(Clock.AddMinutes(m, d));
    }
  }

  /** A 90-minute booking at 23:00 ends at 00:30: the end time wraps past midnight. */
  lemma EndTimeWraps()
    ensures EndTime("23:00", 90) == "00:30"
  {
    assert Clock.ParseTime("23:00") == Some(1380);
  }

  /** `cancelAppointment`'s update: every appointment with that id marked cancelled. */
  function CancelById(appointments: seq<Appointment>, id: string): (r: seq<Appointment>)
    ensures |r| == |appointments|
    ensures forall i :: 0 <= i < |r| ==>
      r[i].status == (if appointments[i].id == id then Cancelled else appointments[i].status)
    ensures forall i :: 0 <= i < |r| ==> r[i].(status := appointments[i].status) == appointments[i]
  {
    seq(|appointments|, i requires 0 <= i < |appointments| =>
      if appointments[i].id == id then appointments[i].(status := Cancelled) else appointments[i])
  }

  /** Cancelling twice is cancelling once. */
  lemma CancelIdempotent(appointments: seq<Appointment>, id: string)
    ensures CancelById(CancelById(appointments, id), id) == CancelById(appointments, id)
  {
  }

  /** Cancelling an appointment does not free its time: every slot is blocked exactly as before. */
  lemma CancelKeepsConflicts(appointments: seq<Appointment>, id: string, stylistId: StylistId, date: string, t: int, d: int)
    ensures Slots.HasConflict(CancelById(appointments, id), stylistId, date, t, d) <==>
            Slots.HasConflict(appointments, stylistId, date, t, d)
  {
    var c := CancelById(appointments, id);
    forall i | 0 <= i < |appointments|
      ensures Slots.Blocks(c[i], stylistId, date, t, d) == Slots.Blocks(appointments[i], stylistId, date, t, d)
    {
      Slots.StatusIsIgnored(appointments[i], c[i].status, stylistId, date, t, d);
      assert c[i] == appointments[i].(status := c[i].status);
    }
  }

  /** `stylists.find(s => s.id === stylistId)`: the first stylist with that id. */
  function FindStylist(stylists: seq<Stylist>, id: StylistId): (r: Option<Stylist>)
    ensures r.Some? <==> exists i :: 0 <= i < |stylists| && SameId(stylists[i].id, id)
    ensures r.Some? ==> r.value in stylists && SameId(r.value.id, id)
  {
    if stylists == [] then None
    else if SameId(stylists[0].id, id) then Some(stylists[0])
    else
      var r := FindStylist(stylists[1..], id);
      assert forall i :: 1 <= i < |stylists| ==> stylists[i] == stylists[1..][i - 1];
      r
  }

  /** `totalDuration || 60`: the selected services' total, or an hour when that total is 0. */
  function SlotDuration(selected: seq<Service>): (d: nat)
    ensures d > 0
    ensures TotalDuration(selected) > 0 ==> d == TotalDuration(selected)
  {
    TotalsNonNegative(selected);
    if TotalDuration(selected) == 0 then 60 else TotalDuration(selected)
  }

  /** The stylists the store starts with (rating and experience are not modelled). */
  function SeedStylists(): seq<Stylist>
  {
    [ Stylist(Some(1), "Alex Johnson", "Coloring Expert", "/stylists/alex.jpg", [1, 2, 3, 5, 6], Window("09:00", "18:00")),
      Stylist(Some(2), "Jamie Smith", "Cutting Specialist", "/stylists/jamie.jpg", [2, 3, 4, 6], Window("10:00", "19:00")),
      Stylist(Some(3), "Taylor Wilson", "Styling Professional", "/stylists/taylor.jpg", [1, 3, 4, 5, 6], Window("09:00", "17:00")) ]
  }

  /** The services the store starts with. */
  function SeedServices(): seq<Service>
  {
    [ Service("haircut", "Haircut", 45, 45, "Professional haircut tailored to your style", "/service1.png"),
      Service("color", "Hair Coloring", 95, 120, "Full color application with premium products", "/service2.png"),
      Service("highlights", "Highlights", 110, 150, "Natural-looking highlights for dimension", "/service3.png"),
      Service("treatment", "Hair Treatment", 65, 60, "Deep conditioning and nourishing treatments", "/service4.png"),
      Service("styling", "Styling", 50, 60, "Professional styling for events or daily wear", "/service5.png") ]
  }

  /** A seeded stylist offers 18 half-hour starts on a working day (09:00 to 17:30 for Alex Johnson). */
  lemma SeedWindowSlotCount()
    ensures Slots.WindowOf(SeedStylists()[0].workingHours) == Some((540, 1080))
    ensures Slots.SlotCount(540, 1080) == 18
  {
    assert Clock.ParseTime("09:00") == Some(540);
    assert Clock.ParseTime("18:00") == Some(1080);
  }

  class BookingStore {
    var appointments: seq<Appointment>
    var stylists: seq<Stylist>
    var services: seq<Service>
    var selectedServices: seq<Service>
    var selectedStylist: Option<Stylist>
    var selectedDate: Option<string>
    var selectedTimeSlot: Option<TimeSlot>

    /** The current booking session. */
    function Selection(): Session
      reads this
    {
      Session(selectedServices, selectedStylist, selectedDate, selectedTimeSlot)
    }

    constructor ()
      ensures appointments == [] && stylists == SeedStylists() && services == SeedServices()
      ensures Selection() == NoSelection
    {
      appointments := [];
      stylists := SeedStylists();
      services := SeedServices();
      selectedServices := [];
      selectedStylist := None;
      selectedDate := None;
      selectedTimeSlot := None;
    }

    /** `addService`: appended, even when a service with that id is already selected. */
    method AddService(s: Service)
      modifies this`selectedServices
      ensures selectedServices == old(selectedServices) + [s]
    {
      selectedServices := selectedServices + [s];
    }

    method RemoveService(id: string)
      modifies this`selectedServices
      ensures selectedServices == WithoutService(old(selectedServices), id)
    {
      selectedServices := WithoutService(selectedServices, id);
    }

    method ClearServices()
      modifies this`selectedServices
      ensures selectedServices == []
    {
      selectedServices := [];
    }

    method SelectStylist(stylist: Option<Stylist>)
      modifies this`selectedStylist
      ensures selectedStylist == stylist
    {
      selectedStylist := stylist;
    }

    method SelectDate(date: Option<string>)
      modifies this`selectedDate
      ensures selectedDate == date
    {
      selectedDate := date;
    }

    method SelectTimeSlot(slot: Option<TimeSlot>)
      modifies this`selectedTimeSlot
      ensures selectedTimeSlot == slot
    {
      selectedTimeSlot := slot;
    }

    /**
     * `createAppointment`. `write` is the outcome of persisting the new appointment,
     * `createdAt` the current instant as an ISO string. The chosen slot's availability is
     * not checked again.
     */
    method CreateAppointment(userId: string, notes: Option<string>, createdAt: string, write: AddResult)
      returns (r: Result<Appointment, BookingError>)
      modifies this`appointments, this`selectedServices, this`selectedStylist, this`selectedDate, this`selectedTimeSlot
      ensures !Bookable(old(Selection())) ==> r == Err(MissingBookingInformation)
      ensures Bookable(old(Selection())) && write.AddFailed? ==> r == Err(PersistenceFailed)
      ensures r.Err? ==> appointments == old(appointments) && Selection() == old(Selection())
      ensures Bookable(old(Selection())) && write.Added? ==>
        && r == Ok(NewAppointment(old(Selection()), write.id, userId, notes, createdAt))
        && appointments == old(appointments) + [r.value]
        && Selection() == NoSelection
    {
      var session := Selection();
      if !Bookable(session) {
        return Err(MissingBookingInformation);
      }
      match write
      case AddFailed =>
        return Err(PersistenceFailed);
      case Added(id) =>
        var a := NewAppointment(session, id, userId, notes, createdAt);
        appointments := appointments + [a];
        selectedServices := [];
        selectedStylist := None;
        selectedDate := None;
        selectedTimeSlot := None;
        return Ok(a);
    }

    /** `cancelAppointment`; `writeOk` is the outcome of the status write. */
    method CancelAppointment(id: string, writeOk: bool) returns (ok: bool)
      modifies this`appointments
      ensures ok == writeOk
      ensures appointments == if writeOk then CancelById(old(appointments), id) else old(appointments)
    {
      if !writeOk {
        return false;
      }
      appointments := CancelById(appointments, id);
      return true;
    }

    /**
     * `getStylistAvailability`; `weekday` is the weekday of `date` and `utcOffset` the local
     * zone's offset from UTC in minutes, both as the browser's `Date` sees them. Nothing for an unknown
     * stylist or a missing or empty date; otherwise the generator's slots for the booked
     * appointments and the selected services' duration.
     */
    method GetStylistAvailability(stylistId: StylistId, date: Option<string>, weekday: int, utcOffset: int)
      returns (r: Result<seq<TimeSlot>, Slots.SlotError>)
      ensures FindStylist(stylists, stylistId).None? || date.None? || date.value == "" ==> r == Ok([])
      ensures FindStylist(stylists, stylistId).Some? && date.Some? ==>
        Slots.GeneratedSlots(r, date.value, weekday, FindStylist(stylists, stylistId).value,
                             appointments, SlotDuration(selectedServices), utcOffset)
    {
      var stylist := FindStylist(stylists, stylistId);
      if stylist.None? || date.None? || date.value == "" {
        return Ok([]);
      }
      r := Slots.GenerateTimeSlots(date.value, weekday, stylist.value, appointments, SlotDuration(selectedServices), utcOffset);
    }
  }
}
