// The routed booking screen: its own step counter with the same reset effect
// as the booking-flow hook, the confirmation panel, and the normalisation of
// the service and stylist records read from the document store.

module BookingScreen {
  import opened Wrappers
  import opened BookingTypes
  import opened Booking
  import opened BookingFlow
  import Text
  import Slots

  /** The screen's `step` and `showConfirmation` state over the booking store. */
  class EnhancedBooking {
    var step: int
    var showConfirmation: bool
    const store: BookingStore

    /** Step 1 is always on screen unless the confirmation panel replaces the steps. */
    ghost predicate Valid()
      reads this
    {
      FirstStep <= step <= LastStep && (showConfirmation ==> step == LastStep)
    }

    /** Mounting renders step 1, whose effect clears the stylist, date and slot. */
    constructor (store: BookingStore)
      modifies store`selectedStylist, store`selectedDate, store`selectedTimeSlot
      ensures Valid() && this.store == store && step == FirstStep && !showConfirmation
      ensures store.Selection() == StepReset(old(store.Selection()), FirstStep)
    {
      this.store := store;
      step := FirstStep;
      showConfirmation := false;
      new;
      ResetForStep();
    }

    /** The screen's reset effect, the same as the hook's. */
    method ResetForStep()
      modifies store`selectedStylist, store`selectedDate, store`selectedTimeSlot
      ensures store.Selection() == StepReset(old(store.Selection()), step)
    {
      if step == 1 {
        store.SelectStylist(None);
        store.SelectDate(None);
        store.SelectTimeSlot(None);
      } else if step == 2 {
        store.SelectDate(Some(""));
        store.SelectTimeSlot(None);
      } else if step == 3 {
        store.SelectTimeSlot(None);
      }
    }

    /** `onNext` of the step on screen (steps 1 to 3): the following step, with its reset. */
    method Next()
      requires Valid() && !showConfirmation && step < LastStep
      modifies this`step, store`selectedStylist, store`selectedDate, store`selectedTimeSlot
      ensures Valid() && !showConfirmation
      ensures step == old(step) + 1
      ensures store.Selection() == StepReset(old(store.Selection()), step)
    {
      step := step + 1;
      ResetForStep();
    }

    /** `onBack` of the step on screen (steps 2 to 4): the previous step, with its reset. */
    method Back()
      requires Valid() && !showConfirmation && step > FirstStep
      modifies this`step, store`selectedStylist, store`selectedDate, store`selectedTimeSlot
      ensures Valid() && !showConfirmation
      ensures step == old(step) - 1
      ensures store.Selection() == StepReset(old(store.Selection()), step)
    {
      step := step - 1;
      ResetForStep();
    }

    /** `onSubmit` of the time step: the confirmation panel replaces the steps. */
    method Submit()
      requires Valid() && !showConfirmation && step == LastStep
      modifies this`showConfirmation
      ensures Valid() && showConfirmation
    {
      showConfirmation := true;
    }

    /**
     * The confirmation panel's `onClose`: back to step 1 with nothing selected. Leaving
     * step 4 also runs step 1's reset, which clears what is already cleared.
     */
    method CloseConfirmation()
      requires Valid() && showConfirmation
      modifies this`step, this`showConfirmation,
        store`selectedServices, store`selectedStylist, store`selectedDate, store`selectedTimeSlot
      ensures Valid() && !showConfirmation && step == FirstStep
      ensures store.Selection() == NoSelection
    {
      showConfirmation := false;
      step := FirstStep;
      store.ClearServices();
      store.SelectStylist(None);
      store.SelectDate(None);
      store.SelectTimeSlot(None);
      ResetForStep();
    }
  }

  /** A service record as read from the document store; any field may be absent. */
  datatype ServiceDoc = ServiceDoc(
    id: string, name: Option<string>, price: Option<nat>, duration: Option<nat>,
    description: Option<string>, image: Option<string>)

  /** One entry of a stylist record's `availability` list. */
  datatype AvailabilityEntry = AvailabilityEntry(day: int, hours: string)

  /** A stylist record as read from the document store. */
  datatype StylistDoc = StylistDoc(
    id: string, name: Option<string>, specialty: Option<string>, image: Option<string>,
    availability: Option<seq<AvailabilityEntry>>)

  /** `x || ''`: an absent or empty string becomes the empty string. */
  function OrEmpty(x: Option<string>): (r: string)
    ensures x.Some? ==> r == x.value
    ensures x.None? ==> r == ""
  {
    if x.Some? then x.value else ""
  }

  /** `x || 0`: an absent or zero number becomes 0. */
  function OrZero(x: Option<nat>): (r: nat)
    ensures x.Some? ==> r == x.value
    ensures x.None? ==> r == 0
  {
    if x.Some? then x.value else 0
  }

  function NormalizeService(doc: ServiceDoc): Service
  {
    Service(doc.id, OrEmpty(doc.name), OrZero(doc.price), OrZero(doc.duration),
            OrEmpty(doc.description), OrEmpty(doc.image))
  }

  /**
   * A stylist record as the screen hands it to the store: the id read by `parseInt`, the
   * working days taken from `availability`, and the working hours as the list of the
   * availability entries' hours (never a `{start, end}` record).
   */
  function NormalizeStylist(doc: StylistDoc): Stylist
  {
    var entries := if doc.availability.Some? then doc.availability.value else [];
    Stylist(
      Text.ParseInt(doc.id), OrEmpty(doc.name), OrEmpty(doc.specialty), OrEmpty(doc.image),
      seq(|entries|, i requires 0 <= i < |entries| => entries[i].day),
      Listed(seq(|entries|, i requires 0 <= i < |entries| => entries[i].hours)))
  }

  /**
   * A normalised service keeps its id, has the record's fields where present, and empty
   * text and zero price and duration where absent; an empty record is free and takes no time.
   */
  lemma NormalizeServiceDefaults(doc: ServiceDoc)
    ensures var s := NormalizeService(doc);
      && s.id == doc.id
      && (doc.name.Some? ==> s.name == doc.name.value) && (doc.name.None? ==> s.name == "")
      && (doc.price.Some? ==> s.price == doc.price.value) && (doc.price.None? ==> s.price == 0)
      && (doc.duration.Some? ==> s.duration == doc.duration.value) && (doc.duration.None? ==> s.duration == 0)
      && (doc.description.None? ==> s.description == "") && (doc.image.None? ==> s.image == "")
  {
  }

  /** The working days of a normalised stylist are the availability entries' days, in order. */
  lemma NormalizedDays(doc: StylistDoc, weekday: int)
    ensures weekday in NormalizeStylist(doc).availableDays <==>
      doc.availability.Some? && exists i :: 0 <= i < |doc.availability.value| && doc.availability.value[i].day == weekday
  {
    var days := NormalizeStylist(doc).availableDays;
    if weekday in days {
      var k :| 0 <= k < |days| && days[k] == weekday;
      assert doc.availability.value[k].day == weekday;
    }
    if doc.availability.Some? && exists i :: 0 <= i < |doc.availability.value| && doc.availability.value[i].day == weekday {
      var k :| 0 <= k < |doc.availability.value| && doc.availability.value[k].day == weekday;
      assert days[k] == weekday;
    }
  }

  /**
   * A stylist read from the document store never gets a bookable slot: without an
   * availability list they work no day, and on a listed day their working hours are a list,
   * which the slot generator cannot read.
   */
  lemma FetchedStylistHasNoSlots(doc: StylistDoc, r: Result<seq<TimeSlot>, Slots.SlotError>,
                                 date: string, weekday: int, existing: seq<Appointment>, duration: int, utcOffset: int)
    requires Slots.GeneratedSlots(r, date, weekday, NormalizeStylist(doc), existing, duration, utcOffset)
    ensures r == Ok([]) || r == Err(Slots.WorkingHoursMissing)
    ensures doc.availability.None? ==> r == Ok([])
    ensures date != "" && weekday in NormalizeStylist(doc).availableDays ==> r == Err(Slots.WorkingHoursMissing)
  {
    var st := NormalizeStylist(doc);
    if doc.availability.None? {
      assert st.availableDays == [];
    }
  }

  /** A stylist whose document id has no leading digits gets a NaN id, so no lookup finds them. */
  lemma NaNIdNeverFound(doc: StylistDoc, stylists: seq<Stylist>, id: StylistId)
    requires Text.LeadingDigits(doc.id) == [] && (doc.id == [] || (doc.id[0] != '-' && doc.id[0] != '+'))
    ensures NormalizeStylist(doc).id.None?
    ensures FindStylist(stylists, id).Some? ==> FindStylist(stylists, id).value.id != NormalizeStylist(doc).id
  {
  }

  /** A numeric document id such as "2" gives that stylist id. */
  lemma NumericIdParsed(doc: StylistDoc)
    requires doc.id != [] && Text.AllDigits(doc.id)
    ensures NormalizeStylist(doc).id == Some(Text.DecimalValue(doc.id) as int)
  {
    Text.ParseIntNumeral(doc.id, []);
    assert doc.id + [] == doc.id;
  }
}
