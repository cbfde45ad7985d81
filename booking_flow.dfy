// The four-step booking flow (services, stylist, date, time). Whenever the
// step changes, the selections that belong to later steps are reset in the
// booking store, so going back never leaves a stale choice behind.

module BookingFlow {
  import opened Wrappers
  import opened BookingTypes
  import opened Booking

  const FirstStep: int := 1
  const LastStep: int := 4

  /**
   * The effect run when the flow enters `step`: step 1 clears the stylist, date and slot;
   * step 2 sets the date to the empty string and clears the slot; step 3 clears the slot;
   * any other step leaves the session alone. The services are never touched.
   */
  function StepReset(s: Session, step: int): Session
  {
    if step == 1 then s.(stylist := None, date := None, slot := None)
    else if step == 2 then s.(date := Some(""), slot := None)
    else if step == 3 then s.(slot := None)
    else s
  }

  /** Entering any of the first three steps leaves a session `createAppointment` refuses. */
  lemma ResetBlocksBooking(s: Session, step: int)
    requires FirstStep <= step < LastStep
    ensures !Bookable(StepReset(s, step))
  {
  }

  /**
   * What a reset keeps: the services always, the stylist from step 2 on, the date from step 3
   * on; entering step 4 changes nothing.
   */
  lemma ResetKeepsEarlierChoices(s: Session, step: int)
    ensures StepReset(s, step).services == s.services
    ensures step >= 2 ==> StepReset(s, step).stylist == s.stylist
    ensures step >= 3 ==> StepReset(s, step).date == s.date
    ensures step >= 4 ==> StepReset(s, step) == s
    ensures FirstStep <= step <= 3 ==> StepReset(s, step).slot.None?
  {
  }

  /**
   * Going back past several steps is the same as going back to the earliest one directly:
   * the reset for an earlier step absorbs the reset for a later one.
   */
  lemma ResetsCompose(s: Session, later: int, earlier: int)
    requires FirstStep <= earlier <= later <= 3
    ensures StepReset(StepReset(s, later), earlier) == StepReset(s, earlier)
  {
  }

  /** `useBookingFlow`: the step counter and its effect on the booking store. */
  class BookingFlowHook {
    var step: int
    const store: BookingStore

    /** Mounting renders step 1, whose effect clears the stylist, date and slot. */
    constructor (store: BookingStore)
      modifies store`selectedStylist, store`selectedDate, store`selectedTimeSlot
      ensures this.store == store && step == FirstStep
      ensures store.Selection() == StepReset(old(store.Selection()), FirstStep)
    {
      this.store := store;
      step := FirstStep;
      new;
      ResetForStep();
    }

    /** The reset effect for the current step. */
    method ResetForStep()
      modifies store`selectedStylist, store`selectedDate, store`selectedTimeSlot
      ensures store.Selection() == StepReset(old(store.Selection()), step)
    {
      if step == 1 {
        store.SelectStylist(None);
        store.SelectDate(None);
        store.SelectTimeSlot(None);
      } else if step == 2 {
        store.SelectDate(Some(""));
        store.SelectTimeSlot(None);
      } else if step == 3 {
        store.SelectTimeSlot(None);
      }
    }

    /** `setStep`: the effect runs only when the value actually changes. */
    method SetStep(n: int)
      modifies this`step, store`selectedStylist, store`selectedDate, store`selectedTimeSlot
      ensures step == n
      ensures store.Selection() == if n != old(step) then StepReset(old(store.Selection()), n) else old(store.Selection())
    {
      if n != step {
        step := n;
        ResetForStep();
      }
    }

    /** `goToNextStep`: one step forward unless already on the last one. */
    method GoToNextStep()
      modifies this`step, store`selectedStylist, store`selectedDate, store`selectedTimeSlot
      ensures step == if old(step) < LastStep then old(step) + 1 else old(step)
      ensures FirstStep <= old(step) <= LastStep ==> FirstStep <= step <= LastStep
      ensures store.Selection() == if old(step) < LastStep then StepReset(old(store.Selection()), step) else old(store.Selection())
    {
      if step < LastStep {
        SetStep(step + 1);
      }
    }

    /** `goToPreviousStep`: one step back unless already on the first one. */
    method GoToPreviousStep()
      modifies this`step, store`selectedStylist, store`selectedDate, store`selectedTimeSlot
      ensures step == if old(step) > FirstStep then old(step) - 1 else old(step)
      ensures FirstStep <= old(step) <= LastStep ==> FirstStep <= step <= LastStep
      ensures store.Selection() == if old(step) > FirstStep then StepReset(old(store.Selection()), step) else old(store.Selection())
    {
      if step > FirstStep {
        SetStep(step - 1);
      }
    }

    /** `resetFlow`: back to step 1 with an empty session, services included. */
    method ResetFlow()
      modifies this`step, store`selectedServices, store`selectedStylist, store`selectedDate, store`selectedTimeSlot
      ensures step == FirstStep
      ensures store.Selection() == NoSelection
    {
      SetStep(FirstStep);
      store.ClearServices();
      store.SelectStylist(None);
      store.SelectDate(None);
      store.SelectTimeSlot(None);
    }
  }
}
