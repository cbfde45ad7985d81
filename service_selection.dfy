// The service picker of the booking flow: clicking a service selects it, or
// deselects it when a service with that id is already selected, so the
// selection never holds the same id twice.

module ServiceSelection {
  import opened BookingTypes
  import opened Booking
  import Seqs

  /** No two selected services share an id. */
  predicate UniqueIds(selected: seq<Service>)
  {
    forall i, j :: 0 <= i < j < |selected| ==> selected[i].id != selected[j].id
  }

  /** The selection after `handleServiceToggle(s)`. */
  function Toggle(selected: seq<Service>, s: Service): seq<Service>
  {
    if HasService(selected, s.id) then WithoutService(selected, s.id) else selected + [s]
  }

  /** `handleServiceToggle`: remove when selected, otherwise add. */
  method HandleServiceToggle(store: BookingStore, s: Service)
    modifies store`selectedServices
    ensures store.selectedServices == Toggle(old(store.selectedServices), s)
  {
    if HasService(store.selectedServices, s.id) {
      store.RemoveService(s.id);
    } else {
      store.AddService(s);
    }
  }

  /** A toggle flips whether the clicked id is selected and leaves every other id as it was. */
  lemma ToggleFlips(selected: seq<Service>, s: Service, id: string)
    ensures HasService(Toggle(selected, s), s.id) <==> !HasService(selected, s.id)
    ensures id != s.id ==> (HasService(Toggle(selected, s), id) <==> HasService(selected, id))
  {
    var t := Toggle(selected, s);
    if HasService(selected, s.id) {
      if id != s.id && HasService(selected, id) {
        var k :| 0 <= k < |selected| && selected[k].id == id;
        WithoutServiceKeepsOthers(selected, s.id, selected[k]);
        var j :| 0 <= j < |t| && t[j] == selected[k];
      }
      if id != s.id && HasService(t, id) {
        var j :| 0 <= j < |t| && t[j].id == id;
        assert t[j] in selected;
      }
    } else {
      assert t[|t| - 1] == s;
      if id != s.id && HasService(t, id) {
        var j :| 0 <= j < |t| && t[j].id == id;
        assert j < |selected| && selected[j] == t[j];
      }
      if HasService(selected, id) {
        var k :| 0 <= k < |selected| && selected[k].id == id;
        assert t[k] == selected[k];
      }
    }
  }

  /** Toggling keeps the selected ids unique. */
  lemma ToggleKeepsUnique(selected: seq<Service>, s: Service)
    requires UniqueIds(selected)
    ensures UniqueIds(Toggle(selected, s))
  {
    var t := Toggle(selected, s);
    if HasService(selected, s.id) {
      WithoutServiceUnique(selected, s.id);
    } else {
      forall i, j | 0 <= i < j < |t| ensures t[i].id != t[j].id
      {
        if j == |selected| {
          assert t[i] == selected[i];
        }
      }
    }
  }

  /** Removing from a selection with unique ids keeps the ids unique. */
  lemma WithoutServiceUnique(selected: seq<Service>, id: string)
    requires UniqueIds(selected)
    ensures UniqueIds(WithoutService(selected, id))
  {
    Seqs.SubsequenceKeysDistinct(WithoutService(selected, id), selected, (x: Service) => x.id);
  }

  /** Clicking a service that is not selected twice gives the selection back unchanged. */
  lemma ToggleTwiceAbsent(selected: seq<Service>, s: Service)
    requires !HasService(selected, s.id)
    ensures Toggle(Toggle(selected, s), s) == selected
  {
    var p := (x: Service) => x.id != s.id;
    assert HasService(selected + [s], s.id) by { assert (selected + [s])[|selected|] == s; }
    Seqs.FilterAppend(selected, [s], p);
    Seqs.FilterKeepsAll(selected, p);
    assert Seqs.Filter([s], p) == [];
  }

  /** Clicking a selected service twice moves it to the end of the selection. */
  lemma ToggleTwicePresent(selected: seq<Service>, s: Service)
    requires HasService(selected, s.id)
    ensures Toggle(Toggle(selected, s), s) == WithoutService(selected, s.id) + [s]
  {
    ToggleFlips(selected, s, s.id);
  }

  /** With unique ids, removing the service at `k` takes exactly its amount off any sum. */
  lemma SumWithoutUnique(selected: seq<Service>, k: int, f: Service -> int)
    requires UniqueIds(selected) && 0 <= k < |selected|
    ensures Seqs.Sum(WithoutService(selected, selected[k].id), f) == Seqs.Sum(selected, f) - f(selected[k])
  {
    var id := selected[k].id;
    assert forall i :: 0 <= i < |selected| && i != k ==> selected[i].id != id;
    Seqs.SumFilterDropsOne(selected, k, (x: Service) => x.id != id, f);
  }

  /**
   * The totals shown under the picker follow each click: adding a service adds its duration
   * and price; removing a selected one (ids unique) takes exactly its duration and price off.
   */
  lemma ToggleTotals(selected: seq<Service>, s: Service)
    requires UniqueIds(selected)
    ensures !HasService(selected, s.id) ==>
      && TotalDuration(Toggle(selected, s)) == TotalDuration(selected) + s.duration
      && TotalPrice(Toggle(selected, s)) == TotalPrice(selected) + s.price
    ensures forall k :: 0 <= k < |selected| && selected[k].id == s.id ==>
      && TotalDuration(Toggle(selected, s)) == TotalDuration(selected) - selected[k].duration
      && TotalPrice(Toggle(selected, s)) == TotalPrice(selected) - selected[k].price
  {
    var fd := (x: Service) => x.duration;
    var fp := (x: Service) => x.price;
    if !HasService(selected, s.id) {
      Seqs.SumAppend(selected, [s], fd);
      Seqs.SumAppend(selected, [s], fp);
    }
    forall k | 0 <= k < |selected| && selected[k].id == s.id
      ensures TotalDuration(Toggle(selected, s)) == TotalDuration(selected) - selected[k].duration
      ensures TotalPrice(Toggle(selected, s)) == TotalPrice(selected) - selected[k].price
    {
      SumWithoutUnique(selected, k, fd);
      SumWithoutUnique(selected, k, fp);
    }
  }

  /** The picker's Next button is enabled exactly when something is selected. */
  predicate NextEnabled(selected: seq<Service>)
  {
    |selected| != 0
  }

  /**
   * Next is enabled exactly when the services part of the booking check holds: once a
   * stylist, a date and a slot are chosen, the session is bookable iff Next was enabled.
   * A click on a service that is not yet selected always enables it.
   */
  lemma NextGuardMatchesBooking(s: Session, svc: Service)
    ensures s.stylist.Some? && s.date.Some? && s.date.value != "" && s.slot.Some? ==>
      (Bookable(s) <==> NextEnabled(s.services))
    ensures Bookable(s) ==> NextEnabled(s.services)
    ensures !HasService(s.services, svc.id) ==> NextEnabled(Toggle(s.services, svc))
  {
  }
}
