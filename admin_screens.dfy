// The admin screens that keep their own lists: orders, appointments and users.
// Each screen reads its collection once, filters it for display, and mirrors a
// status or role change in its list once the document store has accepted it.

module AdminScreens {
  import opened Wrappers
  import Seqs
  import Text
  import AdminTypes

  // ---------------------------------------------------------------- orders

  datatype Customer = Customer(
    firstName: string, lastName: string, email: string, address: string, city: string,
    zipCode: string, country: string)

  /** One order line; the product record itself is not modelled, only its id. */
  datatype OrderLine = OrderLine(productId: string, quantity: int)

  /** An order as the orders screen reads it; `status` is 'pending', 'processing', 'shipped' or 'delivered'. */
  datatype OrderData = OrderData(
    id: string, userId: string, items: seq<OrderLine>, total: int, status: string,
    createdAt: string, customer: Customer)

  /** The status an order's button moves it to: pending, processing and shipped each offer the next one. */
  function NextOrderStatus(status: string): Option<string>
  {
    if status == "pending" then Some("processing")
    else if status == "processing" then Some("shipped")
    else if status == "shipped" then Some("delivered")
    else None
  }

  /** Position of a status along the fulfilment line. */
  function OrderRank(status: string): int
  {
    if status == "pending" then 0
    else if status == "processing" then 1
    else if status == "shipped" then 2
    else if status == "delivered" then 3
    else -1
  }

  predicate IsOrderStatus(status: string)
  {
    OrderRank(status) >= 0
  }

  /**
   * The buttons only move an order one place forward along pending, processing, shipped,
   * delivered; a delivered order, or one with any other status, is offered nothing.
   */
  lemma OrderTransitionsMoveForward(status: string)
    ensures NextOrderStatus(status).Some? ==>
      IsOrderStatus(status) && OrderRank(NextOrderStatus(status).value) == OrderRank(status) + 1
    ensures NextOrderStatus(status).None? <==> status == "delivered" || !IsOrderStatus(status)
  {
  }

  /** The status after pressing the offered button `n` times (or until none is offered). */
  function AdvanceOrder(status: string, n: nat): string
    decreases n
  {
    if n == 0 || NextOrderStatus(status).None? then status
    else AdvanceOrder(NextOrderStatus(status).value, n - 1)
  }

  /** Any order reaches delivered after at most three presses, and stays there. */
  lemma {:induction false} ReachesDelivered(status: string, n: nat)
    requires IsOrderStatus(status)
    ensures n >= 3 - OrderRank(status) ==> AdvanceOrder(status, n) == "delivered"
    ensures OrderRank(AdvanceOrder(status, n)) == if n >= 3 - OrderRank(status) then 3 else OrderRank(status) + n
    decreases n
  {
    if n > 0 && NextOrderStatus(status).Some? {
      ReachesDelivered(NextOrderStatus(status).value, n - 1);
    }
  }

  /** `filteredOrders`: every order for 'all', otherwise the orders with exactly that status. */
  function FilteredOrders(orders: seq<OrderData>, filter: string): seq<OrderData>
  {
    Seqs.Filter(orders, (o: OrderData) => filter == "all" || o.status == filter)
  }

  /** What the orders filter shows: all orders for 'all', else exactly those with the status, in order. */
  lemma FilteredOrdersSpec(orders: seq<OrderData>, filter: string, o: OrderData)
    ensures FilteredOrders(orders, "all") == orders
    ensures o in FilteredOrders(orders, filter) <==> o in orders && (filter == "all" || o.status == filter)
    ensures Seqs.IsSubsequence(FilteredOrders(orders, filter), orders)
  {
    Seqs.FilterKeepsAll(orders, (o: OrderData) => "all" == "all" || o.status == "all");
    Seqs.FilterIsSubsequence(orders, (o: OrderData) => filter == "all" || o.status == filter);
    var r := FilteredOrders(orders, filter);
    if o in r {
      var i :| 0 <= i < |r| && r[i] == o;
    }
    if o in orders {
      var i :| 0 <= i < |orders| && orders[i] == o;
    }
  }

  /** `orders.map(o => o.id === id ? { ...o, status } : o)`. */
  function SetOrderStatus(orders: seq<OrderData>, id: string, status: string): (r: seq<OrderData>)
    ensures |r| == |orders|
  {
    seq(|orders|, i requires 0 <= i < |orders| => if orders[i].id == id then orders[i].(status := status) else orders[i])
  }

  /** A status update changes the status of the orders with that id and nothing else. */
  lemma SetOrderStatusTouchesOnlyTarget(orders: seq<OrderData>, id: string, status: string)
    ensures forall i :: 0 <= i < |orders| && orders[i].id != id ==> SetOrderStatus(orders, id, status)[i] == orders[i]
    ensures forall i :: 0 <= i < |orders| && orders[i].id == id ==>
      SetOrderStatus(orders, id, status)[i].status == status &&
      SetOrderStatus(orders, id, status)[i].(status := orders[i].status) == orders[i]
    ensures SetOrderStatus(SetOrderStatus(orders, id, status), id, status) == SetOrderStatus(orders, id, status)
  {
  }

  /** `AdminOrders`: the list, the loading flag and the chosen filter. */
  class AdminOrdersScreen {
    var orders: seq<OrderData>
    var loading: bool
    var filter: string

    constructor ()
      ensures orders == [] && loading && filter == "all"
    {
      orders := [];
      loading := true;
      filter := "all";
    }

    /** The mount effect: the orders read (newest first); a failed read keeps the list. */
    method LoadOrders(response: Option<seq<OrderData>>)
      modifies this`orders, this`loading
      ensures !loading
      ensures orders == if response.Some? then response.value else old(orders)
    {
      if response.Some? {
        orders := response.value;
      }
      loading := false;
    }

    method SetFilter(f: string)
      modifies this`filter
      ensures filter == f
    {
      filter := f;
    }

    /** `updateOrderStatus`: the list changes only after a successful write; a failure is logged. */
    method UpdateOrderStatus(id: string, status: string, writeOk: bool)
      modifies this`orders
      ensures orders == if writeOk then SetOrderStatus(old(orders), id, status) else old(orders)
    {
      if writeOk {
        orders := SetOrderStatus(orders, id, status);
      }
    }

    /** The button under the `k`th shown order: its next status, when one is offered. */
    method AdvanceShownOrder(k: int, writeOk: bool)
      requires 0 <= k < |FilteredOrders(orders, filter)|
      modifies this`orders
      ensures var o := old(FilteredOrders(orders, filter))[k];
        orders == if writeOk && NextOrderStatus(o.status).Some?
                  then SetOrderStatus(old(orders), o.id, NextOrderStatus(o.status).value)
                  else old(orders)
    {
      var o := FilteredOrders(orders, filter)[k];
      var next := NextOrderStatus(o.status);
      if next.Some? {
        UpdateOrderStatus(o.id, next.value, writeOk);
      }
    }
  }

  // ---------------------------------------------------------- appointments

  /** An appointment as the appointments screen reads it. */
  datatype AppointmentData = AppointmentData(
    id: string, userId: string, stylistId: int, services: seq<AdminTypes.ServiceLine>, date: string,
    startTime: string, endTime: string, totalPrice: int, status: string, createdAt: string,
    notes: Option<string>)

  /** The statuses the buttons offer: 'completed' or 'cancelled' for a confirmed appointment, nothing otherwise. */
  function AppointmentActions(status: string): (r: seq<string>)
  {
    if status == "confirmed" then ["completed", "cancelled"] else []
  }

  /** Only confirmed appointments can be acted on, and every action ends them. */
  lemma AppointmentActionsOnlyFromConfirmed(status: string, next: string)
    ensures next in AppointmentActions(status) <==> status == "confirmed" && (next == "completed" || next == "cancelled")
    ensures next in AppointmentActions(status) ==> AppointmentActions(next) == []
  {
  }

  /**
   * Whether `filteredAppointments` keeps an appointment; `isFuture(date)` is the comparison of
   * `new Date(date)` with the current time.
   */
  predicate ShownAppointment(a: AppointmentData, filter: string, isFuture: string -> bool)
  {
    if filter == "all" then true
    else if filter == "upcoming" then a.status == "confirmed" && isFuture(a.date)
    else if filter == "completed" then a.status == "completed"
    else if filter == "cancelled" then a.status == "cancelled"
    else true
  }

  function FilteredAppointments(appointments: seq<AppointmentData>, filter: string, isFuture: string -> bool): seq<AppointmentData>
  {
    Seqs.Filter(appointments, (a: AppointmentData) => ShownAppointment(a, filter, isFuture))
  }

  /** An appointment is shown exactly when it is in the list and the filter keeps it. */
  lemma FilteredAppointmentsMembers(appointments: seq<AppointmentData>, filter: string, isFuture: string -> bool, a: AppointmentData)
    ensures a in FilteredAppointments(appointments, filter, isFuture) <==>
      a in appointments && ShownAppointment(a, filter, isFuture)
  {
    var r := FilteredAppointments(appointments, filter, isFuture);
    if a in r {
      var i :| 0 <= i < |r| && r[i] == a;
    }
    if a in appointments {
      var i :| 0 <= i < |appointments| && appointments[i] == a;
    }
  }

  /**
   * 'all' and an unknown filter show the whole list, 'completed' and 'cancelled' exactly the
   * appointments with that status, 'upcoming' exactly the confirmed future ones, and every
   * filter keeps the list's order.
   */
  lemma FilteredAppointmentsSpec(appointments: seq<AppointmentData>, filter: string, isFuture: string -> bool, a: AppointmentData)
    ensures FilteredAppointments(appointments, "all", isFuture) == appointments
    ensures filter !in ["all", "upcoming", "completed", "cancelled"] ==>
      FilteredAppointments(appointments, filter, isFuture) == appointments
    ensures (filter == "completed" || filter == "cancelled") ==>
      (a in FilteredAppointments(appointments, filter, isFuture) <==> a in appointments && a.status == filter)
    ensures a in FilteredAppointments(appointments, "upcoming", isFuture) <==>
      a in appointments && a.status == "confirmed" && isFuture(a.date)
    ensures Seqs.IsSubsequence(FilteredAppointments(appointments, filter, isFuture), appointments)
  {
    Seqs.FilterKeepsAll(appointments, (x: AppointmentData) => ShownAppointment(x, "all", isFuture));
    if filter !in ["all", "upcoming", "completed", "cancelled"] {
      Seqs.FilterKeepsAll(appointments, (x: AppointmentData) => ShownAppointment(x, filter, isFuture));
    }
    Seqs.FilterIsSubsequence(appointments, (x: AppointmentData) => ShownAppointment(x, filter, isFuture));
    FilteredAppointmentsMembers(appointments, filter, isFuture, a);
    FilteredAppointmentsMembers(appointments, "upcoming", isFuture, a);
  }

  /** `appointments.map(a => a.id === id ? { ...a, status } : a)`. */
  function SetScreenAppointmentStatus(appointments: seq<AppointmentData>, id: string, status: string): (r: seq<AppointmentData>)
    ensures |r| == |appointments|
  {
    seq(|appointments|, i requires 0 <= i < |appointments| =>
      if appointments[i].id == id then appointments[i].(status := status) else appointments[i])
  }

  /** Only the appointments with the id get the new status; all else stays. */
  lemma SetScreenAppointmentStatusTouchesOnlyTarget(appointments: seq<AppointmentData>, id: string, status: string)
    ensures forall i :: 0 <= i < |appointments| && appointments[i].id != id ==>
      SetScreenAppointmentStatus(appointments, id, status)[i] == appointments[i]
    ensures forall i :: 0 <= i < |appointments| && appointments[i].id == id ==>
      SetScreenAppointmentStatus(appointments, id, status)[i].status == status &&
      SetScreenAppointmentStatus(appointments, id, status)[i].(status := appointments[i].status) == appointments[i]
    ensures SetScreenAppointmentStatus(SetScreenAppointmentStatus(appointments, id, status), id, status) ==
      SetScreenAppointmentStatus(appointments, id, status)
  {
  }

  /** `AdminAppointments`. */
  class AdminAppointmentsScreen {
    var appointments: seq<AppointmentData>
    var loading: bool
    var filter: string

    constructor ()
      ensures appointments == [] && loading && filter == "all"
    {
      appointments := [];
      loading := true;
      filter := "all";
    }

    /** The mount effect: the appointments read (latest date first); a failed read keeps the list. */
    method LoadAppointments(response: Option<seq<AppointmentData>>)
      modifies this`appointments, this`loading
      ensures !loading
      ensures appointments == if response.Some? then response.value else old(appointments)
    {
      if response.Some? {
        appointments := response.value;
      }
      loading := false;
    }

    method SetFilter(f: string)
      modifies this`filter
      ensures filter == f
    {
      filter := f;
    }

    /** `updateAppointmentStatus`: mirrored only after a successful write. */
    method UpdateAppointmentStatus(id: string, status: string, writeOk: bool)
      modifies this`appointments
      ensures appointments == if writeOk then SetScreenAppointmentStatus(old(appointments), id, status) else old(appointments)
    {
      if writeOk {
        appointments := SetScreenAppointmentStatus(appointments, id, status);
      }
    }
  }

  // ----------------------------------------------------------------- users

  /** A user as the users screen reads it; name and email may be missing. */
  datatype UserData = UserData(id: string, name: Option<string>, email: Option<string>, role: string, createdAt: string)

  /** `x?.toLowerCase() || ''`. */
  function LowerOrEmpty(x: Option<string>): (r: string)
    ensures x.None? ==> r == ""
    ensures x.Some? ==> r == Text.ToLower(x.value)
  {
    if x.Some? then Text.ToLower(x.value) else ""
  }

  /** The search: the lower-cased term inside the lower-cased name or email. */
  predicate MatchesSearch(u: UserData, term: string)
  {
    Text.Contains(LowerOrEmpty(u.name), Text.ToLower(term)) || Text.Contains(LowerOrEmpty(u.email), Text.ToLower(term))
  }

  function FilteredUsers(users: seq<UserData>, term: string): seq<UserData>
  {
    Seqs.Filter(users, (u: UserData) => MatchesSearch(u, term))
  }

  /**
   * A user is listed exactly when they match the search, an empty search lists everyone, and a
   * user with neither name nor email only shows for the empty search.
   */
  lemma FilteredUsersSpec(users: seq<UserData>, term: string, u: UserData)
    ensures u in FilteredUsers(users, term) <==> u in users && MatchesSearch(u, term)
    ensures FilteredUsers(users, "") == users
    ensures u.name.None? && u.email.None? && term != "" ==> u !in FilteredUsers(users, term)
  {
    var r := FilteredUsers(users, term);
    if u in r {
      var i :| 0 <= i < |r| && r[i] == u;
    }
    if u in users {
      var i :| 0 <= i < |users| && users[i] == u;
    }
    forall i | 0 <= i < |users| ensures MatchesSearch(users[i], "")
    {
      Text.ContainsEmpty(LowerOrEmpty(users[i].name));
    }
    Seqs.FilterKeepsAll(users, (x: UserData) => MatchesSearch(x, ""));
  }

  /** `currentRole === 'admin' ? 'user' : 'admin'`. */
  function ToggleRole(role: string): string
  {
    if role == "admin" then "user" else "admin"
  }

  /** The toggle always flips between the two roles, and toggling twice restores an admin or a user. */
  lemma ToggleRoleInvolution(role: string)
    ensures ToggleRole(role) == "admin" || ToggleRole(role) == "user"
    ensures ToggleRole(role) != role
    ensures role == "admin" || role == "user" ==> ToggleRole(ToggleRole(role)) == role
  {
  }

  /** `users.map(u => u.id === id ? { ...u, role } : u)`. */
  function SetScreenUserRole(users: seq<UserData>, id: string, role: string): (r: seq<UserData>)
    ensures |r| == |users|
  {
    seq(|users|, i requires 0 <= i < |users| => if users[i].id == id then users[i].(role := role) else users[i])
  }

  /** `AdminUsers`. */
  class AdminUsersScreen {
    var users: seq<UserData>
    var searchTerm: string
    var loading: bool

    constructor ()
      ensures users == [] && searchTerm == "" && loading
    {
      users := [];
      searchTerm := "";
      loading := true;
    }

    /** The mount effect: the users read; a failed read keeps the list. */
    method LoadUsers(response: Option<seq<UserData>>)
      modifies this`users, this`loading
      ensures !loading
      ensures users == if response.Some? then response.value else old(users)
    {
      if response.Some? {
        users := response.value;
      }
      loading := false;
    }

    method SetSearchTerm(term: string)
      modifies this`searchTerm
      ensures searchTerm == term
    {
      searchTerm := term;
    }

    /**
     * `toggleUserRole`: the users with the id get the other role, once the write succeeds; the
     * rest of the list is untouched.
     */
    method ToggleUserRole(id: string, currentRole: string, writeOk: bool)
      modifies this`users
      ensures users == if writeOk then SetScreenUserRole(old(users), id, ToggleRole(currentRole)) else old(users)
      ensures |users| == |old(users)|
      ensures forall i :: 0 <= i < |users| && old(users)[i].id != id ==> users[i] == old(users)[i]
      ensures writeOk ==> forall i :: 0 <= i < |users| && old(users)[i].id == id ==> users[i].role == ToggleRole(currentRole)
    {
      if writeOk {
        users := SetScreenUserRole(users, id, ToggleRole(currentRole));
      }
    }
  }
}
