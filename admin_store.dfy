// The admin dashboard's store: paginated user and appointment lists, the
// service and stylist catalogues, and the dashboard figures. Every change is
// mirrored in memory only after the document store has accepted it; the
// store's answer (a page, a fresh id, success or failure) is a parameter.

module AdminTypes {
  import opened Wrappers

  /** An account as the admin service reads it; `role` is 'admin' or 'user', `status` 'active', 'suspended' or 'deleted'. */
  datatype User = User(
    id: string, name: string, email: string, role: string, createdAt: string,
    lastLogin: Option<string>, status: string)

  /** One line of an appointment's service list. */
  datatype ServiceLine = ServiceLine(name: string, price: int, duration: int)

  /** An appointment joined with its customer's name and email. */
  datatype AdminAppointment = AdminAppointment(
    id: string, userId: string, userName: string, userEmail: string, stylistId: int,
    services: seq<ServiceLine>, date: string, startTime: string, endTime: string,
    totalDuration: int, totalPrice: int, status: string, createdAt: string, notes: Option<string>)

  /** A catalogue service. */
  datatype AdminService = AdminService(
    id: string, name: string, price: int, duration: int, description: string,
    category: string, isActive: bool)

  datatype WorkingWindow = WorkingWindow(start: string, end: string)

  /** A stylist as the admin screens edit it; `status` is 'active' or 'inactive'. */
  datatype AdminStylist = AdminStylist(
    id: string, name: string, specialty: string, email: string, phone: string,
    availableDays: seq<int>, workingHours: WorkingWindow, rating: real, experience: string,
    status: string)

  /** The dashboard figures. */
  datatype AdminStats = AdminStats(
    totalUsers: nat, activeUsers: nat, totalAppointments: nat, todayAppointments: nat,
    totalRevenue: int, monthlyRevenue: int)
}

module AdminStore {
  import opened Wrappers
  import opened AdminTypes
  import Seqs

  const UsersPageSize: nat := 10
  const AppointmentsPageSize: nat := 20

  /** The document-store cursor a page ends at; `NoCursor` is the initial `null`. */
  datatype Cursor = NoCursor | After(docId: string)

  /** A list's paging state: where the next page starts, whether one may exist, whether a request is out. */
  datatype Pagination = Pagination(lastDoc: Cursor, hasMore: bool, loading: bool)

  /** One page as the admin service returns it. */
  datatype Page<T> = Page(items: seq<T>, lastDoc: Cursor)

  datatype UserFilters = UserFilters(role: Option<string>, status: Option<string>, search: Option<string>)
  datatype AppointmentFilters = AppointmentFilters(
    status: Option<string>, date: Option<string>, stylistId: Option<int>, userId: Option<string>)

  /** The arguments of a page request: page size, the cursor to start after, the filters. */
  datatype Query<F> = Query(pageSize: nat, after: Cursor, filters: Option<F>)

  /** `Partial<Service>`: the fields an update overwrites. */
  datatype ServicePatch = ServicePatch(
    id: Option<string>, name: Option<string>, price: Option<int>, duration: Option<int>,
    description: Option<string>, category: Option<string>, isActive: Option<bool>)

  /** `Partial<Stylist>`: the fields an update overwrites. */
  datatype StylistPatch = StylistPatch(
    id: Option<string>, name: Option<string>, specialty: Option<string>, email: Option<string>,
    phone: Option<string>, availableDays: Option<seq<int>>, workingHours: Option<WorkingWindow>,
    rating: Option<real>, experience: Option<string>, status: Option<string>)

  function Pick<T>(patch: Option<T>, current: T): T
  {
    if patch.Some? then patch.value else current
  }

  /** `{ ...service, ...data }`. */
  function MergeService(s: AdminService, p: ServicePatch): AdminService
  {
    AdminService(Pick(p.id, s.id), Pick(p.name, s.name), Pick(p.price, s.price),
                 Pick(p.duration, s.duration), Pick(p.description, s.description),
                 Pick(p.category, s.category), Pick(p.isActive, s.isActive))
  }

  /** `{ ...stylist, ...data }`. */
  function MergeStylist(s: AdminStylist, p: StylistPatch): AdminStylist
  {
    AdminStylist(Pick(p.id, s.id), Pick(p.name, s.name), Pick(p.specialty, s.specialty),
                 Pick(p.email, s.email), Pick(p.phone, s.phone),
                 Pick(p.availableDays, s.availableDays), Pick(p.workingHours, s.workingHours),
                 Pick(p.rating, s.rating), Pick(p.experience, s.experience), Pick(p.status, s.status))
  }

  const EmptyServicePatch := ServicePatch(None, None, None, None, None, None, None)
  const EmptyStylistPatch := StylistPatch(None, None, None, None, None, None, None, None, None, None)

  /**
   * A merge takes every field the patch carries and keeps every other field; an empty patch
   * changes nothing and merging the same patch twice is merging it once.
   */
  lemma MergeServiceLaws(s: AdminService, p: ServicePatch)
    ensures var m := MergeService(s, p);
      && (p.id.Some? ==> m.id == p.id.value) && (p.id.None? ==> m.id == s.id)
      && (p.name.Some? ==> m.name == p.name.value) && (p.name.None? ==> m.name == s.name)
      && (p.price.Some? ==> m.price == p.price.value) && (p.price.None? ==> m.price == s.price)
      && (p.duration.Some? ==> m.duration == p.duration.value) && (p.duration.None? ==> m.duration == s.duration)
      && (p.isActive.Some? ==> m.isActive == p.isActive.value) && (p.isActive.None? ==> m.isActive == s.isActive)
    ensures MergeService(s, EmptyServicePatch) == s
    ensures MergeService(MergeService(s, p), p) == MergeService(s, p)
  {
  }

  /** The same laws for stylists. */
  lemma MergeStylistLaws(s: AdminStylist, p: StylistPatch)
    ensures var m := MergeStylist(s, p);
      && (p.id.Some? ==> m.id == p.id.value) && (p.id.None? ==> m.id == s.id)
      && (p.availableDays.Some? ==> m.availableDays == p.availableDays.value)
      && (p.availableDays.None? ==> m.availableDays == s.availableDays)
      && (p.status.Some? ==> m.status == p.status.value) && (p.status.None? ==> m.status == s.status)
    ensures MergeStylist(s, EmptyStylistPatch) == s
    ensures MergeStylist(MergeStylist(s, p), p) == MergeStylist(s, p)
  {
  }

  /** `users.map(u => u.id === id ? { ...u, role } : u)`. */
  function SetUserRole(users: seq<User>, id: string, role: string): (r: seq<User>)
    ensures |r| == |users|
  {
    seq(|users|, i requires 0 <= i < |users| => if users[i].id == id then users[i].(role := role) else users[i])
  }

  /** `users.map(u => u.id === id ? { ...u, status } : u)`. */
  function SetUserStatus(users: seq<User>, id: string, status: string): (r: seq<User>)
    ensures |r| == |users|
  {
    seq(|users|, i requires 0 <= i < |users| => if users[i].id == id then users[i].(status := status) else users[i])
  }

  /**
   * A role or status change touches the users with that id alone, and only the one field: the
   * list keeps its length and order, every user keeps their id, and the others are unchanged.
   */
  lemma UserUpdatesTouchOnlyTarget(users: seq<User>, id: string, role: string, status: string)
    ensures forall i :: 0 <= i < |users| && users[i].id != id ==>
      SetUserRole(users, id, role)[i] == users[i] && SetUserStatus(users, id, status)[i] == users[i]
    ensures forall i :: 0 <= i < |users| && users[i].id == id ==>
      && SetUserRole(users, id, role)[i].role == role
      && SetUserRole(users, id, role)[i].(role := users[i].role) == users[i]
      && SetUserStatus(users, id, status)[i].status == status
      && SetUserStatus(users, id, status)[i].(status := users[i].status) == users[i]
  {
  }

  /**
   * Deleting is a soft delete: nobody leaves the list, the deleted users are still there with
   * status 'deleted', and a later reactivation is the same as reactivating directly.
   */
  lemma DeleteIsSoft(users: seq<User>, id: string)
    ensures |SetUserStatus(users, id, "deleted")| == |users|
    ensures forall i :: 0 <= i < |users| ==> SetUserStatus(users, id, "deleted")[i].id == users[i].id
    ensures forall i :: 0 <= i < |users| && users[i].id == id ==> SetUserStatus(users, id, "deleted")[i].status == "deleted"
    ensures SetUserStatus(SetUserStatus(users, id, "deleted"), id, "active") == SetUserStatus(users, id, "active")
  {
  }

  /** The last status written to a user wins, and statuses of different users do not interfere. */
  lemma StatusUpdatesCompose(users: seq<User>, id: string, other: string, s1: string, s2: string)
    ensures SetUserStatus(SetUserStatus(users, id, s1), id, s2) == SetUserStatus(users, id, s2)
    ensures id != other ==>
      SetUserStatus(SetUserStatus(users, id, s1), other, s2) == SetUserStatus(SetUserStatus(users, other, s2), id, s1)
  {
  }

  /** `appointments.map(a => a.id === id ? { ...a, status } : a)`. */
  function SetAppointmentStatus(appointments: seq<AdminAppointment>, id: string, status: string): (r: seq<AdminAppointment>)
    ensures |r| == |appointments|
  {
    seq(|appointments|, i requires 0 <= i < |appointments| =>
      if appointments[i].id == id then appointments[i].(status := status) else appointments[i])
  }

  /** Only the appointments with the id change, and only their status; writing the same status again is a no-op. */
  lemma AppointmentStatusTouchesOnlyTarget(appointments: seq<AdminAppointment>, id: string, status: string)
    ensures forall i :: 0 <= i < |appointments| && appointments[i].id != id ==>
      SetAppointmentStatus(appointments, id, status)[i] == appointments[i]
    ensures forall i :: 0 <= i < |appointments| && appointments[i].id == id ==>
      SetAppointmentStatus(appointments, id, status)[i].status == status &&
      SetAppointmentStatus(appointments, id, status)[i].(status := appointments[i].status) == appointments[i]
    ensures SetAppointmentStatus(SetAppointmentStatus(appointments, id, status), id, status) ==
      SetAppointmentStatus(appointments, id, status)
  {
  }

  /** `services.map(s => s.id === id ? { ...s, ...data } : s)`. */
  function PatchServices(services: seq<AdminService>, id: string, p: ServicePatch): (r: seq<AdminService>)
    ensures |r| == |services|
  {
    seq(|services|, i requires 0 <= i < |services| =>
      if services[i].id == id then MergeService(services[i], p) else services[i])
  }

  /** `stylists.map(s => s.id === id ? { ...s, ...data } : s)`. */
  function PatchStylists(stylists: seq<AdminStylist>, id: string, p: StylistPatch): (r: seq<AdminStylist>)
    ensures |r| == |stylists|
  {
    seq(|stylists|, i requires 0 <= i < |stylists| =>
      if stylists[i].id == id then MergeStylist(stylists[i], p) else stylists[i])
  }

  /**
   * A patch reaches the entries with the id alone. Since the patch may carry an id of its own,
   * the entries keep their ids exactly when it does not.
   */
  lemma PatchesTouchOnlyTarget(services: seq<AdminService>, sid: string, sp: ServicePatch,
                               stylists: seq<AdminStylist>, tid: string, tp: StylistPatch)
    ensures forall i :: 0 <= i < |services| && services[i].id != sid ==> PatchServices(services, sid, sp)[i] == services[i]
    ensures forall i :: 0 <= i < |stylists| && stylists[i].id != tid ==> PatchStylists(stylists, tid, tp)[i] == stylists[i]
    ensures forall i :: 0 <= i < |services| && services[i].id == sid ==> PatchServices(services, sid, sp)[i] == MergeService(services[i], sp)
    ensures forall i :: 0 <= i < |stylists| && stylists[i].id == tid ==> PatchStylists(stylists, tid, tp)[i] == MergeStylist(stylists[i], tp)
    ensures sp.id.None? ==> forall i :: 0 <= i < |services| ==> PatchServices(services, sid, sp)[i].id == services[i].id
    ensures tp.id.None? ==> forall i :: 0 <= i < |stylists| ==> PatchStylists(stylists, tid, tp)[i].id == stylists[i].id
    ensures PatchServices(services, sid, EmptyServicePatch) == services
    ensures PatchStylists(stylists, tid, EmptyStylistPatch) == stylists
  {
  }

  /** `services.filter(s => s.id !== id)`. */
  function DropService(services: seq<AdminService>, id: string): seq<AdminService>
  {
    Seqs.Filter(services, (s: AdminService) => s.id != id)
  }

  /** `stylists.filter(s => s.id !== id)`. */
  function DropStylist(stylists: seq<AdminStylist>, id: string): seq<AdminStylist>
  {
    Seqs.Filter(stylists, (s: AdminStylist) => s.id != id)
  }

  /**
   * A delete removes every entry with the id and keeps every other entry, in order; deleting
   * again changes nothing.
   */
  lemma DropRemovesExactlyTarget(services: seq<AdminService>, id: string, s: AdminService)
    ensures s in DropService(services, id) <==> s in services && s.id != id
    ensures Seqs.IsSubsequence(DropService(services, id), services)
    ensures DropService(DropService(services, id), id) == DropService(services, id)
  {
    var p := (x: AdminService) => x.id != id;
    var r := DropService(services, id);
    if s in r {
      var i :| 0 <= i < |r| && r[i] == s;
    }
    if s in services && s.id != id {
      var i :| 0 <= i < |services| && services[i] == s;
    }
    Seqs.FilterIsSubsequence(services, p);
    Seqs.FilterIdempotent(services, p);
  }

  /** The same for stylists. */
  lemma DropStylistRemovesExactlyTarget(stylists: seq<AdminStylist>, id: string, s: AdminStylist)
    ensures s in DropStylist(stylists, id) <==> s in stylists && s.id != id
    ensures Seqs.IsSubsequence(DropStylist(stylists, id), stylists)
  {
    var p := (x: AdminStylist) => x.id != id;
    var r := DropStylist(stylists, id);
    if s in r {
      var i :| 0 <= i < |r| && r[i] == s;
    }
    if s in stylists && s.id != id {
      var i :| 0 <= i < |stylists| && stylists[i] == s;
    }
    Seqs.FilterIsSubsequence(stylists, p);
  }

  /** `useAdminStore`. */
  class AdminStore {
    var users: seq<User>
    var usersPagination: Pagination
    var appointments: seq<AdminAppointment>
    var appointmentsPagination: Pagination
    var services: seq<AdminService>
    var servicesLoading: bool
    var stylists: seq<AdminStylist>
    var stylistsLoading: bool
    var stats: Option<AdminStats>
    var statsLoading: bool
    var userFilters: Option<UserFilters>
    var appointmentFilters: Option<AppointmentFilters>

    /** The initial state: empty lists, no cursor, more pages assumed, nothing loading. */
    constructor ()
      ensures users == [] && usersPagination == Pagination(NoCursor, true, false)
      ensures appointments == [] && appointmentsPagination == Pagination(NoCursor, true, false)
      ensures services == [] && !servicesLoading && stylists == [] && !stylistsLoading
      ensures stats == None && !statsLoading
      ensures userFilters == None && appointmentFilters == None
    {
      users := [];
      usersPagination := Pagination(NoCursor, true, false);
      appointments := [];
      appointmentsPagination := Pagination(NoCursor, true, false);
      services := [];
      servicesLoading := false;
      stylists := [];
      stylistsLoading := false;
      stats := None;
      statsLoading := false;
      userFilters := None;
      appointmentFilters := None;
    }

    /** `fetchUsers`, up to the request: marks the list loading and asks for the first page. */
    method StartFetchUsers(filters: Option<UserFilters>) returns (q: Query<UserFilters>)
      modifies this`usersPagination
      ensures usersPagination == old(usersPagination).(loading := true)
      ensures q == Query(UsersPageSize, NoCursor, filters)
    {
      usersPagination := usersPagination.(loading := true);
      q := Query(UsersPageSize, NoCursor, filters);
    }

    /**
     * `fetchUsers`, after the answer: a page replaces the list, moves the cursor, records the
     * filters and leaves more pages expected exactly when it was full; a failure only stops loading.
     */
    method FinishFetchUsers(filters: Option<UserFilters>, response: Option<Page<User>>)
      modifies this`users, this`usersPagination, this`userFilters
      ensures response.Some? ==>
        && users == response.value.items
        && usersPagination == Pagination(response.value.lastDoc, |response.value.items| == UsersPageSize, false)
        && userFilters == filters
      ensures response.None? ==>
        users == old(users) && userFilters == old(userFilters) && usersPagination == old(usersPagination).(loading := false)
    {
      if response.Some? {
        users := response.value.items;
        usersPagination := Pagination(response.value.lastDoc, |response.value.items| == UsersPageSize, false);
        userFilters := filters;
      } else {
        usersPagination := usersPagination.(loading := false);
      }
    }

    /**
     * `loadMoreUsers`, up to the request: nothing happens while a request is out or after a short
     * page; otherwise the list is marked loading and the next page is asked for after the stored
     * cursor with the stored filters.
     */
    method StartLoadMoreUsers() returns (q: Option<Query<UserFilters>>)
      modifies this`usersPagination
      ensures !old(usersPagination.hasMore) || old(usersPagination.loading) ==>
        q == None && usersPagination == old(usersPagination)
      ensures old(usersPagination.hasMore) && !old(usersPagination.loading) ==>
        && q == Some(Query(UsersPageSize, old(usersPagination.lastDoc), userFilters))
        && usersPagination == old(usersPagination).(loading := true)
    {
      if !usersPagination.hasMore || usersPagination.loading {
        return None;
      }
      usersPagination := usersPagination.(loading := true);
      q := Some(Query(UsersPageSize, usersPagination.lastDoc, userFilters));
    }

    /** `loadMoreUsers`, after the answer: a page is appended to the list as it is now. */
    method FinishLoadMoreUsers(response: Option<Page<User>>)
      modifies this`users, this`usersPagination
      ensures response.Some? ==>
        && users == old(users) + response.value.items
        && usersPagination == Pagination(response.value.lastDoc, |response.value.items| == UsersPageSize, false)
      ensures response.None? ==> users == old(users) && usersPagination == old(usersPagination).(loading := false)
    {
      if response.Some? {
        users := users + response.value.items;
        usersPagination := Pagination(response.value.lastDoc, |response.value.items| == UsersPageSize, false);
      } else {
        usersPagination := usersPagination.(loading := false);
      }
    }

    /** `fetchAppointments`, up to the request. */
    method StartFetchAppointments(filters: Option<AppointmentFilters>) returns (q: Query<AppointmentFilters>)
      modifies this`appointmentsPagination
      ensures appointmentsPagination == old(appointmentsPagination).(loading := true)
      ensures q == Query(AppointmentsPageSize, NoCursor, filters)
    {
      appointmentsPagination := appointmentsPagination.(loading := true);
      q := Query(AppointmentsPageSize, NoCursor, filters);
    }

    /** `fetchAppointments`, after the answer: as for users, with pages of twenty. */
    method FinishFetchAppointments(filters: Option<AppointmentFilters>, response: Option<Page<AdminAppointment>>)
      modifies this`appointments, this`appointmentsPagination, this`appointmentFilters
      ensures response.Some? ==>
        && appointments == response.value.items
        && appointmentsPagination == Pagination(response.value.lastDoc, |response.value.items| == AppointmentsPageSize, false)
        && appointmentFilters == filters
      ensures response.None? ==>
        && appointments == old(appointments) && appointmentFilters == old(appointmentFilters)
        && appointmentsPagination == old(appointmentsPagination).(loading := false)
    {
      if response.Some? {
        appointments := response.value.items;
        appointmentsPagination := Pagination(response.value.lastDoc, |response.value.items| == AppointmentsPageSize, false);
        appointmentFilters := filters;
      } else {
        appointmentsPagination := appointmentsPagination.(loading := false);
      }
    }

    /** `loadMoreAppointments`, up to the request. */
    method StartLoadMoreAppointments() returns (q: Option<Query<AppointmentFilters>>)
      modifies this`appointmentsPagination
      ensures !old(appointmentsPagination.hasMore) || old(appointmentsPagination.loading) ==>
        q == None && appointmentsPagination == old(appointmentsPagination)
      ensures old(appointmentsPagination.hasMore) && !old(appointmentsPagination.loading) ==>
        && q == Some(Query(AppointmentsPageSize, old(appointmentsPagination.lastDoc), appointmentFilters))
        && appointmentsPagination == old(appointmentsPagination).(loading := true)
    {
      if !appointmentsPagination.hasMore || appointmentsPagination.loading {
        return None;
      }
      appointmentsPagination := appointmentsPagination.(loading := true);
      q := Some(Query(AppointmentsPageSize, appointmentsPagination.lastDoc, appointmentFilters));
    }

    /** `loadMoreAppointments`, after the answer. */
    method FinishLoadMoreAppointments(response: Option<Page<AdminAppointment>>)
      modifies this`appointments, this`appointmentsPagination
      ensures response.Some? ==>
        && appointments == old(appointments) + response.value.items
        && appointmentsPagination == Pagination(response.value.lastDoc, |response.value.items| == AppointmentsPageSize, false)
      ensures response.None? ==>
        appointments == old(appointments) && appointmentsPagination == old(appointmentsPagination).(loading := false)
    {
      if response.Some? {
        appointments := appointments + response.value.items;
        appointmentsPagination := Pagination(response.value.lastDoc, |response.value.items| == AppointmentsPageSize, false);
      } else {
        appointmentsPagination := appointmentsPagination.(loading := false);
      }
    }

    /** `updateUserRole`: mirrored only when the write succeeds; a failure is re-thrown (`ok` false). */
    method UpdateUserRole(id: string, role: string, writeOk: bool) returns (ok: bool)
      modifies this`users
      ensures ok == writeOk
      ensures users == if writeOk then SetUserRole(old(users), id, role) else old(users)
    {
      if writeOk {
        users := SetUserRole(users, id, role);
      }
      ok := writeOk;
    }

    /** `suspendUser`, `reactivateUser` and `deleteUser`: the status 'suspended', 'active' or 'deleted'. */
    method SetStatus(id: string, status: string, writeOk: bool) returns (ok: bool)
      modifies this`users
      ensures ok == writeOk
      ensures users == if writeOk then SetUserStatus(old(users), id, status) else old(users)
    {
      if writeOk {
        users := SetUserStatus(users, id, status);
      }
      ok := writeOk;
    }

    method SuspendUser(id: string, writeOk: bool) returns (ok: bool)
      modifies this`users
      ensures ok == writeOk
      ensures users == if writeOk then SetUserStatus(old(users), id, "suspended") else old(users)
    {
      ok := SetStatus(id, "suspended", writeOk);
    }

    method ReactivateUser(id: string, writeOk: bool) returns (ok: bool)
      modifies this`users
      ensures ok == writeOk
      ensures users == if writeOk then SetUserStatus(old(users), id, "active") else old(users)
    {
      ok := SetStatus(id, "active", writeOk);
    }

    method DeleteUser(id: string, writeOk: bool) returns (ok: bool)
      modifies this`users
      ensures ok == writeOk
      ensures users == if writeOk then SetUserStatus(old(users), id, "deleted") else old(users)
      ensures |users| == |old(users)|
    {
      ok := SetStatus(id, "deleted", writeOk);
    }

    /** `updateAppointmentStatus`. */
    method UpdateAppointmentStatus(id: string, status: string, writeOk: bool) returns (ok: bool)
      modifies this`appointments
      ensures ok == writeOk
      ensures appointments == if writeOk then SetAppointmentStatus(old(appointments), id, status) else old(appointments)
    {
      if writeOk {
        appointments := SetAppointmentStatus(appointments, id, status);
      }
      ok := writeOk;
    }

    /** `fetchServices`: the list read replaces the old one; a failure keeps it. Loading ends either way. */
    method FetchServices(response: Option<seq<AdminService>>)
      modifies this`services, this`servicesLoading
      ensures !servicesLoading
      ensures services == if response.Some? then response.value else old(services)
    {
      servicesLoading := true;
      if response.Some? {
        services := response.value;
      }
      servicesLoading := false;
    }

    /** `addService`: the new service, with the id the store assigned, goes at the end. */
    method AddService(service: AdminService, write: AddResult) returns (ok: bool)
      modifies this`services
      ensures ok == write.Added?
      ensures write.Added? ==> services == old(services) + [service.(id := write.id)]
      ensures write.AddFailed? ==> services == old(services)
    {
      if write.Added? {
        services := services + [service.(id := write.id)];
      }
      ok := write.Added?;
    }

    /** `updateService`. */
    method UpdateService(id: string, patch: ServicePatch, writeOk: bool) returns (ok: bool)
      modifies this`services
      ensures ok == writeOk
      ensures services == if writeOk then PatchServices(old(services), id, patch) else old(services)
    {
      if writeOk {
        services := PatchServices(services, id, patch);
      }
      ok := writeOk;
    }

    /** `deleteService`. */
    method DeleteService(id: string, writeOk: bool) returns (ok: bool)
      modifies this`services
      ensures ok == writeOk
      ensures services == if writeOk then DropService(old(services), id) else old(services)
    {
      if writeOk {
        services := DropService(services, id);
      }
      ok := writeOk;
    }

    /** `fetchStylists`. */
    method FetchStylists(response: Option<seq<AdminStylist>>)
      modifies this`stylists, this`stylistsLoading
      ensures !stylistsLoading
      ensures stylists == if response.Some? then response.value else old(stylists)
    {
      stylistsLoading := true;
      if response.Some? {
        stylists := response.value;
      }
      stylistsLoading := false;
    }

    /** `addStylist`. */
    method AddStylist(stylist: AdminStylist, write: AddResult) returns (ok: bool)
      modifies this`stylists
      ensures ok == write.Added?
      ensures write.Added? ==> stylists == old(stylists) + [stylist.(id := write.id)]
      ensures write.AddFailed? ==> stylists == old(stylists)
    {
      if write.Added? {
        stylists := stylists + [stylist.(id := write.id)];
      }
      ok := write.Added?;
    }

    /** `updateStylist`. */
    method UpdateStylist(id: string, patch: StylistPatch, writeOk: bool) returns (ok: bool)
      modifies this`stylists
      ensures ok == writeOk
      ensures stylists == if writeOk then PatchStylists(old(stylists), id, patch) else old(stylists)
    {
      if writeOk {
        stylists := PatchStylists(stylists, id, patch);
      }
      ok := writeOk;
    }

    /** `deleteStylist`. */
    method DeleteStylist(id: string, writeOk: bool) returns (ok: bool)
      modifies this`stylists
      ensures ok == writeOk
      ensures stylists == if writeOk then DropStylist(old(stylists), id) else old(stylists)
    {
      if writeOk {
        stylists := DropStylist(stylists, id);
      }
      ok := writeOk;
    }

    /** `fetchStats`: the figures computed by the admin service, or the old ones on failure. */
    method FetchStats(response: Option<AdminStats>)
      modifies this`stats, this`statsLoading
      ensures !statsLoading
      ensures stats == if response.Some? then response else old(stats)
    {
      statsLoading := true;
      if response.Some? {
        stats := response;
      }
      statsLoading := false;
    }
  }
}
