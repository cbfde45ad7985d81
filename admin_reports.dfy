// The admin service's figures: the dashboard statistics and the per-date
// revenue report. The documents a query returns are inputs, and so are
// today's date, the current month and year, and the local zone's offset from UTC.

module AdminReports {
  import opened Wrappers
  import opened AdminTypes
  import Seqs
  import Text
  import AdminStore

  predicate IsActive(u: User)
  {
    u.status == "active"
  }

  /** `users.filter(u => u.status === 'active').length`. */
  function ActiveUsers(users: seq<User>): nat
  {
    Seqs.Count(users, IsActive)
  }

  /** The size of the `date == today` query. */
  function TodayAppointments(appointments: seq<AdminAppointment>, today: string): nat
  {
    Seqs.Count(appointments, (a: AdminAppointment) => a.date == today)
  }

  predicate IsCompleted(a: AdminAppointment)
  {
    a.status == "completed"
  }

  /**
   * Month (0 to 11) and year of `new Date(date)` in local time, for a "YYYY-MM-DD" date.
   * Such a date is read as midnight UTC, which west of UTC (`utcOffset < 0`, in minutes) is
   * the evening before: there the 1st of a month counts in the month before. `None` for text
   * of any other shape, which this model does not read (`Date` accepts some of them).
   */
  function MonthOf(date: string, utcOffset: int): (r: Option<(int, int)>)
    ensures r.Some? ==> 0 <= r.value.0 < 12 && r.value.1 >= -1
  {
    if |date| == 10 && date[4] == '-' && date[7] == '-'
       && Text.AllDigits(date[..4]) && Text.AllDigits(date[5..7]) && Text.AllDigits(date[8..])
       && 1 <= Text.DecimalValue(date[5..7]) <= 12 && 1 <= Text.DecimalValue(date[8..]) <= 31
    then
      var year := Text.DecimalValue(date[..4]) as int;
      var month := Text.DecimalValue(date[5..7]) - 1;
      if utcOffset < 0 && Text.DecimalValue(date[8..]) == 1 then
        if month == 0 then Some((11, year - 1)) else Some((month - 1, year))
      else Some((month, year))
    else None
  }

  /**
   * At UTC or east of it a date counts in its own month; west of UTC the same holds for
   * every day but the 1st, and a date is read as a month on either side exactly when it is
   * read on the other.
   */
  lemma MonthOfZones(date: string, utcOffset: int)
    ensures MonthOf(date, utcOffset).Some? <==> MonthOf(date, 0).Some?
    ensures utcOffset >= 0 ==> MonthOf(date, utcOffset) == MonthOf(date, 0)
    ensures MonthOf(date, 0).Some? && Text.DecimalValue(date[8..]) != 1 ==> MonthOf(date, utcOffset) == MonthOf(date, 0)
  {
  }

  /**
   * West of UTC the 1st of a month counts in the month before it, and the 1st of January in
   * December of the year before.
   */
  lemma FirstOfMonthWestOfUtc(date: string, utcOffset: int)
    requires MonthOf(date, 0).Some? && Text.DecimalValue(date[8..]) == 1 && utcOffset < 0
    ensures MonthOf(date, 0).value.0 > 0 ==>
      MonthOf(date, utcOffset) == Some((MonthOf(date, 0).value.0 - 1, MonthOf(date, 0).value.1))
    ensures MonthOf(date, 0).value.0 == 0 ==> MonthOf(date, utcOffset) == Some((11, MonthOf(date, 0).value.1 - 1))
  {
  }

  /** For instance, five hours west of UTC, 1 January 2024 counts in December 2023. */
  lemma NewYearWestOfUtc()
    ensures MonthOf("2024-01-01", 0) == Some((0, 2024))
    ensures MonthOf("2024-01-01", -300) == Some((11, 2023))
  {
    var date := "2024-01-01";
    assert date[..4] == "2024" && date[5..7] == "01" && date[8..] == "01";
    assert "2024"[..3] == "202" && "202"[..2] == "20" && "20"[..1] == "2" && "2"[..0] == "";
    assert Text.DecimalValue("2024") == 2024;
    assert "01"[..1] == "0" && "0"[..0] == "";
    assert Text.DecimalValue("01") == 1;
  }

  /** What one appointment adds to the total revenue: its price if it is completed. */
  function RevenueShare(a: AdminAppointment): int
  {
    if IsCompleted(a) then a.totalPrice else 0
  }

  /** What one appointment adds to the month's revenue. */
  function MonthlyShare(a: AdminAppointment, month: int, year: int, utcOffset: int): int
  {
    if IsCompleted(a) && MonthOf(a.date, utcOffset) == Some((month, year)) then a.totalPrice else 0
  }

  function TotalRevenue(appointments: seq<AdminAppointment>): int
  {
    Seqs.Sum(appointments, RevenueShare)
  }

  function MonthlyRevenue(appointments: seq<AdminAppointment>, month: int, year: int, utcOffset: int): int
  {
    Seqs.Sum(appointments, (a: AdminAppointment) => MonthlyShare(a, month, year, utcOffset))
  }

  /**
   * `getAdminStats`: the user and appointment counts, and one pass over the appointments that
   * adds every completed price to the total and those dated in the current month and year to
   * the month's figure.
   */
  method GetAdminStats(users: seq<User>, appointments: seq<AdminAppointment>, today: string, month: int, year: int, utcOffset: int)
    returns (stats: AdminStats)
    ensures stats == AdminStats(|users|, ActiveUsers(users), |appointments|, TodayAppointments(appointments, today),
                                TotalRevenue(appointments), MonthlyRevenue(appointments, month, year, utcOffset))
  {
    var totalRevenue := 0;
    var monthlyRevenue := 0;
    var i := 0;
    while i < |appointments|
      invariant 0 <= i <= |appointments|
      invariant totalRevenue == TotalRevenue(appointments[..i])
      invariant monthlyRevenue == MonthlyRevenue(appointments[..i], month, year, utcOffset)
    {
      var a := appointments[i];
      assert appointments[..i + 1][..i] == appointments[..i];
      if a.status == "completed" {
        totalRevenue := totalRevenue + a.totalPrice;
        if MonthOf(a.date, utcOffset) == Some((month, year)) {
          monthlyRevenue := monthlyRevenue + a.totalPrice;
        }
      }
      i := i + 1;
    }
    assert appointments[..i] == appointments;
    stats := AdminStats(|users|, ActiveUsers(users), |appointments|, TodayAppointments(appointments, today),
                        totalRevenue, monthlyRevenue);
  }

  function Price(a: AdminAppointment): int
  {
    a.totalPrice
  }

  /** The total revenue is the sum of the completed appointments' prices; no other status contributes. */
  lemma {:induction false} RevenueIsCompletedPrices(appointments: seq<AdminAppointment>)
    ensures TotalRevenue(appointments) == Seqs.Sum(Seqs.Filter(appointments, IsCompleted), Price)
  {
    if appointments != [] {
      var x := appointments[0];
      var rest := appointments[1..];
      assert appointments == [x] + rest;
      RevenueIsCompletedPrices(rest);
      Seqs.SumCons(x, rest, RevenueShare);
      if IsCompleted(x) {
        Seqs.SumCons(x, Seqs.Filter(rest, IsCompleted), Price);
      }
    }
  }

  lemma {:induction false} MonthlyAtMostTotal(appointments: seq<AdminAppointment>, month: int, year: int, utcOffset: int)
    requires forall i :: 0 <= i < |appointments| && IsCompleted(appointments[i]) ==> appointments[i].totalPrice >= 0
    ensures 0 <= MonthlyRevenue(appointments, month, year, utcOffset) <= TotalRevenue(appointments)
  {
    if appointments != [] {
      var n := |appointments| - 1;
      MonthlyAtMostTotal(appointments[..n], month, year, utcOffset);
    }
  }

  /**
   * The dashboard's figures are consistent: active users and today's appointments are among
   * all users and appointments, and when no completed appointment has a negative price the
   * month's revenue is part of the total.
   */
  lemma StatsBounds(users: seq<User>, appointments: seq<AdminAppointment>, today: string, month: int, year: int, utcOffset: int)
    requires forall i :: 0 <= i < |appointments| && IsCompleted(appointments[i]) ==> appointments[i].totalPrice >= 0
    ensures ActiveUsers(users) <= |users|
    ensures TodayAppointments(appointments, today) <= |appointments|
    ensures 0 <= MonthlyRevenue(appointments, month, year, utcOffset) <= TotalRevenue(appointments)
  {
    MonthlyAtMostTotal(appointments, month, year, utcOffset);
  }

  /**
   * Marking the one appointment with an id as completed from another status adds exactly its
   * price to the total revenue.
   */
  lemma CompletingAddsPrice(appointments: seq<AdminAppointment>, k: int)
    requires 0 <= k < |appointments| && !IsCompleted(appointments[k])
    requires forall i :: 0 <= i < |appointments| && i != k ==> appointments[i].id != appointments[k].id
    ensures TotalRevenue(AdminStore.SetAppointmentStatus(appointments, appointments[k].id, "completed")) ==
      TotalRevenue(appointments) + appointments[k].totalPrice
  {
    var b := AdminStore.SetAppointmentStatus(appointments, appointments[k].id, "completed");
    assert forall i :: 0 <= i < |appointments| && i != k ==> b[i] == appointments[i];
    Seqs.SumDiffAt(appointments, b, k, RevenueShare);
  }

  /** One row of the revenue report. */
  datatype ReportRow = ReportRow(date: string, revenue: int, appointments: int)

  /** The dates of `docs` without repeats, in the order each first appears. */
  function DistinctDates(docs: seq<AdminAppointment>): seq<string>
  {
    if docs == [] then []
    else
      var earlier := DistinctDates(docs[..|docs| - 1]);
      if docs[|docs| - 1].date in earlier then earlier else earlier + [docs[|docs| - 1].date]
  }

  /** The sum of `w` over the documents dated `d`. */
  function Tally(docs: seq<AdminAppointment>, d: string, w: AdminAppointment -> int): int
  {
    if docs == [] then 0
    else Tally(docs[..|docs| - 1], d, w) + (if docs[|docs| - 1].date == d then w(docs[|docs| - 1]) else 0)
  }

  function One(a: AdminAppointment): int
  {
    1
  }

  /** One row per date: the date, the revenue of its documents and how many there are. */
  function RowsFor(dates: seq<string>, docs: seq<AdminAppointment>): (r: seq<ReportRow>)
    ensures |r| == |dates|
  {
    seq(|dates|, j requires 0 <= j < |dates| => ReportRow(dates[j], Tally(docs, dates[j], Price), Tally(docs, dates[j], One)))
  }

  /** The report `getRevenueReport` returns for the documents of its query. */
  function Report(docs: seq<AdminAppointment>): seq<ReportRow>
  {
    RowsFor(DistinctDates(docs), docs)
  }

  /** Some document is dated `d`. */
  predicate Dated(docs: seq<AdminAppointment>, d: string)
  {
    exists i :: 0 <= i < |docs| && docs[i].date == d
  }

  lemma DatedSplit(docs: seq<AdminAppointment>, d: string)
    requires docs != []
    ensures Dated(docs, d) <==> Dated(docs[..|docs| - 1], d) || docs[|docs| - 1].date == d
  {
    var n := |docs| - 1;
    if Dated(docs, d) {
      var i :| 0 <= i < |docs| && docs[i].date == d;
      if i < n {
        assert docs[..n][i].date == d;
      }
    }
    if Dated(docs[..n], d) {
      var i :| 0 <= i < n && docs[..n][i].date == d;
      assert docs[i].date == d;
    }
  }

  /** A document's date is listed exactly when some document has it, and never twice. */
  lemma {:induction false} DistinctDatesSpec(docs: seq<AdminAppointment>)
    ensures Seqs.Distinct(DistinctDates(docs))
    ensures forall d :: d in DistinctDates(docs) <==> Dated(docs, d)
  {
    if docs != [] {
      var n := |docs| - 1;
      DistinctDatesSpec(docs[..n]);
      forall d ensures d in DistinctDates(docs) <==> Dated(docs, d)
      {
        DatedSplit(docs, d);
      }
    }
  }

  /** The dates of a prefix of the documents come first, in the same order: first-occurrence order. */
  lemma {:induction false} DistinctDatesPrefix(docs: seq<AdminAppointment>, k: nat)
    requires k <= |docs|
    ensures DistinctDates(docs[..k]) <= DistinctDates(docs)
    decreases |docs| - k
  {
    if k < |docs| {
      DistinctDatesPrefix(docs, k + 1);
      assert docs[..k + 1][..k] == docs[..k];
    } else {
      assert docs[..k] == docs;
    }
  }

  /** A date no document has tallies to nothing. */
  lemma {:induction false} UnlistedTallyZero(docs: seq<AdminAppointment>, d: string, w: AdminAppointment -> int)
    requires d !in DistinctDates(docs)
    ensures Tally(docs, d, w) == 0
  {
    if docs != [] {
      var n := |docs| - 1;
      UnlistedTallyZero(docs[..n], d, w);
    }
  }

  /**
   * `getRevenueReport`: one pass over the documents that opens an entry the first time a date
   * is seen and adds each price and one appointment to its date's entry; the entries are then
   * listed in the order they were opened.
   */
  method RevenueReport(docs: seq<AdminAppointment>) returns (rows: seq<ReportRow>)
    ensures rows == Report(docs)
  {
    var keys: seq<string> := [];
    var data: map<string, (int, int)> := map[];
    var i := 0;
    while i < |docs|
      invariant 0 <= i <= |docs|
      invariant keys == DistinctDates(docs[..i])
      invariant forall d :: d in data <==> d in keys
      invariant forall d :: d in data ==> data[d] == (Tally(docs[..i], d, Price), Tally(docs[..i], d, One))
    {
      var a := docs[i];
      assert docs[..i + 1][..i] == docs[..i];
      if a.date !in data {
        UnlistedTallyZero(docs[..i], a.date, Price);
        UnlistedTallyZero(docs[..i], a.date, One);
        keys := keys + [a.date];
        data := data[a.date := (0, 0)];
      }
      var entry := data[a.date];
      data := data[a.date := (entry.0 + a.totalPrice, entry.1 + 1)];
      i := i + 1;
    }
    assert docs[..i] == docs;
    rows := seq(|keys|, j requires 0 <= j < |keys| => ReportRow(keys[j], data[keys[j]].0, data[keys[j]].1));
  }

  /** Sum of `w`'s tallies over a list of dates. */
  function SumOverDates(dates: seq<string>, docs: seq<AdminAppointment>, w: AdminAppointment -> int): int
  {
    if dates == [] then 0
    else SumOverDates(dates[..|dates| - 1], docs, w) + Tally(docs, dates[|dates| - 1], w)
  }

  /** One more document adds its weight to the sum over a repeat-free list exactly when its date is listed. */
  lemma {:induction false} SumOverDatesStep(dates: seq<string>, docs: seq<AdminAppointment>, x: AdminAppointment, w: AdminAppointment -> int)
    requires Seqs.Distinct(dates)
    ensures SumOverDates(dates, docs + [x], w) == SumOverDates(dates, docs, w) + (if x.date in dates then w(x) else 0)
  {
    assert (docs + [x])[..|docs|] == docs;
    if dates != [] {
      var n := |dates| - 1;
      assert Seqs.Distinct(dates[..n]);
      SumOverDatesStep(dates[..n], docs, x, w);
      assert x.date in dates <==> x.date in dates[..n] || x.date == dates[n];
      assert x.date in dates[..n] ==> x.date != dates[n];
    }
  }

  /** Summing a tally over the distinct dates counts every document once. */
  lemma {:induction false} SumOverDistinctDates(docs: seq<AdminAppointment>, w: AdminAppointment -> int)
    ensures SumOverDates(DistinctDates(docs), docs, w) == Seqs.Sum(docs, w)
  {
    if docs != [] {
      var n := |docs| - 1;
      var x := docs[n];
      var earlier := docs[..n];
      assert docs == earlier + [x];
      var dates := DistinctDates(earlier);
      SumOverDistinctDates(earlier, w);
      DistinctDatesSpec(earlier);
      SumOverDatesStep(dates, earlier, x, w);
      if x.date !in dates {
        UnlistedTallyZero(earlier, x.date, w);
        assert (dates + [x.date])[..|dates|] == dates;
      }
    }
  }

  lemma {:induction false} RowSums(dates: seq<string>, docs: seq<AdminAppointment>)
    ensures Seqs.Sum(RowsFor(dates, docs), (r: ReportRow) => r.revenue) == SumOverDates(dates, docs, Price)
    ensures Seqs.Sum(RowsFor(dates, docs), (r: ReportRow) => r.appointments) == SumOverDates(dates, docs, One)
  {
    if dates != [] {
      var n := |dates| - 1;
      assert RowsFor(dates, docs)[..n] == RowsFor(dates[..n], docs);
      RowSums(dates[..n], docs);
    }
  }

  lemma {:induction false} SumOfOnes(docs: seq<AdminAppointment>)
    ensures Seqs.Sum(docs, One) == |docs|
  {
    if docs != [] {
      SumOfOnes(docs[..|docs| - 1]);
    }
  }

  /**
   * The report covers every document once: one row per distinct date, in first-occurrence
   * order, whose appointment counts add up to the number of documents and whose revenues add
   * up to the sum of all their prices.
   */
  lemma ReportTotals(docs: seq<AdminAppointment>)
    ensures |Report(docs)| == |DistinctDates(docs)|
    ensures forall j :: 0 <= j < |Report(docs)| ==> Report(docs)[j].date == DistinctDates(docs)[j]
    ensures Seqs.Sum(Report(docs), (r: ReportRow) => r.appointments) == |docs|
    ensures Seqs.Sum(Report(docs), (r: ReportRow) => r.revenue) == Seqs.Sum(docs, Price)
  {
    RowSums(DistinctDates(docs), docs);
    SumOverDistinctDates(docs, Price);
    SumOverDistinctDates(docs, One);
    SumOfOnes(docs);
  }
}
