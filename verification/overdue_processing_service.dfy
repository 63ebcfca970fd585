/**
 * The overdue sweep: every loan holding an item overdue past the threshold gets its
 * patron suspended (unless already suspended) and an OVERDUE_ITEM fine per overdue
 * CHECKED_OUT item that has none yet, priced per day overdue.
 *
 * The clock and the two configuration values (`fine.daily.amount`,
 * `overdue.threshold.days`) are parameters.
 */
module OverdueProcessingService {
  import opened Common
  import opened Calendar
  import opened Model
  import opened Store
  import PatronService
  import FineService
  import SequenceGenerator

  /** Today minus the configured number of days. */
  function OverdueThreshold(today: Day, thresholdDays: int): (threshold: Day)
    ensures threshold + thresholdDays == today
  {
    today - thresholdDays
  }

  /** The item is still out and its due date is strictly before the threshold. */
  predicate Overdue(item: LoanItem, threshold: Day)
  {
    item.status == ItemStatus.CheckedOut && item.dueDate < threshold
  }

  predicate HasOverdueItem(loan: Loan, threshold: Day)
  {
    exists k :: 0 <= k < |loan.items| && Overdue(loan.items[k], threshold)
  }

  // ---------------------------------------------------------------------------
  // The overdue-loans query

  /** The item's stored status name matches `status` and its due date is before the threshold. */
  predicate MatchesItem(item: LoanItem, threshold: Day, status: string)
  {
    item.dueDate < threshold && ItemStatusName(item.status) == status
  }

  function ItemMatch(threshold: Day, status: string): Loan -> bool
  {
    (l: Loan) => exists k :: 0 <= k < |l.items| && MatchesItem(l.items[k], threshold, status)
  }

  /**
   * `findLoansWithOverdueItems` as written: the status in the query is "CHECKED_0UT",
   * with a digit zero, which is the name of no item status, so no loan is ever found.
   */
  function FindLoansWithOverdueItemsAsWritten(loans: seq<Loan>, threshold: Day): (r: seq<Loan>)
    ensures r == []
  {
    assert forall s: ItemStatus :: ItemStatusName(s) != "CHECKED_0UT" by {
      assert "CHECKED_OUT"[8] != "CHECKED_0UT"[8];
    }
    NothingMatches(loans, ItemMatch(threshold, "CHECKED_0UT"));
    LoansWhere(loans, ItemMatch(threshold, "CHECKED_0UT"))
  }

  /** A filter that no loan passes keeps nothing. */
  lemma {:induction false} NothingMatches(loans: seq<Loan>, p: Loan -> bool)
    requires forall l :: l in loans ==> !p(l)
    ensures LoansWhere(loans, p) == []
    decreases |loans|
  {
    if loans != [] {
      assert forall l :: l in loans[1..] ==> l in loans;
      NothingMatches(loans[1..], p);
    }
  }

  /**
   * `findLoansWithOverdueItems` as intended: the loans, in store order, with some
   * CHECKED_OUT item due before the threshold.
   */
  function FindLoansWithOverdueItems(loans: seq<Loan>, threshold: Day): (r: seq<Loan>)
    ensures forall l :: l in r <==> l in loans && HasOverdueItem(l, threshold)
  {
    var found := LoansWhere(loans, ItemMatch(threshold, "CHECKED_OUT"));
    assert forall item: LoanItem :: MatchesItem(item, threshold, "CHECKED_OUT") <==> Overdue(item, threshold) by {
      assert "RETURNED" != "CHECKED_OUT";
    }
    found
  }

  // ---------------------------------------------------------------------------
  // One item

  /** `calculateFineAmount`: whole days from the due date to today, times the daily amount. */
  function CalculateFineAmount(item: LoanItem, today: Day, finePerDay: int): (amount: int)
    ensures finePerDay > 0 && item.dueDate < today ==> amount > 0
    ensures amount == DaysBetween(item.dueDate, today) * finePerDay
  {
    (today - item.dueDate) * finePerDay
  }

  /** `ChronoUnit.DAYS.between`: the signed number of days from `from` to `to`. */
  function DaysBetween(from: Day, to: Day): (days: int)
    ensures from + days == to
  {
    to - from
  }

  /** The error that assessment raises for a duplicate and the sweep catches. */
  predicate Swallowed(e: Error)
  {
    e.General? && e.kind == FineAlreadyExists
  }

  /**
   * An overdue item whose media and patron are stored, with no OVERDUE_ITEM fine yet,
   * a positive amount and a working counter store: assessment goes through.
   */
  predicate FineDue(db: Db, patronId: int, item: LoanItem, threshold: Day, today: Day, finePerDay: int)
  {
    Overdue(item, threshold) && FineService.Chargeable(db, patronId, item.mediaId) &&
    !FineService.FineExists(db.fines, patronId, item.mediaId, OverdueItem) &&
    CalculateFineAmount(item, today, finePerDay) > 0 && !db.counterStoreFails
  }

  /**
   * The inner pass for one item: an overdue item whose patron has no OVERDUE_ITEM fine
   * for it is fined; the existence check's own errors end the sweep, a duplicate
   * reported by assessment is ignored and any other assessment error ends the sweep.
   */
  function FineItem(db: Db, patronId: int, item: LoanItem, threshold: Day, today: Day, finePerDay: int)
    : (out: (Db, Outcome))
    ensures !Overdue(item, threshold) ==> out == (db, Pass)
    ensures out.1 == Pass && out.0.fines != db.fines ==>
      Overdue(item, threshold) && !FineService.FineExists(db.fines, patronId, item.mediaId, OverdueItem) &&
      exists id :: out.0.fines == db.fines +
        [FineService.NewFine(id, patronId, item.mediaId, OverdueItem, CalculateFineAmount(item, today, finePerDay), today)]
    ensures out.1 == Pass ==> out.0.fines == db.fines || |out.0.fines| == |db.fines| + 1
    ensures Overdue(item, threshold) && out.1 == Pass ==>
      FineService.FineExists(out.0.fines, patronId, item.mediaId, OverdueItem)
    ensures FineDue(db, patronId, item, threshold, today, finePerDay) ==>
      out.1 == Pass &&
      out.0.fines == db.fines + [FineService.NewFine(SequenceGenerator.CounterValue(db, SequenceGenerator.FineCounter) + 1,
        patronId, item.mediaId, OverdueItem, CalculateFineAmount(item, today, finePerDay), today)]
    ensures out.0.patrons == db.patrons && out.0.outbox == db.outbox && out.0.loans == db.loans
    ensures out.1.Fail? ==> out.0 == db && !Swallowed(out.1.error)
  {
    if !Overdue(item, threshold) then (db, Pass)
    else
      match FineService.HasFineBeenAssessed(db, patronId, item.mediaId, OverdueItem)
      case Err(e) => (db, Fail(e))
      case Ok(true) => (db, Pass)
      case Ok(false) =>
        var amount := CalculateFineAmount(item, today, finePerDay);
        var (db1, assessed) := FineService.AssessFineSpec(db, patronId, item.mediaId, OverdueItem, amount, today);
        match assessed
        case Ok(_) =>
          assert FineService.SameCharge(db1.fines[|db.fines|], patronId, item.mediaId, OverdueItem);
          (db1, Pass)
        case Err(e) => if Swallowed(e) then (db1, Pass) else (db1, Fail(e))
  }

  /** The inner loop over a loan's items, stopping at the first error. */
  function FineItems(db: Db, patronId: int, items: seq<LoanItem>, threshold: Day, today: Day, finePerDay: int)
    : (out: (Db, Outcome))
    ensures out.0.patrons == db.patrons && out.0.outbox == db.outbox && out.0.loans == db.loans
    ensures |db.fines| <= |out.0.fines| && out.0.fines[..|db.fines|] == db.fines
    ensures forall n :: |db.fines| <= n < |out.0.fines| ==>
      out.0.fines[n].patronId == patronId && out.0.fines[n].fineType == OverdueItem
    decreases |items|
  {
    if items == [] then (db, Pass)
    else
      var (db1, o) := FineItem(db, patronId, items[0], threshold, today, finePerDay);
      if o.Fail? then (db1, o) else FineItems(db1, patronId, items[1..], threshold, today, finePerDay)
  }

  /** The outer pass for one loan: suspend the patron unless already suspended, then fine the items. */
  function SweepLoan(db: Db, loan: Loan, threshold: Day, today: Day, finePerDay: int): (out: (Db, Outcome))
  {
    var (db1, o) := SuspendUnlessSuspended(db, loan.patronId);
    if o.Fail? then (db1, o) else FineItems(db1, loan.patronId, loan.items, threshold, today, finePerDay)
  }

  /**
   * The suspension step of a pass: skipped for a suspended patron, so it can only fail
   * for a patron that is not stored.
   */
  function SuspendUnlessSuspended(db: Db, patronId: int): (out: (Db, Outcome))
    ensures PatronService.IsPatronSuspended(db, patronId) ==> out == (db, Pass)
    ensures out.1.Fail? <==> patronId !in db.patrons
    ensures out.1 == Pass ==> PatronService.IsPatronSuspended(out.0, patronId)
  {
    if PatronService.IsPatronSuspended(db, patronId) then (db, Pass)
    else PatronService.SuspendPatronSpec(db, patronId)
  }

  method SuspendIfNeeded(lib: Library, patronId: int) returns (r: Outcome)
    modifies lib
    ensures (lib.Snapshot(), r) == SuspendUnlessSuspended(old(lib.Snapshot()), patronId)
  {
    r := Pass;
    if !PatronService.IsPatronSuspended(lib.Snapshot(), patronId) {
      r := PatronService.SuspendPatron(lib, patronId);
    }
  }

  /** The outer loop over the loans found, stopping at the first error. */
  function SweepLoans(db: Db, loans: seq<Loan>, threshold: Day, today: Day, finePerDay: int): (out: (Db, Outcome))
    decreases |loans|
  {
    if loans == [] then (db, Pass)
    else
      var (db1, o) := SweepLoan(db, loans[0], threshold, today, finePerDay);
      if o.Fail? then (db1, o) else SweepLoans(db1, loans[1..], threshold, today, finePerDay)
  }

  /**
   * `suspendOverduePatrons`: the sweep over the loans the overdue query returns, as
   * it stands before the sweep writes anything.
   */
  function SuspendOverduePatronsSpec(db: Db, today: Day, thresholdDays: int, finePerDay: int): (out: (Db, Outcome))
    ensures SweepWrote(db, out.0, FindLoansWithOverdueItems(db.loans, OverdueThreshold(today, thresholdDays)))
  {
    var threshold := OverdueThreshold(today, thresholdDays);
    SweepLoansWrites(db, FindLoansWithOverdueItems(db.loans, threshold), threshold, today, finePerDay);
    SweepLoans(db, FindLoansWithOverdueItems(db.loans, threshold), threshold, today, finePerDay)
  }

  /** The inner loop of the sweep, over one loan's items. */
  method FineOverdueItems(lib: Library, patronId: int, items: seq<LoanItem>, threshold: Day, today: Day, finePerDay: int)
    returns (r: Outcome)
    modifies lib
    ensures (lib.Snapshot(), r) == FineItems(old(lib.Snapshot()), patronId, items, threshold, today, finePerDay)
  {
    ghost var db0 := lib.Snapshot();
    var j := 0;
    while j < |items|
      invariant 0 <= j <= |items|
      invariant FineItems(db0, patronId, items, threshold, today, finePerDay)
        == FineItems(lib.Snapshot(), patronId, items[j..], threshold, today, finePerDay)
    {
      var item := items[j];
      assert items[j..][0] == item && items[j..][1..] == items[j + 1..];
      if item.status == ItemStatus.CheckedOut && item.dueDate < threshold {
        var assessed := FineService.HasFineBeenAssessed(lib.Snapshot(), patronId, item.mediaId, OverdueItem);
        if assessed.Err? {
          return Fail(assessed.error);
        }
        if !assessed.value {
          var fineAmount := CalculateFineAmount(item, today, finePerDay);
          var fine := FineService.AssessFine(lib, patronId, item.mediaId, OverdueItem, fineAmount, today);
          if fine.Err? && !Swallowed(fine.error) {
            return Fail(fine.error);
          }
        }
      }
      j := j + 1;
    }
    assert items[j..] == [];
    r := Pass;
  }

  /** The body of the outer loop: suspend the loan's patron if needed, then fine its items. */
  method SweepOverdueLoan(lib: Library, loan: Loan, threshold: Day, today: Day, finePerDay: int) returns (r: Outcome)
    modifies lib
    ensures (lib.Snapshot(), r) == SweepLoan(old(lib.Snapshot()), loan, threshold, today, finePerDay)
  {
    r := SuspendIfNeeded(lib, loan.patronId);
    if r.Pass? {
      r := FineOverdueItems(lib, loan.patronId, loan.items, threshold, today, finePerDay);
    }
  }

  method SuspendOverduePatrons(lib: Library, today: Day, thresholdDays: int, finePerDay: int) returns (r: Outcome)
    modifies lib
    ensures (lib.Snapshot(), r) == SuspendOverduePatronsSpec(old(lib.Snapshot()), today, thresholdDays, finePerDay)
  {
    var threshold := today - thresholdDays;
    var overdueLoans := FindLoansWithOverdueItems(lib.loans, threshold);
    r := SweepOverdueLoans(lib, overdueLoans, threshold, today, finePerDay);
  }

  /** The outer loop of the sweep, over the loans found, stopping at the first error. */
  method SweepOverdueLoans(lib: Library, overdueLoans: seq<Loan>, threshold: Day, today: Day, finePerDay: int)
    returns (r: Outcome)
    modifies lib
    ensures (lib.Snapshot(), r) == SweepLoans(old(lib.Snapshot()), overdueLoans, threshold, today, finePerDay)
  {
    ghost var db0 := lib.Snapshot();
    var i := 0;
    assert overdueLoans[i..] == overdueLoans;
    while i < |overdueLoans|
      invariant 0 <= i <= |overdueLoans|
      invariant SweepLoans(db0, overdueLoans, threshold, today, finePerDay)
        == SweepLoans(lib.Snapshot(), overdueLoans[i..], threshold, today, finePerDay)
    {
      var loan := overdueLoans[i];
      assert overdueLoans[i..][0] == loan && overdueLoans[i..][1..] == overdueLoans[i + 1..];
      ghost var before := lib.Snapshot();
      var swept := SweepOverdueLoan(lib, loan, threshold, today, finePerDay);
      if swept.Fail? {
        return swept;
      }
      assert SweepLoans(before, overdueLoans[i..], threshold, today, finePerDay)
        == SweepLoans(lib.Snapshot(), overdueLoans[i + 1..], threshold, today, finePerDay);
      i := i + 1;
    }
    assert overdueLoans[i..] == [];
    r := Pass;
  }

  // ---------------------------------------------------------------------------
  // Properties of the sweep

  /** A patron suspended before a pass is still suspended after it. */
  predicate SuspensionsKept(db: Db, db': Db)
  {
    forall p :: p in db.patrons && db.patrons[p].status == Suspended ==>
      p in db'.patrons && db'.patrons[p].status == Suspended
  }

  /**
   * What the sweep sends: the notices it appends go to distinct patrons, each of whom
   * was not suspended before and is suspended after.
   */
  predicate SuspendedOnce(db: Db, db': Db)
  {
    |db.outbox| <= |db'.outbox| && db'.outbox[..|db.outbox|] == db.outbox &&
    (forall n :: |db.outbox| <= n < |db'.outbox| ==> FreshlySuspended(db, db', db'.outbox[n].patronId)) &&
    forall m, n :: |db.outbox| <= m < n < |db'.outbox| ==> db'.outbox[m].patronId != db'.outbox[n].patronId
  }

  predicate FreshlySuspended(db: Db, db': Db, p: int)
  {
    !PatronService.IsPatronSuspended(db, p) && PatronService.IsPatronSuspended(db', p)
  }

  /** One pass suspends the loan's patron at most once, and only if not yet suspended. */
  lemma SweepLoanSuspendsOnce(db: Db, loan: Loan, threshold: Day, today: Day, finePerDay: int)
    ensures var db' := SweepLoan(db, loan, threshold, today, finePerDay).0;
      SuspensionsKept(db, db') && SuspendedOnce(db, db')
  {
    var (db1, o) := SuspendUnlessSuspended(db, loan.patronId);
    var db' := SweepLoan(db, loan, threshold, today, finePerDay).0;
    assert db'.patrons == db1.patrons && db'.outbox == db1.outbox;
    if db1.outbox != db.outbox {
      assert db1.outbox[|db.outbox|].patronId == loan.patronId;
    }
  }

  /**
   * Over the whole sweep every patron is suspended at most once: each suspension notice
   * goes to a different patron, one who was not suspended when the sweep began.
   */
  lemma {:induction false} SweepLoansSuspendsOnce(db: Db, loans: seq<Loan>, threshold: Day, today: Day, finePerDay: int)
    ensures var db' := SweepLoans(db, loans, threshold, today, finePerDay).0;
      SuspensionsKept(db, db') && SuspendedOnce(db, db')
    decreases |loans|
  {
    if loans != [] {
      var (db1, o) := SweepLoan(db, loans[0], threshold, today, finePerDay);
      SweepLoanSuspendsOnce(db, loans[0], threshold, today, finePerDay);
      if o.Pass? {
        SweepLoansSuspendsOnce(db1, loans[1..], threshold, today, finePerDay);
        var db' := SweepLoans(db1, loans[1..], threshold, today, finePerDay).0;
        assert db'.outbox[..|db1.outbox|] == db1.outbox;
        forall n | |db.outbox| <= n < |db'.outbox|
          ensures FreshlySuspended(db, db', db'.outbox[n].patronId)
        {
          if n < |db1.outbox| {
            assert db'.outbox[n] == db1.outbox[n];
          }
        }
        forall m, n | |db.outbox| <= m < n < |db'.outbox|
          ensures db'.outbox[m].patronId != db'.outbox[n].patronId
        {
          if n < |db1.outbox| {
            assert db'.outbox[m] == db1.outbox[m] && db'.outbox[n] == db1.outbox[n];
          } else if m < |db1.outbox| {
            assert db'.outbox[m] == db1.outbox[m];
            assert PatronService.IsPatronSuspended(db1, db'.outbox[m].patronId);
            assert FreshlySuspended(db1, db', db'.outbox[n].patronId);
          }
        }
      }
    }
  }

  /** The sweep never adds a second fine for the same patron, media and type. */
  lemma {:induction false} FineItemsKeepNoDuplicates(db: Db, patronId: int, items: seq<LoanItem>,
      threshold: Day, today: Day, finePerDay: int)
    requires FineService.NoDuplicateFines(db.fines)
    ensures FineService.NoDuplicateFines(FineItems(db, patronId, items, threshold, today, finePerDay).0.fines)
    decreases |items|
  {
    if items != [] {
      var item := items[0];
      var (db1, o) := FineItem(db, patronId, item, threshold, today, finePerDay);
      if Overdue(item, threshold) && FineService.HasFineBeenAssessed(db, patronId, item.mediaId, OverdueItem) == Ok(false) {
        FineService.AssessFineKeepsNoDuplicates(db, patronId, item.mediaId, OverdueItem,
          CalculateFineAmount(item, today, finePerDay), today);
      }
      assert FineService.NoDuplicateFines(db1.fines);
      if o.Pass? {
        FineItemsKeepNoDuplicates(db1, patronId, items[1..], threshold, today, finePerDay);
      }
    }
  }

  lemma {:induction false} SweepLoansKeepNoDuplicates(db: Db, loans: seq<Loan>, threshold: Day, today: Day, finePerDay: int)
    requires FineService.NoDuplicateFines(db.fines)
    ensures FineService.NoDuplicateFines(SweepLoans(db, loans, threshold, today, finePerDay).0.fines)
    decreases |loans|
  {
    if loans != [] {
      var loan := loans[0];
      var (db1, o) := SuspendUnlessSuspended(db, loan.patronId);
      if o.Pass? {
        FineItemsKeepNoDuplicates(db1, loan.patronId, loan.items, threshold, today, finePerDay);
        var (db2, o2) := SweepLoan(db, loan, threshold, today, finePerDay);
        if o2.Pass? {
          SweepLoansKeepNoDuplicates(db2, loans[1..], threshold, today, finePerDay);
        }
      }
    }
  }

  /**
   * What a sweep may write: loans stay as they are, no patron is added or removed, a
   * changed patron is a patron of one of the swept loans now SUSPENDED, and the fines
   * gain only OVERDUE_ITEM fines for patrons of the swept loans, after the old ones.
   */
  predicate SweepWrote(db: Db, db': Db, loans: seq<Loan>)
  {
    db'.loans == db.loans && db'.patrons.Keys == db.patrons.Keys &&
    (forall p :: p in db.patrons && db'.patrons[p] != db.patrons[p] ==>
      db'.patrons[p] == db.patrons[p].(status := Suspended) && OfSweptLoan(p, loans)) &&
    |db.fines| <= |db'.fines| && db'.fines[..|db.fines|] == db.fines &&
    (forall n :: |db.fines| <= n < |db'.fines| ==>
      db'.fines[n].fineType == OverdueItem && OfSweptLoan(db'.fines[n].patronId, loans))
  }

  /** The patron holds one of the swept loans. */
  predicate OfSweptLoan(patronId: int, loans: seq<Loan>)
  {
    exists l :: l in loans && l.patronId == patronId
  }

  /** One pass writes only the loan's patron's suspension and fines for that patron. */
  lemma SweepLoanWrites(db: Db, loan: Loan, threshold: Day, today: Day, finePerDay: int)
    ensures SweepWrote(db, SweepLoan(db, loan, threshold, today, finePerDay).0, [loan])
  {
    var (db1, o) := SuspendUnlessSuspended(db, loan.patronId);
    assert db1.loans == db.loans && db1.fines == db.fines;
    assert loan in [loan] && OfSweptLoan(loan.patronId, [loan]);
  }

  /** A pass over more loans widens what may be written. */
  lemma SweepWroteWidens(db: Db, db': Db, loans: seq<Loan>, more: seq<Loan>)
    requires SweepWrote(db, db', loans)
    requires forall l :: l in loans ==> l in more
    ensures SweepWrote(db, db', more)
  {
    forall p | OfSweptLoan(p, loans) ensures OfSweptLoan(p, more) {
      var l :| l in loans && l.patronId == p;
      assert l in more;
    }
  }

  /** Two sweeps in a row write what each may write. */
  lemma SweepWroteChains(db: Db, db1: Db, db2: Db, loans: seq<Loan>)
    requires SweepWrote(db, db1, loans) && SweepWrote(db1, db2, loans)
    ensures SweepWrote(db, db2, loans)
  {
    assert db2.fines[..|db1.fines|][..|db.fines|] == db2.fines[..|db.fines|];
    forall n | |db.fines| <= n < |db2.fines|
      ensures db2.fines[n].fineType == OverdueItem && OfSweptLoan(db2.fines[n].patronId, loans)
    {
      if n < |db1.fines| {
        assert db2.fines[n] == db1.fines[n];
      }
    }
  }

  /** The whole sweep writes only suspensions and OVERDUE_ITEM fines for patrons of the swept loans. */
  lemma {:induction false} SweepLoansWrites(db: Db, loans: seq<Loan>, threshold: Day, today: Day, finePerDay: int)
    ensures SweepWrote(db, SweepLoans(db, loans, threshold, today, finePerDay).0, loans)
    decreases |loans|
  {
    if loans != [] {
      var (db1, o) := SweepLoan(db, loans[0], threshold, today, finePerDay);
      SweepLoanWrites(db, loans[0], threshold, today, finePerDay);
      SweepWroteWidens(db, db1, [loans[0]], loans);
      if o.Pass? {
        var db2 := SweepLoans(db1, loans[1..], threshold, today, finePerDay).0;
        SweepLoansWrites(db1, loans[1..], threshold, today, finePerDay);
        SweepWroteWidens(db1, db2, loans[1..], loans);
        SweepWroteChains(db, db1, db2, loans);
      }
    } else {
      assert db.fines[..|db.fines|] == db.fines;
    }
  }

  /** With a non-negative threshold and a positive daily amount every overdue fine is positive. */
  lemma OverdueFineIsPositive(item: LoanItem, today: Day, thresholdDays: int, finePerDay: int)
    requires thresholdDays >= 0 && finePerDay > 0
    requires Overdue(item, OverdueThreshold(today, thresholdDays))
    ensures CalculateFineAmount(item, today, finePerDay) > thresholdDays * finePerDay
  {
    var d := today - item.dueDate;
    assert d > thresholdDays;
    assert d * finePerDay > thresholdDays * finePerDay by {
      assert (d - thresholdDays) * finePerDay > 0;
    }
  }

  /** As written the query finds nothing, so the sweep changes nothing at all. */
  lemma SweepAsWrittenDoesNothing(db: Db, today: Day, thresholdDays: int, finePerDay: int)
    ensures var threshold := OverdueThreshold(today, thresholdDays);
      SweepLoans(db, FindLoansWithOverdueItemsAsWritten(db.loans, threshold), threshold, today, finePerDay) == (db, Pass)
  {}

  /** As intended, a loan with an overdue item of a patron not yet suspended gets the patron suspended. */
  lemma OverdueLoanSuspendsPatron(db: Db, i: nat, today: Day, thresholdDays: int, finePerDay: int)
    requires i < |db.loans| && HasOverdueItem(db.loans[i], OverdueThreshold(today, thresholdDays))
    requires db.loans[i].patronId in db.patrons && db.patrons[db.loans[i].patronId].status != Suspended
    requires SuspendOverduePatronsSpec(db, today, thresholdDays, finePerDay).1 == Pass
    ensures PatronService.IsPatronSuspended(SuspendOverduePatronsSpec(db, today, thresholdDays, finePerDay).0,
      db.loans[i].patronId)
  {
    var threshold := OverdueThreshold(today, thresholdDays);
    var found := FindLoansWithOverdueItems(db.loans, threshold);
    assert db.loans[i] in found;
    var k :| 0 <= k < |found| && found[k] == db.loans[i];
    SweepReachesLoan(db, found, k, threshold, today, finePerDay);
  }

  /** A sweep that completes has passed every loan given to it, and each pass left the patron suspended. */
  lemma {:induction false} SweepReachesLoan(db: Db, loans: seq<Loan>, k: nat, threshold: Day, today: Day, finePerDay: int)
    requires k < |loans|
    requires SweepLoans(db, loans, threshold, today, finePerDay).1 == Pass
    ensures PatronService.IsPatronSuspended(SweepLoans(db, loans, threshold, today, finePerDay).0, loans[k].patronId)
    decreases |loans|
  {
    var (db1, o) := SweepLoan(db, loans[0], threshold, today, finePerDay);
    var db' := SweepLoans(db, loans, threshold, today, finePerDay).0;
    SweepLoansSuspendsOnce(db1, loans[1..], threshold, today, finePerDay);
    if k == 0 {
      assert PatronService.IsPatronSuspended(db1, loans[0].patronId);
    } else {
      assert loans[k] == loans[1..][k - 1];
      SweepReachesLoan(db1, loans[1..], k - 1, threshold, today, finePerDay);
    }
  }

  /** Every overdue item among `items` has an OVERDUE_ITEM fine of the patron for its media. */
  predicate ItemsFined(fines: seq<Fine>, patronId: int, items: seq<LoanItem>, threshold: Day)
  {
    forall j :: 0 <= j < |items| && Overdue(items[j], threshold) ==>
      FineService.FineExists(fines, patronId, items[j].mediaId, OverdueItem)
  }

  /** Fines are only ever appended, so a fine that exists stays. */
  lemma FineExistsKept(fines: seq<Fine>, fines': seq<Fine>, patronId: int, mediaId: int)
    requires FineService.FineExists(fines, patronId, mediaId, OverdueItem)
    requires |fines| <= |fines'| && fines'[..|fines|] == fines
    ensures FineService.FineExists(fines', patronId, mediaId, OverdueItem)
  {
    var i :| 0 <= i < |fines| && FineService.SameCharge(fines[i], patronId, mediaId, OverdueItem);
    assert fines'[i] == fines[i];
  }

  lemma ItemsFinedKept(fines: seq<Fine>, fines': seq<Fine>, patronId: int, items: seq<LoanItem>, threshold: Day)
    requires ItemsFined(fines, patronId, items, threshold)
    requires |fines| <= |fines'| && fines'[..|fines|] == fines
    ensures ItemsFined(fines', patronId, items, threshold)
  {
    forall j | 0 <= j < |items| && Overdue(items[j], threshold)
      ensures FineService.FineExists(fines', patronId, items[j].mediaId, OverdueItem)
    {
      FineExistsKept(fines, fines', patronId, items[j].mediaId);
    }
  }

  /** A completed item loop leaves every overdue item of the loan fined. */
  lemma {:induction false} FineItemsFines(db: Db, patronId: int, items: seq<LoanItem>,
      threshold: Day, today: Day, finePerDay: int)
    requires FineItems(db, patronId, items, threshold, today, finePerDay).1 == Pass
    ensures ItemsFined(FineItems(db, patronId, items, threshold, today, finePerDay).0.fines, patronId, items, threshold)
    decreases |items|
  {
    if items != [] {
      var (db1, o) := FineItem(db, patronId, items[0], threshold, today, finePerDay);
      var db' := FineItems(db1, patronId, items[1..], threshold, today, finePerDay).0;
      FineItemsFines(db1, patronId, items[1..], threshold, today, finePerDay);
      forall j | 0 <= j < |items| && Overdue(items[j], threshold)
        ensures FineService.FineExists(db'.fines, patronId, items[j].mediaId, OverdueItem)
      {
        if j == 0 {
          FineExistsKept(db1.fines, db'.fines, patronId, items[0].mediaId);
        } else {
          assert items[j] == items[1..][j - 1];
        }
      }
    }
  }

  /** A sweep that completes has fined every overdue item of every loan given to it. */
  lemma {:induction false} SweepLoansFines(db: Db, loans: seq<Loan>, k: nat, threshold: Day, today: Day, finePerDay: int)
    requires k < |loans|
    requires SweepLoans(db, loans, threshold, today, finePerDay).1 == Pass
    ensures ItemsFined(SweepLoans(db, loans, threshold, today, finePerDay).0.fines,
      loans[k].patronId, loans[k].items, threshold)
    decreases |loans|
  {
    var (db1, o) := SweepLoan(db, loans[0], threshold, today, finePerDay);
    var db' := SweepLoans(db, loans, threshold, today, finePerDay).0;
    if k == 0 {
      var (dbS, oS) := SuspendUnlessSuspended(db, loans[0].patronId);
      FineItemsFines(dbS, loans[0].patronId, loans[0].items, threshold, today, finePerDay);
      SweepLoansWrites(db1, loans[1..], threshold, today, finePerDay);
      ItemsFinedKept(db1.fines, db'.fines, loans[0].patronId, loans[0].items, threshold);
    } else {
      assert loans[k] == loans[1..][k - 1];
      SweepLoansFines(db1, loans[1..], k - 1, threshold, today, finePerDay);
    }
  }

  /**
   * As intended, a sweep that completes leaves an OVERDUE_ITEM fine for every overdue
   * item of every stored loan, charged to the loan's patron.
   */
  lemma OverdueItemsAreFined(db: Db, i: nat, today: Day, thresholdDays: int, finePerDay: int)
    requires i < |db.loans|
    requires SuspendOverduePatronsSpec(db, today, thresholdDays, finePerDay).1 == Pass
    ensures ItemsFined(SuspendOverduePatronsSpec(db, today, thresholdDays, finePerDay).0.fines,
      db.loans[i].patronId, db.loans[i].items, OverdueThreshold(today, thresholdDays))
  {
    var threshold := OverdueThreshold(today, thresholdDays);
    if HasOverdueItem(db.loans[i], threshold) {
      var found := FindLoansWithOverdueItems(db.loans, threshold);
      assert db.loans[i] in found;
      var k :| 0 <= k < |found| && found[k] == db.loans[i];
      SweepLoansFines(db, found, k, threshold, today, finePerDay);
    }
  }

  /**
   * The design's worked case: with a 30-day threshold and 5 per day, a store whose one
   * loan holds one item 35 days overdue, uncharged, ends with its patron suspended and
   * exactly one new fine, of 175.
   */
  lemma ThirtyFiveDaysOverdue(db: Db, loan: Loan, today: Day)
    requires db.loans == [loan] && |loan.items| == 1
    requires loan.items[0].status == ItemStatus.CheckedOut && loan.items[0].dueDate == today - 35
    requires loan.patronId in db.patrons && loan.items[0].mediaId in db.media
    requires !FineService.FineExists(db.fines, loan.patronId, loan.items[0].mediaId, OverdueItem)
    requires !db.counterStoreFails
    ensures var out := SuspendOverduePatronsSpec(db, today, 30, 5);
      out.1 == Pass && PatronService.IsPatronSuspended(out.0, loan.patronId) &&
      out.0.fines == db.fines + [FineService.NewFine(SequenceGenerator.CounterValue(db, SequenceGenerator.FineCounter) + 1,
        loan.patronId, loan.items[0].mediaId, OverdueItem, 175, today)]
  {
    var threshold := OverdueThreshold(today, 30);
    var item := loan.items[0];
    assert MatchesItem(item, threshold, "CHECKED_OUT");
    assert FindLoansWithOverdueItems(db.loans, threshold) == [loan];
    var (db1, o1) := SuspendUnlessSuspended(db, loan.patronId);
    assert db1.fines == db.fines && db1.media == db.media && db1.counters == db.counters;
    assert CalculateFineAmount(item, today, 5) == 175;
    assert FineDue(db1, loan.patronId, item, threshold, today, 5);
    var (db2, o2) := FineItem(db1, loan.patronId, item, threshold, today, 5);
    assert FineItems(db1, loan.patronId, loan.items, threshold, today, 5) == (db2, Pass);
    assert SweepLoans(db, [loan], threshold, today, 5) == (db2, Pass);
  }
}
