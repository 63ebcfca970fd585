/**
 * Patron rules: lookup, partial and full update, deletion guarded by active loans,
 * suspension with its notice, registration with duplicate detection, the minor test,
 * and the bookkeeping of the patron's checked-out list during circulation.
 */
module PatronService {
  import opened Common
  import opened Calendar
  import opened Model
  import opened Store
  import SequenceGenerator
  import PatronUpdateService
  import NotificationService

  /** `getPatronById`. */
  function GetPatronById(db: Db, patronId: int): (r: Result<Patron>)
    ensures r.Ok? <==> patronId in db.patrons
    ensures r.Ok? ==> r.value == db.patrons[patronId]
    ensures r.Err? ==> r.error == General(PatronNotFound, "Patron not found with ID: " + IntToString(patronId), NotFound)
  {
    if patronId in db.patrons then Ok(db.patrons[patronId])
    else Err(General(PatronNotFound, "Patron not found with ID: " + IntToString(patronId), NotFound))
  }

  /** `handleNotFound`: an empty search result is an error carrying the given message. */
  function HandleNotFound(patrons: seq<Patron>, message: string): (r: Result<seq<Patron>>)
    ensures r.Err? <==> patrons == []
    ensures r.Ok? ==> r.value == patrons
    ensures r.Err? ==> r.error == General(PatronNotFound, message, NotFound)
  {
    if patrons == [] then Err(General(PatronNotFound, message, NotFound)) else Ok(patrons)
  }

  /** `isPatronSuspended`: a missing patron is not suspended. */
  function IsPatronSuspended(db: Db, patronId: int): (b: bool)
    ensures b <==> patronId in db.patrons && db.patrons[patronId].status == Suspended
  {
    match GetPatronById(db, patronId)
    case Ok(p) => p.status == Suspended
    case Err(_) => false
  }

  /** `isMinor`: fewer than 18 whole years between the date of birth and today. */
  predicate IsMinor(dateOfBirth: Day, today: Day)
  {
    PeriodYears(CivilFromDays(dateOfBirth), CivilFromDays(today)) < 18
  }

  /** On the 17th birthday a patron is a minor. */
  lemma MinorOnSeventeenthBirthday(dateOfBirth: Day, today: Day)
    requires var b, t := CivilFromDays(dateOfBirth), CivilFromDays(today);
      t.month == b.month && t.day == b.day && t.year == b.year + 17
    ensures IsMinor(dateOfBirth, today)
  {
    PeriodYearsOnAnniversary(CivilFromDays(dateOfBirth), CivilFromDays(today));
  }

  /** On the 18th birthday a patron is no longer a minor. */
  lemma AdultOnEighteenthBirthday(dateOfBirth: Day, today: Day)
    requires var b, t := CivilFromDays(dateOfBirth), CivilFromDays(today);
      t.month == b.month && t.day == b.day && t.year == b.year + 18
    ensures !IsMinor(dateOfBirth, today)
  {
    PeriodYearsOnAnniversary(CivilFromDays(dateOfBirth), CivilFromDays(today));
  }

  /** Earlier in the month of the 18th birthday a patron is still a minor. */
  lemma MinorBeforeEighteenthBirthday(dateOfBirth: Day, today: Day)
    requires var b, t := CivilFromDays(dateOfBirth), CivilFromDays(today);
      t.month == b.month && t.day < b.day && t.year == b.year + 18
    ensures IsMinor(dateOfBirth, today)
  {
    PeriodYearsBeforeAnniversary(CivilFromDays(dateOfBirth), CivilFromDays(today));
  }

  /**
   * Away from the 18th birthday the calendar years decide: fewer than 18 years apart
   * is a minor, more than 18 an adult, whatever the month and day.
   */
  lemma MinorByCalendarYears(dateOfBirth: Day, today: Day)
    ensures var b, t := CivilFromDays(dateOfBirth), CivilFromDays(today);
      (t.year - b.year < 18 ==> IsMinor(dateOfBirth, today)) &&
      (t.year - b.year > 18 ==> !IsMinor(dateOfBirth, today))
  {
    var b, t := CivilFromDays(dateOfBirth), CivilFromDays(today);
    var totalMonths := (t.year * 12 + t.month - 1) - (b.year * 12 + b.month - 1);
    assert totalMonths == 12 * (t.year - b.year) + (t.month - b.month);
    if t.year - b.year < 18 {
      assert totalMonths <= 12 * 17 + 11;
    }
    if t.year - b.year > 18 {
      assert totalMonths >= 12 * 19 - 11;
    }
  }

  // ---------------------------------------------------------------------------
  // Update and delete

  /**
   * `updatePatron`: a partial update map wins over a full update; with neither the
   * record is saved as it is. A failing partial update saves nothing.
   */
  function UpdatePatronSpec(db: Db, patronId: int, updates: Option<seq<(string, Value)>>,
      fullUpdate: Option<Patron>): (out: (Db, Result<Patron>))
    ensures patronId !in db.patrons ==> out == (db, Err(General(PatronNotFound,
      "Patron with ID provided not found: " + IntToString(patronId), NotFound)))
    ensures out.1.Ok? ==> patronId in db.patrons && out.0 == db.(patrons := db.patrons[patronId := out.1.value])
    ensures out.1.Ok? ==>
      out.1.value.patronId == db.patrons[patronId].patronId &&
      out.1.value.checkedOutItems == db.patrons[patronId].checkedOutItems
    ensures out.1.Err? ==> out.0 == db
    ensures patronId in db.patrons && updates.Some? ==>
      var (p, o) := PatronUpdateService.ApplyAll(db.patrons[patronId], updates.value);
      out.1 == if o.Fail? then Err(o.error) else Ok(p)
    ensures patronId in db.patrons && updates.None? && fullUpdate.Some? ==>
      out.1 == Ok(PatronUpdateService.ApplyFullUpdate(db.patrons[patronId], fullUpdate.value))
    ensures patronId in db.patrons && updates.None? && fullUpdate.None? ==>
      out == (db, Ok(db.patrons[patronId]))
  {
    if patronId !in db.patrons then
      (db, Err(General(PatronNotFound, "Patron with ID provided not found: " + IntToString(patronId), NotFound)))
    else
      var patron := db.patrons[patronId];
      var result :=
        if updates.Some? then
          var (updated, outcome) := PatronUpdateService.ApplyAll(patron, updates.value);
          if outcome.Fail? then Err(outcome.error) else Ok(updated)
        else if fullUpdate.Some? then Ok(PatronUpdateService.ApplyFullUpdate(patron, fullUpdate.value))
        else Ok(patron);
      if result.Err? then (db, result)
      else
        PartialUpdateKeepsIdentity(patron, if updates.Some? then updates.value else []);
        assert db.patrons[patronId := patron] == db.patrons;
        (db.(patrons := db.patrons[patronId := result.value]), result)
  }

  /** No key of a partial update touches the patron id or the checked-out list. */
  lemma {:induction false} PartialUpdateKeepsIdentity(p: Patron, updates: seq<(string, Value)>)
    ensures var q := PatronUpdateService.ApplyAll(p, updates).0;
      q.patronId == p.patronId && q.checkedOutItems == p.checkedOutItems
    decreases |updates|
  {
    if updates != [] {
      var (key, value) := updates[0];
      var r := PatronUpdateService.ApplyUpdate(p, key, value);
      if r.Ok? {
        if key in PatronUpdateService.TextKeys {
          PatronUpdateService.TextKeySetsItsField(p, key, value);
        }
        PartialUpdateKeepsIdentity(r.value, updates[1..]);
      }
    }
  }

  method UpdatePatron(lib: Library, patronId: int, updates: Option<seq<(string, Value)>>, fullUpdate: Option<Patron>)
    returns (r: Result<Patron>)
    modifies lib
    ensures (lib.Snapshot(), r) == UpdatePatronSpec(old(lib.Snapshot()), patronId, updates, fullUpdate)
  {
    if patronId !in lib.patrons {
      return Err(General(PatronNotFound, "Patron with ID provided not found: " + IntToString(patronId), NotFound));
    }
    var patron := lib.patrons[patronId];
    if updates.Some? {
      var outcome;
      patron, outcome := PatronUpdateService.ApplyPartialUpdates(patron, updates.value);
      if outcome.Fail? {
        return Err(outcome.error);
      }
    } else if fullUpdate.Some? {
      patron := PatronUpdateService.ApplyFullUpdate(patron, fullUpdate.value);
    }
    lib.patrons := lib.patrons[patronId := patron];
    r := Ok(patron);
  }

  /** `hasActiveLoans`: some loan of the patron is ACTIVE. */
  predicate HasActiveLoans(db: Db, patronId: int)
  {
    exists i :: 0 <= i < |db.loans| && db.loans[i].patronId == patronId && db.loans[i].status == LoanStatus.Active
  }

  /** `deletePatron`: refused for a missing patron or one with an active loan. */
  function DeletePatronSpec(db: Db, patronId: int): (out: (Db, Outcome))
    ensures patronId !in db.patrons ==> out == (db, Fail(GetPatronById(db, patronId).error))
    ensures patronId in db.patrons && HasActiveLoans(db, patronId) ==>
      out == (db, Fail(General(InvalidOperation, "Cannot delete patron with active loans", Conflict)))
    ensures out.1 == Pass <==> patronId in db.patrons && !HasActiveLoans(db, patronId)
    ensures out.1 == Pass ==> out.0 == db.(patrons := db.patrons - {patronId})
  {
    match GetPatronById(db, patronId)
    case Err(e) => (db, Fail(e))
    case Ok(_) =>
      if HasActiveLoans(db, patronId) then
        (db, Fail(General(InvalidOperation, "Cannot delete patron with active loans", Conflict)))
      else (db.(patrons := db.patrons - {patronId}), Pass)
  }

  method DeletePatron(lib: Library, patronId: int) returns (r: Outcome)
    modifies lib
    ensures (lib.Snapshot(), r) == DeletePatronSpec(old(lib.Snapshot()), patronId)
  {
    var patron := GetPatronById(lib.Snapshot(), patronId);
    if patron.Err? {
      return Fail(patron.error);
    }
    if HasActiveLoans(lib.Snapshot(), patronId) {
      return Fail(General(InvalidOperation, "Cannot delete patron with active loans", Conflict));
    }
    lib.patrons := lib.patrons - {patronId};
    r := Pass;
  }

  // ---------------------------------------------------------------------------
  // Suspension

  /**
   * `suspendPatron`: a missing patron or one already suspended is refused and nothing
   * changes; otherwise the patron becomes SUSPENDED and gets one status-change notice.
   */
  function SuspendPatronSpec(db: Db, patronId: int): (out: (Db, Outcome))
    ensures patronId !in db.patrons ==> out == (db, Fail(General(PatronNotFound,
      "Patron with ID provided not found: " + IntToString(patronId), NotFound)))
    ensures patronId in db.patrons && db.patrons[patronId].status == Suspended ==>
      out == (db, Fail(General(InvalidOperation,
        "Patron with ID provided is already suspended: " + IntToString(patronId), Forbidden)))
    ensures out.1 == Pass <==> patronId in db.patrons && db.patrons[patronId].status != Suspended
    ensures out.1 == Pass ==> out.0 == db.(
      patrons := db.patrons[patronId := db.patrons[patronId].(status := Suspended)],
      outbox := db.outbox + [Notice(patronId, NotificationService.StatusChangeMessage(Suspended))])
  {
    if patronId in db.patrons then
      var patron := db.patrons[patronId];
      if patron.status == Suspended then
        (db, Fail(General(InvalidOperation, "Patron with ID provided is already suspended: " + IntToString(patronId),
          Forbidden)))
      else
        var saved := db.(patrons := db.patrons[patronId := patron.(status := Suspended)]);
        (NotificationService.NotifyStatusChange(saved, patronId, Suspended), Pass)
    else
      (db, Fail(General(PatronNotFound, "Patron with ID provided not found: " + IntToString(patronId), NotFound)))
  }

  method SuspendPatron(lib: Library, patronId: int) returns (r: Outcome)
    modifies lib
    ensures (lib.Snapshot(), r) == SuspendPatronSpec(old(lib.Snapshot()), patronId)
  {
    if patronId in lib.patrons {
      var patron := lib.patrons[patronId];
      if patron.status == Suspended {
        return Fail(General(InvalidOperation, "Patron with ID provided is already suspended: " + IntToString(patronId),
          Forbidden));
      }
      patron := patron.(status := Suspended);
      lib.patrons := lib.patrons[patronId := patron];
      NotificationService.NotifyPatronStatusChange(lib, patronId, Suspended);
      r := Pass;
    } else {
      r := Fail(General(PatronNotFound, "Patron with ID provided not found: " + IntToString(patronId), NotFound));
    }
  }

  /** Suspending twice: the second call is refused and changes nothing. */
  lemma SuspendTwice(db: Db, patronId: int)
    requires SuspendPatronSpec(db, patronId).1 == Pass
    ensures var db1 := SuspendPatronSpec(db, patronId).0;
      IsPatronSuspended(db1, patronId) && SuspendPatronSpec(db1, patronId).0 == db1 &&
      SuspendPatronSpec(db1, patronId).1.Fail?
  {}

  // ---------------------------------------------------------------------------
  // Registration

  /** Some stored patron has this name and date of birth. */
  predicate NameAndBirthTaken(db: Db, name: Option<string>, dateOfBirth: Option<Day>)
  {
    exists id :: id in db.patrons && db.patrons[id].patronName == name && db.patrons[id].dateOfBirth == dateOfBirth
  }

  /** No two stored patrons share name and date of birth. */
  predicate UniqueNameAndBirth(db: Db)
  {
    forall a, b :: a in db.patrons && b in db.patrons && a != b ==>
      !(db.patrons[a].patronName == db.patrons[b].patronName &&
        db.patrons[a].dateOfBirth == db.patrons[b].dateOfBirth)
  }

  /** Every stored patron id is at most the patron counter, so the next draw is unused. */
  predicate PatronCounterAhead(db: Db)
  {
    forall id :: id in db.patrons ==> id <= SequenceGenerator.CounterValue(db, SequenceGenerator.PatronCounter)
  }

  /**
   * `addNewPatron`: refused when the name and date of birth are taken (no draw, no
   * save); otherwise the patron gets the next patron number and status ACTIVE.
   */
  function AddNewPatronSpec(db: Db, patron: Patron): (out: (Db, Result<Patron>))
    ensures NameAndBirthTaken(db, patron.patronName, patron.dateOfBirth) ==> out == (db, Err(General(
      PatronAlreadyExists, "A patron with the name " + TextOrNull(patron.patronName) + " and date of birth "
        + DateOrNull(patron.dateOfBirth) + " already exists", Forbidden)))
    ensures out.1.Ok? <==> !NameAndBirthTaken(db, patron.patronName, patron.dateOfBirth) && !db.counterStoreFails
    ensures out.1.Ok? ==>
      var id := SequenceGenerator.CounterValue(db, SequenceGenerator.PatronCounter) + 1;
      out.1.value == patron.(patronId := id, status := PatronStatus.Active) &&
      out.0 == db.(patrons := db.patrons[id := out.1.value],
        counters := db.counters[SequenceGenerator.PatronCounter := id])
    ensures out.1.Err? && !NameAndBirthTaken(db, patron.patronName, patron.dateOfBirth) ==> out.0 == db
  {
    if NameAndBirthTaken(db, patron.patronName, patron.dateOfBirth) then
      (db, Err(General(PatronAlreadyExists, "A patron with the name " + TextOrNull(patron.patronName)
        + " and date of birth " + DateOrNull(patron.dateOfBirth) + " already exists", Forbidden)))
    else
      var (db1, next) := SequenceGenerator.NextSequenceValue(db, SequenceGenerator.PatronCounter);
      match next
      case Err(e) => (db1, Err(e))
      case Ok(id) =>
        var p := patron.(patronId := id, status := PatronStatus.Active);
        (SavePatron(db1, p), Ok(p))
  }

  method AddNewPatron(lib: Library, patron: Patron) returns (r: Result<Patron>)
    modifies lib
    ensures (lib.Snapshot(), r) == AddNewPatronSpec(old(lib.Snapshot()), patron)
  {
    if NameAndBirthTaken(lib.Snapshot(), patron.patronName, patron.dateOfBirth) {
      return Err(General(PatronAlreadyExists, "A patron with the name " + TextOrNull(patron.patronName)
        + " and date of birth " + DateOrNull(patron.dateOfBirth) + " already exists", Forbidden));
    }
    var next := SequenceGenerator.GetNextSequenceValueForPatron(lib);
    if next.Err? {
      return Err(next.error);
    }
    var p := patron.(patronId := next.value, status := PatronStatus.Active);
    lib.patrons := lib.patrons[p.patronId := p];
    r := Ok(p);
  }

  /** Registration keeps (name, date of birth) unique among stored patrons. */
  lemma AddNewPatronKeepsUnique(db: Db, patron: Patron)
    requires UniqueNameAndBirth(db)
    ensures UniqueNameAndBirth(AddNewPatronSpec(db, patron).0)
  {
    var (db', r) := AddNewPatronSpec(db, patron);
    if r.Ok? {
      var id := r.value.patronId;
      forall a, b | a in db'.patrons && b in db'.patrons && a != b
        ensures !(db'.patrons[a].patronName == db'.patrons[b].patronName &&
          db'.patrons[a].dateOfBirth == db'.patrons[b].dateOfBirth)
      {
        if a == id {
          assert db'.patrons[b] == db.patrons[b];
        } else if b == id {
          assert db'.patrons[a] == db.patrons[a];
        }
      }
    }
  }

  /**
   * With the counter ahead of every stored id, registration adds a new patron under an
   * unused id, overwriting no one, and keeps the counter ahead.
   */
  lemma AddNewPatronUsesFreshId(db: Db, patron: Patron)
    requires PatronCounterAhead(db)
    ensures var (db', r) := AddNewPatronSpec(db, patron);
      PatronCounterAhead(db') &&
      (r.Ok? ==> r.value.patronId !in db.patrons && db'.patrons.Keys == db.patrons.Keys + {r.value.patronId})
  {}

  // ---------------------------------------------------------------------------
  // Circulation bookkeeping

  /** `List.remove(Object)`: drop the first occurrence, if there is one. */
  function RemoveFirst(items: seq<int>, x: int): (r: seq<int>)
    ensures x !in items ==> r == items
    ensures x in items ==> |r| == |items| - 1
    ensures multiset(r) == multiset(items) - multiset{x}
  {
    if items == [] then []
    else
      assert items == [items[0]] + items[1..];
      if items[0] == x then items[1..] else [items[0]] + RemoveFirst(items[1..], x)
  }

  /** The first occurrence is the one removed: what precedes it is kept, as is what follows. */
  lemma {:induction false} RemoveFirstAt(items: seq<int>, x: int, i: nat)
    requires i < |items| && items[i] == x && x !in items[..i]
    ensures RemoveFirst(items, x) == items[..i] + items[i + 1..]
  {
    if i > 0 {
      assert items[1..][..i - 1] == items[..i][1..];
      RemoveFirstAt(items[1..], x, i - 1);
      assert items[..i] == [items[0]] + items[1..][..i - 1];
    }
  }

  /** The patron after a checkout of `mediaId`: the id is appended, INACTIVE becomes ACTIVE. */
  function AfterCheckout(p: Patron, mediaId: int): (q: Patron)
    ensures q.checkedOutItems == p.checkedOutItems + [mediaId]
    ensures q.status == if p.status == PatronStatus.Inactive then PatronStatus.Active else p.status
    ensures q.(checkedOutItems := p.checkedOutItems, status := p.status) == p
  {
    p.(checkedOutItems := p.checkedOutItems + [mediaId],
       status := if p.status == PatronStatus.Inactive then PatronStatus.Active else p.status)
  }

  /** The patron after a return of `mediaId`: its first occurrence leaves the list. */
  function AfterReturn(p: Patron, mediaId: int): (q: Patron)
    ensures q.(checkedOutItems := p.checkedOutItems) == p
  {
    p.(checkedOutItems := RemoveFirst(p.checkedOutItems, mediaId))
  }

  /** Returning what was just checked out restores the list, for an id not already on it. */
  lemma {:induction false} ReturnUndoesCheckout(p: Patron, mediaId: int)
    requires mediaId !in p.checkedOutItems
    ensures AfterReturn(AfterCheckout(p, mediaId), mediaId).checkedOutItems == p.checkedOutItems
  {
    var items := p.checkedOutItems + [mediaId];
    assert items[..|p.checkedOutItems|] == p.checkedOutItems;
    RemoveFirstAt(items, mediaId, |p.checkedOutItems|);
    assert items[|p.checkedOutItems| + 1..] == [];
  }

  /** `updatePatronAfterCheckout`: update and save the patron. */
  method UpdatePatronAfterCheckout(lib: Library, patron: Patron, mediaId: int) returns (updated: Patron)
    modifies lib
    ensures updated == AfterCheckout(patron, mediaId)
    ensures lib.Snapshot() == SavePatron(old(lib.Snapshot()), updated)
  {
    updated := patron.(checkedOutItems := patron.checkedOutItems + [mediaId]);
    if updated.status == PatronStatus.Inactive {
      updated := updated.(status := PatronStatus.Active);
    }
    lib.patrons := lib.patrons[updated.patronId := updated];
  }

  /** `updatePatronAfterReturn`: update and save the patron. */
  method UpdatePatronAfterReturn(lib: Library, patron: Patron, mediaId: int) returns (updated: Patron)
    modifies lib
    ensures updated == AfterReturn(patron, mediaId)
    ensures lib.Snapshot() == SavePatron(old(lib.Snapshot()), updated)
  {
    var items := RemoveFirst(patron.checkedOutItems, mediaId);
    updated := patron.(checkedOutItems := items);
    lib.patrons := lib.patrons[updated.patronId := updated];
  }
}
