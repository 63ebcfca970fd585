/**
 * Fines: assessment (one fine per patron, media and fine type, with a positive amount),
 * correction of a fine's amount and flags, and a patron's outstanding total. A fine for
 * a lost or damaged item also marks the media LOST_OR_DAMAGED.
 */
module FineService {
  import opened Common
  import opened Calendar
  import opened Model
  import opened Store
  import SequenceGenerator

  /** `validateMediaExists`. */
  function ValidateMediaExists(db: Db, mediaId: int): (r: Result<Media>)
    ensures r.Ok? <==> mediaId in db.media
    ensures r.Ok? ==> r.value == db.media[mediaId]
    ensures r.Err? ==> r.error == General(MediaNotFound, "Media not found", NotFound)
  {
    if mediaId in db.media then Ok(db.media[mediaId])
    else Err(General(MediaNotFound, "Media not found", NotFound))
  }

  /** `validatePatronExists`. */
  function ValidatePatronExists(db: Db, patronId: int): (r: Outcome)
    ensures r == Pass <==> patronId in db.patrons
    ensures r.Fail? ==> r.error == General(PatronNotFound, "Patron not found", NotFound)
  {
    if patronId in db.patrons then Pass
    else Fail(General(PatronNotFound, "Patron not found", NotFound))
  }

  /** The fine is for this patron, media and type. */
  predicate SameCharge(f: Fine, patronId: int, mediaId: int, fineType: FineType)
  {
    f.patronId == patronId && f.mediaId == mediaId && f.fineType == fineType
  }

  /** `existsByPatronIdAndMediaIdAndFineType`. */
  predicate FineExists(fines: seq<Fine>, patronId: int, mediaId: int, fineType: FineType)
  {
    exists i :: 0 <= i < |fines| && SameCharge(fines[i], patronId, mediaId, fineType)
  }

  /**
   * `hasFineBeenAssessed`: the media must exist, then the patron; then whether such a
   * fine is stored.
   */
  function HasFineBeenAssessed(db: Db, patronId: int, mediaId: int, fineType: FineType): (r: Result<bool>)
    ensures mediaId !in db.media ==> r == Err(General(MediaNotFound, "Media not found", NotFound))
    ensures mediaId in db.media && patronId !in db.patrons ==>
      r == Err(General(PatronNotFound, "Patron not found", NotFound))
    ensures r.Ok? <==> mediaId in db.media && patronId in db.patrons
    ensures r.Ok? ==> (r.value <==> FineExists(db.fines, patronId, mediaId, fineType))
  {
    match ValidateMediaExists(db, mediaId)
    case Err(e) => Err(e)
    case Ok(_) =>
      match ValidatePatronExists(db, patronId)
      case Fail(e) => Err(e)
      case Pass => Ok(FineExists(db.fines, patronId, mediaId, fineType))
  }

  /** The fine `createFine` builds: unpaid, not waived, assessed today. */
  function NewFine(fineId: int, patronId: int, mediaId: int, fineType: FineType, amount: int, today: Day): Fine
  {
    Fine(fineId, patronId, mediaId, fineType, amount, Some(today), None, false, false)
  }

  /** `createFine`: draw the next fine number and append the new fine. */
  function CreateFineSpec(db: Db, patronId: int, mediaId: int, fineType: FineType, amount: int, today: Day)
    : (out: (Db, Result<Fine>))
    ensures out.1.Ok? <==> !db.counterStoreFails
    ensures out.1.Ok? ==>
      var id := SequenceGenerator.CounterValue(db, SequenceGenerator.FineCounter) + 1;
      out.1.value == NewFine(id, patronId, mediaId, fineType, amount, today) &&
      out.0 == db.(fines := db.fines + [out.1.value],
        counters := db.counters[SequenceGenerator.FineCounter := id])
    ensures out.1.Err? ==> out.0 == db
  {
    var (db1, next) := SequenceGenerator.NextSequenceValue(db, SequenceGenerator.FineCounter);
    match next
    case Err(e) => (db1, Err(e))
    case Ok(id) =>
      var fine := NewFine(id, patronId, mediaId, fineType, amount, today);
      (db1.(fines := db1.fines + [fine]), Ok(fine))
  }

  method CreateFine(lib: Library, patronId: int, mediaId: int, fineType: FineType, amount: int, today: Day)
    returns (r: Result<Fine>)
    modifies lib
    ensures (lib.Snapshot(), r) == CreateFineSpec(old(lib.Snapshot()), patronId, mediaId, fineType, amount, today)
  {
    var next := SequenceGenerator.GetNextSequenceValueForFine(lib);
    if next.Err? {
      return Err(next.error);
    }
    var fine := NewFine(next.value, patronId, mediaId, fineType, amount, today);
    lib.fines := lib.fines + [fine];
    r := Ok(fine);
  }

  /** The patron and the media a fine would be charged for are both stored. */
  predicate Chargeable(db: Db, patronId: int, mediaId: int)
  {
    mediaId in db.media && patronId in db.patrons
  }

  /** The fine types that mean the item itself is gone or unusable. */
  predicate MarksMediaLost(fineType: FineType)
  {
    fineType == LostItem || fineType == DamagedItem
  }

  /**
   * `assessFine`: a non-positive amount is refused before any lookup; then the media
   * and the patron must exist and no fine of the same type may be stored for them.
   * The new fine is appended; a lost or damaged item's media becomes LOST_OR_DAMAGED.
   */
  function AssessFineSpec(db: Db, patronId: int, mediaId: int, fineType: FineType, amount: int, today: Day)
    : (out: (Db, Result<Fine>))
    ensures amount <= 0 ==>
      out == (db, Err(General(InvalidOperation, "Fine amount must be greater than zero", BadRequest)))
    ensures amount > 0 ==> HasFineBeenAssessed(db, patronId, mediaId, fineType).Err? ==>
      out == (db, Err(HasFineBeenAssessed(db, patronId, mediaId, fineType).error))
    ensures amount > 0 && Chargeable(db, patronId, mediaId) && FineExists(db.fines, patronId, mediaId, fineType) ==>
      out == (db, Err(General(FineAlreadyExists,
        "Fine already exists for this patron for this media item and fine type", Conflict)))
    ensures out.1.Ok? <==>
      amount > 0 && Chargeable(db, patronId, mediaId) &&
      !FineExists(db.fines, patronId, mediaId, fineType) && !db.counterStoreFails
    ensures out.1.Ok? ==>
      var id := SequenceGenerator.CounterValue(db, SequenceGenerator.FineCounter) + 1;
      out.1.value == NewFine(id, patronId, mediaId, fineType, amount, today) &&
      out.0.fines == db.fines + [out.1.value] &&
      out.0.counters == db.counters[SequenceGenerator.FineCounter := id]
    ensures out.1.Ok? ==>
      out.0.media == (if MarksMediaLost(fineType)
        then db.media[mediaId := db.media[mediaId].(status := LostOrDamaged)] else db.media)
    ensures out.1.Ok? ==> out.0.patrons == db.patrons && out.0.loans == db.loans && out.0.outbox == db.outbox
    ensures out.1.Err? ==> out.0 == db
  {
    if amount <= 0 then
      (db, Err(General(InvalidOperation, "Fine amount must be greater than zero", BadRequest)))
    else
      match HasFineBeenAssessed(db, patronId, mediaId, fineType)
      case Err(e) => (db, Err(e))
      case Ok(true) =>
        (db, Err(General(FineAlreadyExists,
          "Fine already exists for this patron for this media item and fine type", Conflict)))
      case Ok(false) =>
        var media := db.media[mediaId];
        var (db1, created) := CreateFineSpec(db, patronId, mediaId, fineType, amount, today);
        match created
        case Err(e) => (db1, Err(e))
        case Ok(fine) =>
          if MarksMediaLost(fineType) then
            (db1.(media := db1.media[mediaId := media.(status := LostOrDamaged)]), Ok(fine))
          else (db1, Ok(fine))
  }

  method AssessFine(lib: Library, patronId: int, mediaId: int, fineType: FineType, amount: int, today: Day)
    returns (r: Result<Fine>)
    modifies lib
    ensures (lib.Snapshot(), r) == AssessFineSpec(old(lib.Snapshot()), patronId, mediaId, fineType, amount, today)
  {
    if amount <= 0 {
      return Err(General(InvalidOperation, "Fine amount must be greater than zero", BadRequest));
    }
    var assessed := HasFineBeenAssessed(lib.Snapshot(), patronId, mediaId, fineType);
    if assessed.Err? {
      return Err(assessed.error);
    }
    if assessed.value {
      return Err(General(FineAlreadyExists,
        "Fine already exists for this patron for this media item and fine type", Conflict));
    }
    var media := lib.media[mediaId];
    r := CreateFine(lib, patronId, mediaId, fineType, amount, today);
    if r.Ok? && MarksMediaLost(fineType) {
      lib.media := lib.media[mediaId := media.(status := LostOrDamaged)];
    }
  }

  /** No two stored fines charge the same patron for the same media and type. */
  predicate NoDuplicateFines(fines: seq<Fine>)
  {
    forall i, j :: 0 <= i < j < |fines| ==>
      !SameCharge(fines[j], fines[i].patronId, fines[i].mediaId, fines[i].fineType)
  }

  /** Assessment keeps the store free of duplicate fines. */
  lemma AssessFineKeepsNoDuplicates(db: Db, patronId: int, mediaId: int, fineType: FineType, amount: int, today: Day)
    requires NoDuplicateFines(db.fines)
    ensures NoDuplicateFines(AssessFineSpec(db, patronId, mediaId, fineType, amount, today).0.fines)
  {
    var (db', r) := AssessFineSpec(db, patronId, mediaId, fineType, amount, today);
    if r.Ok? {
      var fines := db'.fines;
      forall i, j | 0 <= i < j < |fines|
        ensures !SameCharge(fines[j], fines[i].patronId, fines[i].mediaId, fines[i].fineType)
      {
        if j == |db.fines| {
          assert fines[i] == db.fines[i];
          assert !SameCharge(db.fines[i], patronId, mediaId, fineType);
        }
      }
    }
  }

  /** A second identical assessment right after a successful one is refused as a duplicate. */
  lemma AssessFineTwice(db: Db, patronId: int, mediaId: int, fineType: FineType, amount: int, today: Day)
    requires AssessFineSpec(db, patronId, mediaId, fineType, amount, today).1.Ok?
    ensures var db' := AssessFineSpec(db, patronId, mediaId, fineType, amount, today).0;
      AssessFineSpec(db', patronId, mediaId, fineType, amount, today).1
        == Err(General(FineAlreadyExists,
          "Fine already exists for this patron for this media item and fine type", Conflict))
  {
    var db' := AssessFineSpec(db, patronId, mediaId, fineType, amount, today).0;
    assert SameCharge(db'.fines[|db.fines|], patronId, mediaId, fineType);
  }

  // ---------------------------------------------------------------------------
  // Lookup and correction

  /** The position of the first fine with this id, in store order. */
  function FindFine(fines: seq<Fine>, fineId: int): (r: Option<nat>)
    ensures r.Some? ==> r.value < |fines| && fines[r.value].fineId == fineId
    ensures r.Some? ==> forall j :: 0 <= j < r.value ==> fines[j].fineId != fineId
    ensures r.None? ==> forall j :: 0 <= j < |fines| ==> fines[j].fineId != fineId
  {
    if fines == [] then None
    else if fines[0].fineId == fineId then Some(0)
    else match FindFine(fines[1..], fineId)
      case None => None
      case Some(i) => Some(i + 1)
  }

  /** `getFineById`. */
  function GetFineById(db: Db, fineId: int): (r: Result<Fine>)
    ensures r.Ok? <==> exists j :: 0 <= j < |db.fines| && db.fines[j].fineId == fineId
    ensures r.Ok? ==> r.value.fineId == fineId && r.value in db.fines
    ensures r.Err? ==> r.error == General(FineNotFound, "Fine not found", NotFound)
  {
    match FindFine(db.fines, fineId)
    case None => Err(General(FineNotFound, "Fine not found", NotFound))
    case Some(i) => Ok(db.fines[i])
  }

  /** `getFinesByPatronId`: the patron's fines in store order. */
  function FinesByPatronId(fines: seq<Fine>, patronId: int): (r: seq<Fine>)
    ensures forall f :: f in r <==> f in fines && f.patronId == patronId
    ensures |r| <= |fines|
  {
    if fines == [] then []
    else (if fines[0].patronId == patronId then [fines[0]] else []) + FinesByPatronId(fines[1..], patronId)
  }

  /**
   * The fields `updateFine` writes: the amount always, the type and flags only when
   * given.
   */
  function Corrected(fine: Fine, amount: int, isWaived: Option<bool>, isPaid: Option<bool>,
      fineType: Option<FineType>): Fine
  {
    fine.(amount := amount,
      fineType := if fineType.Some? then fineType.value else fine.fineType,
      isPaid := if isPaid.Some? then isPaid.value else fine.isPaid,
      isWaived := if isWaived.Some? then isWaived.value else fine.isWaived)
  }

  /**
   * `updateFine`: the fine is looked up first, then the amount must be positive; the
   * corrected fine is saved back where it was read.
   */
  function UpdateFineSpec(db: Db, fineId: int, amount: int, isWaived: Option<bool>, isPaid: Option<bool>,
      fineType: Option<FineType>): (out: (Db, Result<Fine>))
    ensures GetFineById(db, fineId).Err? ==> out == (db, Err(GetFineById(db, fineId).error))
    ensures GetFineById(db, fineId).Ok? && amount <= 0 ==>
      out == (db, Err(General(InvalidOperation, "Fine amount must be greater than zero", BadRequest)))
    ensures out.1.Ok? <==> GetFineById(db, fineId).Ok? && amount > 0
    ensures out.1.Ok? ==>
      var f := out.1.value;
      f.amount == amount && f.fineId == fineId &&
      (isPaid.Some? ==> f.isPaid == isPaid.value) && (isWaived.Some? ==> f.isWaived == isWaived.value) &&
      (fineType.Some? ==> f.fineType == fineType.value) &&
      |out.0.fines| == |db.fines| && f in out.0.fines
    ensures out.1.Ok? ==> var i := FindFine(db.fines, fineId).value;
      out.0 == db.(fines := db.fines[i := Corrected(db.fines[i], amount, isWaived, isPaid, fineType)])
    ensures out.1.Err? ==> out.0 == db
  {
    match FindFine(db.fines, fineId)
    case None => (db, Err(General(FineNotFound, "Fine not found", NotFound)))
    case Some(i) =>
      if amount <= 0 then
        (db, Err(General(InvalidOperation, "Fine amount must be greater than zero", BadRequest)))
      else
        var fine := Corrected(db.fines[i], amount, isWaived, isPaid, fineType);
        assert db.fines[i := fine][i] == fine;
        (db.(fines := db.fines[i := fine]), Ok(fine))
  }

  method UpdateFine(lib: Library, fineId: int, amount: int, isWaived: Option<bool>, isPaid: Option<bool>,
      fineType: Option<FineType>) returns (r: Result<Fine>)
    modifies lib
    ensures (lib.Snapshot(), r) == UpdateFineSpec(old(lib.Snapshot()), fineId, amount, isWaived, isPaid, fineType)
  {
    var at := FindFine(lib.fines, fineId);
    if at.None? {
      return Err(General(FineNotFound, "Fine not found", NotFound));
    }
    if amount <= 0 {
      return Err(General(InvalidOperation, "Fine amount must be greater than zero", BadRequest));
    }
    var fine := lib.fines[at.value].(amount := amount);
    if fineType.Some? {
      fine := fine.(fineType := fineType.value);
    }
    if isPaid.Some? {
      fine := fine.(isPaid := isPaid.value);
    }
    if isWaived.Some? {
      fine := fine.(isWaived := isWaived.value);
    }
    lib.fines := lib.fines[at.value := fine];
    r := Ok(fine);
  }

  // ---------------------------------------------------------------------------
  // Outstanding total

  /** The fine counts towards the patron's outstanding total. */
  predicate Outstanding(f: Fine, patronId: int)
  {
    f.patronId == patronId && !f.isPaid && !f.isWaived
  }

  /** Sum of the amounts of the patron's unpaid, unwaived fines. */
  function TotalFines(fines: seq<Fine>, patronId: int): int
  {
    if fines == [] then 0
    else
      var last := fines[|fines| - 1];
      TotalFines(fines[..|fines| - 1], patronId) + (if Outstanding(last, patronId) then last.amount else 0)
  }

  /** `calculateTotalFines`. */
  function CalculateTotalFines(db: Db, patronId: int): (total: int)
    ensures (forall i :: 0 <= i < |db.fines| ==> db.fines[i].amount > 0) ==> total >= 0
    ensures (forall i :: 0 <= i < |db.fines| ==> db.fines[i].patronId != patronId) ==> total == 0
  {
    var total := TotalFines(db.fines, patronId);
    assert (forall i :: 0 <= i < |db.fines| ==> db.fines[i].amount > 0) ==> total >= 0 by {
      if forall i :: 0 <= i < |db.fines| ==> db.fines[i].amount > 0 {
        TotalFinesNonNegative(db.fines, patronId);
      }
    }
    assert (forall i :: 0 <= i < |db.fines| ==> db.fines[i].patronId != patronId) ==> total == 0 by {
      if forall i :: 0 <= i < |db.fines| ==> db.fines[i].patronId != patronId {
        TotalFinesOfOthers(db.fines, patronId);
      }
    }
    total
  }

  /** With only positive amounts stored, the total is never negative. */
  lemma {:induction false} TotalFinesNonNegative(fines: seq<Fine>, patronId: int)
    requires forall i :: 0 <= i < |fines| ==> fines[i].amount > 0
    ensures TotalFines(fines, patronId) >= 0
    decreases |fines|
  {
    if fines != [] {
      TotalFinesNonNegative(fines[..|fines| - 1], patronId);
    }
  }

  /** Fines of other patrons do not count towards a patron's total. */
  lemma {:induction false} TotalFinesOfOthers(fines: seq<Fine>, patronId: int)
    requires forall i :: 0 <= i < |fines| ==> fines[i].patronId != patronId
    ensures TotalFines(fines, patronId) == 0
    decreases |fines|
  {
    if fines != [] {
      TotalFinesOfOthers(fines[..|fines| - 1], patronId);
    }
  }

  /** A successful assessment raises the fined patron's total by exactly its amount. */
  lemma AssessFineRaisesTotal(db: Db, patronId: int, mediaId: int, fineType: FineType, amount: int, today: Day)
    requires AssessFineSpec(db, patronId, mediaId, fineType, amount, today).1.Ok?
    ensures var db' := AssessFineSpec(db, patronId, mediaId, fineType, amount, today).0;
      CalculateTotalFines(db', patronId) == CalculateTotalFines(db, patronId) + amount
  {
    var db' := AssessFineSpec(db, patronId, mediaId, fineType, amount, today).0;
    assert db'.fines[..|db'.fines| - 1] == db.fines;
  }

  /** Waiving a fine through `updateFine` takes it out of the total. */
  lemma {:induction false} WaivedFineLeavesTotal(fines: seq<Fine>, i: nat, patronId: int, amount: int)
    requires i < |fines| && Outstanding(fines[i], patronId)
    ensures TotalFines(fines[i := Corrected(fines[i], amount, Some(true), None, None)], patronId)
      == TotalFines(fines, patronId) - fines[i].amount
    decreases |fines|
  {
    var fines' := fines[i := Corrected(fines[i], amount, Some(true), None, None)];
    var n := |fines| - 1;
    if i < n {
      assert fines'[..n] == fines[..n][i := Corrected(fines[i], amount, Some(true), None, None)];
      WaivedFineLeavesTotal(fines[..n], i, patronId, amount);
    } else {
      assert fines'[..n] == fines[..n];
    }
  }
}
