/**
 * Circulation: checkout and return of a list of media for one patron, dispatch on the
 * transaction type, the loan helpers (find or open the patron's active loan, add an
 * item, record a return), the response listing the media handled, and deleting a loan.
 *
 * Effects happen in the order the code performs them, with no rollback: a checkout
 * saves each media and the patron item by item and the loan once after the loop, so a
 * failure part-way leaves the earlier media and patron writes (and a drawn loan
 * number) in place and the loan unsaved; a return saves the loan, the media and the
 * patron item by item.
 */
module LoanService {
  import opened Common
  import opened Calendar
  import opened Model
  import opened Store
  import SequenceGenerator
  import OutputFormatter
  import PatronService
  import MediaService
  import ValidationService

  /** `LoanActionRequest`: null lists and a null type are `None`. */
  datatype LoanActionRequest = LoanActionRequest(
    patronId: int,
    mediaIds: Option<seq<int>>,
    transactionType: Option<TransactionType>)

  /** One entry of a `TransactionResponse`. */
  datatype MediaItem = MediaItem(mediaTitle: Option<string>, mediaStatus: string, formattedBarcodeId: string)

  datatype TransactionResponse = TransactionResponse(loanId: int, message: string, mediaItems: seq<MediaItem>)

  const CheckoutMessage := "Item(s) checked out successfully"
  const ReturnMessage := "Item(s) returned successfully"

  // ---------------------------------------------------------------------------
  // Response

  function MediaItemOf(m: Media): Result<MediaItem>
  {
    match OutputFormatter.FormatBarcodeId(m.barCodeId)
    case Err(e) => Err(e)
    case Ok(formatted) => Ok(MediaItem(m.mediaTitle, MediaStatusName(m.status), formatted))
  }

  /** The entries for a media list, in order; the first unformattable barcode fails the lot. */
  function MediaItems(mediaList: seq<Media>): (r: Result<seq<MediaItem>>)
    ensures r.Ok? <==> forall i :: 0 <= i < |mediaList| ==> MediaItemOf(mediaList[i]).Ok?
    ensures r.Ok? ==> |r.value| == |mediaList|
    ensures r.Ok? ==> forall i :: 0 <= i < |mediaList| ==> MediaItemOf(mediaList[i]) == Ok(r.value[i])
    ensures r.Err? ==> r.error == IllegalArgument("Invalid barcode ID length")
    decreases |mediaList|
  {
    if mediaList == [] then Ok([])
    else
      match MediaItemOf(mediaList[0])
      case Err(e) => Err(e)
      case Ok(item) =>
        match MediaItems(mediaList[1..])
        case Err(e) => Err(e)
        case Ok(rest) =>
          assert forall i :: 1 <= i < |mediaList| ==> mediaList[i] == mediaList[1..][i - 1];
          Ok([item] + rest)
  }

  /** `createTransactionResponse`: each entry has the media's title, status name and dashed barcode. */
  function TransactionResponseOf(mediaList: seq<Media>, loanId: int, isCheckout: bool): (r: Result<TransactionResponse>)
    ensures r.Ok? <==> MediaItems(mediaList).Ok?
    ensures r.Ok? ==> r.value.loanId == loanId && r.value.mediaItems == MediaItems(mediaList).value
    ensures r.Ok? ==> r.value.message == if isCheckout then CheckoutMessage else ReturnMessage
    ensures r.Ok? ==> forall i :: 0 <= i < |mediaList| ==>
      r.value.mediaItems[i].mediaTitle == mediaList[i].mediaTitle &&
      r.value.mediaItems[i].mediaStatus == MediaStatusName(mediaList[i].status)
  {
    match MediaItems(mediaList)
    case Err(e) => Err(e)
    case Ok(items) =>
      assert forall i :: 0 <= i < |mediaList| ==> MediaItemOf(mediaList[i]) == Ok(items[i]);
      Ok(TransactionResponse(loanId, if isCheckout then CheckoutMessage else ReturnMessage, items))
  }

  /** The entries of `mediaList[i..]` after the entries already built. */
  function Continue(built: seq<MediaItem>, rest: Result<seq<MediaItem>>): Result<seq<MediaItem>>
  {
    match rest
    case Err(e) => Err(e)
    case Ok(items) => Ok(built + items)
  }

  method CreateTransactionResponse(mediaList: seq<Media>, loanId: int, isCheckout: bool)
    returns (r: Result<TransactionResponse>)
    ensures r == TransactionResponseOf(mediaList, loanId, isCheckout)
  {
    var items: seq<MediaItem> := [];
    var i := 0;
    assert mediaList[0..] == mediaList;
    assert Continue([], MediaItems(mediaList)) == MediaItems(mediaList) by {
      if MediaItems(mediaList).Ok? {
        assert [] + MediaItems(mediaList).value == MediaItems(mediaList).value;
      }
    }
    while i < |mediaList|
      invariant 0 <= i <= |mediaList|
      invariant MediaItems(mediaList) == Continue(items, MediaItems(mediaList[i..]))
    {
      var media := mediaList[i];
      assert mediaList[i..][0] == media && mediaList[i..][1..] == mediaList[i + 1..];
      var formatted := OutputFormatter.FormatBarcodeId(media.barCodeId);
      if formatted.Err? {
        assert MediaItems(mediaList[i..]) == Err(formatted.error);
        return Err(formatted.error);
      }
      var item := MediaItem(media.mediaTitle, MediaStatusName(media.status), formatted.value);
      var rest := MediaItems(mediaList[i + 1..]);
      if rest.Ok? {
        assert MediaItems(mediaList[i..]) == Ok([item] + rest.value);
        assert items + ([item] + rest.value) == (items + [item]) + rest.value;
      }
      items := items + [item];
      i := i + 1;
    }
    assert mediaList[i..] == [];
    assert MediaItems(mediaList) == Ok(items + []);
    assert items + [] == items;
    r := Ok(TransactionResponse(loanId, if isCheckout then CheckoutMessage else ReturnMessage, items));
  }

  // ---------------------------------------------------------------------------
  // Loan helpers

  /** The loan is the patron's and ACTIVE. */
  function ActiveLoanOf(patronId: int): Loan -> bool
  {
    (l: Loan) => l.patronId == patronId && l.status == LoanStatus.Active
  }

  /** `createNewLoan`: a fresh ACTIVE loan with no items and an empty log, not yet saved. */
  function CreateNewLoanSpec(db: Db, patronId: int): (out: (Db, Result<Loan>))
    ensures out == (if db.counterStoreFails then (db, Err(SequenceGenerator.NextSequenceValue(db, SequenceGenerator.LoanCounter).1.error))
      else (SequenceGenerator.NextSequenceValue(db, SequenceGenerator.LoanCounter).0,
        Ok(Loan(SequenceGenerator.CounterValue(db, SequenceGenerator.LoanCounter) + 1, patronId, LoanStatus.Active, [], []))))
  {
    var (db1, next) := SequenceGenerator.NextSequenceValue(db, SequenceGenerator.LoanCounter);
    match next
    case Err(e) => (db1, Err(e))
    case Ok(id) => (db1, Ok(Loan(id, patronId, LoanStatus.Active, [], [])))
  }

  method CreateNewLoan(lib: Library, patronId: int) returns (r: Result<Loan>)
    modifies lib
    ensures (lib.Snapshot(), r) == CreateNewLoanSpec(old(lib.Snapshot()), patronId)
  {
    var next := SequenceGenerator.GetNextSequenceValueForLoan(lib);
    if next.Err? {
      return Err(next.error);
    }
    r := Ok(Loan(next.value, patronId, LoanStatus.Active, [], []));
  }

  /**
   * `findOrCreateActiveLoanForPatron`: the patron's first ACTIVE loan with its position,
   * or a new one (drawing a loan number) when there is none.
   */
  function FindOrCreateActiveLoanSpec(db: Db, patronId: int): (out: (Db, Result<(Loan, Option<nat>)>))
    ensures FirstLoanWhere(db.loans, ActiveLoanOf(patronId)).Some? ==>
      var i := FirstLoanWhere(db.loans, ActiveLoanOf(patronId)).value;
      out == (db, Ok((db.loans[i], Some(i))))
    ensures FirstLoanWhere(db.loans, ActiveLoanOf(patronId)).None? ==>
      var (db1, created) := CreateNewLoanSpec(db, patronId);
      out.0 == db1 && (created.Err? ==> out.1 == Err(created.error)) && (created.Ok? ==> out.1 == Ok((created.value, None)))
    ensures out.0.loans == db.loans && out.0.patrons == db.patrons && out.0.media == db.media
    ensures out.1.Ok? ==> out.1.value.0.patronId == patronId && out.1.value.0.status == LoanStatus.Active
    ensures out.1.Ok? && out.1.value.1.Some? ==> out.1.value.1.value < |db.loans|
  {
    match FirstLoanWhere(db.loans, ActiveLoanOf(patronId))
    case Some(i) => (db, Ok((db.loans[i], Some(i))))
    case None =>
      var (db1, created) := CreateNewLoanSpec(db, patronId);
      match created
      case Err(e) => (db1, Err(e))
      case Ok(loan) => (db1, Ok((loan, None)))
  }

  method FindOrCreateActiveLoan(lib: Library, patronId: int) returns (r: Result<(Loan, Option<nat>)>)
    modifies lib
    ensures (lib.Snapshot(), r) == FindOrCreateActiveLoanSpec(old(lib.Snapshot()), patronId)
  {
    var at := FirstLoanWhere(lib.loans, ActiveLoanOf(patronId));
    if at.Some? {
      return Ok((lib.loans[at.value], at));
    }
    var created := CreateNewLoan(lib, patronId);
    if created.Err? {
      return Err(created.error);
    }
    r := Ok((created.value, None));
  }

  /** `addLoanItemToLoan`: one CHECKED_OUT item and one CHECKOUT log entry are appended. */
  function AddLoanItem(loan: Loan, mediaId: int, today: Day, dueDate: Day): (r: Loan)
    ensures r.loanId == loan.loanId && r.patronId == loan.patronId && r.status == loan.status
    ensures |r.items| == |loan.items| + 1 && r.items[..|loan.items|] == loan.items
    ensures var added := r.items[|loan.items|];
      added.mediaId == mediaId && added.status == ItemStatus.CheckedOut &&
      added.checkoutDate == today && added.dueDate == dueDate && added.returnDate.None?
    ensures |r.transactionLog| == |loan.transactionLog| + 1 &&
      r.transactionLog[..|loan.transactionLog|] == loan.transactionLog &&
      r.transactionLog[|loan.transactionLog|..] == [TransactionLog(Checkout, today, [mediaId])]
  {
    loan.(items := loan.items + [LoanItem(mediaId, today, dueDate, None, ItemStatus.CheckedOut)],
      transactionLog := loan.transactionLog + [TransactionLog(Checkout, today, [mediaId])])
  }

  /** The item is for this media and still CHECKED_OUT. */
  predicate OutFor(item: LoanItem, mediaId: int)
  {
    item.mediaId == mediaId && item.status == ItemStatus.CheckedOut
  }

  /** The position of the first CHECKED_OUT item for the media. */
  function FirstOutFor(items: seq<LoanItem>, mediaId: int): (r: Option<nat>)
    ensures r.Some? ==> r.value < |items| && OutFor(items[r.value], mediaId)
    ensures r.Some? ==> forall j :: 0 <= j < r.value ==> !OutFor(items[j], mediaId)
    ensures r.None? ==> forall j :: 0 <= j < |items| ==> !OutFor(items[j], mediaId)
  {
    if items == [] then None
    else if OutFor(items[0], mediaId) then Some(0)
    else match FirstOutFor(items[1..], mediaId)
      case None => None
      case Some(i) => Some(i + 1)
  }

  predicate AllReturned(items: seq<LoanItem>)
  {
    forall i :: 0 <= i < |items| ==> items[i].status == Returned
  }

  /**
   * `updateLoanWithReturn`: the first CHECKED_OUT item for the media is marked
   * RETURNED today, a RETURN log entry is appended, and the loan is COMPLETED exactly
   * when every item is then RETURNED. With no such item the return is refused.
   */
  function UpdateLoanWithReturn(loan: Loan, mediaId: int, today: Day): (r: Result<Loan>)
    ensures r.Ok? <==> exists j :: 0 <= j < |loan.items| && OutFor(loan.items[j], mediaId)
    ensures r.Err? ==> r.error == General(InvalidLoan, "Loan item not found or already returned", NotFound)
    ensures r.Ok? ==> var j := FirstOutFor(loan.items, mediaId).value;
      r.value.items == loan.items[j := loan.items[j].(returnDate := Some(today), status := Returned)]
    ensures r.Ok? ==> r.value.transactionLog == loan.transactionLog + [TransactionLog(Return, today, [mediaId])]
    ensures r.Ok? ==> r.value.status == (if AllReturned(r.value.items) then Completed else loan.status)
    ensures r.Ok? ==> r.value.loanId == loan.loanId && r.value.patronId == loan.patronId
  {
    match FirstOutFor(loan.items, mediaId)
    case None => Err(General(InvalidLoan, "Loan item not found or already returned", NotFound))
    case Some(j) =>
      var items := loan.items[j := loan.items[j].(returnDate := Some(today), status := Returned)];
      var l := loan.(items := items, transactionLog := loan.transactionLog + [TransactionLog(Return, today, [mediaId])]);
      Ok(if AllReturned(items) then l.(status := Completed) else l)
  }

  /** An item just checked out can be returned, and it is that item that is marked. */
  lemma ReturnAfterCheckout(loan: Loan, mediaId: int, today: Day, dueDate: Day, returnDay: Day)
    requires forall j :: 0 <= j < |loan.items| ==> !OutFor(loan.items[j], mediaId)
    ensures var r := UpdateLoanWithReturn(AddLoanItem(loan, mediaId, today, dueDate), mediaId, returnDay);
      r.Ok? && r.value.items == loan.items + [LoanItem(mediaId, today, dueDate, Some(returnDay), Returned)] &&
      (AllReturned(loan.items) ==> r.value.status == Completed)
  {
    var l := AddLoanItem(loan, mediaId, today, dueDate);
    assert OutFor(l.items[|loan.items|], mediaId);
    assert FirstOutFor(l.items, mediaId) == Some(|loan.items|);
    var items := l.items[|loan.items| := l.items[|loan.items|].(returnDate := Some(returnDay), status := Returned)];
    assert items == loan.items + [LoanItem(mediaId, today, dueDate, Some(returnDay), Returned)];
  }

  // ---------------------------------------------------------------------------
  // Checkout

  /** What a checkout has produced so far: the store, the patron object, the loan object and the media handled. */
  datatype CheckoutRun = CheckoutRun(db: Db, patron: Patron, loan: Loan, media: seq<Media>)

  /**
   * One pass of the checkout loop: fetch the media, require it AVAILABLE and the
   * patron eligible, then save the media as CHECKED_OUT, save the patron with the
   * media added, and add the item to the loan.
   */
  function CheckoutItem(s: CheckoutRun, mediaId: int, today: Day, dueDate: Day): Result<CheckoutRun>
  {
    match MediaService.GetMediaById(s.db, mediaId)
    case Err(e) => Err(e)
    case Ok(media) =>
      match ValidationService.ValidateMediaForStatus(media, Available)
      case Fail(e) => Err(e)
      case Pass =>
        match ValidationService.ValidatePatronForCheckout(s.patron, media, today)
        case Fail(e) => Err(e)
        case Pass =>
          var m := media.(status := MediaStatus.CheckedOut);
          var p := PatronService.AfterCheckout(s.patron, mediaId);
          Ok(CheckoutRun(SavePatron(SaveMedia(s.db, m), p), p, AddLoanItem(s.loan, mediaId, today, dueDate), s.media + [m]))
  }

  /** The checkout loop over `mediaIds`, stopping at the first failure. */
  function CheckoutAll(s: CheckoutRun, mediaIds: seq<int>, today: Day, dueDate: Day): (out: (CheckoutRun, Outcome))
    ensures out.0.db == s.db.(patrons := out.0.db.patrons, media := out.0.db.media)
    ensures out.0.loan.loanId == s.loan.loanId && out.0.loan.patronId == s.loan.patronId
    ensures out.0.loan.status == s.loan.status
    decreases |mediaIds|
  {
    if mediaIds == [] then (s, Pass)
    else
      match CheckoutItem(s, mediaIds[0], today, dueDate)
      case Err(e) => (s, Fail(e))
      case Ok(s1) => CheckoutAll(s1, mediaIds[1..], today, dueDate)
  }

  /**
   * `checkoutItems`: a null or empty list is refused, then the patron is fetched and
   * the patron's active loan found or opened; the loop runs, and only if it completes
   * is the loan saved (where it was read, or appended) and the response built.
   */
  function CheckoutItemsSpec(db: Db, patronId: int, mediaIds: Option<seq<int>>, today: Day, loanPeriodDays: int)
    : (out: (Db, Result<TransactionResponse>))
    ensures mediaIds.None? || mediaIds.value == [] ==>
      out == (db, Err(General(InvalidInput, "No media IDs provided for checkout", BadRequest)))
    ensures mediaIds.Some? && mediaIds.value != [] && patronId !in db.patrons ==>
      out == (db, Err(PatronService.GetPatronById(db, patronId).error))
  {
    if mediaIds.None? || mediaIds.value == [] then
      (db, Err(General(InvalidInput, "No media IDs provided for checkout", BadRequest)))
    else
      match PatronService.GetPatronById(db, patronId)
      case Err(e) => (db, Err(e))
      case Ok(patron) =>
        var (db1, found) := FindOrCreateActiveLoanSpec(db, patronId);
        match found
        case Err(e) => (db1, Err(e))
        case Ok((loan, at)) =>
          var (s, o) := CheckoutAll(CheckoutRun(db1, patron, loan, []), mediaIds.value, today, today + loanPeriodDays);
          if o.Fail? then (s.db, Err(o.error))
          else (SaveLoan(s.db, s.loan, at), TransactionResponseOf(s.media, s.loan.loanId, true))
  }

  method CheckoutItems(lib: Library, patronId: int, mediaIds: Option<seq<int>>, today: Day, loanPeriodDays: int)
    returns (r: Result<TransactionResponse>)
    modifies lib
    ensures (lib.Snapshot(), r) == CheckoutItemsSpec(old(lib.Snapshot()), patronId, mediaIds, today, loanPeriodDays)
  {
    if mediaIds.None? || mediaIds.value == [] {
      return Err(General(InvalidInput, "No media IDs provided for checkout", BadRequest));
    }
    var ids := mediaIds.value;
    var found := PatronService.GetPatronById(lib.Snapshot(), patronId);
    if found.Err? {
      return Err(found.error);
    }
    var patron := found.value;
    var active := FindOrCreateActiveLoan(lib, patronId);
    if active.Err? {
      return Err(active.error);
    }
    var (loan, at) := active.value;
    var run := CheckoutLoop(lib, patron, loan, ids, today, today + loanPeriodDays);
    if run.Err? {
      return Err(run.error);
    }
    var (_, loaned, checkedOut) := run.value;
    if at.Some? {
      lib.loans := lib.loans[at.value := loaned];
    } else {
      lib.loans := lib.loans + [loaned];
    }
    r := CreateTransactionResponse(checkedOut, loaned.loanId, true);
  }

  /** The loop of `checkoutItems`: it performs `CheckoutAll` and hands back the patron, loan and media it produced. */
  method CheckoutLoop(lib: Library, patron: Patron, loan: Loan, ids: seq<int>, today: Day, dueDate: Day)
    returns (r: Result<(Patron, Loan, seq<Media>)>)
    modifies lib
    ensures var (s, o) := CheckoutAll(CheckoutRun(old(lib.Snapshot()), patron, loan, []), ids, today, dueDate);
      lib.Snapshot() == s.db && r == (if o.Fail? then Err(o.error) else Ok((s.patron, s.loan, s.media)))
  {
    ghost var start := CheckoutRun(lib.Snapshot(), patron, loan, []);
    var patron, loan := patron, loan;
    var checkedOut: seq<Media> := [];
    var i := 0;
    while i < |ids|
      invariant 0 <= i <= |ids|
      invariant CheckoutAll(start, ids, today, dueDate)
        == CheckoutAll(CheckoutRun(lib.Snapshot(), patron, loan, checkedOut), ids[i..], today, dueDate)
    {
      var mediaId := ids[i];
      assert ids[i..][0] == mediaId && ids[i..][1..] == ids[i + 1..];
      ghost var run := CheckoutRun(lib.Snapshot(), patron, loan, checkedOut);
      var media := MediaService.GetMediaById(lib.Snapshot(), mediaId);
      if media.Err? {
        return Err(media.error);
      }
      var valid := ValidationService.ValidateMediaForStatus(media.value, Available);
      if valid.Fail? {
        return Err(valid.error);
      }
      valid := ValidationService.ValidatePatronForCheckout(patron, media.value, today);
      if valid.Fail? {
        return Err(valid.error);
      }
      var updated := MediaService.UpdateMediaStatus(lib, media.value, MediaStatus.CheckedOut);
      patron := PatronService.UpdatePatronAfterCheckout(lib, patron, mediaId);
      loan := AddLoanItem(loan, mediaId, today, dueDate);
      checkedOut := checkedOut + [updated];
      assert CheckoutItem(run, mediaId, today, dueDate) == Ok(CheckoutRun(lib.Snapshot(), patron, loan, checkedOut));
      i := i + 1;
    }
    assert ids[i..] == [];
    r := Ok((patron, loan, checkedOut));
  }

  /** The items a successful checkout appends for `mediaIds`, in order. */
  function CheckedOutItems(mediaIds: seq<int>, today: Day, dueDate: Day): (r: seq<LoanItem>)
    ensures |r| == |mediaIds|
  {
    if mediaIds == [] then []
    else [LoanItem(mediaIds[0], today, dueDate, None, ItemStatus.CheckedOut)] + CheckedOutItems(mediaIds[1..], today, dueDate)
  }

  /** The log entries a successful checkout appends, one per media id. */
  function CheckoutEntries(mediaIds: seq<int>, today: Day): (r: seq<TransactionLog>)
    ensures |r| == |mediaIds|
  {
    if mediaIds == [] then []
    else [TransactionLog(Checkout, today, [mediaIds[0]])] + CheckoutEntries(mediaIds[1..], today)
  }

  /**
   * A loop that completes adds one CHECKED_OUT item and one CHECKOUT entry per id, in
   * order, appends every id to the patron's list, and lists one media per id.
   */
  lemma {:induction false} CheckoutAllAppends(s: CheckoutRun, mediaIds: seq<int>, today: Day, dueDate: Day)
    requires CheckoutAll(s, mediaIds, today, dueDate).1 == Pass
    ensures var s' := CheckoutAll(s, mediaIds, today, dueDate).0;
      s'.loan.items == s.loan.items + CheckedOutItems(mediaIds, today, dueDate) &&
      s'.loan.transactionLog == s.loan.transactionLog + CheckoutEntries(mediaIds, today) &&
      s'.patron.checkedOutItems == s.patron.checkedOutItems + mediaIds &&
      |s'.media| == |s.media| + |mediaIds|
    decreases |mediaIds|
  {
    if mediaIds != [] {
      var s1 := CheckoutItem(s, mediaIds[0], today, dueDate).value;
      CheckoutAllAppends(s1, mediaIds[1..], today, dueDate);
      assert mediaIds == [mediaIds[0]] + mediaIds[1..];
    }
  }

  /** No id repeats in the list. */
  predicate Distinct(ids: seq<int>)
  {
    forall i, j :: 0 <= i < j < |ids| ==> ids[i] != ids[j]
  }

  /**
   * With every media stored under its own id, a loop that completes found every media
   * AVAILABLE and left it CHECKED_OUT; the second occurrence of a repeated id would
   * find it CHECKED_OUT, so the ids of a completed checkout are distinct.
   */
  lemma {:induction false} CheckoutAllMarksMedia(s: CheckoutRun, mediaIds: seq<int>, today: Day, dueDate: Day)
    requires WellKeyed(s.db)
    requires CheckoutAll(s, mediaIds, today, dueDate).1 == Pass
    ensures var s' := CheckoutAll(s, mediaIds, today, dueDate).0;
      Distinct(mediaIds) && WellKeyed(s'.db) &&
      (forall k :: 0 <= k < |mediaIds| ==> mediaIds[k] in s.db.media && s.db.media[mediaIds[k]].status == Available) &&
      (forall k :: 0 <= k < |mediaIds| ==> mediaIds[k] in s'.db.media && s'.db.media[mediaIds[k]].status == MediaStatus.CheckedOut)
    decreases |mediaIds|
  {
    if mediaIds != [] {
      var id := mediaIds[0];
      var s1 := CheckoutItem(s, id, today, dueDate).value;
      assert s1.db.media == s.db.media[id := s.db.media[id].(status := MediaStatus.CheckedOut)];
      assert s1.db.patrons == s.db.patrons[s.patron.patronId := s1.patron];
      CheckoutAllMarksMedia(s1, mediaIds[1..], today, dueDate);
      var s' := CheckoutAll(s1, mediaIds[1..], today, dueDate).0;
      forall k | 1 <= k < |mediaIds|
        ensures mediaIds[k] != id
      {
        assert mediaIds[k] == mediaIds[1..][k - 1];
      }
      forall k | 0 <= k < |mediaIds|
        ensures mediaIds[k] in s'.db.media && s'.db.media[mediaIds[k]].status == MediaStatus.CheckedOut
      {
        if k > 0 {
          assert mediaIds[k] == mediaIds[1..][k - 1];
        } else {
          MediaUntouchedOutsideIds(s1, mediaIds[1..], today, dueDate, id);
        }
      }
      forall k | 1 <= k < |mediaIds|
        ensures mediaIds[k] in s.db.media && s.db.media[mediaIds[k]].status == Available
      {
        assert mediaIds[k] == mediaIds[1..][k - 1];
      }
    }
  }

  /** The loop writes only the media it is given. */
  lemma {:induction false} MediaUntouchedOutsideIds(s: CheckoutRun, mediaIds: seq<int>, today: Day, dueDate: Day, other: int)
    requires WellKeyed(s.db)
    requires forall k :: 0 <= k < |mediaIds| ==> mediaIds[k] != other
    ensures var s' := CheckoutAll(s, mediaIds, today, dueDate).0;
      (other in s'.db.media <==> other in s.db.media) &&
      (other in s.db.media ==> s'.db.media[other] == s.db.media[other])
    decreases |mediaIds|
  {
    if mediaIds != [] {
      match CheckoutItem(s, mediaIds[0], today, dueDate)
      case Err(_) =>
      case Ok(s1) =>
        assert WellKeyed(s1.db);
        MediaUntouchedOutsideIds(s1, mediaIds[1..], today, dueDate, other);
    }
  }

  /**
   * Where a completed checkout leaves its loan: at the patron's first ACTIVE loan, or
   * just after the old loans when a new one was created.
   */
  function CheckoutLoanIndex(db: Db, patronId: int): nat
  {
    match FirstLoanWhere(db.loans, ActiveLoanOf(patronId))
    case Some(i) => i
    case None => |db.loans|
  }

  /**
   * A completed checkout: the patron's active loan (or a new one) ends up in the store
   * with one CHECKED_OUT item due `today + loanPeriodDays` and one CHECKOUT entry per
   * id, every media is CHECKED_OUT, the patron's list grows by the ids, and the ids
   * were distinct.
   */
  lemma CheckoutSucceeds(db: Db, patronId: int, mediaIds: seq<int>, today: Day, loanPeriodDays: int)
    requires WellKeyed(db)
    requires CheckoutItemsSpec(db, patronId, Some(mediaIds), today, loanPeriodDays).1.Ok?
    ensures patronId in db.patrons && Distinct(mediaIds)
    ensures var (db', r) := CheckoutItemsSpec(db, patronId, Some(mediaIds), today, loanPeriodDays);
      |r.value.mediaItems| == |mediaIds| && patronId in db'.patrons &&
      db'.patrons[patronId].checkedOutItems == db.patrons[patronId].checkedOutItems + mediaIds
    ensures var db' := CheckoutItemsSpec(db, patronId, Some(mediaIds), today, loanPeriodDays).0;
      var i := CheckoutLoanIndex(db, patronId);
      i < |db'.loans| && ActiveLoanOf(patronId)(db'.loans[i]) &&
      |db'.loans[i].items| >= |mediaIds| &&
      db'.loans[i].items[|db'.loans[i].items| - |mediaIds|..] == CheckedOutItems(mediaIds, today, today + loanPeriodDays) &&
      |db'.loans[i].transactionLog| >= |mediaIds| &&
      db'.loans[i].transactionLog[|db'.loans[i].transactionLog| - |mediaIds|..] == CheckoutEntries(mediaIds, today)
    ensures var db' := CheckoutItemsSpec(db, patronId, Some(mediaIds), today, loanPeriodDays).0;
      forall k :: 0 <= k < |mediaIds| ==>
        mediaIds[k] in db'.media && db'.media[mediaIds[k]].status == MediaStatus.CheckedOut
  {
    var out := CheckoutItemsSpec(db, patronId, Some(mediaIds), today, loanPeriodDays);
    assert patronId in db.patrons;
    var patron := db.patrons[patronId];
    var (db1, found) := FindOrCreateActiveLoanSpec(db, patronId);
    assert found.Ok?;
    var (loan, at) := found.value;
    var start := CheckoutRun(db1, patron, loan, []);
    var due := today + loanPeriodDays;
    var (s, o) := CheckoutAll(start, mediaIds, today, due);
    assert o == Pass;
    var db' := SaveLoan(s.db, s.loan, at);
    assert out == (db', TransactionResponseOf(s.media, s.loan.loanId, true));
    assert WellKeyed(db1);
    CheckoutAllAppends(start, mediaIds, today, due);
    CheckoutAllMarksMedia(start, mediaIds, today, due);
    PatronStaysKeyed(start, mediaIds, today, due);
    assert db'.patrons == s.db.patrons;
    var i := if at.Some? then at.value else |s.db.loans|;
    assert db'.loans[i] == s.loan;
    assert i == CheckoutLoanIndex(db, patronId);
    assert s.loan.items[|s.loan.items| - |mediaIds|..] == CheckedOutItems(mediaIds, today, due);
    assert s.loan.transactionLog[|s.loan.transactionLog| - |mediaIds|..] == CheckoutEntries(mediaIds, today);
    assert db'.media == s.db.media;
  }

  /** The loop keeps the patron object and the stored patron in step. */
  lemma {:induction false} PatronStaysKeyed(s: CheckoutRun, mediaIds: seq<int>, today: Day, dueDate: Day)
    requires s.patron.patronId in s.db.patrons && s.db.patrons[s.patron.patronId] == s.patron
    ensures var s' := CheckoutAll(s, mediaIds, today, dueDate).0;
      s'.patron.patronId == s.patron.patronId && s.patron.patronId in s'.db.patrons &&
      s'.db.patrons[s.patron.patronId] == s'.patron
    decreases |mediaIds|
  {
    if mediaIds != [] {
      match CheckoutItem(s, mediaIds[0], today, dueDate)
      case Err(_) =>
      case Ok(s1) => PatronStaysKeyed(s1, mediaIds[1..], today, dueDate);
    }
  }

  /**
   * A first id that fails validation stops the checkout before any write, so when the
   * patron already has an active loan nothing at all changes.
   */
  lemma FirstItemRefusedSavesNothing(db: Db, patronId: int, mediaIds: seq<int>, today: Day, loanPeriodDays: int)
    requires mediaIds != [] && patronId in db.patrons
    requires FirstLoanWhere(db.loans, ActiveLoanOf(patronId)).Some?
    requires mediaIds[0] !in db.media || db.media[mediaIds[0]].status != Available
    ensures CheckoutItemsSpec(db, patronId, Some(mediaIds), today, loanPeriodDays).0 == db
  {}

  /**
   * A pass of the checkout loop is refused exactly when the media is missing, is not
   * AVAILABLE, or the patron may not borrow it; a refused pass writes nothing.
   */
  lemma CheckoutItemRefused(s: CheckoutRun, mediaId: int, today: Day, dueDate: Day)
    ensures CheckoutItem(s, mediaId, today, dueDate).Err? <==>
      (mediaId !in s.db.media || s.db.media[mediaId].status != Available ||
       ValidationService.ValidatePatronForCheckout(s.patron, s.db.media[mediaId], today).Fail?)
    ensures mediaId in s.db.media && s.db.media[mediaId].status == Available ==>
      var v := ValidationService.ValidatePatronForCheckout(s.patron, s.db.media[mediaId], today);
      v.Fail? ==> CheckoutItem(s, mediaId, today, dueDate) == Err(v.error)
  {}

  /**
   * A loop that fails stopped at the first refused id: the run it returns is exactly
   * the run after the ids before it, all of which went through.
   */
  lemma {:induction false} CheckoutAllStops(s: CheckoutRun, mediaIds: seq<int>, today: Day, dueDate: Day)
    requires CheckoutAll(s, mediaIds, today, dueDate).1.Fail?
    ensures exists n :: 0 <= n < |mediaIds| && StopsAt(s, mediaIds, today, dueDate, n)
    decreases |mediaIds|
  {
    assert mediaIds != [];
    match CheckoutItem(s, mediaIds[0], today, dueDate)
    case Err(e) =>
      assert mediaIds[..0] == [];
      assert StopsAt(s, mediaIds, today, dueDate, 0);
    case Ok(s1) =>
      var rest := mediaIds[1..];
      CheckoutAllStops(s1, rest, today, dueDate);
      var n :| 0 <= n < |rest| && StopsAt(s1, rest, today, dueDate, n);
      assert mediaIds[..n + 1][0] == mediaIds[0] && mediaIds[..n + 1][1..] == rest[..n];
      assert CheckoutAll(s, mediaIds[..n + 1], today, dueDate) == CheckoutAll(s1, rest[..n], today, dueDate);
      assert mediaIds[n + 1] == rest[n];
      assert StopsAt(s, mediaIds, today, dueDate, n + 1);
  }

  /**
   * The loop over `mediaIds` went through the first `n` ids, was refused at id `n`,
   * and returned the run it had reached.
   */
  predicate StopsAt(s: CheckoutRun, mediaIds: seq<int>, today: Day, dueDate: Day, n: nat)
    requires n < |mediaIds|
  {
    var (s', o) := CheckoutAll(s, mediaIds[..n], today, dueDate);
    o == Pass && CheckoutItem(s', mediaIds[n], today, dueDate).Err? &&
    CheckoutAll(s, mediaIds, today, dueDate) == (s', Fail(CheckoutItem(s', mediaIds[n], today, dueDate).error))
  }

  /**
   * A checkout refused before or inside the loop saves no loan; only a response that
   * cannot format a barcode comes after the loan is saved. When the loop was refused,
   * the store is exactly the store after the ids before the refused one, so that id's
   * media and the patron are not written, whatever refused it.
   */
  lemma CheckoutRefusedSavesNoLoan(db: Db, patronId: int, mediaIds: seq<int>, today: Day, loanPeriodDays: int)
    requires CheckoutItemsSpec(db, patronId, Some(mediaIds), today, loanPeriodDays).1.Err?
    ensures var (db', r) := CheckoutItemsSpec(db, patronId, Some(mediaIds), today, loanPeriodDays);
      db'.loans == db.loans || r.error == IllegalArgument("Invalid barcode ID length")
    ensures mediaIds != [] && patronId in db.patrons && FindOrCreateActiveLoanSpec(db, patronId).1.Ok? ==>
      var (db1, found) := FindOrCreateActiveLoanSpec(db, patronId);
      var start := CheckoutRun(db1, db.patrons[patronId], found.value.0, []);
      var due := today + loanPeriodDays;
      CheckoutAll(start, mediaIds, today, due).1.Fail? ==>
        exists n :: 0 <= n < |mediaIds| && StopsAt(start, mediaIds, today, due, n) &&
          CheckoutItemsSpec(db, patronId, Some(mediaIds), today, loanPeriodDays).0
            == CheckoutAll(start, mediaIds[..n], today, due).0.db
  {
    if mediaIds != [] && patronId in db.patrons {
      var (db1, found) := FindOrCreateActiveLoanSpec(db, patronId);
      if found.Ok? {
        var (loan, at) := found.value;
        var start := CheckoutRun(db1, db.patrons[patronId], loan, []);
        var due := today + loanPeriodDays;
        var (run, o) := CheckoutAll(start, mediaIds, today, due);
        if o.Fail? {
          CheckoutAllStops(start, mediaIds, today, due);
          var n :| 0 <= n < |mediaIds| && StopsAt(start, mediaIds, today, due, n);
          assert CheckoutItemsSpec(db, patronId, Some(mediaIds), today, loanPeriodDays).0 == run.db;
        }
      }
    }
  }

  // ---------------------------------------------------------------------------
  // Return

  /**
   * `findActiveByPatronIdAndMediaId`: the patron's ACTIVE loan holding an item for the
   * media and some CHECKED_OUT item. The two conditions are on the item list as a
   * whole, not on one item.
   */
  function ActiveLoanWithMedia(patronId: int, mediaId: int): Loan -> bool
  {
    (l: Loan) => l.patronId == patronId && l.status == LoanStatus.Active &&
      MediaService.ContainsMedia(l, mediaId) && HasCheckedOutItem(l)
  }

  predicate HasCheckedOutItem(l: Loan)
  {
    exists j :: 0 <= j < |l.items| && l.items[j].status == ItemStatus.CheckedOut
  }

  /** What a return has produced so far: the store, the patron object and the media handled. */
  datatype ReturnRun = ReturnRun(db: Db, patron: Patron, media: seq<Media>)

  /**
   * One pass of the return loop: fetch the media, require it CHECKED_OUT, find the
   * patron's active loan holding it, record the return and save the loan, then save
   * the media as AVAILABLE and the patron with the media removed.
   */
  function ReturnItem(s: ReturnRun, patronId: int, mediaId: int, today: Day): Result<ReturnRun>
  {
    match MediaService.GetMediaById(s.db, mediaId)
    case Err(e) => Err(e)
    case Ok(media) =>
      match ValidationService.ValidateMediaForStatus(media, MediaStatus.CheckedOut)
      case Fail(e) => Err(e)
      case Pass =>
        match FirstLoanWhere(s.db.loans, ActiveLoanWithMedia(patronId, mediaId))
        case None => Err(General(InvalidLoan, "No active loan found with the given media item", NotFound))
        case Some(i) =>
          match UpdateLoanWithReturn(s.db.loans[i], mediaId, today)
          case Err(e) => Err(e)
          case Ok(loan) =>
            var m := media.(status := Available);
            var p := PatronService.AfterReturn(s.patron, mediaId);
            Ok(ReturnRun(SavePatron(SaveMedia(SaveLoan(s.db, loan, Some(i)), m), p), p, s.media + [m]))
  }

  /** The return loop over `mediaIds`, stopping at the first failure. */
  function ReturnAll(s: ReturnRun, patronId: int, mediaIds: seq<int>, today: Day): (out: (ReturnRun, Outcome))
    ensures |out.0.db.loans| == |s.db.loans|
    ensures out.0.db.counters == s.db.counters && out.0.db.fines == s.db.fines && out.0.db.outbox == s.db.outbox
    decreases |mediaIds|
  {
    if mediaIds == [] then (s, Pass)
    else
      match ReturnItem(s, patronId, mediaIds[0], today)
      case Err(e) => (s, Fail(e))
      case Ok(s1) => ReturnAll(s1, patronId, mediaIds[1..], today)
  }

  /**
   * `returnItems`: a null or empty list is refused, then the patron is fetched and the
   * loop runs; the response's loan id field carries the patron id.
   */
  function ReturnItemsSpec(db: Db, patronId: int, mediaIds: Option<seq<int>>, today: Day)
    : (out: (Db, Result<TransactionResponse>))
    ensures mediaIds.None? || mediaIds.value == [] ==>
      out == (db, Err(General(InvalidInput, "No media IDs provided for return", BadRequest)))
    ensures mediaIds.Some? && mediaIds.value != [] && patronId !in db.patrons ==>
      out == (db, Err(PatronService.GetPatronById(db, patronId).error))
    ensures out.1.Ok? ==> out.1.value.loanId == patronId && out.1.value.message == ReturnMessage
    ensures |out.0.loans| == |db.loans| && out.0.counters == db.counters
  {
    if mediaIds.None? || mediaIds.value == [] then
      (db, Err(General(InvalidInput, "No media IDs provided for return", BadRequest)))
    else
      match PatronService.GetPatronById(db, patronId)
      case Err(e) => (db, Err(e))
      case Ok(patron) =>
        var (s, o) := ReturnAll(ReturnRun(db, patron, []), patronId, mediaIds.value, today);
        if o.Fail? then (s.db, Err(o.error))
        else (s.db, TransactionResponseOf(s.media, patronId, false))
  }

  method ReturnItems(lib: Library, patronId: int, mediaIds: Option<seq<int>>, today: Day)
    returns (r: Result<TransactionResponse>)
    modifies lib
    ensures (lib.Snapshot(), r) == ReturnItemsSpec(old(lib.Snapshot()), patronId, mediaIds, today)
  {
    if mediaIds.None? || mediaIds.value == [] {
      return Err(General(InvalidInput, "No media IDs provided for return", BadRequest));
    }
    var ids := mediaIds.value;
    var found := PatronService.GetPatronById(lib.Snapshot(), patronId);
    if found.Err? {
      return Err(found.error);
    }
    var patron := found.value;
    ghost var start := ReturnRun(lib.Snapshot(), patron, []);
    var returned: seq<Media> := [];
    var i := 0;
    while i < |ids|
      invariant 0 <= i <= |ids|
      invariant ReturnAll(start, patronId, ids, today)
        == ReturnAll(ReturnRun(lib.Snapshot(), patron, returned), patronId, ids[i..], today)
    {
      var mediaId := ids[i];
      assert ids[i..][0] == mediaId && ids[i..][1..] == ids[i + 1..];
      var media := MediaService.GetMediaById(lib.Snapshot(), mediaId);
      if media.Err? {
        return Err(media.error);
      }
      var valid := ValidationService.ValidateMediaForStatus(media.value, MediaStatus.CheckedOut);
      if valid.Fail? {
        return Err(valid.error);
      }
      var at := FirstLoanWhere(lib.loans, ActiveLoanWithMedia(patronId, mediaId));
      if at.None? {
        return Err(General(InvalidLoan, "No active loan found with the given media item", NotFound));
      }
      var loan := UpdateLoanWithReturn(lib.loans[at.value], mediaId, today);
      if loan.Err? {
        return Err(loan.error);
      }
      lib.loans := lib.loans[at.value := loan.value];
      var updated := MediaService.UpdateMediaStatus(lib, media.value, Available);
      patron := PatronService.UpdatePatronAfterReturn(lib, patron, mediaId);
      returned := returned + [updated];
      i := i + 1;
    }
    assert ids[i..] == [];
    r := CreateTransactionResponse(returned, patronId, false);
  }

  /** Some loan of the patron holds an item for the media, RETURNED on `today`. */
  predicate ReturnedIn(db: Db, patronId: int, mediaId: int, today: Day)
  {
    exists i, j :: 0 <= i < |db.loans| && 0 <= j < |db.loans[i].items| &&
      db.loans[i].patronId == patronId && db.loans[i].items[j].mediaId == mediaId &&
      db.loans[i].items[j].status == Returned && db.loans[i].items[j].returnDate == Some(today)
  }

  /** The media is stored and AVAILABLE. */
  predicate AvailableIn(db: Db, mediaId: int)
  {
    mediaId in db.media && db.media[mediaId].status == Available
  }

  /** What a completed return of the media leaves behind. */
  predicate Recorded(db: Db, patronId: int, mediaId: int, today: Day)
  {
    ReturnedIn(db, patronId, mediaId, today) && AvailableIn(db, mediaId)
  }

  /** The patron object carried through a return is the one stored under its id. */
  predicate PatronStored(s: ReturnRun)
  {
    s.patron.patronId in s.db.patrons && s.db.patrons[s.patron.patronId] == s.patron
  }

  /**
   * One successful pass of the return loop: the item is RETURNED today in a loan of
   * the patron, the media is AVAILABLE, the id leaves the patron's list once, and what
   * earlier passes recorded for any other id is kept.
   */
  lemma ReturnItemEffects(s: ReturnRun, patronId: int, mediaId: int, today: Day, other: int)
    requires WellKeyed(s.db) && PatronStored(s)
    requires ReturnItem(s, patronId, mediaId, today).Ok?
    ensures var s1 := ReturnItem(s, patronId, mediaId, today).value;
      WellKeyed(s1.db) && PatronStored(s1) && s1.patron.patronId == s.patron.patronId &&
      multiset(s1.patron.checkedOutItems) == multiset(s.patron.checkedOutItems) - multiset{mediaId} &&
      |s1.media| == |s.media| + 1 &&
      Recorded(s1.db, patronId, mediaId, today) &&
      (Recorded(s.db, patronId, other, today) ==> Recorded(s1.db, patronId, other, today))
  {
    var s1 := ReturnItem(s, patronId, mediaId, today).value;
    var media := s.db.media[mediaId];
    var i := FirstLoanWhere(s.db.loans, ActiveLoanWithMedia(patronId, mediaId)).value;
    var loan := s.db.loans[i];
    var updated := UpdateLoanWithReturn(loan, mediaId, today).value;
    var j := FirstOutFor(loan.items, mediaId).value;
    assert s1.db.loans == s.db.loans[i := updated];
    assert s1.db.media == s.db.media[mediaId := media.(status := Available)];
    assert updated.patronId == patronId;
    assert updated.items[j].mediaId == mediaId && updated.items[j].status == Returned;
    assert s1.db.loans[i] == updated && updated.items[j].returnDate == Some(today);
    assert i < |s1.db.loans| && j < |s1.db.loans[i].items|;
    if Recorded(s.db, patronId, other, today) {
      var i', j' :| 0 <= i' < |s.db.loans| && 0 <= j' < |s.db.loans[i'].items| &&
        s.db.loans[i'].patronId == patronId && s.db.loans[i'].items[j'].mediaId == other &&
        s.db.loans[i'].items[j'].status == Returned && s.db.loans[i'].items[j'].returnDate == Some(today);
      if i' == i && j' != j {
        assert s1.db.loans[i'].items[j'] == s.db.loans[i'].items[j'];
      }
      assert s1.db.loans[i'].items[j'].mediaId == other && s1.db.loans[i'].items[j'].status == Returned;
    }
  }

  /** Later passes keep what earlier passes recorded. */
  lemma {:induction false} ReturnAllKeeps(s: ReturnRun, patronId: int, mediaIds: seq<int>, today: Day, other: int)
    requires WellKeyed(s.db) && PatronStored(s)
    requires ReturnAll(s, patronId, mediaIds, today).1 == Pass
    ensures var s' := ReturnAll(s, patronId, mediaIds, today).0;
      WellKeyed(s'.db) && PatronStored(s') &&
      (Recorded(s.db, patronId, other, today) ==> Recorded(s'.db, patronId, other, today))
    decreases |mediaIds|
  {
    if mediaIds != [] {
      var s1 := ReturnItem(s, patronId, mediaIds[0], today).value;
      ReturnItemEffects(s, patronId, mediaIds[0], today, other);
      ReturnAllKeeps(s1, patronId, mediaIds[1..], today, other);
    }
  }

  /** A completed return loop removes each id once from the patron's list and lists one media per id. */
  lemma {:induction false} ReturnAllUpdatesPatron(s: ReturnRun, patronId: int, mediaIds: seq<int>, today: Day)
    requires WellKeyed(s.db) && PatronStored(s)
    requires ReturnAll(s, patronId, mediaIds, today).1 == Pass
    ensures var s' := ReturnAll(s, patronId, mediaIds, today).0;
      WellKeyed(s'.db) && PatronStored(s') && s'.patron.patronId == s.patron.patronId &&
      multiset(s'.patron.checkedOutItems) == multiset(s.patron.checkedOutItems) - multiset(mediaIds) &&
      |s'.media| == |s.media| + |mediaIds|
    decreases |mediaIds|
  {
    if mediaIds != [] {
      var id := mediaIds[0];
      var s1 := ReturnItem(s, patronId, id, today).value;
      ReturnItemEffects(s, patronId, id, today, id);
      ReturnAllUpdatesPatron(s1, patronId, mediaIds[1..], today);
      assert mediaIds == [id] + mediaIds[1..];
      assert multiset(mediaIds) == multiset{id} + multiset(mediaIds[1..]);
    }
  }

  /** A completed return loop has marked every id RETURNED today in a loan of the patron and left its media AVAILABLE. */
  lemma {:induction false} ReturnAllMarks(s: ReturnRun, patronId: int, mediaIds: seq<int>, today: Day)
    requires WellKeyed(s.db) && PatronStored(s)
    requires ReturnAll(s, patronId, mediaIds, today).1 == Pass
    ensures var s' := ReturnAll(s, patronId, mediaIds, today).0;
      forall k :: 0 <= k < |mediaIds| ==> Recorded(s'.db, patronId, mediaIds[k], today)
    decreases |mediaIds|
  {
    if mediaIds != [] {
      var id, rest := mediaIds[0], mediaIds[1..];
      var s1 := ReturnItem(s, patronId, id, today).value;
      var s' := ReturnAll(s1, patronId, rest, today).0;
      assert ReturnAll(s, patronId, mediaIds, today) == ReturnAll(s1, patronId, rest, today);
      ReturnItemEffects(s, patronId, id, today, id);
      ReturnAllMarks(s1, patronId, rest, today);
      ReturnAllKeeps(s1, patronId, rest, today, id);
      forall k | 0 <= k < |mediaIds|
        ensures Recorded(s'.db, patronId, mediaIds[k], today)
      {
        if k > 0 {
          assert mediaIds[k] == rest[k - 1];
        }
      }
    }
  }

  /**
   * A completed return: for every id, the patron's loan holds its item RETURNED
   * today, the media is AVAILABLE, the id has left the patron's checked-out list
   * once, and the response lists one media per id.
   */
  lemma ReturnSucceeds(db: Db, patronId: int, mediaIds: seq<int>, today: Day)
    requires WellKeyed(db)
    requires ReturnItemsSpec(db, patronId, Some(mediaIds), today).1.Ok?
    ensures patronId in db.patrons
    ensures var (db', r) := ReturnItemsSpec(db, patronId, Some(mediaIds), today);
      |r.value.mediaItems| == |mediaIds| && patronId in db'.patrons &&
      multiset(db'.patrons[patronId].checkedOutItems)
        == multiset(db.patrons[patronId].checkedOutItems) - multiset(mediaIds) &&
      forall k :: 0 <= k < |mediaIds| ==> Recorded(db', patronId, mediaIds[k], today)
  {
    assert patronId in db.patrons;
    var start := ReturnRun(db, db.patrons[patronId], []);
    var (s, o) := ReturnAll(start, patronId, mediaIds, today);
    assert o == Pass;
    ReturnAllUpdatesPatron(start, patronId, mediaIds, today);
    ReturnAllMarks(start, patronId, mediaIds, today);
    assert ReturnItemsSpec(db, patronId, Some(mediaIds), today) == (s.db, TransactionResponseOf(s.media, patronId, false));
  }

  /**
   * Because the loan query does not tie the media to the CHECKED_OUT item, an active
   * loan whose only item for the media was already returned is still selected, and
   * the return is then refused by the item check.
   */
  lemma ReturnedItemIsRefusedByItemCheck(loan: Loan, mediaId: int, today: Day)
    requires loan.status == LoanStatus.Active && MediaService.ContainsMedia(loan, mediaId) && HasCheckedOutItem(loan)
    requires forall j :: 0 <= j < |loan.items| && loan.items[j].mediaId == mediaId ==> loan.items[j].status == Returned
    ensures ActiveLoanWithMedia(loan.patronId, mediaId)(loan)
    ensures UpdateLoanWithReturn(loan, mediaId, today)
      == Err(General(InvalidLoan, "Loan item not found or already returned", NotFound))
  {}

  // ---------------------------------------------------------------------------
  // Dispatch and deletion

  /** `processLoanAction`: a null type is refused before anything is touched. */
  function ProcessLoanActionSpec(db: Db, request: LoanActionRequest, today: Day, loanPeriodDays: int)
    : (out: (Db, Result<TransactionResponse>))
    ensures request.transactionType.None? ==>
      out == (db, Err(General(InvalidInput, "Invalid transaction type: null", BadRequest)))
    ensures request.transactionType == Some(Checkout) ==>
      out == CheckoutItemsSpec(db, request.patronId, request.mediaIds, today, loanPeriodDays)
    ensures request.transactionType == Some(Return) ==>
      out == ReturnItemsSpec(db, request.patronId, request.mediaIds, today)
  {
    match request.transactionType
    case None => (db, Err(General(InvalidInput, "Invalid transaction type: null", BadRequest)))
    case Some(Checkout) => CheckoutItemsSpec(db, request.patronId, request.mediaIds, today, loanPeriodDays)
    case Some(Return) => ReturnItemsSpec(db, request.patronId, request.mediaIds, today)
  }

  method ProcessLoanAction(lib: Library, request: LoanActionRequest, today: Day, loanPeriodDays: int)
    returns (r: Result<TransactionResponse>)
    modifies lib
    ensures (lib.Snapshot(), r) == ProcessLoanActionSpec(old(lib.Snapshot()), request, today, loanPeriodDays)
  {
    if request.transactionType.None? {
      return Err(General(InvalidInput, "Invalid transaction type: null", BadRequest));
    }
    match request.transactionType.value
    case Checkout =>
      r := CheckoutItems(lib, request.patronId, request.mediaIds, today, loanPeriodDays);
    case Return =>
      r := ReturnItems(lib, request.patronId, request.mediaIds, today);
  }

  function HasLoanId(loanId: int): Loan -> bool
  {
    (l: Loan) => l.loanId == loanId
  }

  function OtherLoanId(loanId: int): Loan -> bool
  {
    (l: Loan) => l.loanId != loanId
  }

  /**
   * `deleteLoanById`: a missing loan number is refused; the first loan with the
   * number is refused while any of its items is CHECKED_OUT; otherwise every loan
   * with that number is deleted.
   */
  function DeleteLoanByIdSpec(db: Db, loanId: int): (out: (Db, Outcome))
    ensures FirstLoanWhere(db.loans, HasLoanId(loanId)).None? ==>
      out == (db, Fail(General(InvalidInput, "Loan not found with ID: " + IntToString(loanId), NotFound)))
    ensures FirstLoanWhere(db.loans, HasLoanId(loanId)).Some? ==>
      var first := db.loans[FirstLoanWhere(db.loans, HasLoanId(loanId)).value];
      (out.1 == Pass <==> !HasCheckedOutItem(first)) &&
      (out.1.Fail? ==> out == (db, Fail(General(InvalidOperation, "Cannot delete loan with active items", Forbidden))))
    ensures out.1 == Pass ==>
      out.0 == db.(loans := LoansWhere(db.loans, OtherLoanId(loanId))) &&
      forall l :: l in out.0.loans <==> l in db.loans && l.loanId != loanId
  {
    match FirstLoanWhere(db.loans, HasLoanId(loanId))
    case None => (db, Fail(General(InvalidInput, "Loan not found with ID: " + IntToString(loanId), NotFound)))
    case Some(i) =>
      if HasCheckedOutItem(db.loans[i]) then
        (db, Fail(General(InvalidOperation, "Cannot delete loan with active items", Forbidden)))
      else
        (db.(loans := LoansWhere(db.loans, OtherLoanId(loanId))), Pass)
  }

  method DeleteLoanById(lib: Library, loanId: int) returns (r: Outcome)
    modifies lib
    ensures (lib.Snapshot(), r) == DeleteLoanByIdSpec(old(lib.Snapshot()), loanId)
  {
    var at := FirstLoanWhere(lib.loans, HasLoanId(loanId));
    if at.None? {
      return Fail(General(InvalidInput, "Loan not found with ID: " + IntToString(loanId), NotFound));
    }
    if HasCheckedOutItem(lib.loans[at.value]) {
      return Fail(General(InvalidOperation, "Cannot delete loan with active items", Forbidden));
    }
    lib.loans := LoansWhere(lib.loans, OtherLoanId(loanId));
    r := Pass;
  }

  /** A loan all of whose items are returned is deleted. */
  lemma CompletedLoanIsDeleted(db: Db, i: nat)
    requires i < |db.loans| && AllReturned(db.loans[i].items)
    requires forall j :: 0 <= j < i ==> db.loans[j].loanId != db.loans[i].loanId
    ensures var (db', r) := DeleteLoanByIdSpec(db, db.loans[i].loanId);
      r == Pass && db.loans[i] !in db'.loans
  {
    assert FirstLoanWhere(db.loans, HasLoanId(db.loans[i].loanId)) == Some(i);
  }
}
