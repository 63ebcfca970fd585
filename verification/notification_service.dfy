/**
 * Due-date reminders and status-change notices. The reminder job looks at six due
 * dates around today, collects one line per checked-out item due on each of them,
 * grouped per patron, and then hands each patron exactly one consolidated message to
 * the notification sender (the `outbox` of the store).
 */
module NotificationService {
  import opened Common
  import opened Calendar
  import opened Model
  import opened Store

  /**
   * A message template. All five share the item line "Media ID: %s Title: %s Due Date: %s";
   * they differ in the text before it, which may hold a `%d` day count, and the text after.
   */
  datatype Template = Template(lead: string, dayCount: bool, afterCount: string, tail: string)

  /** How many arguments the template consumes. */
  function Conversions(t: Template): nat
  {
    if t.dayCount then 4 else 3
  }

  /** `String.format(template, args)` with every argument already in its text form. */
  function Format(t: Template, args: seq<string>): string
    requires |args| == Conversions(t)
  {
    var k := if t.dayCount then 1 else 0;
    t.lead + (if t.dayCount then args[0] else "") + t.afterCount
      + "Media ID: " + args[k] + " Title: " + args[k + 1] + " Due Date: " + args[k + 2] + t.tail
  }

  const DueInDaysTemplate := Template("The following items are due in ", true, " days:\n", ".\n")

  const DueTodayTemplate := Template("The following items are due today:\n", false, "", ".\n")

  const PastDueTemplate := Template("The following items are ", true, " days past due:\n", ".\n")

  const PastDueWithWarningTemplate := Template("The following items are ", true, " days past due:\n",
    ".\nPlease return the item to avoid penalties, including revocation of your borrowing privileges.\n")

  const AccountSuspendedTemplate := Template("Important Alert.\nThe following items are ", true, " days past due:\n",
    ".\nYour account is suspended, and your borrowing privileges are revoked. Please contact the library.\n")

  /** The day offsets the reminder job looks at, relative to today. */
  const DayOffsets: set<int> := {3, 0, -5, -10, -15, -30}

  /** `getMessageForDaysOffset`: the template for each supported offset. */
  function MessageForDaysOffset(daysOffset: int): (r: Result<Template>)
    ensures r.Ok? <==> daysOffset in DayOffsets
    ensures daysOffset == 3 ==> r == Ok(DueInDaysTemplate)
    ensures daysOffset == 0 ==> r == Ok(DueTodayTemplate)
    ensures daysOffset == -5 || daysOffset == -10 ==> r == Ok(PastDueTemplate)
    ensures daysOffset == -15 ==> r == Ok(PastDueWithWarningTemplate)
    ensures daysOffset == -30 ==> r == Ok(AccountSuspendedTemplate)
    ensures r.Err? ==> r.error == IllegalArgument("Unsupported daysOffset: " + IntToString(daysOffset))
  {
    if daysOffset == 3 then Ok(DueInDaysTemplate)
    else if daysOffset == 0 then Ok(DueTodayTemplate)
    else if daysOffset == -5 || daysOffset == -10 then Ok(PastDueTemplate)
    else if daysOffset == -15 then Ok(PastDueWithWarningTemplate)
    else if daysOffset == -30 then Ok(AccountSuspendedTemplate)
    else Err(IllegalArgument("Unsupported daysOffset: " + IntToString(daysOffset)))
  }

  /**
   * `formatMessage`: a template with a day count is given |daysOffset| first; then
   * the media id, the title and the due date in ISO form.
   */
  function FormatMessage(t: Template, daysOffset: int, mediaId: int, title: Option<string>, dueDate: Day): string
  {
    if t.dayCount then
      Format(t, [IntToString(Abs(daysOffset)), IntToString(mediaId), TextOrNull(title), IsoDate(dueDate)])
    else
      Format(t, [IntToString(mediaId), TextOrNull(title), IsoDate(dueDate)])
  }

  /** An item contributes a line for `dueDate` when it is due then and still out. */
  predicate Matches(item: LoanItem, dueDate: Day)
  {
    item.dueDate == dueDate && item.status == ItemStatus.CheckedOut
  }

  /** A loan with at least one item that contributes a line for `dueDate`. */
  predicate HasMatch(loan: Loan, dueDate: Day)
  {
    exists j :: 0 <= j < |loan.items| && Matches(loan.items[j], dueDate)
  }

  /** The title a line shows: the media's title, or "Unknown Title" for unknown media. */
  function TitleOf(db: Db, mediaId: int): Option<string>
  {
    if mediaId in db.media then db.media[mediaId].mediaTitle else Some("Unknown Title")
  }

  /** The text accumulated so far for a patron. */
  function Accumulated(acc: map<int, string>, patronId: int): string
  {
    if patronId in acc then acc[patronId] else ""
  }

  /** One item of one loan: a line is appended to the patron's text when it matches. */
  function AddItem(db: Db, t: Template, daysOffset: int, dueDate: Day, acc: map<int, string>,
      patronId: int, item: LoanItem): map<int, string>
  {
    if Matches(item, dueDate) then
      acc[patronId := Accumulated(acc, patronId)
        + FormatMessage(t, daysOffset, item.mediaId, TitleOf(db, item.mediaId), item.dueDate)]
    else acc
  }

  /** The items of one loan, in order. */
  function AddItems(db: Db, t: Template, daysOffset: int, dueDate: Day, acc: map<int, string>,
      patronId: int, items: seq<LoanItem>): map<int, string>
    decreases |items|
  {
    if items == [] then acc
    else AddItems(db, t, daysOffset, dueDate, AddItem(db, t, daysOffset, dueDate, acc, patronId, items[0]),
      patronId, items[1..])
  }

  /** The loans, in order. */
  function AddLoans(db: Db, t: Template, daysOffset: int, dueDate: Day, acc: map<int, string>,
      loans: seq<Loan>): map<int, string>
    decreases |loans|
  {
    if loans == [] then acc
    else AddLoans(db, t, daysOffset, dueDate,
      AddItems(db, t, daysOffset, dueDate, acc, loans[0].patronId, loans[0].items), loans[1..])
  }

  /** `sendNotificationsForLoans` as a function of the accumulated texts. */
  function NotificationsForLoans(db: Db, loans: seq<Loan>, daysOffset: int, dueDate: Day,
      acc: map<int, string>): Result<map<int, string>>
  {
    match MessageForDaysOffset(daysOffset)
    case Err(e) => Err(e)
    case Ok(t) => Ok(AddLoans(db, t, daysOffset, dueDate, acc, loans))
  }

  /** The repository query: active loans with an item due on `dueDate` and still out. */
  function DueLoans(db: Db, dueDate: Day): seq<Loan>
  {
    LoansWhere(db.loans, (l: Loan) => l.status == LoanStatus.Active && HasMatch(l, dueDate))
  }

  /** The texts accumulated after processing the offsets in `order`. */
  function Collect(db: Db, today: Day, order: seq<int>): Result<map<int, string>>
  {
    if order == [] then Ok(map[])
    else
      var daysOffset := order[|order| - 1];
      match Collect(db, today, order[..|order| - 1])
      case Err(e) => Err(e)
      case Ok(acc) => NotificationsForLoans(db, DueLoans(db, today + daysOffset), daysOffset,
        today + daysOffset, acc)
  }

  predicate NoDuplicates(s: seq<int>)
  {
    forall i, j :: 0 <= i < j < |s| ==> s[i] != s[j]
  }

  /** The messages sent to `recipients`, in that order. */
  function Notices(recipients: seq<int>, messages: map<int, string>): seq<Notice>
    requires forall p :: p in recipients ==> p in messages
  {
    if recipients == [] then []
    else
      var p := recipients[|recipients| - 1];
      Notices(recipients[..|recipients| - 1], messages) + [Notice(p, messages[p])]
  }

  method SendNotificationsForLoans(lib: Library, loans: seq<Loan>, daysOffset: int, dueDateFilter: Day,
      acc: map<int, string>) returns (r: Result<map<int, string>>)
    ensures r == NotificationsForLoans(lib.Snapshot(), loans, daysOffset, dueDateFilter, acc)
  {
    var template := MessageForDaysOffset(daysOffset);
    if template.Err? {
      return Err(template.error);
    }
    var t := template.value;
    ghost var db := lib.Snapshot();
    var messages := acc;
    var i := 0;
    while i < |loans|
      invariant 0 <= i <= |loans|
      invariant AddLoans(db, t, daysOffset, dueDateFilter, acc, loans)
        == AddLoans(db, t, daysOffset, dueDateFilter, messages, loans[i..])
    {
      var patronId := loans[i].patronId;
      var items := loans[i].items;
      assert loans[i..][1..] == loans[i + 1..];
      var j := 0;
      while j < |items|
        invariant 0 <= j <= |items|
        invariant AddLoans(db, t, daysOffset, dueDateFilter, acc, loans)
          == AddLoans(db, t, daysOffset, dueDateFilter,
            AddItems(db, t, daysOffset, dueDateFilter, messages, patronId, items[j..]), loans[i + 1..])
      {
        var item := items[j];
        assert items[j..][1..] == items[j + 1..];
        if item.dueDate == dueDateFilter && item.status == ItemStatus.CheckedOut {
          var title := if item.mediaId in lib.media then lib.media[item.mediaId].mediaTitle else Some("Unknown Title");
          var message := FormatMessage(t, daysOffset, item.mediaId, title, item.dueDate);
          messages := messages[patronId := (if patronId in messages then messages[patronId] else "") + message];
        }
        j := j + 1;
      }
      i := i + 1;
    }
    r := Ok(messages);
  }

  /** `notifyForDueDate`: query the due loans, then accumulate their lines. */
  method NotifyForDueDate(lib: Library, dueDate: Day, daysOffset: int, acc: map<int, string>)
    returns (r: Result<map<int, string>>)
    ensures r == NotificationsForLoans(lib.Snapshot(), DueLoans(lib.Snapshot(), dueDate), daysOffset, dueDate, acc)
  {
    var dueLoans := DueLoans(lib.Snapshot(), dueDate);
    r := SendNotificationsForLoans(lib, dueLoans, daysOffset, dueDate, acc);
  }

  /**
   * `checkDueItemsAndNotifyPatron`. The six offsets are processed in an unspecified
   * order (`order`), then every patron with accumulated text gets exactly that text,
   * once, in an unspecified order (`recipients`). Nothing else changes.
   */
  method CheckDueItemsAndNotifyPatron(lib: Library, today: Day)
    returns (ghost order: seq<int>, ghost recipients: seq<int>)
    modifies lib
    ensures NoDuplicates(order) && forall d :: d in order <==> d in DayOffsets
    ensures Collect(old(lib.Snapshot()), today, order).Ok?
    ensures var messages := Collect(old(lib.Snapshot()), today, order).value;
      NoDuplicates(recipients) && (forall p :: p in recipients <==> p in messages) &&
      lib.Snapshot() == old(lib.Snapshot()).(outbox := old(lib.outbox) + Notices(recipients, messages))
  {
    var messagesPerPatron;
    messagesPerPatron, order := CollectMessages(lib, today);
    recipients := SendAll(lib, messagesPerPatron);
  }

  /** The first half of the job: every offset, in some order, accumulating texts. */
  method CollectMessages(lib: Library, today: Day) returns (messagesPerPatron: map<int, string>, ghost order: seq<int>)
    ensures NoDuplicates(order) && forall d :: d in order <==> d in DayOffsets
    ensures Collect(lib.Snapshot(), today, order) == Ok(messagesPerPatron)
  {
    ghost var db := lib.Snapshot();
    messagesPerPatron := map[];
    var remaining := DayOffsets;
    order := [];
    while remaining != {}
      invariant NoDuplicates(order)
      invariant forall d :: d in order ==> d in DayOffsets && d !in remaining
      invariant forall d :: d in DayOffsets ==> d in order || d in remaining
      invariant remaining <= DayOffsets
      invariant Collect(db, today, order) == Ok(messagesPerPatron)
      decreases |remaining|
    {
      var daysOffset :| daysOffset in remaining;
      var r := NotifyForDueDate(lib, today + daysOffset, daysOffset, messagesPerPatron);
      assert (order + [daysOffset])[..|order|] == order;
      messagesPerPatron := r.value;
      order := order + [daysOffset];
      remaining := remaining - {daysOffset};
    }
  }

  /** The second half of the job: one notice per patron with text, in some order. */
  method SendAll(lib: Library, messagesPerPatron: map<int, string>) returns (ghost recipients: seq<int>)
    modifies lib
    ensures NoDuplicates(recipients) && (forall p :: p in recipients <==> p in messagesPerPatron)
    ensures lib.Snapshot() == old(lib.Snapshot()).(outbox := old(lib.outbox) + Notices(recipients, messagesPerPatron))
  {
    var pending := messagesPerPatron.Keys;
    recipients := [];
    while pending != {}
      invariant NoDuplicates(recipients)
      invariant forall p :: p in recipients ==> p in messagesPerPatron && p !in pending
      invariant forall p :: p in messagesPerPatron ==> p in recipients || p in pending
      invariant forall p :: p in pending ==> p in messagesPerPatron
      invariant lib.Snapshot() == old(lib.Snapshot()).(outbox := lib.outbox)
      invariant lib.outbox == old(lib.outbox) + Notices(recipients, messagesPerPatron)
      decreases |pending|
    {
      if !exists p :: p in pending {
        assert false;
      }
      var patronId :| patronId in pending;
      lib.outbox := lib.outbox + [Notice(patronId, messagesPerPatron[patronId])];
      assert (recipients + [patronId])[..|recipients|] == recipients;
      recipients := recipients + [patronId];
      pending := pending - {patronId};
    }
  }

  /** `notifyPatronStatusChange`: the text sent when a patron's status changes. */
  function StatusChangeMessage(status: PatronStatus): string
  {
    "Your account status has been changed to " + PatronStatusName(status) + ".\n"
  }

  /** Sending the status-change notice to a patron. */
  function NotifyStatusChange(db: Db, patronId: int, status: PatronStatus): (db': Db)
    ensures db' == db.(outbox := db.outbox + [Notice(patronId, StatusChangeMessage(status))])
  {
    db.(outbox := db.outbox + [Notice(patronId, StatusChangeMessage(status))])
  }

  method NotifyPatronStatusChange(lib: Library, patronId: int, status: PatronStatus)
    modifies lib
    ensures lib.Snapshot() == NotifyStatusChange(old(lib.Snapshot()), patronId, status)
  {
    lib.outbox := lib.outbox + [Notice(patronId, StatusChangeMessage(status))];
  }

  /** The status can be read back from the notice: the text names it between fixed words. */
  lemma StatusChangeMessageNamesStatus(status: PatronStatus)
    ensures var m := StatusChangeMessage(status);
      |m| > 42 && PatronStatusValueOf(m[40..|m| - 2]) == Some(status)
  {
    var m := StatusChangeMessage(status);
    assert |"Your account status has been changed to "| == 40;
    assert m[40..|m| - 2] == PatronStatusName(status);
  }

  // ---------------------------------------------------------------------------
  // Who gets a message

  lemma {:induction false} AddItemsKeys(db: Db, t: Template, daysOffset: int, dueDate: Day,
      acc: map<int, string>, patronId: int, items: seq<LoanItem>, p: int)
    ensures p in AddItems(db, t, daysOffset, dueDate, acc, patronId, items) <==>
      p in acc || (p == patronId && exists j :: 0 <= j < |items| && Matches(items[j], dueDate))
    decreases |items|
  {
    if items != [] {
      var acc' := AddItem(db, t, daysOffset, dueDate, acc, patronId, items[0]);
      AddItemsKeys(db, t, daysOffset, dueDate, acc', patronId, items[1..], p);
      if p == patronId && exists j :: 0 <= j < |items| && Matches(items[j], dueDate) {
        var j :| 0 <= j < |items| && Matches(items[j], dueDate);
        if j > 0 {
          assert items[1..][j - 1] == items[j];
        }
      }
      if p == patronId && exists j :: 0 <= j < |items[1..]| && Matches(items[1..][j], dueDate) {
        var j :| 0 <= j < |items[1..]| && Matches(items[1..][j], dueDate);
        assert items[j + 1] == items[1..][j];
      }
    }
  }

  /** A patron has text after processing loans exactly when one of their loans has a due item. */
  lemma {:induction false} AddLoansKeys(db: Db, t: Template, daysOffset: int, dueDate: Day,
      acc: map<int, string>, loans: seq<Loan>, p: int)
    ensures p in AddLoans(db, t, daysOffset, dueDate, acc, loans) <==>
      p in acc || exists l :: l in loans && l.patronId == p && HasMatch(l, dueDate)
    decreases |loans|
  {
    if loans != [] {
      var acc' := AddItems(db, t, daysOffset, dueDate, acc, loans[0].patronId, loans[0].items);
      AddItemsKeys(db, t, daysOffset, dueDate, acc, loans[0].patronId, loans[0].items, p);
      AddLoansKeys(db, t, daysOffset, dueDate, acc', loans[1..], p);
      assert forall l :: l in loans <==> l == loans[0] || l in loans[1..];
    }
  }

  /** A loan holds an item due on `dueDate` among the active loans. */
  predicate HasDueItem(db: Db, patronId: int, dueDate: Day)
  {
    exists l :: l in db.loans && l.status == LoanStatus.Active && l.patronId == patronId && HasMatch(l, dueDate)
  }

  /** The loans the job looks at for `dueDate` include one of the patron's exactly when it has a due item. */
  lemma DueLoansOfPatron(db: Db, p: int, dueDate: Day)
    ensures HasDueItem(db, p, dueDate) <==>
      exists l :: l in DueLoans(db, dueDate) && l.patronId == p && HasMatch(l, dueDate)
  {
    if HasDueItem(db, p, dueDate) {
      var l :| l in db.loans && l.status == LoanStatus.Active && l.patronId == p && HasMatch(l, dueDate);
      assert l in DueLoans(db, dueDate);
    }
  }

  /** One of the patron's active loans has an item due on one of the offset dates. */
  predicate DueOnSomeOffset(db: Db, p: int, today: Day, order: seq<int>)
  {
    exists i :: 0 <= i < |order| && HasDueItem(db, p, today + order[i])
  }

  /** Taking one more offset adds the patrons with an item due on its date. */
  lemma DueOnLastOffset(db: Db, today: Day, order: seq<int>, p: int)
    requires order != []
    ensures DueOnSomeOffset(db, p, today, order) <==>
      DueOnSomeOffset(db, p, today, order[..|order| - 1]) || HasDueItem(db, p, today + order[|order| - 1])
  {
    var front := order[..|order| - 1];
    if DueOnSomeOffset(db, p, today, order) {
      var i :| 0 <= i < |order| && HasDueItem(db, p, today + order[i]);
      if i < |order| - 1 {
        assert front[i] == order[i];
      }
    }
    if DueOnSomeOffset(db, p, today, front) {
      var i :| 0 <= i < |front| && HasDueItem(db, p, today + front[i]);
      assert order[i] == front[i];
    }
  }

  /**
   * Whatever order the offsets are taken in, the job never fails, and a patron gets
   * text exactly when one of their active loans has an item, still out, that falls
   * due on one of the offset dates.
   */
  lemma {:induction false} CollectKeys(db: Db, today: Day, order: seq<int>, p: int)
    requires forall i :: 0 <= i < |order| ==> order[i] in DayOffsets
    ensures Collect(db, today, order).Ok?
    ensures p in Collect(db, today, order).value <==> DueOnSomeOffset(db, p, today, order)
  {
    if order != [] {
      var front := order[..|order| - 1];
      var d := order[|order| - 1];
      CollectKeys(db, today, front, p);
      var acc := Collect(db, today, front).value;
      var t := MessageForDaysOffset(d).value;
      var loans := DueLoans(db, today + d);
      assert Collect(db, today, order) == Ok(AddLoans(db, t, d, today + d, acc, loans));
      AddLoansKeys(db, t, d, today + d, acc, loans, p);
      DueLoansOfPatron(db, p, today + d);
      DueOnLastOffset(db, today, order, p);
    }
  }

  /** With no loans at all, whatever the order, no text is accumulated and nothing is sent. */
  lemma NothingDueNothingSent(db: Db, today: Day, order: seq<int>)
    requires db.loans == []
    requires forall i :: 0 <= i < |order| ==> order[i] in DayOffsets
    ensures Collect(db, today, order) == Ok(map[])
  {
    CollectKeys(db, today, order, 0);
    forall p
      ensures p !in Collect(db, today, order).value
    {
      CollectKeys(db, today, order, p);
    }
  }

  // ---------------------------------------------------------------------------
  // The messages of three sample loans, each with one item due on one offset date

  function SampleLoan(patronId: int, mediaId: int, dueDate: Day): Loan
  {
    Loan(0, patronId, LoanStatus.Active,
      [LoanItem(mediaId, dueDate - 14, dueDate, None, ItemStatus.CheckedOut)], [])
  }

  /** A single loan with one matching item gives its patron exactly that item's line. */
  lemma SingleItemLoan(db: Db, t: Template, daysOffset: int, patronId: int, mediaId: int, dueDate: Day)
    ensures AddLoans(db, t, daysOffset, dueDate, map[], [SampleLoan(patronId, mediaId, dueDate)])
      == map[patronId := FormatMessage(t, daysOffset, mediaId, TitleOf(db, mediaId), dueDate)]
  {
    var loan := SampleLoan(patronId, mediaId, dueDate);
    var item := loan.items[0];
    var line := FormatMessage(t, daysOffset, mediaId, TitleOf(db, mediaId), dueDate);
    assert loan.items[1..] == [];
    assert Accumulated(map[], patronId) + line == line;
    assert AddItem(db, t, daysOffset, dueDate, map[], patronId, item) == map[patronId := line];
    assert AddItems(db, t, daysOffset, dueDate, map[patronId := line], patronId, loan.items[1..])
      == map[patronId := line];
    assert AddItems(db, t, daysOffset, dueDate, map[], patronId, loan.items) == map[patronId := line];
    assert [loan][1..] == [];
    assert AddLoans(db, t, daysOffset, dueDate, map[patronId := line], [loan][1..]) == map[patronId := line];
  }

  /** Due in three days: the day count is 3. */
  lemma DueSoonMessage(db: Db, today: Day, title: string)
    requires 100 in db.media && db.media[100].mediaTitle == Some(title)
    ensures AddLoans(db, DueInDaysTemplate, 3, today + 3, map[], [SampleLoan(1, 100, today + 3)])
      == map[1 := "The following items are due in " + "3" + " days:\n"
        + "Media ID: " + "100" + " Title: " + title + " Due Date: " + IsoDate(today + 3) + ".\n"]
  {
    SingleItemLoan(db, DueInDaysTemplate, 3, 1, 100, today + 3);
    assert IntToString(3) == "3";
    assert IntToString(100) == "100" by {
      assert NatToString(10) == "10";
    }
  }

  /** Five days past due: the offset -5 is shown as the day count 5. */
  lemma PastDueMessage(db: Db, today: Day, title: string)
    requires 101 in db.media && db.media[101].mediaTitle == Some(title)
    ensures AddLoans(db, PastDueTemplate, -5, today - 5, map[], [SampleLoan(2, 101, today - 5)])
      == map[2 := "The following items are " + "5" + " days past due:\n"
        + "Media ID: " + "101" + " Title: " + title + " Due Date: " + IsoDate(today - 5) + ".\n"]
  {
    SingleItemLoan(db, PastDueTemplate, -5, 2, 101, today - 5);
    assert IntToString(5) == "5";
    assert IntToString(101) == "101" by {
      assert NatToString(10) == "10";
    }
  }

  /** Thirty days past due: the suspension alert, with day count 30. */
  lemma AccountSuspendedMessage(db: Db, today: Day, title: string)
    requires 102 in db.media && db.media[102].mediaTitle == Some(title)
    ensures AddLoans(db, AccountSuspendedTemplate, -30, today - 30, map[], [SampleLoan(3, 102, today - 30)])
      == map[3 := "Important Alert.\nThe following items are " + "30" + " days past due:\n"
        + "Media ID: " + "102" + " Title: " + title + " Due Date: " + IsoDate(today - 30)
        + ".\nYour account is suspended, and your borrowing privileges are revoked. Please contact the library.\n"]
  {
    SingleItemLoan(db, AccountSuspendedTemplate, -30, 3, 102, today - 30);
    assert IntToString(30) == "30";
    assert IntToString(102) == "102" by {
      assert NatToString(10) == "10";
    }
  }

  /** The due-today template puts the item line straight after its lead. */
  lemma DueTodayLine(id: string, title: string, date: string)
    ensures Format(DueTodayTemplate, [id, title, date])
      == "The following items are due today:\n" + "Media ID: " + id + " Title: " + title + " Due Date: " + date + ".\n"
  {}

  /** Due today: no day count, the line follows the lead directly. */
  lemma DueTodayMessage(db: Db, today: Day, title: string)
    requires 103 in db.media && db.media[103].mediaTitle == Some(title)
    ensures AddLoans(db, DueTodayTemplate, 0, today, map[], [SampleLoan(4, 103, today)])
      == map[4 := "The following items are due today:\n"
        + "Media ID: " + "103" + " Title: " + title + " Due Date: " + IsoDate(today) + ".\n"]
  {
    var date := IsoDate(today);
    var line := "The following items are due today:\n" + "Media ID: " + "103" + " Title: " + title + " Due Date: " + date + ".\n";
    assert FormatMessage(DueTodayTemplate, 0, 103, TitleOf(db, 103), today) == line by {
      assert IntToString(103) == "103" by {
        assert NatToString(10) == "10";
      }
      assert TextOrNull(TitleOf(db, 103)) == title;
      DueTodayLine("103", title, date);
    }
    SingleItemLoan(db, DueTodayTemplate, 0, 4, 103, today);
  }

  /** Fifteen days past due: the day count 15 and the warning about penalties. */
  lemma PastDueWarningMessage(db: Db, today: Day, title: string)
    requires 104 in db.media && db.media[104].mediaTitle == Some(title)
    ensures AddLoans(db, PastDueWithWarningTemplate, -15, today - 15, map[], [SampleLoan(5, 104, today - 15)])
      == map[5 := "The following items are " + "15" + " days past due:\n"
        + "Media ID: " + "104" + " Title: " + title + " Due Date: " + IsoDate(today - 15)
        + ".\nPlease return the item to avoid penalties, including revocation of your borrowing privileges.\n"]
  {
    SingleItemLoan(db, PastDueWithWarningTemplate, -15, 5, 104, today - 15);
    assert IntToString(15) == "15" by {
      assert NatToString(1) == "1";
    }
    assert IntToString(104) == "104" by {
      assert NatToString(10) == "10";
    }
  }

  /** Text between the same prefix and the same suffix is determined by the whole. */
  lemma InfixDetermined(lead: string, a: string, b: string, rest: string)
    requires lead + a + rest == lead + b + rest
    ensures a == b
  {
    assert |a| == |b|;
    assert a == (lead + a + rest)[|lead|..|lead| + |a|];
    assert b == (lead + b + rest)[|lead|..|lead| + |b|];
  }

  /**
   * In a template with a day count, two formatted messages with the same item fields
   * are equal exactly when the day counts are.
   */
  lemma FormattedCountsAgree(t: Template, c1: string, c2: string, id: string, title: string, date: string)
    requires t.dayCount
    ensures Format(t, [c1, id, title, date]) == Format(t, [c2, id, title, date]) <==> c1 == c2
  {
    var rest := t.afterCount + "Media ID: " + id + " Title: " + title + " Due Date: " + date + t.tail;
    assert Format(t, [c1, id, title, date]) == t.lead + c1 + rest;
    assert Format(t, [c2, id, title, date]) == t.lead + c2 + rest;
    if t.lead + c1 + rest == t.lead + c2 + rest {
      InfixDetermined(t.lead, c1, c2, rest);
    }
  }

  /**
   * In such a template, two messages for the same item are equal exactly when the
   * counts `|daysOffset|` agree.
   */
  lemma DayCountTellsMessagesApart(t: Template, d1: int, d2: int, mediaId: int, title: Option<string>, dueDate: Day)
    requires t.dayCount
    ensures FormatMessage(t, d1, mediaId, title, dueDate) == FormatMessage(t, d2, mediaId, title, dueDate)
      <==> Abs(d1) == Abs(d2)
  {
    var c1, c2 := IntToString(Abs(d1)), IntToString(Abs(d2));
    FormattedCountsAgree(t, c1, c2, IntToString(mediaId), TextOrNull(title), IsoDate(dueDate));
    NatToStringRoundTrip(Abs(d1));
    NatToStringRoundTrip(Abs(d2));
  }

  /**
   * For every supported offset, the message shows a day count exactly when the offset
   * is not 0, and it is that count alone that tells two messages for the same item
   * apart: they are equal exactly when the template has no count or the counts
   * `|daysOffset|` agree.
   */
  lemma FormatMessageShowsDayCount(offset: int, d1: int, d2: int, mediaId: int, title: Option<string>, dueDate: Day)
    requires MessageForDaysOffset(offset).Ok?
    ensures MessageForDaysOffset(offset).value.dayCount <==> offset != 0
    ensures var t := MessageForDaysOffset(offset).value;
      (FormatMessage(t, d1, mediaId, title, dueDate) == FormatMessage(t, d2, mediaId, title, dueDate))
        <==> (!t.dayCount || Abs(d1) == Abs(d2))
  {
    var t := MessageForDaysOffset(offset).value;
    if t.dayCount {
      DayCountTellsMessagesApart(t, d1, d2, mediaId, title, dueDate);
    }
  }

  /** An item whose media is unknown is listed with the title "Unknown Title". */
  lemma UnknownMediaTitle(db: Db, mediaId: int)
    requires mediaId !in db.media
    ensures TextOrNull(TitleOf(db, mediaId)) == "Unknown Title"
  {}
}
