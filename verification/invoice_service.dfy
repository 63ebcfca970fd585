/**
 * Invoices: creation for an existing patron with a positive amount, correction of an
 * invoice's amount, patron, status and campaign, and lookup by invoice number.
 */
module InvoiceService {
  import opened Common
  import opened Calendar
  import opened Model
  import opened Store
  import SequenceGenerator

  /** `getInvoiceById`. */
  function GetInvoiceById(db: Db, invoiceId: int): (r: Result<Invoice>)
    ensures r.Ok? <==> invoiceId in db.invoices
    ensures r.Ok? ==> r.value == db.invoices[invoiceId]
    ensures r.Err? ==> r.error == General(InvoiceNotFound, "Invoice not found", NotFound)
  {
    if invoiceId in db.invoices then Ok(db.invoices[invoiceId])
    else Err(General(InvoiceNotFound, "Invoice not found", NotFound))
  }

  /** `getInvoicesByPatronId`. */
  function InvoicesByPatronId(db: Db, patronId: int): (r: set<Invoice>)
    ensures forall inv :: inv in r <==> inv in db.invoices.Values && inv.patronId == patronId
  {
    set inv | inv in db.invoices.Values && inv.patronId == patronId
  }

  /**
   * `createInvoice`: a non-positive amount is refused before the patron lookup, and a
   * missing patron is a bad request; the new invoice takes the next invoice number,
   * the given fields and today's date.
   */
  function CreateInvoiceSpec(db: Db, patronId: int, amount: int, status: Option<string>,
      campaign: Option<string>, today: Day): (out: (Db, Result<Invoice>))
    ensures amount <= 0 ==>
      out == (db, Err(General(InvalidOperation, "Invoice amount must be greater than zero", BadRequest)))
    ensures amount > 0 && patronId !in db.patrons ==>
      out == (db, Err(General(InvalidOperation, "Patron not found", BadRequest)))
    ensures out.1.Ok? <==> amount > 0 && patronId in db.patrons && !db.counterStoreFails
    ensures out.1.Ok? ==>
      var id := SequenceGenerator.CounterValue(db, SequenceGenerator.InvoiceCounter) + 1;
      out.1.value == Invoice(id, patronId, amount, status, Some(today), campaign) &&
      out.0 == db.(invoices := db.invoices[id := out.1.value],
        counters := db.counters[SequenceGenerator.InvoiceCounter := id])
    ensures out.1.Err? ==> out.0 == db
  {
    if amount <= 0 then
      (db, Err(General(InvalidOperation, "Invoice amount must be greater than zero", BadRequest)))
    else if patronId !in db.patrons then
      (db, Err(General(InvalidOperation, "Patron not found", BadRequest)))
    else
      var (db1, next) := SequenceGenerator.NextSequenceValue(db, SequenceGenerator.InvoiceCounter);
      match next
      case Err(e) => (db1, Err(e))
      case Ok(id) =>
        var invoice := Invoice(id, patronId, amount, status, Some(today), campaign);
        (db1.(invoices := db1.invoices[id := invoice]), Ok(invoice))
  }

  method CreateInvoice(lib: Library, patronId: int, amount: int, status: Option<string>,
      campaign: Option<string>, today: Day) returns (r: Result<Invoice>)
    modifies lib
    ensures (lib.Snapshot(), r) == CreateInvoiceSpec(old(lib.Snapshot()), patronId, amount, status, campaign, today)
  {
    if amount <= 0 {
      return Err(General(InvalidOperation, "Invoice amount must be greater than zero", BadRequest));
    }
    if patronId !in lib.patrons {
      return Err(General(InvalidOperation, "Patron not found", BadRequest));
    }
    var next := SequenceGenerator.GetNextSequenceValueForInvoice(lib);
    if next.Err? {
      return Err(next.error);
    }
    var invoice := Invoice(next.value, patronId, amount, None, None, None);
    invoice := invoice.(status := status, campaign := campaign, date := Some(today));
    lib.invoices := lib.invoices[invoice.invoiceId := invoice];
    r := Ok(invoice);
  }

  /** A created invoice is what a lookup by its number then returns. */
  lemma CreatedInvoiceIsFound(db: Db, patronId: int, amount: int, status: Option<string>,
      campaign: Option<string>, today: Day)
    requires CreateInvoiceSpec(db, patronId, amount, status, campaign, today).1.Ok?
    ensures var (db', r) := CreateInvoiceSpec(db, patronId, amount, status, campaign, today);
      GetInvoiceById(db', r.value.invoiceId) == Ok(r.value) && r.value.amount > 0
  {}

  /** With the invoice counter ahead of every stored number, creation never replaces an invoice. */
  lemma CreateInvoiceUsesFreshId(db: Db, patronId: int, amount: int, status: Option<string>,
      campaign: Option<string>, today: Day)
    requires forall id :: id in db.invoices ==> id <= SequenceGenerator.CounterValue(db, SequenceGenerator.InvoiceCounter)
    ensures var (db', r) := CreateInvoiceSpec(db, patronId, amount, status, campaign, today);
      r.Ok? ==> r.value.invoiceId !in db.invoices && db'.invoices.Keys == db.invoices.Keys + {r.value.invoiceId}
  {}

  // ---------------------------------------------------------------------------
  // Correction

  /**
   * `updateInvoice` as written: after the lookup and the amount check, `Optional.of`
   * on a null status or campaign throws, so nothing is saved.
   */
  function UpdateInvoiceAsWritten(db: Db, invoiceId: int, patronId: int, amount: int,
      campaign: Option<string>, status: Option<string>): (out: (Db, Result<Invoice>))
    ensures invoiceId in db.invoices && amount > 0 && (status.None? || campaign.None?) ==>
      out == (db, Err(NullPointer))
    ensures out.1.Ok? ==> status.Some? && campaign.Some? && out == UpdateInvoiceSpec(db, invoiceId, patronId, amount, campaign, status)
  {
    match GetInvoiceById(db, invoiceId)
    case Err(e) => (db, Err(e))
    case Ok(invoice) =>
      if amount <= 0 then
        (db, Err(General(InvalidOperation, "Invoice amount must be greater than zero", BadRequest)))
      else if status.None? || campaign.None? then
        (db, Err(NullPointer))
      else
        var updated := invoice.(amount := amount, patronId := patronId, status := status, campaign := campaign);
        (db.(invoices := db.invoices[invoiceId := updated]), Ok(updated))
  }

  /**
   * `updateInvoice` as intended: the invoice is looked up, then the amount must be
   * positive; amount and patron are overwritten, status and campaign only when given.
   * The invoice is saved under its number; its date is kept.
   */
  function UpdateInvoiceSpec(db: Db, invoiceId: int, patronId: int, amount: int,
      campaign: Option<string>, status: Option<string>): (out: (Db, Result<Invoice>))
    ensures invoiceId !in db.invoices ==> out == (db, Err(GetInvoiceById(db, invoiceId).error))
    ensures invoiceId in db.invoices && amount <= 0 ==>
      out == (db, Err(General(InvalidOperation, "Invoice amount must be greater than zero", BadRequest)))
    ensures out.1.Ok? <==> invoiceId in db.invoices && amount > 0
    ensures out.1.Ok? ==>
      var stored, inv := db.invoices[invoiceId], out.1.value;
      inv.amount == amount && inv.patronId == patronId &&
      inv.status == (if status.Some? then status else stored.status) &&
      inv.campaign == (if campaign.Some? then campaign else stored.campaign) &&
      inv.invoiceId == stored.invoiceId && inv.date == stored.date &&
      out.0 == db.(invoices := db.invoices[invoiceId := inv])
    ensures out.1.Err? ==> out.0 == db
  {
    match GetInvoiceById(db, invoiceId)
    case Err(e) => (db, Err(e))
    case Ok(invoice) =>
      if amount <= 0 then
        (db, Err(General(InvalidOperation, "Invoice amount must be greater than zero", BadRequest)))
      else
        var updated := invoice.(amount := amount, patronId := patronId,
          status := if status.Some? then status else invoice.status,
          campaign := if campaign.Some? then campaign else invoice.campaign);
        (db.(invoices := db.invoices[invoiceId := updated]), Ok(updated))
  }

  method UpdateInvoice(lib: Library, invoiceId: int, patronId: int, amount: int,
      campaign: Option<string>, status: Option<string>) returns (r: Result<Invoice>)
    modifies lib
    ensures (lib.Snapshot(), r) == UpdateInvoiceSpec(old(lib.Snapshot()), invoiceId, patronId, amount, campaign, status)
  {
    var found := GetInvoiceById(lib.Snapshot(), invoiceId);
    if found.Err? {
      return Err(found.error);
    }
    if amount <= 0 {
      return Err(General(InvalidOperation, "Invoice amount must be greater than zero", BadRequest));
    }
    var invoice := found.value.(amount := amount, patronId := patronId);
    if status.Some? {
      invoice := invoice.(status := status);
    }
    if campaign.Some? {
      invoice := invoice.(campaign := campaign);
    }
    lib.invoices := lib.invoices[invoiceId := invoice];
    r := Ok(invoice);
  }

  /**
   * The two readings differ exactly on a missing status or campaign: as written the
   * call throws and saves nothing, as intended it keeps the stored value.
   */
  lemma NullStatusOrCampaignThrowsAsWritten(db: Db, invoiceId: int, patronId: int, amount: int,
      campaign: Option<string>, status: Option<string>)
    requires invoiceId in db.invoices && amount > 0 && (status.None? || campaign.None?)
    ensures UpdateInvoiceAsWritten(db, invoiceId, patronId, amount, campaign, status) == (db, Err(NullPointer))
    ensures var (db', r) := UpdateInvoiceSpec(db, invoiceId, patronId, amount, campaign, status);
      r.Ok? && r.value.amount == amount && db'.invoices[invoiceId] == r.value &&
      (status.None? ==> r.value.status == db.invoices[invoiceId].status) &&
      (campaign.None? ==> r.value.campaign == db.invoices[invoiceId].campaign)
  {}

  /** With both present, the two readings agree. */
  lemma UpdateInvoiceAgreesWhenGiven(db: Db, invoiceId: int, patronId: int, amount: int, campaign: string, status: string)
    ensures UpdateInvoiceAsWritten(db, invoiceId, patronId, amount, Some(campaign), Some(status))
      == UpdateInvoiceSpec(db, invoiceId, patronId, amount, Some(campaign), Some(status))
  {}

  /** Correcting with the invoice's own values changes nothing stored. */
  lemma UpdateInvoiceWithSameValues(db: Db, invoiceId: int)
    requires invoiceId in db.invoices && db.invoices[invoiceId].amount > 0
    ensures var inv := db.invoices[invoiceId];
      UpdateInvoiceSpec(db, invoiceId, inv.patronId, inv.amount, None, None) == (db, Ok(inv))
  {
    var inv := db.invoices[invoiceId];
    assert db.invoices[invoiceId := inv] == db.invoices;
  }
}
