/**
 * The document store the services work against. `Library` holds one field per
 * collection and is changed in place by the service methods; `Db` is a value snapshot
 * of all of it, which the transition functions that specify those methods work on.
 *
 * Patrons, media and invoices are looked up by their business id, so they are maps
 * keyed by it. Loans, fines and cards are answered by "first match" queries, so they
 * keep the store's order as sequences; a document read from them is written back at
 * the position it was read from, a new one is appended. The notification sender is
 * the append-only `outbox`.
 */
module Store {
  import opened Common
  import opened Model

  /** One message handed to the notification sender. */
  datatype Notice = Notice(patronId: int, message: string)

  datatype Db = Db(
    patrons: map<int, Patron>,
    media: map<int, Media>,
    loans: seq<Loan>,
    fines: seq<Fine>,
    cards: seq<Card>,
    invoices: map<int, Invoice>,
    counters: map<string, int>,
    counterStoreFails: bool,
    outbox: seq<Notice>)

  /** Every keyed document sits under its own id. */
  predicate WellKeyed(db: Db)
  {
    (forall id :: id in db.patrons ==> db.patrons[id].patronId == id) &&
    (forall id :: id in db.media ==> db.media[id].mediaId == id) &&
    (forall id :: id in db.invoices ==> db.invoices[id].invoiceId == id)
  }

  /** `save(patron)`. */
  function SavePatron(db: Db, p: Patron): (db': Db)
    ensures db'.patrons == db.patrons[p.patronId := p]
  {
    db.(patrons := db.patrons[p.patronId := p])
  }

  /** `save(media)`. */
  function SaveMedia(db: Db, m: Media): (db': Db)
    ensures db'.media == db.media[m.mediaId := m]
  {
    db.(media := db.media[m.mediaId := m])
  }

  /** `save(loan)`: back where it was read from, or appended when it is new. */
  function SaveLoan(db: Db, loan: Loan, at: Option<nat>): (db': Db)
    requires at.Some? ==> at.value < |db.loans|
    ensures at.Some? ==> db'.loans == db.loans[at.value := loan]
    ensures at.None? ==> db'.loans == db.loans + [loan]
  {
    match at
    case Some(i) => db.(loans := db.loans[i := loan])
    case None => db.(loans := db.loans + [loan])
  }

  /** The position of the first loan satisfying `p`, in store order. */
  function FirstLoanWhere(loans: seq<Loan>, p: Loan -> bool): (r: Option<nat>)
    ensures r.Some? ==> r.value < |loans| && p(loans[r.value])
    ensures r.Some? ==> forall j :: 0 <= j < r.value ==> !p(loans[j])
    ensures r.None? ==> forall j :: 0 <= j < |loans| ==> !p(loans[j])
  {
    if loans == [] then None
    else if p(loans[0]) then Some(0)
    else match FirstLoanWhere(loans[1..], p)
      case None => None
      case Some(i) => Some(i + 1)
  }

  /** The loans satisfying `p`, in store order. */
  function LoansWhere(loans: seq<Loan>, p: Loan -> bool): (r: seq<Loan>)
    ensures forall l :: l in r <==> l in loans && p(l)
    ensures |r| <= |loans|
    ensures |loans| == 1 ==> r == if p(loans[0]) then loans else []
  {
    if loans == [] then []
    else (if p(loans[0]) then [loans[0]] else []) + LoansWhere(loans[1..], p)
  }

  /**
   * The query keeps store order: filtering a concatenation filters each part and
   * concatenates the results, so together with the one-loan case every matching loan
   * keeps its place and its multiplicity.
   */
  lemma {:induction false} LoansWhereAppend(a: seq<Loan>, b: seq<Loan>, p: Loan -> bool)
    ensures LoansWhere(a + b, p) == LoansWhere(a, p) + LoansWhere(b, p)
    decreases |a|
  {
    if a != [] {
      assert (a + b)[0] == a[0] && (a + b)[1..] == a[1..] + b;
      LoansWhereAppend(a[1..], b, p);
    } else {
      assert a + b == b;
    }
  }

  /** The library's collections, changed in place by the services. */
  class Library {
    var patrons: map<int, Patron>
    var media: map<int, Media>
    var loans: seq<Loan>
    var fines: seq<Fine>
    var cards: seq<Card>
    var invoices: map<int, Invoice>
    var counters: map<string, int>
    var counterStoreFails: bool
    var outbox: seq<Notice>

    function Snapshot(): Db
      reads this
    {
      Db(patrons, media, loans, fines, cards, invoices, counters, counterStoreFails, outbox)
    }

    constructor (db: Db)
      ensures Snapshot() == db
    {
      patrons, media, loans, fines, cards := db.patrons, db.media, db.loans, db.fines, db.cards;
      invoices, counters, counterStoreFails, outbox := db.invoices, db.counters, db.counterStoreFails, db.outbox;
    }
  }
}
