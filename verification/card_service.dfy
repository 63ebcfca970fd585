/**
 * Library cards: lookups by card number and by patron, status changes (a lost card is
 * never reactivated) and issuing a new card, which a suspended patron or a patron who
 * already holds an active card cannot get.
 */
module CardService {
  import opened Common
  import opened Model
  import opened Store
  import SequenceGenerator
  import CheckDigitCalculator
  import PatronService

  /** The position of the first card with this number, in store order. */
  function FindCard(cards: seq<Card>, cardId: int): (r: Option<nat>)
    ensures r.Some? ==> r.value < |cards| && cards[r.value].cardId == cardId
    ensures r.Some? ==> forall j :: 0 <= j < r.value ==> cards[j].cardId != cardId
    ensures r.None? ==> forall j :: 0 <= j < |cards| ==> cards[j].cardId != cardId
  {
    if cards == [] then None
    else if cards[0].cardId == cardId then Some(0)
    else match FindCard(cards[1..], cardId)
      case None => None
      case Some(i) => Some(i + 1)
  }

  /** `getCardById`. */
  function GetCardById(db: Db, cardId: int): (r: Result<Card>)
    ensures r.Ok? <==> exists j :: 0 <= j < |db.cards| && db.cards[j].cardId == cardId
    ensures r.Ok? ==> r.value.cardId == cardId && r.value in db.cards
    ensures r.Err? ==> r.error == General(CardNotFound, "No card with this ID found in collection", NotFound)
  {
    match FindCard(db.cards, cardId)
    case None => Err(General(CardNotFound, "No card with this ID found in collection", NotFound))
    case Some(i) => Ok(db.cards[i])
  }

  /** `findByPatronId`: the patron's cards in store order. */
  function CardsOf(cards: seq<Card>, patronId: int): (r: seq<Card>)
    ensures forall c :: c in r <==> c in cards && c.patronId == patronId
    ensures |r| <= |cards|
    ensures |cards| == 1 ==> r == if cards[0].patronId == patronId then cards else []
  {
    if cards == [] then []
    else (if cards[0].patronId == patronId then [cards[0]] else []) + CardsOf(cards[1..], patronId)
  }

  /** The patron's cards keep store order: the cards of a concatenation are those of each part, in turn. */
  lemma {:induction false} CardsOfAppend(a: seq<Card>, b: seq<Card>, patronId: int)
    ensures CardsOf(a + b, patronId) == CardsOf(a, patronId) + CardsOf(b, patronId)
    decreases |a|
  {
    if a != [] {
      assert (a + b)[0] == a[0] && (a + b)[1..] == a[1..] + b;
      CardsOfAppend(a[1..], b, patronId);
    } else {
      assert a + b == b;
    }
  }

  /** `getCardByPatronId`: all the patron's cards, or an error when there are none. */
  function GetCardByPatronId(db: Db, patronId: int): (r: Result<seq<Card>>)
    ensures r.Ok? ==> r.value == CardsOf(db.cards, patronId) && r.value != []
    ensures r.Err? <==> forall j :: 0 <= j < |db.cards| ==> db.cards[j].patronId != patronId
    ensures r.Err? ==> r.error == General(CardNotFound, "No card for patron with this ID found in collection", NotFound)
  {
    var cards := CardsOf(db.cards, patronId);
    if cards == [] then
      assert forall j :: 0 <= j < |db.cards| ==> db.cards[j] in db.cards;
      Err(General(CardNotFound, "No card for patron with this ID found in collection", NotFound))
    else
      assert cards[0] in db.cards;
      Ok(cards)
  }

  /** `c` sits at index `i` of `cards` and no card before it is ACTIVE. */
  predicate FirstActiveAt(cards: seq<Card>, i: int, c: Card)
  {
    0 <= i < |cards| && cards[i] == c && forall j :: 0 <= j < i ==> cards[j].status != CardStatus.Active
  }

  /** The first card of the list that is ACTIVE. */
  function FirstActive(cards: seq<Card>): (r: Option<Card>)
    ensures r.Some? ==> r.value in cards && r.value.status == CardStatus.Active
    ensures r.None? <==> forall c :: c in cards ==> c.status != CardStatus.Active
    ensures r.Some? && cards[0].status == CardStatus.Active ==> r.value == cards[0]
    ensures r.Some? ==> exists i :: FirstActiveAt(cards, i, r.value)
  {
    if cards == [] then None
    else if cards[0].status == CardStatus.Active then
      assert FirstActiveAt(cards, 0, cards[0]);
      Some(cards[0])
    else
      var r := FirstActive(cards[1..]);
      FirstMatchShifts(cards, r);
      r
  }

  /** A first Active card of the tail, behind a card that is not Active, is the first Active card of the whole list. */
  lemma FirstMatchShifts(cards: seq<Card>, r: Option<Card>)
    requires cards != [] && cards[0].status != CardStatus.Active
    requires r.Some? ==> exists i :: FirstActiveAt(cards[1..], i, r.value)
    ensures r.Some? ==> exists i :: FirstActiveAt(cards, i, r.value)
  {
    if r.Some? {
      var i :| FirstActiveAt(cards[1..], i, r.value);
      assert cards[i + 1] == r.value;
      forall j | 0 < j < i + 1 ensures cards[j].status != CardStatus.Active {
        assert cards[j] == cards[1..][j - 1];
      }
      assert FirstActiveAt(cards, i + 1, r.value);
    }
  }

  /** `getActiveCardByPatronId`: the first of the patron's cards that is ACTIVE. */
  function GetActiveCardByPatronId(db: Db, patronId: int): (r: Result<Card>)
    ensures r.Ok? ==> r.value in db.cards && r.value.patronId == patronId && r.value.status == CardStatus.Active
    ensures r.Err? <==> !HasActiveCard(db.cards, patronId)
    ensures r.Err? ==> r.error == General(CardNotFound, "No active card for this patron", NotFound)
  {
    match FirstActive(CardsOf(db.cards, patronId))
    case None =>
      assert forall j :: 0 <= j < |db.cards| ==> db.cards[j] in db.cards;
      Err(General(CardNotFound, "No active card for this patron", NotFound))
    case Some(c) => Ok(c)
  }

  /** `existsByPatronIdAndStatus(patronId, ACTIVE)`. */
  predicate HasActiveCard(cards: seq<Card>, patronId: int)
  {
    exists j :: 0 <= j < |cards| && cards[j].patronId == patronId && cards[j].status == CardStatus.Active
  }

  // ---------------------------------------------------------------------------
  // Status change

  /**
   * `updateCardStatus`: a missing card and a LOST card asked to become ACTIVE are
   * refused with nothing saved; every other status is applied as given, the card
   * written back where it was read.
   */
  function UpdateCardStatusSpec(db: Db, cardId: int, newStatus: CardStatus): (out: (Db, Result<Card>))
    ensures FindCard(db.cards, cardId).None? ==>
      out == (db, Err(General(CardNotFound, "No card with this ID found", NotFound)))
    ensures FindCard(db.cards, cardId).Some? ==>
      var i := FindCard(db.cards, cardId).value;
      if db.cards[i].status == Lost && newStatus == CardStatus.Active then
        out == (db, Err(General(CardLost, "A lost card cannot be reactivated. A new card must be issued.", Forbidden)))
      else
        out.1 == Ok(db.cards[i].(status := newStatus)) && out.0 == db.(cards := db.cards[i := out.1.value])
  {
    match FindCard(db.cards, cardId)
    case None => (db, Err(General(CardNotFound, "No card with this ID found", NotFound)))
    case Some(i) =>
      if db.cards[i].status == Lost && newStatus == CardStatus.Active then
        (db, Err(General(CardLost, "A lost card cannot be reactivated. A new card must be issued.", Forbidden)))
      else
        var card := db.cards[i].(status := newStatus);
        (db.(cards := db.cards[i := card]), Ok(card))
  }

  method UpdateCardStatus(lib: Library, cardId: int, newStatus: CardStatus) returns (r: Result<Card>)
    modifies lib
    ensures (lib.Snapshot(), r) == UpdateCardStatusSpec(old(lib.Snapshot()), cardId, newStatus)
  {
    var at := FindCard(lib.cards, cardId);
    if at.None? {
      return Err(General(CardNotFound, "No card with this ID found", NotFound));
    }
    var card := lib.cards[at.value];
    if card.status == Lost && newStatus == CardStatus.Active {
      return Err(General(CardLost, "A lost card cannot be reactivated. A new card must be issued.", Forbidden));
    }
    card := card.(status := newStatus);
    lib.cards := lib.cards[at.value := card];
    r := Ok(card);
  }

  /** Once lost, a card is never ACTIVE again: no status change makes a LOST card ACTIVE. */
  lemma LostCardStaysInactive(db: Db, cardId: int, newStatus: CardStatus)
    requires GetCardById(db, cardId).Ok? && GetCardById(db, cardId).value.status == Lost
    ensures var (db', r) := UpdateCardStatusSpec(db, cardId, newStatus);
      r.Ok? ==> r.value.status != CardStatus.Active && r.value.status == newStatus
  {}

  // ---------------------------------------------------------------------------
  // Issuing

  /** The card `addNewCard` issues under `cardId`. */
  function IssuedCard(cfg: SequenceGenerator.BarcodeConfig, cardId: int, patronId: int): Card
  {
    Card(cardId, Some(SequenceGenerator.GenerateBarcode(cfg, SequenceGenerator.CardBarcode, cardId)),
      patronId, CardStatus.Active)
  }

  /**
   * `addNewCard`: the patron must exist and not be suspended (checked first) and must
   * hold no ACTIVE card; the new card takes the next card number, the barcode for it
   * and status ACTIVE, and is appended.
   */
  function AddNewCardSpec(db: Db, cfg: SequenceGenerator.BarcodeConfig, patronId: int): (out: (Db, Result<Card>))
    ensures patronId !in db.patrons ==> out == (db, Err(PatronService.GetPatronById(db, patronId).error))
    ensures patronId in db.patrons && db.patrons[patronId].status == Suspended ==>
      out == (db, Err(General(PatronIneligible, "Patron is suspended and cannot be issued a new card.", Forbidden)))
    ensures patronId in db.patrons && db.patrons[patronId].status != Suspended && HasActiveCard(db.cards, patronId) ==>
      out == (db, Err(General(CardAlreadyExists, "Patron already has an active library card.", Conflict)))
    ensures out.1.Ok? ==> patronId in db.patrons && !HasActiveCard(db.cards, patronId) && !db.counterStoreFails
    ensures out.1.Ok? ==>
      var id := SequenceGenerator.CounterValue(db, SequenceGenerator.CounterId(SequenceGenerator.CardBarcode)) + 1;
      out.1.value == IssuedCard(cfg, id, patronId) &&
      out.0 == db.(cards := db.cards + [out.1.value],
        counters := db.counters[SequenceGenerator.CounterId(SequenceGenerator.CardBarcode) := id])
    ensures out.1.Err? && !db.counterStoreFails ==> out.0 == db
  {
    match PatronService.GetPatronById(db, patronId)
    case Err(e) => (db, Err(e))
    case Ok(patron) =>
      if patron.status == Suspended then
        (db, Err(General(PatronIneligible, "Patron is suspended and cannot be issued a new card.", Forbidden)))
      else if HasActiveCard(db.cards, patronId) then
        (db, Err(General(CardAlreadyExists, "Patron already has an active library card.", Conflict)))
      else
        var (db1, next) := SequenceGenerator.NextSequenceValue(db, SequenceGenerator.CounterId(SequenceGenerator.CardBarcode));
        match next
        case Err(e) => (db1, Err(e))
        case Ok(id) =>
          var card := IssuedCard(cfg, id, patronId);
          (db1.(cards := db1.cards + [card]), Ok(card))
  }

  method AddNewCard(lib: Library, cfg: SequenceGenerator.BarcodeConfig, patronId: int) returns (r: Result<Card>)
    modifies lib
    ensures (lib.Snapshot(), r) == AddNewCardSpec(old(lib.Snapshot()), cfg, patronId)
  {
    var patron := PatronService.GetPatronById(lib.Snapshot(), patronId);
    if patron.Err? {
      return Err(patron.error);
    }
    if patron.value.status == Suspended {
      return Err(General(PatronIneligible, "Patron is suspended and cannot be issued a new card.", Forbidden));
    }
    if HasActiveCard(lib.cards, patronId) {
      return Err(General(CardAlreadyExists, "Patron already has an active library card.", Conflict));
    }
    var next := SequenceGenerator.GetNextSequenceValueForType(lib, SequenceGenerator.CardBarcode);
    if next.Err? {
      return Err(next.error);
    }
    var card := IssuedCard(cfg, next.value, patronId);
    lib.cards := lib.cards + [card];
    r := Ok(card);
  }

  /** No patron holds two ACTIVE cards. */
  predicate AtMostOneActive(cards: seq<Card>)
  {
    forall i, j :: 0 <= i < j < |cards| && cards[i].status == CardStatus.Active && cards[j].status == CardStatus.Active ==>
      cards[i].patronId != cards[j].patronId
  }

  /** Issuing a card keeps every patron at no more than one ACTIVE card. */
  lemma AddNewCardKeepsOneActive(db: Db, cfg: SequenceGenerator.BarcodeConfig, patronId: int)
    requires AtMostOneActive(db.cards)
    ensures AtMostOneActive(AddNewCardSpec(db, cfg, patronId).0.cards)
  {
    var (db', r) := AddNewCardSpec(db, cfg, patronId);
    if r.Ok? {
      var cards := db'.cards;
      forall i, j | 0 <= i < j < |cards| && cards[i].status == CardStatus.Active && cards[j].status == CardStatus.Active
        ensures cards[i].patronId != cards[j].patronId
      {
        if j == |db.cards| {
          assert cards[i] == db.cards[i];
        }
      }
    }
  }

  /** After a card is issued, it is the patron's active card. */
  lemma IssuedCardIsActiveCard(db: Db, cfg: SequenceGenerator.BarcodeConfig, patronId: int)
    requires AddNewCardSpec(db, cfg, patronId).1.Ok?
    ensures var (db', r) := AddNewCardSpec(db, cfg, patronId);
      GetActiveCardByPatronId(db', patronId) == Ok(r.value)
  {
    var (db', r) := AddNewCardSpec(db, cfg, patronId);
    var i := |db.cards|;
    assert db'.cards[i] == r.value;
    NoActiveBefore(db'.cards, patronId, i);
    ActiveCardIsFirstActiveAmong(db'.cards, patronId, i);
  }

  /** With no ACTIVE card of the patron before `i`, none of the patron's earlier cards is ACTIVE. */
  lemma NoActiveBefore(cards: seq<Card>, patronId: int, i: nat)
    requires i <= |cards| && !HasActiveCard(cards[..i], patronId)
    ensures forall j :: 0 <= j < i && cards[j].patronId == patronId ==> cards[j].status != CardStatus.Active
  {
    forall j | 0 <= j < i && cards[j].patronId == patronId
      ensures cards[j].status != CardStatus.Active
    {
      assert cards[..i][j] == cards[j];
    }
  }

  /** The first ACTIVE card of the patron, at `i`, is what the lookup returns. */
  lemma {:induction false} ActiveCardIsFirstActiveAmong(cards: seq<Card>, patronId: int, i: nat)
    requires i < |cards| && cards[i].patronId == patronId && cards[i].status == CardStatus.Active
    requires forall j :: 0 <= j < i && cards[j].patronId == patronId ==> cards[j].status != CardStatus.Active
    ensures FirstActive(CardsOf(cards, patronId)) == Some(cards[i])
    decreases i
  {
    var all, rest := CardsOf(cards, patronId), CardsOf(cards[1..], patronId);
    if i == 0 {
      assert all == [cards[0]] + rest;
      assert all[0] == cards[0];
    } else {
      assert forall j :: 0 <= j < i - 1 && cards[1..][j].patronId == patronId ==>
        cards[1..][j].status != CardStatus.Active;
      ActiveCardIsFirstActiveAmong(cards[1..], patronId, i - 1);
      if cards[0].patronId == patronId {
        assert all == [cards[0]] + rest;
        assert all[0].status != CardStatus.Active;
        assert all[1..] == rest;
      } else {
        assert all == rest;
      }
    }
  }

  /** The barcode of an issued card ends in the check digit of the rest. */
  lemma IssuedBarcodeIsChecked(db: Db, cfg: SequenceGenerator.BarcodeConfig, patronId: int)
    requires CheckDigitCalculator.AllAlphanumeric(SequenceGenerator.Unchecked(cfg, SequenceGenerator.CardBarcode,
      SequenceGenerator.CounterValue(db, SequenceGenerator.CounterId(SequenceGenerator.CardBarcode)) + 1))
    ensures var r := AddNewCardSpec(db, cfg, patronId).1;
      r.Ok? ==>
        var u := SequenceGenerator.Unchecked(cfg, SequenceGenerator.CardBarcode, r.value.cardId);
        r.value.barCodeId == Some(u + [DigitChar(CheckDigitCalculator.CheckDigit(u))])
  {}

  /**
   * A status change back to ACTIVE does not consult the patron's other cards, so a
   * patron can come to hold two ACTIVE cards through it.
   */
  lemma ReactivationCanDuplicateActive()
    ensures var db := Db(map[], map[], [], [], [Card(1, None, 7, CardStatus.Active), Card(2, None, 7, CardStatus.Inactive)],
        map[], map[], false, []);
      var (db', r) := UpdateCardStatusSpec(db, 2, CardStatus.Active);
      r.Ok? && !AtMostOneActive(db'.cards)
  {
    var db := Db(map[], map[], [], [], [Card(1, None, 7, CardStatus.Active), Card(2, None, 7, CardStatus.Inactive)],
      map[], map[], false, []);
    assert FindCard(db.cards, 2) == Some(1);
    var cards' := UpdateCardStatusSpec(db, 2, CardStatus.Active).0.cards;
    assert cards'[0].patronId == cards'[1].patronId && cards'[1].status == CardStatus.Active;
  }
}
