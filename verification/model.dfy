/**
 * The documents the library keeps (patrons, media, loans, fines, cards, invoices) and
 * the enumerations their statuses range over. Nullable reference fields of the Java
 * classes are `Option`s; dates are epoch-day numbers. Audit timestamps (creation and
 * last-update dates) are not part of the model.
 */
module Model {
  import opened Common
  import opened Calendar

  datatype MediaStatus = Available | CheckedOut | LostOrDamaged | Other

  datatype PatronStatus = Active | Inactive | Suspended

  datatype CardStatus = Active | Inactive | Lost | Restricted

  datatype LoanStatus = Active | Completed

  datatype ItemStatus = CheckedOut | Returned

  datatype TransactionType = Checkout | Return

  datatype FineType = OverdueItem | LostItem | DamagedItem

  /** `MediaStatus.name()`. */
  function MediaStatusName(s: MediaStatus): string
  {
    match s
    case Available => "AVAILABLE"
    case CheckedOut => "CHECKED_OUT"
    case LostOrDamaged => "LOST_OR_DAMAGED"
    case Other => "OTHER"
  }

  /** `MediaStatus.valueOf(name)`: the constant with exactly that name, if any. */
  function MediaStatusValueOf(name: string): (r: Option<MediaStatus>)
    ensures r.Some? ==> MediaStatusName(r.value) == name
    ensures r.None? ==> forall s: MediaStatus :: MediaStatusName(s) != name
  {
    if name == "AVAILABLE" then Some(Available)
    else if name == "CHECKED_OUT" then Some(MediaStatus.CheckedOut)
    else if name == "LOST_OR_DAMAGED" then Some(LostOrDamaged)
    else if name == "OTHER" then Some(Other)
    else None
  }

  /** `PatronStatus.name()`. */
  function PatronStatusName(s: PatronStatus): string
  {
    match s
    case Active => "ACTIVE"
    case Inactive => "INACTIVE"
    case Suspended => "SUSPENDED"
  }

  /** `PatronStatus.valueOf(name)`: the constant with exactly that name, if any. */
  function PatronStatusValueOf(name: string): (r: Option<PatronStatus>)
    ensures r.Some? ==> PatronStatusName(r.value) == name
    ensures r.None? ==> forall s: PatronStatus :: PatronStatusName(s) != name
  {
    if name == "ACTIVE" then Some(PatronStatus.Active)
    else if name == "INACTIVE" then Some(PatronStatus.Inactive)
    else if name == "SUSPENDED" then Some(Suspended)
    else None
  }

  /** `ItemStatus.name()`, the text the loan documents store for an item's status. */
  function ItemStatusName(s: ItemStatus): string
  {
    match s
    case CheckedOut => "CHECKED_OUT"
    case Returned => "RETURNED"
  }

  datatype LoanItem = LoanItem(
    mediaId: int,
    checkoutDate: Day,
    dueDate: Day,
    returnDate: Option<Day>,
    status: ItemStatus)

  datatype TransactionLog = TransactionLog(
    transactionType: TransactionType,
    transactionDate: Day,
    mediaIds: seq<int>)

  datatype Loan = Loan(
    loanId: int,
    patronId: int,
    status: LoanStatus,
    items: seq<LoanItem>,
    transactionLog: seq<TransactionLog>)

  datatype Media = Media(
    mediaId: int,
    mediaTitle: Option<string>,
    authorName: Option<string>,
    isbnId: Option<string>,
    barCodeId: Option<string>,
    publicationYear: Option<string>,
    mediaType: Option<string>,
    mediaFormat: Option<string>,
    numberPages: Option<int>,
    classificationCategory: Option<string>,
    classificationSubCategory: Option<string>,
    publisherName: Option<string>,
    disposalDisposition: Option<string>,
    acquisitionDate: Option<Day>,
    status: MediaStatus,
    isSensitive: bool)

  datatype Patron = Patron(
    patronId: int,
    patronName: Option<string>,
    dateOfBirth: Option<Day>,
    streetAddress: Option<string>,
    cityName: Option<string>,
    stateName: Option<string>,
    zipCode: Option<string>,
    telephoneHome: Option<string>,
    telephoneMobile: Option<string>,
    emailAddress: Option<string>,
    contactMethod: Option<string>,
    status: PatronStatus,
    checkedOutItems: seq<int>)

  datatype Fine = Fine(
    fineId: int,
    patronId: int,
    mediaId: int,
    fineType: FineType,
    amount: int,
    dateAssessed: Option<Day>,
    datePaid: Option<Day>,
    isPaid: bool,
    isWaived: bool)

  datatype Card = Card(
    cardId: int,
    barCodeId: Option<string>,
    patronId: int,
    status: CardStatus)

  datatype Invoice = Invoice(
    invoiceId: int,
    patronId: int,
    amount: int,
    status: Option<string>,
    date: Option<Day>,
    campaign: Option<string>)

  /**
   * A value of a string-keyed update map, as it arrives from a request body (text,
   * integer, boolean or null) or from a caller passing a date object.
   */
  datatype Value = TextValue(text: string) | IntValue(n: int) | BoolValue(b: bool) | DateValue(day: Day) | NullValue

  /** The cast `(String) value`: text or null pass, any other value is a ClassCastException. */
  function AsText(v: Value): (r: Result<Option<string>>)
    ensures r.Ok? <==> v.TextValue? || v.NullValue?
    ensures v.TextValue? ==> r == Ok(Some(v.text))
    ensures r.Err? ==> r.error == ClassCast
  {
    match v
    case TextValue(t) => Ok(Some(t))
    case NullValue => Ok(None)
    case _ => Err(ClassCast)
  }
}
