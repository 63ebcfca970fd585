/**
 * Media record updates: a partial update walks a string-keyed map and sets one field
 * per key, checking the value's type for the page count, the acquisition date and the
 * status, and failing on the first key it cannot apply (the keys before it stay
 * applied); a full update copies the twelve descriptive fields.
 *
 * `LocalDate.parse` is the parameter `parseDate`: the date a text denotes, or `None`
 * when the text is not an ISO date (which `LocalDate.parse` reports by throwing).
 */
module MediaUpdateService {
  import opened Common
  import opened Calendar
  import opened Model

  /** The keys whose value is cast to text and stored in the field of that name. */
  const TextKeys: set<string> := {"mediaTitle", "authorName", "isbnId", "barCodeId",
    "publicationYear", "mediaType", "mediaFormat", "classificationCategory",
    "classificationSubCategory", "publisherName", "disposalDisposition"}

  /** Every key a partial update recognises. */
  const Keys: set<string> := TextKeys + {"numberPages", "acquisitionDate", "status"}

  /** The text field named `key`. */
  function TextField(m: Media, key: string): Option<string>
    requires key in TextKeys
  {
    match key
    case "mediaTitle" => m.mediaTitle
    case "authorName" => m.authorName
    case "isbnId" => m.isbnId
    case "barCodeId" => m.barCodeId
    case "publicationYear" => m.publicationYear
    case "mediaType" => m.mediaType
    case "mediaFormat" => m.mediaFormat
    case "classificationCategory" => m.classificationCategory
    case "classificationSubCategory" => m.classificationSubCategory
    case "publisherName" => m.publisherName
    case _ => m.disposalDisposition
  }

  /** The text field named `key` set to `t`. */
  function WithText(m: Media, key: string, t: Option<string>): Media
    requires key in TextKeys
  {
    match key
    case "mediaTitle" => m.(mediaTitle := t)
    case "authorName" => m.(authorName := t)
    case "isbnId" => m.(isbnId := t)
    case "barCodeId" => m.(barCodeId := t)
    case "publicationYear" => m.(publicationYear := t)
    case "mediaType" => m.(mediaType := t)
    case "mediaFormat" => m.(mediaFormat := t)
    case "classificationCategory" => m.(classificationCategory := t)
    case "classificationSubCategory" => m.(classificationSubCategory := t)
    case "publisherName" => m.(publisherName := t)
    case _ => m.(disposalDisposition := t)
  }

  /** The setter of the text field `key`, after the cast of `value` to text. */
  function SetText(m: Media, key: string, value: Value): Result<Media>
    requires key in TextKeys
  {
    match AsText(value)
    case Err(e) => Err(e)
    case Ok(t) => Ok(WithText(m, key, t))
  }

  /** One case of the update switch. */
  function ApplyUpdate(m: Media, key: string, value: Value, parseDate: string -> Option<Day>): Result<Media>
  {
    if key in TextKeys then SetText(m, key, value)
    else if key == "numberPages" then
      (match value
       case IntValue(n) => Ok(m.(numberPages := Some(n)))
       case _ => Err(IllegalArgument("Invalid type for numberPages. Expected an Integer.")))
    else if key == "acquisitionDate" then
      (match value
       case TextValue(t) =>
         (match parseDate(t)
          case Some(d) => Ok(m.(acquisitionDate := Some(d)))
          case None => Err(DateTimeParse(t)))
       case DateValue(d) => Ok(m.(acquisitionDate := Some(d)))
       case _ => Err(IllegalArgument("Invalid type for acquisitionDate. Expected a String or LocalDate.")))
    else if key == "status" then
      (match value
       case TextValue(name) =>
         (match MediaStatusValueOf(name)
          case Some(s) => Ok(m.(status := s))
          case None => Err(IllegalArgument("Invalid media status: " + name)))
       case _ => Err(IllegalArgument("Invalid type for status. Expected a String.")))
    else Err(IllegalArgument("Unknown property: " + key))
  }

  /**
   * The updates applied in map order: the media as it stands after the last key
   * applied, and the error of the key that could not be, if any.
   */
  function ApplyAll(m: Media, updates: seq<(string, Value)>, parseDate: string -> Option<Day>): (Media, Outcome)
    decreases |updates|
  {
    if updates == [] then (m, Pass)
    else match ApplyUpdate(m, updates[0].0, updates[0].1, parseDate)
      case Err(e) => (m, Fail(e))
      case Ok(n) => ApplyAll(n, updates[1..], parseDate)
  }

  /** `applyPartialUpdates`: the media is updated key by key, in place. */
  method ApplyPartialUpdates(media: Media, updates: seq<(string, Value)>, parseDate: string -> Option<Day>)
    returns (updated: Media, outcome: Outcome)
    ensures (updated, outcome) == ApplyAll(media, updates, parseDate)
  {
    updated := media;
    var i := 0;
    while i < |updates|
      invariant 0 <= i <= |updates|
      invariant ApplyAll(media, updates, parseDate) == ApplyAll(updated, updates[i..], parseDate)
    {
      var (key, value) := updates[i];
      assert updates[i..][0] == (key, value) && updates[i..][1..] == updates[i + 1..];
      var r := ApplyUpdate(updated, key, value, parseDate);
      if r.Err? {
        return updated, Fail(r.error);
      }
      updated := r.value;
      i := i + 1;
    }
    outcome := Pass;
  }

  /** A text key with a text or null value sets that field and nothing else. */
  lemma TextKeySetsItsField(m: Media, key: string, value: Value, parseDate: string -> Option<Day>)
    requires key in TextKeys && (value.TextValue? || value.NullValue?)
    ensures var r := ApplyUpdate(m, key, value, parseDate);
      r.Ok? &&
      TextField(r.value, key) == AsText(value).value &&
      WithText(r.value, key, TextField(m, key)) == m &&
      r.value.mediaId == m.mediaId && r.value.numberPages == m.numberPages &&
      r.value.acquisitionDate == m.acquisitionDate && r.value.status == m.status &&
      r.value.isSensitive == m.isSensitive
  {}

  /** The page count accepts only an integer. */
  lemma NumberPagesKey(m: Media, value: Value, parseDate: string -> Option<Day>)
    ensures value.IntValue? ==>
      ApplyUpdate(m, "numberPages", value, parseDate) == Ok(m.(numberPages := Some(value.n)))
    ensures !value.IntValue? ==>
      ApplyUpdate(m, "numberPages", value, parseDate) ==
        Err(IllegalArgument("Invalid type for numberPages. Expected an Integer."))
  {}

  /** The acquisition date accepts a date, or a text that parses as one. */
  lemma AcquisitionDateKey(m: Media, value: Value, parseDate: string -> Option<Day>)
    ensures var r := ApplyUpdate(m, "acquisitionDate", value, parseDate);
      r.Ok? <==> value.DateValue? || (value.TextValue? && parseDate(value.text).Some?)
    ensures value.DateValue? ==>
      ApplyUpdate(m, "acquisitionDate", value, parseDate) == Ok(m.(acquisitionDate := Some(value.day)))
    ensures !value.DateValue? && !value.TextValue? ==>
      ApplyUpdate(m, "acquisitionDate", value, parseDate) ==
        Err(IllegalArgument("Invalid type for acquisitionDate. Expected a String or LocalDate."))
  {}

  /** The status accepts only the text name of a media status. */
  lemma StatusKey(m: Media, value: Value, parseDate: string -> Option<Day>)
    ensures var r := ApplyUpdate(m, "status", value, parseDate);
      r.Ok? <==> value.TextValue? && MediaStatusValueOf(value.text).Some?
    ensures value.TextValue? && MediaStatusValueOf(value.text).None? ==>
      ApplyUpdate(m, "status", value, parseDate) == Err(IllegalArgument("Invalid media status: " + value.text))
    ensures !value.TextValue? ==>
      ApplyUpdate(m, "status", value, parseDate) ==
        Err(IllegalArgument("Invalid type for status. Expected a String."))
  {}

  lemma UnknownKeyRejected(m: Media, key: string, value: Value, parseDate: string -> Option<Day>)
    requires key !in Keys
    ensures ApplyUpdate(m, key, value, parseDate) == Err(IllegalArgument("Unknown property: " + key))
  {}

  /**
   * Updates apply left to right: a first batch that succeeds leaves its changes in
   * place for the second, and one that fails stops there with its changes kept.
   */
  lemma {:induction false} ApplyAllSplits(m: Media, first: seq<(string, Value)>, rest: seq<(string, Value)>,
    parseDate: string -> Option<Day>)
    ensures var (n, o) := ApplyAll(m, first, parseDate);
      ApplyAll(m, first + rest, parseDate) == (if o.Fail? then (n, o) else ApplyAll(n, rest, parseDate))
    decreases |first|
  {
    if first == [] {
      assert first + rest == rest;
    } else {
      assert (first + rest)[0] == first[0];
      assert (first + rest)[1..] == first[1..] + rest;
      var r := ApplyUpdate(m, first[0].0, first[0].1, parseDate);
      if r.Ok? {
        ApplyAllSplits(r.value, first[1..], rest, parseDate);
      }
    }
  }

  /** After a run of successful keys, an unknown key fails with those keys applied. */
  lemma UnknownKeyKeepsEarlierKeys(m: Media, done: seq<(string, Value)>, key: string, value: Value,
    rest: seq<(string, Value)>, parseDate: string -> Option<Day>)
    requires ApplyAll(m, done, parseDate).1 == Pass && key !in Keys
    ensures ApplyAll(m, done + [(key, value)] + rest, parseDate) ==
      (ApplyAll(m, done, parseDate).0, Fail(IllegalArgument("Unknown property: " + key)))
  {
    ApplyAllSplits(m, done, [(key, value)] + rest, parseDate);
    assert done + [(key, value)] + rest == done + ([(key, value)] + rest);
  }

  /**
   * `applyFullUpdate`: the twelve descriptive fields come from the full update; the
   * media id, barcode, status and sensitivity flag stay.
   */
  function ApplyFullUpdate(m: Media, full: Media): (r: Media)
    ensures r.mediaId == m.mediaId && r.barCodeId == m.barCodeId
    ensures r.status == m.status && r.isSensitive == m.isSensitive
    ensures r.(mediaId := full.mediaId, barCodeId := full.barCodeId, status := full.status,
      isSensitive := full.isSensitive) == full
  {
    m.(mediaTitle := full.mediaTitle,
       authorName := full.authorName,
       isbnId := full.isbnId,
       publicationYear := full.publicationYear,
       mediaType := full.mediaType,
       mediaFormat := full.mediaFormat,
       numberPages := full.numberPages,
       classificationCategory := full.classificationCategory,
       classificationSubCategory := full.classificationSubCategory,
       publisherName := full.publisherName,
       disposalDisposition := full.disposalDisposition,
       acquisitionDate := full.acquisitionDate)
  }
}
