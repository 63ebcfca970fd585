/**
 * Media rules: lookup and searches that fail on no match, partial and full update,
 * deletion refused while a loan still holds an unreturned item, cataloguing of new
 * media with its defaults, and the status change circulation applies.
 */
module MediaService {
  import opened Common
  import opened Calendar
  import opened Model
  import opened Store
  import SequenceGenerator
  import MediaUpdateService
  import CheckDigitCalculator

  /** `getMediaById`. */
  function GetMediaById(db: Db, mediaId: int): (r: Result<Media>)
    ensures r.Ok? <==> mediaId in db.media
    ensures r.Ok? ==> r.value == db.media[mediaId]
    ensures r.Err? ==> r.error == General(MediaNotFound, "No item with this ID found in collection", NotFound)
  {
    if mediaId in db.media then Ok(db.media[mediaId])
    else Err(General(MediaNotFound, "No item with this ID found in collection", NotFound))
  }

  /** `checkMediaNotEmpty`: an empty search result is an error carrying the given message. */
  function CheckMediaNotEmpty(media: set<Media>, errorMessage: string): (r: Result<set<Media>>)
    ensures r.Err? <==> media == {}
    ensures r.Ok? ==> r.value == media
    ensures r.Err? ==> r.error == General(MediaNotFound, errorMessage, NotFound)
  {
    if media == {} then Err(General(MediaNotFound, errorMessage, NotFound)) else Ok(media)
  }

  /** The fields the searches match on. */
  datatype SearchField = Title | Author | Publisher | Isbn

  function FieldOf(m: Media, field: SearchField): Option<string>
  {
    match field
    case Title => m.mediaTitle
    case Author => m.authorName
    case Publisher => m.publisherName
    case Isbn => m.isbnId
  }

  function NoMatchMessage(field: SearchField): string
  {
    match field
    case Title => "No item with this title found in collection"
    case Author => "No item by this author found in collection"
    case Publisher => "No item by this publisher found in collection"
    case Isbn => "No item by this ISBN ID found in collection"
  }

  /**
   * `getMediaByMediaTitle`, `getMediaByAuthorName`, `getMediaByPublisherName` and
   * `getMediaByIsbnId`: every stored media whose field equals the value, or an error
   * with that search's own message when there is none.
   */
  function SearchMedia(db: Db, field: SearchField, value: string): (r: Result<set<Media>>)
    ensures r.Ok? ==> forall m :: m in r.value ==> m in db.media.Values && FieldOf(m, field) == Some(value)
    ensures r.Ok? ==> forall id :: id in db.media && FieldOf(db.media[id], field) == Some(value) ==> db.media[id] in r.value
    ensures r.Err? <==> forall id :: id in db.media ==> FieldOf(db.media[id], field) != Some(value)
    ensures r.Err? ==> r.error == General(MediaNotFound, NoMatchMessage(field), NotFound)
  {
    var found := set id | id in db.media && FieldOf(db.media[id], field) == Some(value) :: db.media[id];
    if exists id :: id in db.media && FieldOf(db.media[id], field) == Some(value) then
      var id :| id in db.media && FieldOf(db.media[id], field) == Some(value);
      assert db.media[id] in found;
      CheckMediaNotEmpty(found, NoMatchMessage(field))
    else
      CheckMediaNotEmpty(found, NoMatchMessage(field))
  }

  // ---------------------------------------------------------------------------
  // Updates

  /**
   * `updateMediaPartial`: a null or empty map is refused before the lookup; a failing
   * key saves nothing; otherwise the updated media is saved in place.
   */
  function UpdateMediaPartialSpec(db: Db, mediaId: int, updates: Option<seq<(string, Value)>>,
      parseDate: string -> Option<Day>): (out: (Db, Result<Media>))
    ensures updates.None? || updates.value == [] ==>
      out == (db, Err(General(InvalidOperation, "No updates provided", BadRequest)))
    ensures updates.Some? && updates.value != [] && mediaId !in db.media ==>
      out == (db, Err(GetMediaById(db, mediaId).error))
    ensures out.1.Err? ==> out.0 == db
    ensures out.1.Ok? ==> mediaId in db.media && updates.Some?
    ensures out.1.Ok? ==>
      MediaUpdateService.ApplyAll(db.media[mediaId], updates.value, parseDate) == (out.1.value, Pass)
    ensures out.1.Ok? ==> out.0 == db.(media := db.media[mediaId := out.1.value])
  {
    if updates.None? || updates.value == [] then
      (db, Err(General(InvalidOperation, "No updates provided", BadRequest)))
    else
      match GetMediaById(db, mediaId)
      case Err(e) => (db, Err(e))
      case Ok(media) =>
        var (m, o) := MediaUpdateService.ApplyAll(media, updates.value, parseDate);
        if o.Fail? then (db, Err(o.error))
        else (db.(media := db.media[mediaId := m]), Ok(m))
  }

  method UpdateMediaPartial(lib: Library, mediaId: int, updates: Option<seq<(string, Value)>>,
      parseDate: string -> Option<Day>) returns (r: Result<Media>)
    modifies lib
    ensures (lib.Snapshot(), r) == UpdateMediaPartialSpec(old(lib.Snapshot()), mediaId, updates, parseDate)
  {
    if updates.None? || updates.value == [] {
      return Err(General(InvalidOperation, "No updates provided", BadRequest));
    }
    var found := GetMediaById(lib.Snapshot(), mediaId);
    if found.Err? {
      return Err(found.error);
    }
    var media, outcome := MediaUpdateService.ApplyPartialUpdates(found.value, updates.value, parseDate);
    if outcome.Fail? {
      return Err(outcome.error);
    }
    lib.media := lib.media[mediaId := media];
    r := Ok(media);
  }

  /** `updateMediaFull`: a null update is refused before the lookup. */
  function UpdateMediaFullSpec(db: Db, mediaId: int, fullUpdate: Option<Media>): (out: (Db, Result<Media>))
    ensures fullUpdate.None? ==> out == (db, Err(General(InvalidOperation, "No updates provided", BadRequest)))
    ensures fullUpdate.Some? && mediaId !in db.media ==> out == (db, Err(GetMediaById(db, mediaId).error))
    ensures out.1.Ok? <==> fullUpdate.Some? && mediaId in db.media
    ensures out.1.Ok? ==>
      var m := db.media[mediaId];
      out.1.value.mediaId == m.mediaId && out.1.value.barCodeId == m.barCodeId &&
      out.1.value.status == m.status && out.1.value.isSensitive == m.isSensitive &&
      out.0 == db.(media := db.media[mediaId := out.1.value])
    ensures out.1.Err? ==> out.0 == db
  {
    if fullUpdate.None? then (db, Err(General(InvalidOperation, "No updates provided", BadRequest)))
    else
      match GetMediaById(db, mediaId)
      case Err(e) => (db, Err(e))
      case Ok(media) =>
        var m := MediaUpdateService.ApplyFullUpdate(media, fullUpdate.value);
        (db.(media := db.media[mediaId := m]), Ok(m))
  }

  method UpdateMediaFull(lib: Library, mediaId: int, fullUpdate: Option<Media>) returns (r: Result<Media>)
    modifies lib
    ensures (lib.Snapshot(), r) == UpdateMediaFullSpec(old(lib.Snapshot()), mediaId, fullUpdate)
  {
    if fullUpdate.None? {
      return Err(General(InvalidOperation, "No updates provided", BadRequest));
    }
    var found := GetMediaById(lib.Snapshot(), mediaId);
    if found.Err? {
      return Err(found.error);
    }
    var media := MediaUpdateService.ApplyFullUpdate(found.value, fullUpdate.value);
    lib.media := lib.media[mediaId := media];
    r := Ok(media);
  }

  // ---------------------------------------------------------------------------
  // Deletion

  /** The loan holds an item for this media. */
  predicate ContainsMedia(loan: Loan, mediaId: int)
  {
    exists j :: 0 <= j < |loan.items| && loan.items[j].mediaId == mediaId
  }

  /** The loan holds an item not yet returned. */
  predicate HasUnreturnedItem(loan: Loan)
  {
    exists j :: 0 <= j < |loan.items| && loan.items[j].returnDate.None?
  }

  /**
   * `hasActiveLoans`: among the loans that hold the media, some item (of any media)
   * has no return date.
   */
  predicate HasActiveLoans(db: Db, mediaId: int)
  {
    exists i :: 0 <= i < |db.loans| && ContainsMedia(db.loans[i], mediaId) && HasUnreturnedItem(db.loans[i])
  }

  /** `deleteMedia`. */
  function DeleteMediaSpec(db: Db, mediaId: int): (out: (Db, Outcome))
    ensures mediaId !in db.media ==> out == (db, Fail(GetMediaById(db, mediaId).error))
    ensures mediaId in db.media && HasActiveLoans(db, mediaId) ==>
      out == (db, Fail(General(InvalidOperation, "Cannot delete media with active loans or holds", Conflict)))
    ensures out.1 == Pass <==> mediaId in db.media && !HasActiveLoans(db, mediaId)
    ensures out.1 == Pass ==> out.0 == db.(media := db.media - {mediaId})
  {
    match GetMediaById(db, mediaId)
    case Err(e) => (db, Fail(e))
    case Ok(_) =>
      if HasActiveLoans(db, mediaId) then
        (db, Fail(General(InvalidOperation, "Cannot delete media with active loans or holds", Conflict)))
      else (db.(media := db.media - {mediaId}), Pass)
  }

  method DeleteMedia(lib: Library, mediaId: int) returns (r: Outcome)
    modifies lib
    ensures (lib.Snapshot(), r) == DeleteMediaSpec(old(lib.Snapshot()), mediaId)
  {
    var found := GetMediaById(lib.Snapshot(), mediaId);
    if found.Err? {
      return Fail(found.error);
    }
    if HasActiveLoans(lib.Snapshot(), mediaId) {
      return Fail(General(InvalidOperation, "Cannot delete media with active loans or holds", Conflict));
    }
    lib.media := lib.media - {mediaId};
    r := Pass;
  }

  /**
   * The guard looks at every item of a loan holding the media: an unreturned item of
   * other media in the same loan also blocks the deletion.
   */
  lemma DeleteBlockedBySiblingItem(db: Db, mediaId: int, i: nat, j: nat, k: nat)
    requires mediaId in db.media && i < |db.loans|
    requires j < |db.loans[i].items| && db.loans[i].items[j].mediaId == mediaId
    requires k < |db.loans[i].items| && db.loans[i].items[k].returnDate.None?
    ensures DeleteMediaSpec(db, mediaId).1.Fail?
  {
    assert ContainsMedia(db.loans[i], mediaId) && HasUnreturnedItem(db.loans[i]);
  }

  // ---------------------------------------------------------------------------
  // Cataloguing

  /** `validateMedia`: the title must be present and non-empty. */
  function ValidateMedia(media: Media): (r: Outcome)
    ensures r == Pass <==> media.mediaTitle.Some? && media.mediaTitle.value != ""
    ensures r.Fail? ==> r.error == General(InvalidInput, "Media title cannot be empty", BadRequest)
  {
    if media.mediaTitle.None? || media.mediaTitle.value == "" then
      Fail(General(InvalidInput, "Media title cannot be empty", BadRequest))
    else Pass
  }

  /** The media as catalogued under `id`. */
  function Catalogued(cfg: SequenceGenerator.BarcodeConfig, media: Media, id: int, today: Day): Media
  {
    media.(mediaId := id,
      barCodeId := Some(SequenceGenerator.GenerateBarcode(cfg, SequenceGenerator.MediaBarcode, id)),
      status := Available,
      acquisitionDate := if media.acquisitionDate.None? then Some(today) else media.acquisitionDate)
  }

  /**
   * `addNewMedia`: null media and a missing or empty title are refused before any
   * draw. Otherwise the media gets the next media number, the barcode for it, status
   * AVAILABLE and, if it had none, today as acquisition date.
   */
  function AddNewMediaSpec(db: Db, cfg: SequenceGenerator.BarcodeConfig, media: Option<Media>, today: Day)
    : (out: (Db, Result<Media>))
    ensures media.None? ==> out == (db, Err(General(InvalidInput, "Media object cannot be null", BadRequest)))
    ensures media.Some? && ValidateMedia(media.value).Fail? ==> out == (db, Err(ValidateMedia(media.value).error))
    ensures out.1.Ok? <==> media.Some? && ValidateMedia(media.value) == Pass && !db.counterStoreFails
    ensures out.1.Ok? ==>
      var id := SequenceGenerator.CounterValue(db, SequenceGenerator.CounterId(SequenceGenerator.MediaBarcode)) + 1;
      var m := out.1.value;
      m.mediaId == id && m.status == Available &&
      m.barCodeId == Some(SequenceGenerator.GenerateBarcode(cfg, SequenceGenerator.MediaBarcode, id)) &&
      (media.value.acquisitionDate.None? ==> m.acquisitionDate == Some(today)) &&
      (media.value.acquisitionDate.Some? ==> m.acquisitionDate == media.value.acquisitionDate) &&
      m.(mediaId := media.value.mediaId, barCodeId := media.value.barCodeId, status := media.value.status,
        acquisitionDate := media.value.acquisitionDate) == media.value &&
      out.0 == db.(media := db.media[id := m],
        counters := db.counters[SequenceGenerator.CounterId(SequenceGenerator.MediaBarcode) := id])
    ensures out.1.Err? ==> out.0 == db
  {
    if media.None? then (db, Err(General(InvalidInput, "Media object cannot be null", BadRequest)))
    else match ValidateMedia(media.value)
      case Fail(e) => (db, Err(e))
      case Pass =>
        var (db1, next) := SequenceGenerator.NextSequenceValue(db, SequenceGenerator.CounterId(SequenceGenerator.MediaBarcode));
        match next
        case Err(e) => (db1, Err(e))
        case Ok(id) =>
          var m := Catalogued(cfg, media.value, id, today);
          (SaveMedia(db1, m), Ok(m))
  }

  method AddNewMedia(lib: Library, cfg: SequenceGenerator.BarcodeConfig, media: Option<Media>, today: Day)
    returns (r: Result<Media>)
    modifies lib
    ensures (lib.Snapshot(), r) == AddNewMediaSpec(old(lib.Snapshot()), cfg, media, today)
  {
    if media.None? {
      return Err(General(InvalidInput, "Media object cannot be null", BadRequest));
    }
    var valid := ValidateMedia(media.value);
    if valid.Fail? {
      return Err(valid.error);
    }
    var next := SequenceGenerator.GetNextSequenceValueForType(lib, SequenceGenerator.MediaBarcode);
    if next.Err? {
      return Err(next.error);
    }
    var m := media.value.(mediaId := next.value);
    m := m.(barCodeId := Some(SequenceGenerator.GenerateBarcode(cfg, SequenceGenerator.MediaBarcode, next.value)));
    m := m.(status := Available);
    if m.acquisitionDate.None? {
      m := m.(acquisitionDate := Some(today));
    }
    lib.media := lib.media[m.mediaId := m];
    r := Ok(m);
  }

  /** With the media counter ahead of every stored id, a catalogued media never replaces another. */
  lemma AddNewMediaUsesFreshId(db: Db, cfg: SequenceGenerator.BarcodeConfig, media: Option<Media>, today: Day)
    requires forall id :: id in db.media ==>
      id <= SequenceGenerator.CounterValue(db, SequenceGenerator.CounterId(SequenceGenerator.MediaBarcode))
    ensures var (db', r) := AddNewMediaSpec(db, cfg, media, today);
      r.Ok? ==> r.value.mediaId !in db.media && db'.media.Keys == db.media.Keys + {r.value.mediaId}
  {}

  /** The barcode of a catalogued media ends in the check digit of the rest. */
  lemma CataloguedBarcodeIsChecked(db: Db, cfg: SequenceGenerator.BarcodeConfig, media: Option<Media>, today: Day)
    requires CheckDigitCalculator.AllAlphanumeric(SequenceGenerator.Unchecked(cfg, SequenceGenerator.MediaBarcode,
      SequenceGenerator.CounterValue(db, SequenceGenerator.CounterId(SequenceGenerator.MediaBarcode)) + 1))
    ensures var r := AddNewMediaSpec(db, cfg, media, today).1;
      r.Ok? ==>
        var u := SequenceGenerator.Unchecked(cfg, SequenceGenerator.MediaBarcode, r.value.mediaId);
        r.value.barCodeId == Some(u + [DigitChar(CheckDigitCalculator.CheckDigit(u))])
  {}

  /** `updateMediaStatus`: set the status and save. */
  method UpdateMediaStatus(lib: Library, media: Media, status: MediaStatus) returns (updated: Media)
    modifies lib
    ensures updated == media.(status := status)
    ensures lib.Snapshot() == SaveMedia(old(lib.Snapshot()), updated)
  {
    updated := media.(status := status);
    lib.media := lib.media[updated.mediaId := updated];
  }
}
