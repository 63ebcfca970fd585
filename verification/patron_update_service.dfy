/**
 * Patron profile updates: a partial update walks a string-keyed map and sets one
 * field per key, failing on the first key it cannot apply (with the keys before it
 * already applied to the patron); a full update copies every profile field.
 */
module PatronUpdateService {
  import opened Common
  import opened Model

  /** The keys whose value is cast to text and stored in the field of that name. */
  const TextKeys: set<string> := {"patronName", "streetAddress", "cityName", "stateName",
    "zipCode", "telephoneHome", "telephoneMobile", "emailAddress", "contactMethod"}

  /** Every key a partial update recognises. */
  const Keys: set<string> := TextKeys + {"dateOfBirth", "status"}

  /** The text field named `key`. */
  function TextField(p: Patron, key: string): Option<string>
    requires key in TextKeys
  {
    match key
    case "patronName" => p.patronName
    case "streetAddress" => p.streetAddress
    case "cityName" => p.cityName
    case "stateName" => p.stateName
    case "zipCode" => p.zipCode
    case "telephoneHome" => p.telephoneHome
    case "telephoneMobile" => p.telephoneMobile
    case "emailAddress" => p.emailAddress
    case _ => p.contactMethod
  }

  /** One case of the update switch. */
  function ApplyUpdate(p: Patron, key: string, value: Value): Result<Patron>
  {
    match key
    case "patronName" => SetText(p, key, value)
    case "dateOfBirth" =>
      (match value
       case DateValue(d) => Ok(p.(dateOfBirth := Some(d)))
       case NullValue => Ok(p.(dateOfBirth := None))
       case _ => Err(ClassCast))
    case "streetAddress" => SetText(p, key, value)
    case "cityName" => SetText(p, key, value)
    case "stateName" => SetText(p, key, value)
    case "zipCode" => SetText(p, key, value)
    case "telephoneHome" => SetText(p, key, value)
    case "telephoneMobile" => SetText(p, key, value)
    case "emailAddress" => SetText(p, key, value)
    case "contactMethod" => SetText(p, key, value)
    case "status" =>
      (match value
       case TextValue(name) =>
         (match PatronStatusValueOf(name)
          case Some(s) => Ok(p.(status := s))
          case None => Err(General(InvalidInput, "Invalid patron status: " + name, BadRequest)))
       case NullValue => Err(NullPointer)
       case _ => Err(ClassCast))
    case _ => Err(IllegalArgument("Unknown property: " + key))
  }

  /** The text field named `key` set to `t`. */
  function WithText(p: Patron, key: string, t: Option<string>): Patron
    requires key in TextKeys
  {
    match key
    case "patronName" => p.(patronName := t)
    case "streetAddress" => p.(streetAddress := t)
    case "cityName" => p.(cityName := t)
    case "stateName" => p.(stateName := t)
    case "zipCode" => p.(zipCode := t)
    case "telephoneHome" => p.(telephoneHome := t)
    case "telephoneMobile" => p.(telephoneMobile := t)
    case "emailAddress" => p.(emailAddress := t)
    case _ => p.(contactMethod := t)
  }

  /** The setter of the text field `key`, after the cast of `value` to text. */
  function SetText(p: Patron, key: string, value: Value): Result<Patron>
    requires key in TextKeys
  {
    match AsText(value)
    case Err(e) => Err(e)
    case Ok(t) => Ok(WithText(p, key, t))
  }

  /**
   * The updates applied in map order: the patron as it stands after the last key
   * applied, and the error of the key that could not be, if any.
   */
  function ApplyAll(p: Patron, updates: seq<(string, Value)>): (Patron, Outcome)
    decreases |updates|
  {
    if updates == [] then (p, Pass)
    else match ApplyUpdate(p, updates[0].0, updates[0].1)
      case Err(e) => (p, Fail(e))
      case Ok(q) => ApplyAll(q, updates[1..])
  }

  /** `applyPartialUpdates`: the patron is updated key by key, in place. */
  method ApplyPartialUpdates(patron: Patron, updates: seq<(string, Value)>)
    returns (updated: Patron, outcome: Outcome)
    ensures (updated, outcome) == ApplyAll(patron, updates)
  {
    updated := patron;
    var i := 0;
    while i < |updates|
      invariant 0 <= i <= |updates|
      invariant ApplyAll(patron, updates) == ApplyAll(updated, updates[i..])
    {
      var (key, value) := updates[i];
      assert updates[i..][0] == (key, value) && updates[i..][1..] == updates[i + 1..];
      var r := ApplyUpdate(updated, key, value);
      if r.Err? {
        return updated, Fail(r.error);
      }
      updated := r.value;
      i := i + 1;
    }
    outcome := Pass;
  }

  /** A text key with a text or null value sets that field and nothing else. */
  lemma TextKeySetsItsField(p: Patron, key: string, value: Value)
    requires key in TextKeys && (value.TextValue? || value.NullValue?)
    ensures var r := ApplyUpdate(p, key, value);
      r.Ok? &&
      TextField(r.value, key) == AsText(value).value &&
      WithText(r.value, key, TextField(p, key)) == p &&
      r.value.patronId == p.patronId && r.value.dateOfBirth == p.dateOfBirth &&
      r.value.status == p.status && r.value.checkedOutItems == p.checkedOutItems
  {}

  /** A text key with any other kind of value fails the cast and changes nothing. */
  lemma TextKeyRejectsNonText(p: Patron, key: string, value: Value)
    requires key in TextKeys && !value.TextValue? && !value.NullValue?
    ensures ApplyUpdate(p, key, value) == Err(ClassCast)
  {}

  /** A status update takes a constant's name and rejects any other text as invalid input. */
  lemma StatusKey(p: Patron, name: string)
    ensures PatronStatusValueOf(name).Some? ==>
      ApplyUpdate(p, "status", TextValue(name)) == Ok(p.(status := PatronStatusValueOf(name).value))
    ensures PatronStatusValueOf(name).None? ==>
      ApplyUpdate(p, "status", TextValue(name)) ==
        Err(General(InvalidInput, "Invalid patron status: " + name, BadRequest))
  {}

  lemma UnknownKeyRejected(p: Patron, key: string, value: Value)
    requires key !in Keys
    ensures ApplyUpdate(p, key, value) == Err(IllegalArgument("Unknown property: " + key))
  {}

  /**
   * Updates apply left to right: a first batch that succeeds leaves its changes in
   * place for the second, and one that fails stops there with its changes kept.
   */
  lemma {:induction false} ApplyAllSplits(p: Patron, first: seq<(string, Value)>, rest: seq<(string, Value)>)
    ensures var (q, o) := ApplyAll(p, first);
      ApplyAll(p, first + rest) == (if o.Fail? then (q, o) else ApplyAll(q, rest))
    decreases |first|
  {
    if first == [] {
      assert first + rest == rest;
    } else {
      assert (first + rest)[0] == first[0];
      assert (first + rest)[1..] == first[1..] + rest;
      var r := ApplyUpdate(p, first[0].0, first[0].1);
      if r.Ok? {
        ApplyAllSplits(r.value, first[1..], rest);
      }
    }
  }

  /** After a run of successful keys, an unknown key fails with those keys applied. */
  lemma UnknownKeyKeepsEarlierKeys(p: Patron, done: seq<(string, Value)>, key: string, value: Value,
    rest: seq<(string, Value)>)
    requires ApplyAll(p, done).1 == Pass && key !in Keys
    ensures ApplyAll(p, done + [(key, value)] + rest) ==
      (ApplyAll(p, done).0, Fail(IllegalArgument("Unknown property: " + key)))
  {
    ApplyAllSplits(p, done, [(key, value)] + rest);
    assert done + [(key, value)] + rest == done + ([(key, value)] + rest);
  }

  /**
   * `applyFullUpdate`: every profile field, the status included, comes from the full
   * update; the patron's id and checked-out list stay.
   */
  function ApplyFullUpdate(p: Patron, full: Patron): (r: Patron)
    ensures r.patronId == p.patronId && r.checkedOutItems == p.checkedOutItems
    ensures r.(patronId := full.patronId, checkedOutItems := full.checkedOutItems) == full
  {
    p.(patronName := full.patronName,
       dateOfBirth := full.dateOfBirth,
       streetAddress := full.streetAddress,
       cityName := full.cityName,
       stateName := full.stateName,
       zipCode := full.zipCode,
       telephoneHome := full.telephoneHome,
       telephoneMobile := full.telephoneMobile,
       emailAddress := full.emailAddress,
       contactMethod := full.contactMethod,
       status := full.status)
  }
}
