/**
 * Eligibility checks run before a circulation action: the media must be in the status
 * the action expects, and the patron must not be suspended nor a minor borrowing
 * sensitive media. Neither check changes anything.
 */
module ValidationService {
  import opened Common
  import opened Calendar
  import opened Model
  import PatronService

  /** `validateMediaForStatus`. */
  function ValidateMediaForStatus(media: Media, expectedStatus: MediaStatus): (r: Outcome)
    ensures r == Pass <==> media.status == expectedStatus
    ensures r.Fail? ==> r.error == General(MediaNotAvailable, "Invalid media status for action", Forbidden)
  {
    if media.status != expectedStatus then
      Fail(General(MediaNotAvailable, "Invalid media status for action", Forbidden))
    else Pass
  }

  /**
   * `validatePatronForCheckout`: suspension is checked first; then the minor test, which
   * needs a date of birth (a null one throws before sensitivity is looked at).
   */
  function ValidatePatronForCheckout(patron: Patron, media: Media, today: Day): (r: Outcome)
    ensures patron.status == Suspended ==>
      r == Fail(General(PatronIneligible, "Patron is suspended and not eligible for checkout", Forbidden))
    ensures patron.status != Suspended && patron.dateOfBirth.None? ==> r == Fail(NullPointer)
    ensures patron.status != Suspended && patron.dateOfBirth.Some? ==>
      (r == Pass <==> !(PatronService.IsMinor(patron.dateOfBirth.value, today) && media.isSensitive))
    ensures patron.status != Suspended && patron.dateOfBirth.Some? && r.Fail? ==>
      r.error == General(PatronIneligible, "Minor patrons cannot checkout sensitive media", Forbidden)
  {
    if patron.status == Suspended then
      Fail(General(PatronIneligible, "Patron is suspended and not eligible for checkout", Forbidden))
    else if patron.dateOfBirth.None? then
      Fail(NullPointer)
    else if PatronService.IsMinor(patron.dateOfBirth.value, today) && media.isSensitive then
      Fail(General(PatronIneligible, "Minor patrons cannot checkout sensitive media", Forbidden))
    else Pass
  }

  /** Only sensitive media can be refused to a minor: anything else passes for a non-suspended patron. */
  lemma NonSensitiveMediaPasses(patron: Patron, media: Media, today: Day)
    requires patron.status != Suspended && patron.dateOfBirth.Some? && !media.isSensitive
    ensures ValidatePatronForCheckout(patron, media, today) == Pass
  {}

  /** An adult on or after the 18th birthday may borrow sensitive media. */
  lemma AdultMayBorrowSensitive(patron: Patron, media: Media, today: Day)
    requires patron.status != Suspended && patron.dateOfBirth.Some?
    requires var b, t := CivilFromDays(patron.dateOfBirth.value), CivilFromDays(today);
      t.month == b.month && t.day == b.day && t.year == b.year + 18
    ensures ValidatePatronForCheckout(patron, media, today) == Pass
  {
    PatronService.AdultOnEighteenthBirthday(patron.dateOfBirth.value, today);
  }

  /** A patron on the 17th birthday is refused sensitive media. */
  lemma MinorRefusedSensitive(patron: Patron, media: Media, today: Day)
    requires patron.status != Suspended && patron.dateOfBirth.Some? && media.isSensitive
    requires var b, t := CivilFromDays(patron.dateOfBirth.value), CivilFromDays(today);
      t.month == b.month && t.day == b.day && t.year == b.year + 17
    ensures ValidatePatronForCheckout(patron, media, today)
      == Fail(General(PatronIneligible, "Minor patrons cannot checkout sensitive media", Forbidden))
  {
    PatronService.MinorOnSeventeenthBirthday(patron.dateOfBirth.value, today);
  }
}
