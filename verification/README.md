# Library back end — verified model of the circulation services

This project models the service layer of a library management back end: patrons,
media (catalogue items), loans, fines, library cards and invoices kept in a document
store, and the services that check items out and in, catalogue media, issue cards,
assess and correct fines, raise invoices, notify patrons about due dates and run the
nightly overdue sweep. It also covers the utilities these services share: the
sequence-number generator with its barcodes, the check-digit calculator and the
barcode display formatter.

Layout, one module per file:

- `Common`, `Calendar`, `Model`, `Store` are the shared vocabulary.
  - `Common` holds the result and outcome types and the exception kinds with their
    HTTP statuses. It also holds Java's integer-to-text conversion and Java's
    truncating `%` and `/`.
  - `Calendar` represents dates as epoch day numbers. It converts them to civil dates
    and provides `Period.between` in whole years and ISO date text.
  - `Model` holds the entities and the enumeration names.
  - `Store` holds the store.
- The store is the class `Store.Library`, with one field per collection: patrons,
  media, loans, fines, cards, invoices, the sequence counters and the log of sent
  notifications. `Library.Snapshot()` reads all fields as one `Store.Db` value.
- Every operation that writes has two parts:
  - a transition function `XSpec(db, …)`, which returns the new store and the result;
  - a method on a `Library` that performs the same writes in the same order as the
    code. Its `ensures` ties the new state and the result to `XSpec` of the old state.
- The loops of the code become `while` loops. Their invariant says that the recursive
  specification of the whole loop equals the specification of the remaining work.
- The properties are lemmas about the transition functions.
- The remaining modules mirror one service or utility class each.

Conventions:

- A failure is a value: `Err(e)` or `Fail(e)`, where `e` carries the exception type,
  message and HTTP status of the code's `GeneralException`. Writes made before a
  failure stay in the store. `checkoutItems` and `returnItems` are marked
  `@Transactional`, but no Mongo transaction manager is configured in the
  sources modelled here, so the model does no rollback.
- A Java `null` argument or field is `None`.
- The clock (`LocalDate.now()`) and configured values (loan period, fine per day,
  overdue threshold, barcode prefixes) are parameters.

## Model

| member | source | states |
|---|---|---|
| Common.IntToString | src/main/java/com/randomlake/library/service/PatronService.java:61 | Java's decimal text of an int: a minus sign for negatives, then digits only, never empty |
| Common.NatToStringRoundTrip | src/main/java/com/randomlake/library/service/PatronService.java:61 | reading the digits back gives the number, so distinct ids give distinct messages |
| Common.JavaRem | src/main/java/com/randomlake/library/util/CheckDigitCalculator.java:28 | Java `%`: magnitude is `abs(a) mod b`, and the sign follows the dividend |
| Calendar.PeriodYearsOnAnniversary | src/main/java/com/randomlake/library/service/PatronService.java:202-204 | on an anniversary, `Period.between(...).getYears()` is exactly the difference of the years |
| Calendar.PeriodYearsBeforeAnniversary | src/main/java/com/randomlake/library/service/PatronService.java:202-204 | the day before the anniversary day of the month, one year fewer has elapsed |
| Calendar.CivilFromDays | src/main/java/com/randomlake/library/service/PatronService.java:202-204 | an epoch day maps to a proleptic Gregorian date with month 1–12 and day 1–31; the anchor lemmas below pin it to `LocalDate` |
| Calendar.CivilFromDaysEpoch | src/main/java/com/randomlake/library/service/PatronService.java:202-204 | day 0 is 1970-01-01 |
| Calendar.CivilFromDaysBeforeEpoch | src/main/java/com/randomlake/library/service/PatronService.java:202-204 | day −1 is 1969-12-31 |
| Calendar.CivilFromDaysLeapDay | src/main/java/com/randomlake/library/service/PatronService.java:202-204 | day 11016 is 2000-02-29: a year divisible by 400 is a leap year |
| Calendar.CivilFromDaysAfterLeapDay | src/main/java/com/randomlake/library/service/PatronService.java:202-204 | day 11017 is 2000-03-01 |
| Calendar.CivilFromDaysCommonCenturyFebruary | src/main/java/com/randomlake/library/service/PatronService.java:202-204 | day 47540 is 2100-02-28 |
| Calendar.CivilFromDaysCommonCenturyMarch | src/main/java/com/randomlake/library/service/PatronService.java:202-204 | day 47541 is 2100-03-01: a century year not divisible by 400 has no February 29th |
| Model.MediaStatusValueOf | src/main/java/com/randomlake/library/service/MediaUpdateService.java:73-83 | `MediaStatus.valueOf` finds the status with exactly that name, and fails only when no status has it |
| Model.PatronStatusValueOf | src/main/java/com/randomlake/library/service/PatronUpdateService.java:56-65 | `PatronStatus.valueOf` finds the status with exactly that name, and fails only when no status has it |
| Model.AsText | src/main/java/com/randomlake/library/service/PatronUpdateService.java:27-30 | the `(String)` cast succeeds exactly on text or null, and throws `ClassCastException` otherwise |
| CheckDigitCalculator.NumericValue | src/main/java/com/randomlake/library/util/CheckDigitCalculator.java:20-22 | `Character.getNumericValue` on ASCII: 0–9 for the digits, 10–35 for the Latin letters of either case, −1 for any other ASCII character |
| CheckDigitCalculator.Weight | src/main/java/com/randomlake/library/util/CheckDigitCalculator.java:17-24 | the weights cycle 2, 3, …, 7 from the rightmost character |
| CheckDigitCalculator.CheckDigit | src/main/java/com/randomlake/library/util/CheckDigitCalculator.java:14-31 | an alphanumeric string gets a check digit 0–9 |
| CheckDigitCalculator.DigitForSum | src/main/java/com/randomlake/library/util/CheckDigitCalculator.java:28-30 | for a non-negative sum the digit is 0–9, and it is 0 exactly when the sum mod 11 is 0 or 1; otherwise adding it makes the sum divisible by 11 |
| CheckDigitCalculator.CalculateCheckDigit | src/main/java/com/randomlake/library/util/CheckDigitCalculator.java:14-31 | the right-to-left loop with cycling weights 2–7 computes `CheckDigit`; a string of digits gets a digit 0–9 |
| CheckDigitCalculator.WeightedSumNonNegative | src/main/java/com/randomlake/library/util/CheckDigitCalculator.java:17-24 | alphanumeric input never gives a negative weighted sum |
| CheckDigitCalculator.LeadingZerosKeepCheckDigit | src/main/java/com/randomlake/library/util/CheckDigitCalculator.java:14-31 | zero-padding a number on the left does not change its check digit |
| CheckDigitCalculator.WeightedSumOfBlock | src/main/java/com/randomlake/library/util/CheckDigitCalculator.java:17-24 | the weights repeat every six positions, so a block whose length is a multiple of six adds its own sum |
| CheckDigitCalculator.CheckDigitExample | src/main/java/com/randomlake/library/util/CheckDigitCalculator.java:14-31 | the check digit of 1234567 is 4 |
| OutputFormatter.FormatBarcodeId | src/main/java/com/randomlake/library/util/OutputFormatter.java:19-28 | null or a length other than 14 throws "Invalid barcode ID length". Otherwise the digits come back split 1-4-8-1 by dashes, and removing the dashes gives the input; an input containing a line terminator is returned unchanged |
| OutputFormatter.DashedRoundTrip | src/main/java/com/randomlake/library/util/OutputFormatter.java:23-27 | removing the dashes undoes the formatting |
| OutputFormatter.FormatBarcodeIdGroups | src/main/java/com/randomlake/library/util/OutputFormatter.java:23-27 | the four groups are characters 1, 2–5, 6–13 and 14 |
| OutputFormatter.FormatBarcodeIdExample | src/main/java/com/randomlake/library/util/OutputFormatter.java:19-28 | 12345678901234 is shown as 1-2345-67890123-4 |
| OutputFormatter.FormatBarcodeIdLineBreak | src/main/java/com/randomlake/library/util/OutputFormatter.java:23-27 | a 14-character id containing a newline is returned unformatted |
| SequenceGenerator.PrefixForType | src/main/java/com/randomlake/library/util/SequenceGenerator.java:47-56 | card barcodes take the card prefix, and media barcodes the media prefix |
| SequenceGenerator.GenerateBarcode | src/main/java/com/randomlake/library/util/SequenceGenerator.java:38-44 | the barcode is prefix + library code + sequence number, followed by its check digit |
| SequenceGenerator.NextSequenceValue | src/main/java/com/randomlake/library/util/SequenceGenerator.java:58-73 | the named counter is raised by one (a missing counter starts at 0) and the new value is returned; when the counter store fails, nothing changes and "Failed to generate sequence value for: <name>" is raised |
| SequenceGenerator.GetNextSequenceValue | src/main/java/com/randomlake/library/util/SequenceGenerator.java:58-73 | the method performs `NextSequenceValue` on the store |
| SequenceGenerator.GetNextSequenceValueForType | src/main/java/com/randomlake/library/util/SequenceGenerator.java:75-77 | a barcode type draws from the counter named after it ("cardId", "mediaId") |
| SequenceGenerator.GetNextSequenceValueForPatron | src/main/java/com/randomlake/library/util/SequenceGenerator.java:82-84 | draws from the "patronId" counter |
| SequenceGenerator.GetNextSequenceValueForLoan | src/main/java/com/randomlake/library/util/SequenceGenerator.java:86-88 | draws from the "loanId" counter |
| SequenceGenerator.GetNextSequenceValueForFine | src/main/java/com/randomlake/library/util/SequenceGenerator.java:90-92 | draws from the "fineId" counter |
| SequenceGenerator.GetNextSequenceValueForInvoice | src/main/java/com/randomlake/library/util/SequenceGenerator.java:94-96 | draws from the "invoiceId" counter |
| SequenceGenerator.ConsecutiveDraws | src/main/java/com/randomlake/library/util/SequenceGenerator.java:58-73 | two draws in a row give consecutive numbers |
| SequenceGenerator.DrawLeavesOtherCounters | src/main/java/com/randomlake/library/util/SequenceGenerator.java:58-73 | a draw changes no other counter |
| SequenceGenerator.BarcodeDisplayGroups | src/main/java/com/randomlake/library/util/SequenceGenerator.java:38-44 | with a 1-character prefix, a 4-character library code and an 8-digit number, the displayed barcode is prefix-code-number-digit |
| SequenceGenerator.MediaBarcodeExample | src/main/java/com/randomlake/library/util/SequenceGenerator.java:38-44 | with library code 123, media 1000 gets MED12310009 |
| SequenceGenerator.MediaBarcodeDigit | src/main/java/com/randomlake/library/util/SequenceGenerator.java:38-44 | that barcode is MED1231000 followed by its check digit 9 |
| SequenceGenerator.CardBarcodeExample | src/main/java/com/randomlake/library/util/SequenceGenerator.java:38-44 | card 2000 gets CRD12320002 |
| SequenceGenerator.CardBarcodeDigit | src/main/java/com/randomlake/library/util/SequenceGenerator.java:38-44 | that barcode is CRD1232000 followed by its check digit 2 |
| SequenceGenerator.BarcodeOfDigit | src/main/java/com/randomlake/library/util/SequenceGenerator.java:38-44 | a check digit d is appended as the single character d |
| SequenceGenerator.CheckDigitOfMED1231000 | src/main/java/com/randomlake/library/util/CheckDigitCalculator.java:14-31 | the letters count 22, 14 and 13, which gives check digit 9 |
| SequenceGenerator.CheckDigitOfCRD1232000 | src/main/java/com/randomlake/library/util/CheckDigitCalculator.java:14-31 | likewise CRD1232000 gives check digit 2 |
| Store.SavePatron | src/main/java/com/randomlake/library/service/PatronService.java:224-232 | `save` stores the patron under its own patron id and changes nothing else |
| Store.SaveMedia | src/main/java/com/randomlake/library/service/MediaService.java:175-180 | `save` stores the media under its own media id and changes nothing else |
| Store.SaveLoan | src/main/java/com/randomlake/library/service/LoanService.java:112 | a loan that was read is replaced where it was read, and a new loan is appended |
| Store.FirstLoanWhere | src/main/java/com/randomlake/library/service/LoanService.java:153-157 | `findFirst…` gives the first matching loan in store order, or none when nothing matches |
| Store.LoansWhere | src/main/java/com/randomlake/library/service/LoanService.java:257-287 | a query returns exactly the matching loans; a one-loan store gives that loan or nothing |
| Store.LoansWhereAppend | src/main/java/com/randomlake/library/service/LoanService.java:257-287 | the query keeps store order: the matches of `a + b` are the matches of `a` followed by those of `b` |
| ValidationService.ValidateMediaForStatus | src/main/java/com/randomlake/library/service/ValidationService.java:26-38 | passes exactly when the media has the expected status; otherwise MEDIA_NOT_AVAILABLE "Invalid media status for action", 403 |
| ValidationService.ValidatePatronForCheckout | src/main/java/com/randomlake/library/service/ValidationService.java:40-58 | suspended → "Patron is suspended and not eligible for checkout" (checked first); a missing birth date throws NPE; otherwise passes exactly unless a minor asks for sensitive media ("Minor patrons cannot checkout sensitive media") |
| ValidationService.NonSensitiveMediaPasses | src/main/java/com/randomlake/library/service/ValidationService.java:40-58 | any active patron with a birth date may borrow non-sensitive media |
| ValidationService.AdultMayBorrowSensitive | src/main/java/com/randomlake/library/service/ValidationService.java:49-56 | on their 18th birthday a patron may borrow sensitive media |
| ValidationService.MinorRefusedSensitive | src/main/java/com/randomlake/library/service/ValidationService.java:49-56 | on their 17th birthday a patron is refused sensitive media |
| PatronUpdateService.ApplyPartialUpdates | src/main/java/com/randomlake/library/service/PatronUpdateService.java:22-72 | the loop applies the keys in order and stops at the first bad one, keeping the keys already applied (`ApplyAll`) |
| PatronUpdateService.TextKeySetsItsField | src/main/java/com/randomlake/library/service/PatronUpdateService.java:26-55 | a text key sets exactly its own field to the given text or null; putting the old value back restores the patron |
| PatronUpdateService.TextKeyRejectsNonText | src/main/java/com/randomlake/library/service/PatronUpdateService.java:26-55 | a non-text value for a text key is a `ClassCastException` |
| PatronUpdateService.StatusKey | src/main/java/com/randomlake/library/service/PatronUpdateService.java:56-65 | a status name sets the status; an unknown name gives INVALID_INPUT "Invalid patron status: <v>" |
| PatronUpdateService.UnknownKeyRejected | src/main/java/com/randomlake/library/service/PatronUpdateService.java:66-69 | any other key gives "Unknown property: <key>" |
| PatronUpdateService.ApplyAllSplits | src/main/java/com/randomlake/library/service/PatronUpdateService.java:22-72 | applying `a + b` is applying `a`, then `b` if `a` succeeded |
| PatronUpdateService.UnknownKeyKeepsEarlierKeys | src/main/java/com/randomlake/library/service/PatronUpdateService.java:22-72 | an unknown key fails the call but leaves the keys before it applied |
| PatronUpdateService.ApplyFullUpdate | src/main/java/com/randomlake/library/service/PatronUpdateService.java:75-88 | every profile field is copied, status included; the patron id and the checked-out list are kept |
| MediaUpdateService.ApplyPartialUpdates | src/main/java/com/randomlake/library/service/MediaUpdateService.java:17-90 | the loop applies the keys in order and stops at the first bad one, keeping the keys already applied (`ApplyAll`) |
| MediaUpdateService.TextKeySetsItsField | src/main/java/com/randomlake/library/service/MediaUpdateService.java:22-62 | a text key sets exactly its own field; putting the old value back restores the media |
| MediaUpdateService.NumberPagesKey | src/main/java/com/randomlake/library/service/MediaUpdateService.java:43-50 | an integer sets the page count; anything else gives "Invalid type for numberPages. Expected an Integer." |
| MediaUpdateService.AcquisitionDateKey | src/main/java/com/randomlake/library/service/MediaUpdateService.java:63-72 | a date is taken as is and a string is parsed; other types are refused |
| MediaUpdateService.StatusKey | src/main/java/com/randomlake/library/service/MediaUpdateService.java:73-83 | succeeds exactly for the name of a status; an unknown name gives "Invalid media status: <v>" and a non-string a type error |
| MediaUpdateService.UnknownKeyRejected | src/main/java/com/randomlake/library/service/MediaUpdateService.java:84-87 | any other key gives "Unknown property: <key>" |
| MediaUpdateService.ApplyAllSplits | src/main/java/com/randomlake/library/service/MediaUpdateService.java:17-90 | applying `a + b` is applying `a`, then `b` if `a` succeeded |
| MediaUpdateService.UnknownKeyKeepsEarlierKeys | src/main/java/com/randomlake/library/service/MediaUpdateService.java:17-90 | keys before an unknown key stay applied |
| MediaUpdateService.ApplyFullUpdate | src/main/java/com/randomlake/library/service/MediaUpdateService.java:92-106 | the twelve descriptive fields are copied; id, barcode, status and sensitivity are kept |
| NotificationService.MessageForDaysOffset | src/main/java/com/randomlake/library/service/NotificationService.java:129-143 | 3 → due-in-days, 0 → due-today, −5/−10 → past-due, −15 → past-due with warning, −30 → account suspended; any other offset throws "Unsupported daysOffset: <n>" |
| NotificationService.SendNotificationsForLoans | src/main/java/com/randomlake/library/service/NotificationService.java:95-126 | the nested loops append one line per CHECKED_OUT item due on the date to its patron's text (`NotificationsForLoans`) |
| NotificationService.NotifyForDueDate | src/main/java/com/randomlake/library/service/NotificationService.java:86-93 | the loans are those with such an item (`DueLoans`) |
| NotificationService.CollectMessages | src/main/java/com/randomlake/library/service/NotificationService.java:45-71 | every one of the six offsets is processed exactly once, in some order |
| NotificationService.SendAll | src/main/java/com/randomlake/library/service/NotificationService.java:72-80 | exactly one notification is sent to each patron with a text, and only the send log changes |
| NotificationService.CheckDueItemsAndNotifyPatron | src/main/java/com/randomlake/library/service/NotificationService.java:42-84 | the run never fails, sends each patron with a due item exactly one message and changes nothing but the send log |
| NotificationService.NotifyStatusChange | src/main/java/com/randomlake/library/service/NotificationService.java:168-172 | one notice "Your account status has been changed to <STATUS>.\n" is sent to the patron, and nothing else changes |
| NotificationService.NotifyPatronStatusChange | src/main/java/com/randomlake/library/service/NotificationService.java:168-172 | the method sends that notice |
| NotificationService.StatusChangeMessageNamesStatus | src/main/java/com/randomlake/library/service/NotificationService.java:168-172 | the status can be read back from the message |
| NotificationService.AddItemsKeys | src/main/java/com/randomlake/library/service/NotificationService.java:110-123 | a patron gains a text exactly when one of the loan's items is CHECKED_OUT and due on the date |
| NotificationService.AddLoansKeys | src/main/java/com/randomlake/library/service/NotificationService.java:95-126 | likewise over all loans |
| NotificationService.CollectKeys | src/main/java/com/randomlake/library/service/NotificationService.java:45-71 | whatever the order of the offsets, the run never fails, and a patron gets a text exactly when they have an active loan with an item still out due on one of today+3, today, today−5, −10, −15 or −30 |
| NotificationService.NothingDueNothingSent | src/main/java/com/randomlake/library/service/NotificationService.java:72-80 | with no loans, nobody is notified |
| NotificationService.SingleItemLoan | src/main/java/com/randomlake/library/service/NotificationService.java:110-123 | a one-item loan due on the date gives its patron one formatted line |
| NotificationService.DueSoonMessage | src/main/java/com/randomlake/library/service/NotificationService.java:145-154 | the due-in-3-days text, word for word |
| NotificationService.PastDueMessage | src/main/java/com/randomlake/library/service/NotificationService.java:145-154 | the 5-days-past-due text, word for word |
| NotificationService.AccountSuspendedMessage | src/main/java/com/randomlake/library/service/NotificationService.java:145-154 | the 30-days text with the suspension notice |
| NotificationService.DueTodayLine | src/main/java/com/randomlake/library/service/NotificationService.java:145-154 | the due-today template has no day count: heading, then the item line |
| NotificationService.DueTodayMessage | src/main/java/com/randomlake/library/service/NotificationService.java:145-154 | the due-today text, word for word |
| NotificationService.PastDueWarningMessage | src/main/java/com/randomlake/library/service/NotificationService.java:145-154 | the 15-days-past-due text with the penalty warning, word for word |
| NotificationService.FormattedCountsAgree | src/main/java/com/randomlake/library/service/NotificationService.java:145-154 | in a template with a day count, two texts with the same item fields are equal exactly when the counts are |
| NotificationService.DayCountTellsMessagesApart | src/main/java/com/randomlake/library/service/NotificationService.java:145-154 | so two messages for the same item are equal exactly when `|daysOffset|` agree |
| NotificationService.FormatMessageShowsDayCount | src/main/java/com/randomlake/library/service/NotificationService.java:145-154 | `formatMessage`, for every supported offset: the text carries `|daysOffset|` exactly when the offset is not 0, and two texts for the same item differ exactly when they carry different counts |
| NotificationService.UnknownMediaTitle | src/main/java/com/randomlake/library/service/NotificationService.java:113-115 | media that is not stored is titled "Unknown Title" |
| PatronService.GetPatronById | src/main/java/com/randomlake/library/service/PatronService.java:56-66 | the stored patron, or PATRON_NOT_FOUND "Patron not found with ID: <id>", 404 |
| PatronService.HandleNotFound | src/main/java/com/randomlake/library/service/PatronService.java:214-220 | an empty list is PATRON_NOT_FOUND with the given message; a non-empty list is returned as is |
| PatronService.IsPatronSuspended | src/main/java/com/randomlake/library/service/PatronService.java:206-211 | true exactly for a stored, SUSPENDED patron |
| PatronService.MinorOnSeventeenthBirthday | src/main/java/com/randomlake/library/service/PatronService.java:202-204 | a 17-year-old is a minor |
| PatronService.AdultOnEighteenthBirthday | src/main/java/com/randomlake/library/service/PatronService.java:202-204 | from the 18th birthday on, a patron is not a minor |
| PatronService.MinorBeforeEighteenthBirthday | src/main/java/com/randomlake/library/service/PatronService.java:202-204 | the month of the 18th birthday, before the day, still counts as a minor |
| PatronService.MinorByCalendarYears | src/main/java/com/randomlake/library/service/PatronService.java:202-204 | `isMinor`: fewer than 18 calendar years between birth and today is a minor, more than 18 an adult, whatever the month and day |
| PatronService.UpdatePatronSpec | src/main/java/com/randomlake/library/service/PatronService.java:96-117 | a missing patron is not found (404). A partial update wins: its result is `ApplyAll` of the keys, and the first bad key is the error with nothing saved. Otherwise a full update is `ApplyFullUpdate`, and with neither the stored patron is saved back unchanged. The id and checked-out list are kept and the patron is saved under its id |
| PatronService.PartialUpdateKeepsIdentity | src/main/java/com/randomlake/library/service/PatronService.java:96-117 | no sequence of keys changes the id or the checked-out list |
| PatronService.UpdatePatron | src/main/java/com/randomlake/library/service/PatronService.java:96-117 | the method performs `UpdatePatronSpec` |
| PatronService.DeletePatronSpec | src/main/java/com/randomlake/library/service/PatronService.java:120-136 | the patron is removed exactly when stored and without an ACTIVE loan; otherwise not found, or "Cannot delete patron with active loans", 409, with nothing removed |
| PatronService.DeletePatron | src/main/java/com/randomlake/library/service/PatronService.java:120-132 | the method performs `DeletePatronSpec` |
| PatronService.SuspendPatronSpec | src/main/java/com/randomlake/library/service/PatronService.java:139-159 | a stored, unsuspended patron becomes SUSPENDED and gets one status notice; an already suspended patron is refused (403), and a missing one is not found (404) |
| PatronService.SuspendPatron | src/main/java/com/randomlake/library/service/PatronService.java:139-159 | the method performs `SuspendPatronSpec` |
| PatronService.SuspendTwice | src/main/java/com/randomlake/library/service/PatronService.java:139-159 | a second suspension is refused and changes nothing |
| PatronService.AddNewPatronSpec | src/main/java/com/randomlake/library/service/PatronService.java:162-197 | a name and birth date already on file → PATRON_ALREADY_EXISTS; otherwise the patron gets the next patron number, is ACTIVE and is stored under it |
| PatronService.AddNewPatron | src/main/java/com/randomlake/library/service/PatronService.java:162-197 | the method performs `AddNewPatronSpec` |
| PatronService.AddNewPatronKeepsUnique | src/main/java/com/randomlake/library/service/PatronService.java:162-197 | registration keeps (name, birth date) unique among patrons |
| PatronService.AddNewPatronUsesFreshId | src/main/java/com/randomlake/library/service/PatronService.java:162-197 | with the counter ahead of all ids, the new id is unused and the counter stays ahead |
| PatronService.RemoveFirst | src/main/java/com/randomlake/library/service/PatronService.java:236-241 | `List.remove(Integer)` drops one occurrence: the multiset loses exactly one copy of the id |
| PatronService.RemoveFirstAt | src/main/java/com/randomlake/library/service/PatronService.java:236-241 | it is the first occurrence that is removed |
| PatronService.AfterCheckout | src/main/java/com/randomlake/library/service/PatronService.java:224-232 | the media id is appended and an INACTIVE patron becomes ACTIVE; nothing else changes |
| PatronService.AfterReturn | src/main/java/com/randomlake/library/service/PatronService.java:236-241 | only the checked-out list changes |
| PatronService.ReturnUndoesCheckout | src/main/java/com/randomlake/library/service/PatronService.java:224-241 | returning an item just checked out restores the list |
| PatronService.UpdatePatronAfterCheckout | src/main/java/com/randomlake/library/service/PatronService.java:224-232 | the updated patron is saved under its id |
| PatronService.UpdatePatronAfterReturn | src/main/java/com/randomlake/library/service/PatronService.java:236-241 | the updated patron is saved under its id |
| MediaService.GetMediaById | src/main/java/com/randomlake/library/service/MediaService.java:46-57 | the stored media, or MEDIA_NOT_FOUND "No item with this ID found in collection", 404 |
| MediaService.CheckMediaNotEmpty | src/main/java/com/randomlake/library/service/MediaService.java:166-172 | an empty result is MEDIA_NOT_FOUND with the search's message |
| MediaService.SearchMedia | src/main/java/com/randomlake/library/service/MediaService.java:59-79 | exactly the media whose title, author, publisher or ISBN equals the value; none is not found |
| MediaService.UpdateMediaPartialSpec | src/main/java/com/randomlake/library/service/MediaService.java:85-94 | no updates → "No updates provided" before the lookup; the updated media is saved only if every key applied |
| MediaService.UpdateMediaPartial | src/main/java/com/randomlake/library/service/MediaService.java:85-94 | the method performs `UpdateMediaPartialSpec` |
| MediaService.UpdateMediaFullSpec | src/main/java/com/randomlake/library/service/MediaService.java:97-106 | a null update is refused; id, barcode, status and sensitivity survive a full update |
| MediaService.UpdateMediaFull | src/main/java/com/randomlake/library/service/MediaService.java:97-106 | the method performs `UpdateMediaFullSpec` |
| MediaService.DeleteMediaSpec | src/main/java/com/randomlake/library/service/MediaService.java:109-129 | removed exactly when stored and no loan holding it has an unreturned item; otherwise "Cannot delete media with active loans or holds", 409 |
| MediaService.DeleteMedia | src/main/java/com/randomlake/library/service/MediaService.java:109-122 | the method performs `DeleteMediaSpec` |
| MediaService.DeleteBlockedBySiblingItem | src/main/java/com/randomlake/library/service/MediaService.java:124-129 | any unreturned item in a loan that holds the media blocks the deletion |
| MediaService.ValidateMedia | src/main/java/com/randomlake/library/service/MediaService.java:159-164 | passes exactly for a non-empty title; otherwise "Media title cannot be empty", 400 |
| MediaService.AddNewMediaSpec | src/main/java/com/randomlake/library/service/MediaService.java:132-157 | null → "Media object cannot be null", then the title check; otherwise the media gets the next media number, its barcode and AVAILABLE status, and today as acquisition date when it had none |
| MediaService.AddNewMedia | src/main/java/com/randomlake/library/service/MediaService.java:132-157 | the method performs `AddNewMediaSpec` |
| MediaService.AddNewMediaUsesFreshId | src/main/java/com/randomlake/library/service/MediaService.java:132-157 | the new id is unused and is the only key added |
| MediaService.CataloguedBarcodeIsChecked | src/main/java/com/randomlake/library/service/MediaService.java:141-146 | the stored barcode ends in the check digit of the rest |
| MediaService.UpdateMediaStatus | src/main/java/com/randomlake/library/service/MediaService.java:175-180 | only the status changes, and the media is saved under its id |
| FineService.ValidateMediaExists | src/main/java/com/randomlake/library/service/FineService.java:145-152 | the media, or MEDIA_NOT_FOUND "Media not found" |
| FineService.ValidatePatronExists | src/main/java/com/randomlake/library/service/FineService.java:137-143 | passes exactly for a stored patron, else PATRON_NOT_FOUND "Patron not found" |
| FineService.HasFineBeenAssessed | src/main/java/com/randomlake/library/service/FineService.java:154-158 | media checked first, then patron; then true exactly when a fine of that type exists for the pair |
| FineService.CreateFineSpec | src/main/java/com/randomlake/library/service/FineService.java:105-115 | the fine gets the next fine number and is unpaid, not waived and dated today; it is appended |
| FineService.CreateFine | src/main/java/com/randomlake/library/service/FineService.java:105-115 | the method performs `CreateFineSpec` |
| FineService.AssessFineSpec | src/main/java/com/randomlake/library/service/FineService.java:45-75 | amount ≤ 0 is refused before any lookup, and a duplicate gives FINE_ALREADY_EXISTS (409). Success appends exactly one fine; only a LOST/DAMAGED fine marks the media LOST_OR_DAMAGED |
| FineService.AssessFine | src/main/java/com/randomlake/library/service/FineService.java:45-75 | the method performs `AssessFineSpec` |
| FineService.AssessFineKeepsNoDuplicates | src/main/java/com/randomlake/library/service/FineService.java:55-60 | assessment keeps (patron, media, type) unique among fines |
| FineService.AssessFineTwice | src/main/java/com/randomlake/library/service/FineService.java:55-60 | repeating a successful assessment is refused as a duplicate |
| FineService.FindFine | src/main/java/com/randomlake/library/service/FineService.java:127-134 | the first fine with the id, or none |
| FineService.GetFineById | src/main/java/com/randomlake/library/service/FineService.java:127-134 | a stored fine with that id, or FINE_NOT_FOUND "Fine not found" |
| FineService.FinesByPatronId | src/main/java/com/randomlake/library/service/FineService.java:123-125 | exactly the patron's fines |
| FineService.UpdateFineSpec | src/main/java/com/randomlake/library/service/FineService.java:83-102 | not found or amount ≤ 0 is refused with no save; the amount is set, and type, paid and waived only when given; the fine is saved in place |
| FineService.UpdateFine | src/main/java/com/randomlake/library/service/FineService.java:83-102 | the method performs `UpdateFineSpec` |
| FineService.TotalFinesNonNegative | src/main/java/com/randomlake/library/service/FineService.java:77-80 | with positive amounts the total owed is never negative |
| FineService.TotalFinesOfOthers | src/main/java/com/randomlake/library/service/FineService.java:77-80 | other patrons' fines do not count |
| FineService.AssessFineRaisesTotal | src/main/java/com/randomlake/library/service/FineService.java:45-80 | a new fine raises the patron's total by its amount |
| FineService.WaivedFineLeavesTotal | src/main/java/com/randomlake/library/service/FineService.java:77-102 | waiving an outstanding fine lowers the total by its amount |
| FineService.CalculateTotalFines | src/main/java/com/randomlake/library/service/FineService.java:77-80 | `calculateTotalFines`: with positive fine amounts the total is never negative, and a patron with no fines owes 0 |
| CardService.FindCard | src/main/java/com/randomlake/library/service/CardService.java:44-55 | the first card with the id, or none |
| CardService.GetCardById | src/main/java/com/randomlake/library/service/CardService.java:44-55 | a stored card with that id, or CARD_NOT_FOUND "No card with this ID found in collection" |
| CardService.CardsOf | src/main/java/com/randomlake/library/service/CardService.java:57-67 | exactly the patron's cards; a one-card list gives that card or nothing |
| CardService.CardsOfAppend | src/main/java/com/randomlake/library/service/CardService.java:57-67 | the patron's cards keep list order: those of `a + b` are those of `a` followed by those of `b` |
| CardService.GetCardByPatronId | src/main/java/com/randomlake/library/service/CardService.java:57-67 | the patron's cards; none is "No card for patron with this ID found in collection" |
| CardService.FirstActive | src/main/java/com/randomlake/library/service/CardService.java:69-81 | an ACTIVE card of the list, with no ACTIVE card before it; none exactly when no card is active |
| CardService.GetActiveCardByPatronId | src/main/java/com/randomlake/library/service/CardService.java:69-81 | an ACTIVE card of the patron; fails exactly when there is none |
| CardService.UpdateCardStatusSpec | src/main/java/com/randomlake/library/service/CardService.java:85-114 | a missing card is "No card with this ID found"; LOST→ACTIVE is CARD_LOST (403) with no save; any other status is applied in place |
| CardService.UpdateCardStatus | src/main/java/com/randomlake/library/service/CardService.java:85-114 | the method performs `UpdateCardStatusSpec` |
| CardService.LostCardStaysInactive | src/main/java/com/randomlake/library/service/CardService.java:99-105 | a lost card can never become active again |
| CardService.AddNewCardSpec | src/main/java/com/randomlake/library/service/CardService.java:117-166 | missing patron, then suspended (PATRON_INELIGIBLE), then active card (CARD_ALREADY_EXISTS); otherwise an ACTIVE card with the next card number and its barcode is appended |
| CardService.AddNewCard | src/main/java/com/randomlake/library/service/CardService.java:117-166 | the method performs `AddNewCardSpec` |
| CardService.AddNewCardKeepsOneActive | src/main/java/com/randomlake/library/service/CardService.java:130-139 | issuing keeps at most one active card per patron |
| CardService.IssuedCardIsActiveCard | src/main/java/com/randomlake/library/service/CardService.java:69-81 | right after issue, the active-card lookup returns the new card |
| CardService.NoActiveBefore | src/main/java/com/randomlake/library/service/CardService.java:69-81 | no active card in a prefix means none of the patron's cards there is active |
| CardService.ActiveCardIsFirstActiveAmong | src/main/java/com/randomlake/library/service/CardService.java:69-81 | the earliest active card of the patron is the one returned |
| CardService.IssuedBarcodeIsChecked | src/main/java/com/randomlake/library/service/CardService.java:145-150 | the card barcode ends in the check digit of the rest |
| CardService.ReactivationCanDuplicateActive | src/main/java/com/randomlake/library/service/CardService.java:108-110 | re-activating an inactive card can leave a patron with two active cards |
| InvoiceService.GetInvoiceById | src/main/java/com/randomlake/library/service/InvoiceService.java:89-96 | the invoice, or INVOICE_NOT_FOUND "Invoice not found" |
| InvoiceService.InvoicesByPatronId | src/main/java/com/randomlake/library/service/InvoiceService.java:85-87 | exactly the patron's invoices |
| InvoiceService.CreateInvoiceSpec | src/main/java/com/randomlake/library/service/InvoiceService.java:38-61 | amount ≤ 0 is refused before the patron lookup, and a missing patron gives "Patron not found" (400); otherwise the next invoice number, the given fields and today |
| InvoiceService.CreateInvoice | src/main/java/com/randomlake/library/service/InvoiceService.java:38-61 | the method performs `CreateInvoiceSpec` |
| InvoiceService.CreatedInvoiceIsFound | src/main/java/com/randomlake/library/service/InvoiceService.java:38-61 | a created invoice is what the lookup then returns |
| InvoiceService.CreateInvoiceUsesFreshId | src/main/java/com/randomlake/library/service/InvoiceService.java:52-60 | creation never replaces an invoice |
| InvoiceService.UpdateInvoiceAsWritten | src/main/java/com/randomlake/library/service/InvoiceService.java:64-83 | as written: a null status or campaign throws NPE after the checks and saves nothing |
| InvoiceService.UpdateInvoiceSpec | src/main/java/com/randomlake/library/service/InvoiceService.java:64-83 | not found or amount ≤ 0 is refused; amount and patron are set, and status and campaign only when given |
| InvoiceService.UpdateInvoice | src/main/java/com/randomlake/library/service/InvoiceService.java:64-83 | the method performs `UpdateInvoiceSpec` |
| InvoiceService.NullStatusOrCampaignThrowsAsWritten | src/main/java/com/randomlake/library/service/InvoiceService.java:78-80 | the two readings differ exactly on a null status or campaign |
| InvoiceService.UpdateInvoiceAgreesWhenGiven | src/main/java/com/randomlake/library/service/InvoiceService.java:78-80 | with both given, the two readings agree |
| InvoiceService.UpdateInvoiceWithSameValues | src/main/java/com/randomlake/library/service/InvoiceService.java:64-83 | an update with the invoice's own values changes nothing |
| LoanService.MediaItems | src/main/java/com/randomlake/library/service/LoanService.java:219-236 | one entry per media, in order; an unformattable barcode fails the whole response with "Invalid barcode ID length" |
| LoanService.TransactionResponseOf | src/main/java/com/randomlake/library/service/LoanService.java:219-236 | each entry carries the media's title and status name; the message is "Item(s) checked out successfully" or "Item(s) returned successfully" |
| LoanService.CreateTransactionResponse | src/main/java/com/randomlake/library/service/LoanService.java:219-236 | the loop builds `TransactionResponseOf` |
| LoanService.CreateNewLoanSpec | src/main/java/com/randomlake/library/service/LoanService.java:159-167 | a new ACTIVE, empty loan with the next loan number, not yet saved |
| LoanService.CreateNewLoan | src/main/java/com/randomlake/library/service/LoanService.java:159-167 | the method performs `CreateNewLoanSpec` |
| LoanService.FindOrCreateActiveLoanSpec | src/main/java/com/randomlake/library/service/LoanService.java:153-157 | the patron's first ACTIVE loan with its position, else a new one; loans, patrons and media are untouched |
| LoanService.FindOrCreateActiveLoan | src/main/java/com/randomlake/library/service/LoanService.java:153-157 | the method performs `FindOrCreateActiveLoanSpec` |
| LoanService.FirstOutFor | src/main/java/com/randomlake/library/service/LoanService.java:198-203 | the first CHECKED_OUT item for the media, or none |
| LoanService.UpdateLoanWithReturn | src/main/java/com/randomlake/library/service/LoanService.java:195-217 | succeeds exactly when a CHECKED_OUT item for the media exists. It marks the first one RETURNED today, adds one RETURN log entry, and sets COMPLETED exactly when every item is returned. Otherwise "Loan item not found or already returned" |
| LoanService.ReturnAfterCheckout | src/main/java/com/randomlake/library/service/LoanService.java:169-217 | the item just added is the one a return marks |
| LoanService.CheckoutAll | src/main/java/com/randomlake/library/service/LoanService.java:97-110 | the checkout loop writes only patrons and media, and keeps the loan's id, patron and status |
| LoanService.CheckoutItemsSpec | src/main/java/com/randomlake/library/service/LoanService.java:81-116 | a null or empty list is "No media IDs provided for checkout", and a missing patron is not found, both with no write. Per item: lookup, AVAILABLE check, patron check, media then patron saved (`CheckoutAll`). The loan is saved once, after the loop, and only when the loop completed |
| LoanService.CheckoutItems | src/main/java/com/randomlake/library/service/LoanService.java:81-116 | the method, with its loop, performs `CheckoutItemsSpec` |
| LoanService.CheckoutLoop | src/main/java/com/randomlake/library/service/LoanService.java:97-110 | the loop, which returns at the first refused item, performs `CheckoutAll` and hands back the patron, the loan and the media handled |
| LoanService.AddLoanItem | src/main/java/com/randomlake/library/service/LoanService.java:169-179 | the loan gains one CHECKED_OUT item for the media, checked out today, due on the due date and not returned, after the existing items, and one CHECKOUT log entry for it; its number, patron and status are kept |
| LoanService.CheckoutAllAppends | src/main/java/com/randomlake/library/service/LoanService.java:169-179 | a completed loop adds one CHECKED_OUT item and one CHECKOUT entry per id, in order, and the ids to the patron's list |
| LoanService.CheckoutAllMarksMedia | src/main/java/com/randomlake/library/service/LoanService.java:97-110 | every media was AVAILABLE before and is CHECKED_OUT after, so the ids of a completed checkout are distinct |
| LoanService.MediaUntouchedOutsideIds | src/main/java/com/randomlake/library/service/LoanService.java:97-110 | the loop writes no other media |
| LoanService.PatronStaysKeyed | src/main/java/com/randomlake/library/service/LoanService.java:105-106 | the patron object carried through the loop is the one stored |
| LoanService.CheckoutSucceeds | src/main/java/com/randomlake/library/service/LoanService.java:81-116 | after a success, the loan at the patron's first ACTIVE position (or appended after the old loans when none was active) ends with one CHECKED_OUT item and one CHECKOUT log entry per id, in order, due today + loan period. Every id's media is CHECKED_OUT, the patron lists the ids, the ids are distinct, and the response has one entry per id |
| LoanService.FirstItemRefusedSavesNothing | src/main/java/com/randomlake/library/service/LoanService.java:97-101 | when the patron already has an ACTIVE loan, a first media that is missing or not AVAILABLE stops the checkout before any write |
| LoanService.CheckoutItemRefused | src/main/java/com/randomlake/library/service/LoanService.java:97-101 | an item is refused exactly when its media is missing, not AVAILABLE or refused to the patron; a refused patron gives the validation's own error |
| LoanService.CheckoutAllStops | src/main/java/com/randomlake/library/service/LoanService.java:97-110 | a failed loop failed at some position n: the ids before n passed, id n was refused with that error, and nothing after n ran |
| LoanService.CheckoutRefusedSavesNoLoan | src/main/java/com/randomlake/library/service/LoanService.java:81-116 | a refused checkout saves no loan (unless the response itself fails after the save); when the loop fails at position n, the store is what the first n items left |
| LoanService.ReturnAll | src/main/java/com/randomlake/library/service/LoanService.java:132-145 | the return loop replaces loans in place and touches no counter, fine or notice |
| LoanService.ReturnItemsSpec | src/main/java/com/randomlake/library/service/LoanService.java:119-150 | an empty list is "No media IDs provided for return" and a missing patron is not found. Per item: CHECKED_OUT check, active loan lookup, loan saved, media AVAILABLE, patron updated (`ReturnAll`). The response's loan id is the patron id |
| LoanService.ReturnItems | src/main/java/com/randomlake/library/service/LoanService.java:119-150 | the method, with its loop, performs `ReturnItemsSpec` |
| LoanService.ReturnItemEffects | src/main/java/com/randomlake/library/service/LoanService.java:132-145 | one returned item: its loan item is RETURNED today, the media is AVAILABLE, the patron's list loses the id once, and what earlier items recorded is kept |
| LoanService.ReturnAllKeeps | src/main/java/com/randomlake/library/service/LoanService.java:132-145 | a completed loop keeps every store key in place and keeps an earlier item's return recorded |
| LoanService.ReturnAllUpdatesPatron | src/main/java/com/randomlake/library/service/LoanService.java:132-145 | a completed loop removes the returned ids from the patron's list, one copy each, and lists one media per id |
| LoanService.ReturnAllMarks | src/main/java/com/randomlake/library/service/LoanService.java:132-145 | after a completed loop, every id has a loan item RETURNED today and its media AVAILABLE |
| LoanService.ReturnSucceeds | src/main/java/com/randomlake/library/service/LoanService.java:119-150 | after a successful return, the patron's list has lost the ids, each id has a loan item RETURNED today and its media AVAILABLE, and the response has one entry per id |
| LoanService.ReturnedItemIsRefusedByItemCheck | src/main/java/com/randomlake/library/repository/LoanRepository.java:33-36 | the loan query can select a loan whose item for the media is already returned; the item check then refuses |
| LoanService.ProcessLoanActionSpec | src/main/java/com/randomlake/library/service/LoanService.java:60-78 | a null type is "Invalid transaction type: null" with no write; CHECKOUT and RETURN dispatch |
| LoanService.ProcessLoanAction | src/main/java/com/randomlake/library/service/LoanService.java:60-78 | the method performs `ProcessLoanActionSpec` |
| LoanService.DeleteLoanByIdSpec | src/main/java/com/randomlake/library/service/LoanService.java:257-287 | an unknown number is "Loan not found with ID: <id>" (404); an unreturned item in the first such loan is "Cannot delete loan with active items" (403); otherwise every loan with the number, and only those, is removed |
| LoanService.DeleteLoanById | src/main/java/com/randomlake/library/service/LoanService.java:257-287 | the method performs `DeleteLoanByIdSpec` |
| LoanService.CompletedLoanIsDeleted | src/main/java/com/randomlake/library/service/LoanService.java:257-287 | a loan whose items are all returned can be deleted |
| OverdueProcessingService.OverdueThreshold | src/main/java/com/randomlake/library/service/OverdueProcessingService.java:47 | today minus the configured days |
| OverdueProcessingService.DaysBetween | src/main/java/com/randomlake/library/service/OverdueProcessingService.java:88 | `ChronoUnit.DAYS.between`: the number of days that takes the first date to the second |
| OverdueProcessingService.FindLoansWithOverdueItemsAsWritten | src/main/java/com/randomlake/library/repository/LoanRepository.java:43-45 | as written, the query's status "CHECKED_0UT" names no status, so it finds no loan |
| OverdueProcessingService.NothingMatches | src/main/java/com/randomlake/library/repository/LoanRepository.java:43-45 | a filter that no loan passes returns nothing |
| OverdueProcessingService.FindLoansWithOverdueItems | src/main/java/com/randomlake/library/repository/LoanRepository.java:43-45 | as intended: exactly the loans with a CHECKED_OUT item due strictly before the threshold |
| OverdueProcessingService.CalculateFineAmount | src/main/java/com/randomlake/library/service/OverdueProcessingService.java:87-90 | days from the due date to today, times the daily fine; positive once the item is past due |
| OverdueProcessingService.FineItem | src/main/java/com/randomlake/library/service/OverdueProcessingService.java:62-82 | only an overdue item without an OVERDUE_ITEM fine gets one, priced by `CalculateFineAmount`. A pass over an overdue item always leaves such a fine. With media and patron stored, no such fine yet, a positive amount and a working counter, exactly one fine is appended: the next fine number, unpaid, dated today. A duplicate reported by assessment is swallowed; other errors stop the sweep with no write |
| OverdueProcessingService.FineItems | src/main/java/com/randomlake/library/service/OverdueProcessingService.java:62-83 | the item loop only appends OVERDUE_ITEM fines for the loan's patron; patrons, loans and notices are untouched |
| OverdueProcessingService.SuspendUnlessSuspended | src/main/java/com/randomlake/library/service/OverdueProcessingService.java:55-59 | an already suspended patron is skipped; it fails only for a patron not stored, and leaves the patron suspended |
| OverdueProcessingService.SuspendIfNeeded | src/main/java/com/randomlake/library/service/OverdueProcessingService.java:55-59 | the method performs `SuspendUnlessSuspended` |
| OverdueProcessingService.FineOverdueItems | src/main/java/com/randomlake/library/service/OverdueProcessingService.java:62-83 | the inner loop performs `FineItems` |
| OverdueProcessingService.SuspendOverduePatrons | src/main/java/com/randomlake/library/service/OverdueProcessingService.java:46-85 | the method queries the overdue loans and runs the sweep over them, as `SuspendOverduePatronsSpec` |
| OverdueProcessingService.SweepOverdueLoans | src/main/java/com/randomlake/library/service/OverdueProcessingService.java:52-84 | the outer loop performs `SweepLoans`, stopping at the first error |
| OverdueProcessingService.SweepOverdueLoan | src/main/java/com/randomlake/library/service/OverdueProcessingService.java:53-83 | one pass of the outer loop performs `SweepLoan`: suspend if needed, then the item loop |
| OverdueProcessingService.SuspendOverduePatronsSpec | src/main/java/com/randomlake/library/service/OverdueProcessingService.java:46-85 | the sweep leaves loans as they are, adds and removes no patron, changes a patron only by suspending one who holds an overdue loan, and only appends OVERDUE_ITEM fines for such patrons |
| OverdueProcessingService.SweepLoanWrites | src/main/java/com/randomlake/library/service/OverdueProcessingService.java:52-84 | one pass writes only its patron's suspension and fines for that patron |
| OverdueProcessingService.SweepLoansWrites | src/main/java/com/randomlake/library/service/OverdueProcessingService.java:52-84 | the whole sweep writes only suspensions and OVERDUE_ITEM fines for patrons of the swept loans |
| OverdueProcessingService.SweepLoanSuspendsOnce | src/main/java/com/randomlake/library/service/OverdueProcessingService.java:52-59 | one pass sends at most one suspension notice, to a patron not suspended before |
| OverdueProcessingService.SweepLoansSuspendsOnce | src/main/java/com/randomlake/library/service/OverdueProcessingService.java:52-59 | over a whole sweep, each patron is suspended at most once, whatever their number of overdue loans |
| OverdueProcessingService.FineItemsKeepNoDuplicates | src/main/java/com/randomlake/library/service/OverdueProcessingService.java:62-82 | the item loop never adds a duplicate fine |
| OverdueProcessingService.SweepLoansKeepNoDuplicates | src/main/java/com/randomlake/library/service/OverdueProcessingService.java:52-84 | neither does the whole sweep |
| OverdueProcessingService.OverdueFineIsPositive | src/main/java/com/randomlake/library/service/OverdueProcessingService.java:87-90 | with threshold ≥ 0 and a positive daily fine, an overdue fine exceeds threshold × daily fine |
| OverdueProcessingService.SweepAsWrittenDoesNothing | src/main/java/com/randomlake/library/repository/LoanRepository.java:43-45 | with the query as written, the sweep changes nothing |
| OverdueProcessingService.OverdueLoanSuspendsPatron | src/main/java/com/randomlake/library/service/OverdueProcessingService.java:46-59 | with the query as intended, a completed sweep leaves every patron with an overdue loan suspended |
| OverdueProcessingService.SweepReachesLoan | src/main/java/com/randomlake/library/service/OverdueProcessingService.java:52-59 | a completed sweep has passed every loan it was given |
| OverdueProcessingService.FineItemsFines | src/main/java/com/randomlake/library/service/OverdueProcessingService.java:62-71 | a completed item loop leaves an OVERDUE_ITEM fine of the patron for every overdue item |
| OverdueProcessingService.SweepLoansFines | src/main/java/com/randomlake/library/service/OverdueProcessingService.java:52-84 | a completed sweep leaves such a fine for every overdue item of every loan it passed; fines are only appended, so later passes keep it |
| OverdueProcessingService.OverdueItemsAreFined | src/main/java/com/randomlake/library/service/OverdueProcessingService.java:46-84 | with the query as intended, a completed sweep leaves an OVERDUE_ITEM fine, charged to the loan's patron, for every overdue item of every stored loan |
| OverdueProcessingService.ThirtyFiveDaysOverdue | src/main/java/com/randomlake/library/service/OverdueProcessingService.java:46-90 | with a 30-day threshold and 5 per day, one item 35 days overdue and not yet fined ends with the patron suspended and exactly one new fine, of 175 |

## Left out

- Controllers, security and authentication, e-mail delivery, mappers and DTOs are not modelled. A sent notification is one entry in the store's send log; the e-mail sender's own lookup of the address is not modelled.
- Repository queries are filters over the store. Mongo `_id` identity is the position of a loan, fine or card in its sequence; patrons, media and invoices are keyed by their business id.
- The listing endpoints are not modelled: `getAll*`, the patron searches by name, birth date, telephone and e-mail, `findLoansByPatronId` and `findLoansByMediaId`. Neither are the report queries (`getReportLoanPatronMedia`, `getReportCardPatron`). They are repository reads without service logic beyond `HandleNotFound`, which is modelled.
- Timestamps (`createdAt`, `lastUpdateDate`, `transactionDate` set at save time) and logging are not modelled.
- Java `int` overflow is not modelled: counters, fine amounts and `daysOverdue * finePerDay` are unbounded integers.
- `calculateTotalFines` returns a `double` in the code; the model sums integers.
- The order in which a `HashMap`/`Map.of` is iterated is unspecified in Java. The notification run picks it with `:|` and reports it as a ghost output.
- `LocalDate.parse` is a parameter `parseDate` of the media update; its date grammar is not modelled.
- Transactions, concurrency and `@Scheduled` triggering are not modelled. Because of this, the `FINE_ALREADY_EXISTS` branch of the sweep is modelled but cannot be reached: the sweep checks for a fine just before assessing one.
- Loans are values. In the code, the `Loan` object read by a checkout is updated in memory and saved once after the loop; the model carries that value through the loop and saves it at the position it was read from, which is the same effect.
- CardService.UpdateCardStatusSpec: applies any status as given, as the code does. It does not keep "at most one active card per patron"; `ReactivationCanDuplicateActive` shows the gap.
- LoanService.CheckoutSucceeds: requires every patron and media to be stored under its own id (`WellKeyed`), which the save operations maintain but the model does not prove for the whole store.
- LoanService.ReturnSucceeds: requires `WellKeyed` in the same way.
- CivilFromDays: agreement with `LocalDate.ofEpochDay` is proved only for the month and day ranges and for the anchor days above (the epoch, a 400-year leap day, a skipped century leap day), not for every day.
- NumericValue: covers ASCII only. `Character.getNumericValue` also gives values to non-ASCII digits, fullwidth letters and numeric symbols such as Roman numerals; the model gives them −1.
- FormatBarcodeId: the length check counts characters, where Java's `length()` counts UTF-16 code units, so an id with a character outside the Basic Multilingual Plane has a different length in the two.
- FirstLoanWhere: takes the first match in store order, which is what `findFirstByPatronIdAndStatus` does. Where it stands for the single-result queries `findActiveByPatronIdAndMediaId` and `findByLoanId`, Spring would throw when several loans match; that case is not modelled.
- FindFine: returns the first fine with the id, in store order. `findByFineId` is a single-result query (FineRepository.java:25), and Spring would throw when two stored fines share an id. So `GetFineById` and `UpdateFineSpec` act on the first such fine where the code throws. Fine ids come from the "fineId" counter, so only a store filled outside these services can hold such a pair.
- FindCard: the same for cards. `findByCardId` (CardRepository.java:12) would throw when two stored cards share an id, while `GetCardById` and `UpdateCardStatusSpec` act on the first one. Card ids come from the card counter.

## Findings

| source | as written | input that shows it | evidently intended | confidence | as-written member | corrected member |
|---|---|---|---|---|---|---|
| src/main/java/com/randomlake/library/service/InvoiceService.java:78-80 | `Optional.of(status)` and `Optional.of(campaign)` throw a `NullPointerException` on null, so the "if provided" branch never sees a missing value | `updateInvoice(id, patron, 50, null, "PAID")` on an existing invoice | `Optional.ofNullable`: a null status or campaign keeps the stored value | high (not executed) | InvoiceService.UpdateInvoiceAsWritten, InvoiceService.NullStatusOrCampaignThrowsAsWritten | InvoiceService.UpdateInvoiceSpec, InvoiceService.UpdateInvoiceWithSameValues |
| src/main/java/com/randomlake/library/repository/LoanRepository.java:44 | the overdue query matches status `'CHECKED_0UT'` (digit zero), which no item ever has | any loan with a CHECKED_OUT item due before the threshold: the query returns no loans, and the sweep suspends and fines no one | `'CHECKED_OUT'`, as in the count query at line 50 | high (not executed) | OverdueProcessingService.FindLoansWithOverdueItemsAsWritten, OverdueProcessingService.SweepAsWrittenDoesNothing | OverdueProcessingService.FindLoansWithOverdueItems, OverdueProcessingService.OverdueLoanSuspendsPatron, OverdueProcessingService.OverdueItemsAreFined |
