# Wallet ledger and dump codec, modelled in Dafny

This project models the core of the Go `wallet` package: the in-memory
ledger `Service` of pkg/wallet/service.go and its records from
pkg/types/types.go. The ledger holds an ID counter, accounts, payments and
favorite payments. The package also writes and reads the ledger as plain
text dumps.

The model has seven modules, one per file:

- `Types` (types.dfy): the `Account`, `Payment` and `Favorite` records, and
  the status strings `OK`, `FAIL` and `INPROGRESS`. It also holds the six
  error values plus the two `strconv` parse errors, the result wrappers,
  and `DumpFile`, a (name, contents) pair written by the codec.
- `Decimal` (decimal.dfy): `strconv.FormatInt(n, 10)` and
  `strconv.ParseInt(s, 10, 64)`. On a syntax error the value is 0. On a
  range error the value is clamped to the int64 bounds.
- `Text` (text.dfy): `strings.Split`, `Join`, `TrimSpace` and `TrimSuffix`
  for one-character separators, with `unicode.IsSpace`'s set of white
  space.
- `Ledger` (ledger.dfy): the ledger rules as pure functions on a `Store`
  value, with these results proved about them:
  - the invariant `Valid`: IDs run from 1 up, phones are unique, balances
    are never negative, and record IDs are unique;
  - Pay followed by Reject restores every balance;
  - rejecting twice credits twice;
  - a repeat copies the original payment;
  - paying from a favorite equals repeating the payment it came from.
- `Aggregation` (aggregation.dfy): the goroutine chunks of `SumPayments`
  and `FilterPayments` are disjoint and cover every index. Merging the
  per-goroutine results in any completion order gives the full total, and
  the full filter up to order.
- `Codec` (codec.dfy): the line formats, the `accounts.dump`,
  `payments.dump` and `favorites.dump` sections, the `'|'`-joined single
  file, the import scan, and the numbered history batches. Proved:
  - each line reads back to its record;
  - a dump reads back to its records;
  - Export into an empty directory followed by Import into a zero service
    reproduces the records;
  - the single file round-trips;
  - the history batches hold `records` lines each and concatenate to all
    lines.
- `Wallet` (service.dfy): class `Service` with the four fields of the Go
  struct. Every Go method is a Dafny method with the same lookups, loops
  and early returns. Each is proved to leave the object in the state the
  `Ledger` or `Codec` function describes, through `Snapshot()`.

Inputs that come from outside the program become parameters:

- The fresh IDs that `uuid.New()` produces become a parameter required not
  to be in use.
- A directory becomes a `map` from file name to contents. A missing file is
  a missing key.
- The order in which the aggregation goroutines finish becomes a
  permutation parameter `order`.

The source panics in three cases:

- a row has too few fields;
- the single file is empty;
- `records == 0` in `HistoryToFiles`.

The model turns these into preconditions and states them exactly:

- `Codec.ScanLines` (stated by `Codec.ScanLinesRecords`) reports `IndexOutOfRange` at the line where Go would
  index past the fields.
- `Import` requires that no section stops there.

`HistoryToFiles` with a negative `records` does not panic in Go. The
`len(payments) <= records` test fails, so the code takes the batch branch,
with Go's truncating `/` and `%`. The model follows the code
(`Codec.GoQuo`, `Codec.GoRem`, `Codec.BatchNumber`): only `records == 0` is
excluded, and the file numbers then run 1, 0, -1, …

## Model

| member | source | states |
|---|---|---|
| Ledger.AccountIndex | pkg/wallet/service.go:55-62 | Some exactly when an account has the ID; then the position of the first such account, the one the early-return scan finds |
| Ledger.PaymentIndex | pkg/wallet/service.go:121-128 | Some exactly when a payment has the ID; then the first such position |
| Ledger.FavoriteIndex | pkg/wallet/service.go:177-185 | Some exactly when a favorite has the ID; then the first such position |
| Ledger.Credit | pkg/wallet/service.go:82 | only account k changes, and only its balance, by delta; the list keeps its length |
| Ledger.RegisterAccount | pkg/wallet/service.go:36-52 | a phone already present gives ErrPhoneRegistered and no change; otherwise the counter rises by one and exactly one account is appended, with the new counter as ID, that phone and balance 0; payments and favorites unchanged |
| Ledger.Deposit | pkg/wallet/service.go:65-84 | amount <= 0 gives ErrAmountMustBePositive before any lookup, an unknown account gives ErrAccountNotFound, both with no change; otherwise only that account's balance rises, by exactly amount |
| Ledger.Pay | pkg/wallet/service.go:87-118 | errors in the order amount <= 0, unknown account, balance < amount, each with no change; on success exactly amount is debited from that one account (its balance stays >= 0) and one INPROGRESS payment with the given account, amount, category and fresh ID is appended |
| Ledger.Reject | pkg/wallet/service.go:131-144 | unknown payment gives ErrPaymentNotFound, unknown owner ErrAccountNotFound, both with no change; otherwise the payment becomes FAIL and the owner's balance rises by its amount, whatever its prior status |
| Ledger.FavoritePayment | pkg/wallet/service.go:157-174 | unknown payment gives ErrPaymentNotFound and no change; otherwise one favorite copying the payment's account, amount and category plus the name is appended, accounts and payments untouched |
| Ledger.Repeat | pkg/wallet/service.go:147-154 | unknown payment gives ErrPaymentNotFound and no change; otherwise Pay's checks on the stored payment's account and amount, in Pay's order and with no change on refusal, and when they pass an INPROGRESS payment with the stored account, amount and category under the new ID is appended and exactly that amount debited from that one account |
| Ledger.PayFromFavorite | pkg/wallet/service.go:188-195 | unknown favorite gives ErrFavoriteNotFound and no change; otherwise Pay's checks on the favorite's account and amount, in Pay's order and with no change on refusal, and when they pass an INPROGRESS payment with the favorite's account, amount and category under the new ID is appended and exactly that amount debited from that one account |
| Ledger.Valid | pkg/wallet/service.go:87-118 | in a ledger that keeps the invariant, the account of every payment and of every favorite is found by the ID lookup, at position ID − 1 |
| Ledger.EmptyValid | pkg/wallet/service.go:28-33 | the zero-value service satisfies the ledger invariant |
| Ledger.ValidAccountIndex | pkg/wallet/service.go:43-49 | under the invariant an account with an ID exists exactly when 1 <= ID <= number of accounts, at position ID - 1 |
| Ledger.RegisterKeepsValid | pkg/wallet/service.go:36-52 | registering keeps the invariant (counter equals the number of accounts, IDs 1, 2, …, unique phones, non-negative balances, unique payment and favorite IDs, payments and favorites of existing accounts with positive amounts); a new account gets ID count + 1 |
| Ledger.DepositKeepsValid | pkg/wallet/service.go:65-84 | a deposit keeps the invariant |
| Ledger.PayKeepsValid | pkg/wallet/service.go:87-118 | a payment keeps the invariant, in particular no balance goes negative |
| Ledger.RejectKeepsValid | pkg/wallet/service.go:131-144 | a reject keeps the invariant |
| Ledger.FavoriteKeepsValid | pkg/wallet/service.go:157-174 | making a favorite keeps the invariant |
| Ledger.RepeatKeepsValid | pkg/wallet/service.go:147-154 | a repeat keeps the invariant |
| Ledger.PayFromFavoriteKeepsValid | pkg/wallet/service.go:188-195 | paying from a favorite keeps the invariant |
| Ledger.PayThenRejectRestoresBalances | pkg/wallet/service.go:87-144 | rejecting a payment just made succeeds and restores every account exactly; the only trace is the appended payment, now FAIL |
| Ledger.RejectTwiceCreditsTwice | pkg/wallet/service.go:131-144 | a second reject of the same payment succeeds again and the owner ends up credited twice the amount |
| Ledger.RepeatCopies | pkg/wallet/service.go:147-154 | a successful repeat found the original, appends a copy with the new ID and status INPROGRESS, and debits the owner by its amount; favorites and the counter are unchanged |
| Ledger.RepeatIsPay | pkg/wallet/service.go:147-154 | repeating a known payment is exactly Pay on the stored payment's account, amount and category, so every result and error of Pay passes through unchanged |
| Ledger.PayFromFavoriteIsPay | pkg/wallet/service.go:188-195 | paying from a known favorite is exactly Pay on the favorite's account, amount and category, so every result and error of Pay passes through unchanged |
| Ledger.RepeatRefusals | pkg/wallet/service.go:147-154 | repeating a known payment refuses exactly as Pay does on its account and amount: ErrAmountMustBePositive, then ErrAccountNotFound, then ErrNotEnoughBalance, each with no change |
| Ledger.PayFromFavoriteRefusals | pkg/wallet/service.go:188-195 | paying from a known favorite refuses exactly as Pay does on its account and amount, in the same order, with no change |
| Ledger.PayFromFavoriteCopies | pkg/wallet/service.go:188-195 | a successful payment from a favorite appends an INPROGRESS payment with the favorite's account, amount and category under the new ID, debits that account by the amount, and leaves the favorites and the counter as they were |
| Ledger.FavoriteThenPayIsRepeat | pkg/wallet/service.go:157-195 | paying from a favorite just made from a payment returns the same result and leaves the same accounts and payments as repeating that payment |
| Ledger.RegisterAllConsecutive | pkg/wallet/service.go:36-52 | registering distinct fresh phones one after another yields consecutive IDs counter + 1, counter + 2, … and advances the counter by their number |
| Aggregation.OfAccount | pkg/wallet/service.go:544-549 | no longer than the input; every element belongs to the account and comes from the input |
| Aggregation.OfAccountMembers | pkg/wallet/service.go:544-549 | a payment is in the filter exactly when it is in the input and belongs to the account |
| Aggregation.OfAccountCount | pkg/wallet/service.go:692-694 | each payment of the account occurs in the filter as often as in the input, any other payment not at all |
| Aggregation.OfAccountPermutation | pkg/wallet/service.go:683-698 | filtering two permutations of each other gives permutations of each other |
| Aggregation.AppendAggregates | pkg/wallet/service.go:652 | sum and filter of a concatenation are the sum and concatenation of the parts' results, which is what merging a goroutine's partial result does |
| Aggregation.Total | pkg/wallet/service.go:644-649 | the total of a single payment is its amount (TotalNonNegative, AppendAggregates and PickedAddTotal state the rest) |
| Aggregation.TotalNonNegative | pkg/wallet/service.go:644-649 | payments with no negative amount add up to a total that is not negative |
| Aggregation.Slice | pkg/wallet/service.go:641-649 | goroutine k covers at most num payments: all num when its range lies inside the list, none when it starts at or past the end, and its i-th payment is payment k·num + i |
| Aggregation.SliceStep | pkg/wallet/service.go:644-649 | taking index j into a goroutine's range adds that payment's amount to its total, and appends the payment to its filtered part exactly when it belongs to the account |
| Aggregation.Workers | pkg/wallet/service.go:624-626 | a goroutine count below 1 becomes 1, any other is kept |
| Aggregation.ChunkSize | pkg/wallet/service.go:631 | the per-goroutine range length len / g + 1 is at least 1 |
| Aggregation.PickedSlice | pkg/wallet/service.go:641-649 | the payments whose index j has j / num == k are exactly those in goroutine k's range [k*num, k*num + num) clipped to the list |
| Aggregation.PickedAddTotal | pkg/wallet/service.go:639-653 | adding one more goroutine's range adds exactly its payments' total: ranges do not overlap |
| Aggregation.PickedAddMultiset | pkg/wallet/service.go:683-699 | adding one more goroutine's range adds exactly its payments as a multiset |
| Aggregation.ChunksCover | pkg/wallet/service.go:631-634 | every index below len lies in the range of a goroutine numbered below g |
| Aggregation.PickedEverything | pkg/wallet/service.go:634-654 | when every index's range belongs to a finished goroutine, all payments are picked, in order |
| Aggregation.StartOrderIsSchedule | pkg/wallet/service.go:634-654 | goroutines finishing in start order is one admissible completion order |
| Aggregation.FinishedStep | pkg/wallet/service.go:650-652 | each completion adds one goroutine not finished before |
| Aggregation.CollectedPicked | pkg/wallet/service.go:650-652 | after t completions the merged result has the same total and the same payments as the ranges of the finished goroutines |
| Aggregation.CollectedFromList | pkg/wallet/service.go:650-652 | every merged payment comes from the service's payment list |
| Aggregation.CollectedStep | pkg/wallet/service.go:650-652 | merging one more goroutine adds its chunk's total to the sum and appends its filtered chunk to the result |
| Aggregation.AllWorkersCollected | pkg/wallet/service.go:622-704 | for every completion order, the merged result has the total of all payments and is a permutation of them |
| Aggregation.AllWorkersFiltered | pkg/wallet/service.go:677-703 | once every goroutine has merged, in any completion order, the filtered result holds exactly the account's payments, up to order |
| Aggregation.AllWorkersDone | pkg/wallet/service.go:634-656 | the ranges of all goroutines together hold every payment exactly once, in order |
| Decimal.FormatNatValue | pkg/wallet/service.go:304-306 | reading back the digits of a natural number gives the number |
| Decimal.FormatInt | pkg/wallet/service.go:304-306 | never empty; a leading minus sign exactly for negative numbers, digits otherwise |
| Decimal.FormatIntAvoids | pkg/wallet/service.go:304-306 | a number's text holds no character other than digits and the minus sign |
| Decimal.DigitPrefix | pkg/wallet/service.go:394 | the longest run of leading digits |
| Decimal.ParseInt | pkg/wallet/service.go:394-404 | success only on an optional sign followed by digits and only within int64; a range error carries the clamped bound; the empty string is a syntax error |
| Decimal.ParseFormat | pkg/wallet/service.go:304-306 | every int64 value parses back from its text |
| Text.Split | pkg/wallet/service.go:383 | never an empty list |
| Text.SplitPieces | pkg/wallet/service.go:266 | no piece holds the separator, and joining the pieces gives the text back |
| Text.SplitJoin | pkg/wallet/service.go:266-271 | splitting undoes joining when no part holds the separator |
| Text.Join | pkg/wallet/service.go:213-221 | the first part is a prefix of the result, the separator occurs once there are two parts or more, and each separator adds a character |
| Text.JoinAvoids | pkg/wallet/service.go:213-221 | a character that is neither the separator nor in a part is not in the joined text |
| Text.TerminatedIsJoined | pkg/wallet/service.go:302-309 | a newline-terminated dump is the joined lines plus one newline |
| Text.JoinSnocTerminated | pkg/wallet/service.go:219-221 | the buffer after the accounts, with the final separator cut, is the accounts joined by the separator |
| Text.TerminatedSnoc | pkg/wallet/service.go:308 | appending one line and a newline to a buffer extends the terminated list by that line |
| Text.TerminatedAppend | pkg/wallet/service.go:604-614 | the buffers of consecutive batches concatenate to the buffer of all their lines |
| Text.TrimLeft | pkg/wallet/service.go:381 | a suffix of the text; the part cut off is all white space and the rest does not start with white space |
| Text.TrimRight | pkg/wallet/service.go:381 | a prefix of the text; the part cut off is all white space and the rest does not end with white space |
| Text.TrimSpace | pkg/wallet/service.go:381 | the result is no longer than the input, neither starts nor ends with white space, is the input itself when its ends are not white space, and is empty for an all-white-space input |
| Text.TrimSuffix | pkg/wallet/service.go:221 | when the text ends with the suffix, the text with the suffix taken off its end; otherwise the text itself |
| Text.TrimSpaceNewline | pkg/wallet/service.go:380-381 | trimming a line plus newline gives the line, when the line neither starts nor ends with white space |
| Codec.ExportDir | pkg/wallet/service.go:293-363 | the files afterwards are those before plus one dump per non-empty collection, holding one line per record; an empty collection writes no file, and every other file is left as it was |
| Codec.ParseAccountLine | pkg/wallet/service.go:391-404 | a bad ID fails with its parse error (syntax or range); a good ID with fewer than three fields is exactly where Go indexes out of range; a parsed account has the phone field as written and int64 ID and balance |
| Codec.ParsePaymentLine | pkg/wallet/service.go:440-455 | fewer than two fields indexes out of range and five or more never does; a bad account ID fails with its parse error; a parsed payment takes fields 0, 3 and 4 as ID, category and status, with int64 account ID and amount |
| Codec.ParseFavoriteLine | pkg/wallet/service.go:494-509 | fewer than two fields indexes out of range and five or more never does; a bad account ID fails with its parse error; a parsed favorite takes fields 0, 2 and 4 as ID, name and category, with int64 account ID and amount |
| Codec.ScanLinesRecords | pkg/wallet/service.go:386-420 | the j-th imported record is what the j-th line parses to, every such line non-empty; the scan stops at the first line that is empty (no error), too short (index out of range) or malformed (that line's parse error), and ends without error when every line is read |
| Codec.ScanStep | pkg/wallet/service.go:386-404 | a non-empty line that parses contributes its record before the rest; a bad number stops the scan with that error; too few fields stops it where Go indexes out of range |
| Codec.ScanEnd | pkg/wallet/service.go:386-390 | the scan ends without error at an empty line or at the end of the lines |
| Codec.FormatIntIsPlain | pkg/wallet/service.go:304-306 | a number's text holds no field, line or segment separator and neither starts nor ends with white space |
| Codec.FieldsLineSafe | pkg/wallet/service.go:303-306 | a line of plain fields is non-empty, holds no newline and survives trimming |
| Codec.AccountLine | pkg/wallet/service.go:303-306 | a phone without ';' splits back into ID, phone and balance, and a phone without a newline gives a line without one |
| Codec.PaymentLine | pkg/wallet/service.go:323-328 | text fields without ';' split back into ID, account ID, amount, category and status, and text fields without a newline give a line without one |
| Codec.FavoriteLine | pkg/wallet/service.go:345-350 | text fields without ';' split back into ID, account ID, name, amount and category, and text fields without a newline give a line without one |
| Codec.AccountLineRoundTrip | pkg/wallet/service.go:304-306 | an exportable account's line survives trimming and parses back to the account (read at lines 391-404) |
| Codec.PaymentLineRoundTrip | pkg/wallet/service.go:323-328 | an exportable payment's line survives trimming and parses back to the payment (read at lines 440-455) |
| Codec.FavoriteLineRoundTrip | pkg/wallet/service.go:345-350 | an exportable favorite's line survives trimming and parses back to the favorite (read at lines 494-509) |
| Codec.DumpLinesOfDump | pkg/wallet/service.go:380-383 | trimming and splitting a dump of safe lines gives back exactly those lines |
| Codec.ScanEncoded | pkg/wallet/service.go:386-420 | scanning the lines of records that each parse back yields all the records and ends without error |
| Codec.UpsertAccount | pkg/wallet/service.go:406-419 | importing an account leaves payments and favorites untouched |
| Codec.UpsertAccountLookup | pkg/wallet/service.go:406-419 | after importing an account the ID lookup finds exactly it and every other account is unchanged; a known ID keeps the length and counter, a new one is appended and advances the counter by one |
| Codec.UpsertPayment | pkg/wallet/service.go:457-473 | importing a payment leaves the counter, accounts and favorites untouched |
| Codec.UpsertPaymentLookup | pkg/wallet/service.go:457-473 | after importing a payment the ID lookup finds exactly it and every other payment is unchanged; a known ID keeps the length, a new one is appended |
| Codec.UpsertFavorite | pkg/wallet/service.go:511-527 | importing a favorite leaves the counter, accounts and payments untouched |
| Codec.UpsertFavoriteLookup | pkg/wallet/service.go:511-527 | after importing a favorite the ID lookup finds exactly it and every other favorite is unchanged; a known ID keeps the length, a new one is appended |
| Codec.UpsertNewAccounts | pkg/wallet/service.go:406-419 | importing accounts with new distinct IDs appends them in order and advances the counter once per account |
| Codec.UpsertNewPayments | pkg/wallet/service.go:457-473 | importing payments with new distinct IDs appends them in order |
| Codec.UpsertNewFavorites | pkg/wallet/service.go:511-527 | importing favorites with new distinct IDs appends them in order |
| Codec.AccountsSectionRoundTrip | pkg/wallet/service.go:376-423 | the accounts section of an export scans back to exactly the accounts, also when there are none |
| Codec.PaymentsSectionRoundTrip | pkg/wallet/service.go:425-477 | the payments section of an export scans back to exactly the payments, also when there are none |
| Codec.FavoritesSectionRoundTrip | pkg/wallet/service.go:479-531 | the favorites section of an export scans back to exactly the favorites, also when there are none |
| Codec.ExportedFiles | pkg/wallet/service.go:299-360 | exporting into an empty directory writes a section's file exactly when that collection is non-empty, holding its dump |
| Codec.ExportedSections | pkg/wallet/service.go:293-534 | every section exported into an empty directory scans back to its records, and Import reads it without indexing out of range |
| Codec.UpsertAllNew | pkg/wallet/service.go:376-531 | importing records with distinct IDs into a zero service yields exactly those records, with the counter at the number of accounts |
| Codec.ImportDir | pkg/wallet/service.go:366-534 | Import succeeds exactly when no section stops at a malformed line; a failure in accounts leaves payments and favorites as they were, one in payments leaves favorites; every failure is a syntax or range error |
| Codec.ExportImportRoundTrip | pkg/wallet/service.go:293-534 | for records that are exportable (no ';' or newline in a text field, numbers in int64, no white space at the file edges that Import trims) and accounts, payments and favorites each with distinct IDs, Export into an empty directory then Import into a zero service succeeds and reproduces the accounts, payments and favorites in order, the counter at the number of accounts |
| Codec.ValidExportImportRoundTrip | pkg/wallet/service.go:293-534 | for a ledger satisfying the invariant, Export then Import into a zero service reproduces the whole state |
| Codec.SingleFileText | pkg/wallet/service.go:211-221 | with at least one account and no '|' in any phone, splitting the file at '|' gives the account lines in order |
| Codec.SingleFileAccounts | pkg/wallet/service.go:266-288 | one account per segment between vertical bars |
| Codec.SingleFileAccountAt | pkg/wallet/service.go:271-285 | the i-th imported account has the ID, phone and balance read from the fields of the i-th segment |
| Codec.AccountSegmentRoundTrip | pkg/wallet/service.go:213-217 | the line of an exportable account without a vertical bar in its phone is one segment that reads back as the account (read at lines 271-284) |
| Codec.SingleFileRoundTrip | pkg/wallet/service.go:198-290 | for a non-empty list of such accounts the written text is readable and reads back to the same accounts |
| Codec.EmptySingleFileUnreadable | pkg/wallet/service.go:211-276 | with no accounts the text written is empty, and reading the empty text indexes past its fields |
| Codec.GoDivisionOfNat | pkg/wallet/service.go:606-608 | Go's truncating quotient and remainder of a non-negative index by a non-zero records |
| Codec.BatchArithmetic | pkg/wallet/service.go:606-608 | inside block k the flush test fires exactly at the block's last index, and the file number (i / records) + 1 is the block's number |
| Codec.Batches | pkg/wallet/service.go:594-617 | there are no batch files exactly when there are no lines, never more files than lines, and file j is named with the Go batch number of batch k + j |
| Codec.BatchStep | pkg/wallet/service.go:595-616 | one flush writes the block's lines, newline-terminated, under the block's number, and the rest continues with the next number |
| Codec.BatchLoopStart | pkg/wallet/service.go:574 | the batch loop's invariant holds before the first payment |
| Codec.BatchLoopStep | pkg/wallet/service.go:595-616 | one iteration, flushing or not, keeps the batch loop's invariant, and the name it writes carries the block's number |
| Codec.BatchLoopDone | pkg/wallet/service.go:595-617 | at the end of the payments the files written are all the batches |
| Codec.ChunksShape | pkg/wallet/service.go:595-616 | blocks are non-empty, all but the last hold exactly records lines, there are ceil(len / records) of them, and they concatenate to all lines |
| Codec.BatchCount | pkg/wallet/service.go:595-616 | one file per block |
| Codec.BatchAt | pkg/wallet/service.go:595-616 | file j holds block j, newline-terminated, under number k + j + 1 |
| Codec.BatchesAreChunks | pkg/wallet/service.go:595-616 | the files are, in order, the blocks, each named by its number |
| Codec.BatchesContents | pkg/wallet/service.go:595-616 | the files' contents concatenate to the dump of all lines |
| Codec.HistoryFiles | pkg/wallet/service.go:569-619 | no files exactly when there are no payments; the files together hold the payment dump; up to `records` payments go to `payments.dump` alone, more go to numbered batch files |
| Codec.HistoryFilesShape | pkg/wallet/service.go:569-619 | with records > 0 and some payments: up to records payments go to payments.dump alone; otherwise payments1.dump … paymentsN.dump, N = ceil(len / records) >= 2, each with records lines except possibly the last, concatenating to the full dump |
| Wallet.Service.constructor | pkg/wallet/service.go:28-33 | the zero-value service: counter 0, no records |
| Wallet.Service.IndexOfAccount | pkg/wallet/service.go:56-61 | the scan returns the position of the first account with the ID, or None |
| Wallet.Service.IndexOfPayment | pkg/wallet/service.go:122-127 | the scan returns the position of the first payment with the ID, or None |
| Wallet.Service.IndexOfFavorite | pkg/wallet/service.go:178-184 | the scan returns the position of the first favorite with the ID, or None |
| Wallet.Service.RegisterAccount | pkg/wallet/service.go:36-52 | the new state and result are Ledger.RegisterAccount's |
| Wallet.Service.FindAccountByID | pkg/wallet/service.go:55-62 | success exactly when an account has the ID, returning the first one; otherwise ErrAccountNotFound |
| Wallet.Service.Deposit | pkg/wallet/service.go:65-84 | the new state and error are Ledger.Deposit's |
| Wallet.Service.Pay | pkg/wallet/service.go:87-118 | the new state and result are Ledger.Pay's |
| Wallet.Service.FindPaymentByID | pkg/wallet/service.go:121-128 | success exactly when a payment has the ID, returning the first one; otherwise ErrPaymentNotFound |
| Wallet.Service.Reject | pkg/wallet/service.go:131-144 | the new state and error are Ledger.Reject's |
| Wallet.Service.Repeat | pkg/wallet/service.go:147-154 | the new state and result are Ledger.Repeat's |
| Wallet.Service.FavoritePayment | pkg/wallet/service.go:157-174 | the new state and result are Ledger.FavoritePayment's |
| Wallet.Service.FindFavoriteByID | pkg/wallet/service.go:177-185 | success exactly when a favorite has the ID, returning the first one; otherwise ErrFavoriteNotFound |
| Wallet.Service.PayFromFavorite | pkg/wallet/service.go:188-195 | the new state and result are Ledger.PayFromFavorite's |
| Wallet.Service.ExportToFile | pkg/wallet/service.go:198-231 | the text written is the accounts' lines joined by vertical bars, with no trailing bar |
| Wallet.Service.ImportFromFile | pkg/wallet/service.go:234-290 | one account per segment is appended, with no duplicate check; the counter, payments and favorites are unchanged |
| Wallet.Service.DumpText | pkg/wallet/service.go:301-309 | the buffer holds each record's line followed by a newline |
| Wallet.Service.Export | pkg/wallet/service.go:293-363 | the directory afterwards is Codec.ExportDir of the state |
| Wallet.Service.PutAccount | pkg/wallet/service.go:406-419 | overwrite phone and balance of the account with the ID, or append it and advance the counter |
| Wallet.Service.PutPayment | pkg/wallet/service.go:457-473 | overwrite the payment with the ID, or append it |
| Wallet.Service.PutFavorite | pkg/wallet/service.go:511-527 | overwrite the favorite with the ID, or append it |
| Wallet.Service.ImportAccounts | pkg/wallet/service.go:376-423 | every account scanned before the stop is imported in order, and the scan's stop is returned |
| Wallet.Service.ImportPayments | pkg/wallet/service.go:425-477 | every payment scanned before the stop is imported in order, and the scan's stop is returned |
| Wallet.Service.ImportFavorites | pkg/wallet/service.go:479-531 | every favorite scanned before the stop is imported in order, and the scan's stop is returned |
| Wallet.Service.Import | pkg/wallet/service.go:366-534 | the new state and error are Codec.ImportDir's: sections in turn, a parse error ends the import after the records before it |
| Wallet.Service.ExportAccountHistory | pkg/wallet/service.go:537-556 | unknown account gives ErrAccountNotFound, no payments gives ErrPaymentNotFound, otherwise exactly the account's payments in order |
| Wallet.Service.HistoryToFiles | pkg/wallet/service.go:559-619 | the files written are Codec.HistoryFiles, whose shape Codec.HistoryFilesShape states |
| Wallet.Service.BatchFiles | pkg/wallet/service.go:594-617 | the numbered files written by the batch loop are exactly the batches of the lines |
| Wallet.Service.WorkerTotal | pkg/wallet/service.go:639-649 | one goroutine's total is the sum of its clipped range |
| Wallet.Service.WorkerFilter | pkg/wallet/service.go:683-695 | one goroutine's part is its clipped range filtered by account, in order |
| Wallet.Service.SumWorkers | pkg/wallet/service.go:634-654 | running the goroutines in the given order accumulates the total of the merged chunks |
| Wallet.Service.SumPayments | pkg/wallet/service.go:622-658 | for every goroutine count and completion order, the sum of all payment amounts |
| Wallet.Service.FilterWorkers | pkg/wallet/service.go:678-700 | running the goroutines in the given order accumulates the account's payments among the merged chunks |
| Wallet.Service.FilterPayments | pkg/wallet/service.go:661-704 | an unknown account gives ErrPaymentNotFound; otherwise, for every goroutine count and completion order, a permutation of the account's payments |

## Left out

- File system and logging: `os.Create`, `Open`, `Read`, `WriteFile`, `ReadFile`, `MkdirAll`, `Stat`, `Mkdir`, `filepath.Abs`/`IsAbs` and every `log` call are I/O. The model keeps only the text written and read. A directory is a map from file name to contents, and a failed read of a dump is a missing section, which Import skips.
- I/O errors: the error returns of the file calls are not modelled, because they come from the operating system.
- Concurrency: `sync.WaitGroup`, `sync.Mutex` and the goroutines of `SumPayments` and `FilterPayments` are not modelled as threads. The goroutines run one after another, in an arbitrary completion order that is a parameter. The lock makes each merge atomic, so interleaving inside a merge is not modelled.
- `uuid.New()` is a random source. `Pay`, `Repeat`, `PayFromFavorite` and `FavoritePayment` take the fresh ID as a parameter, required not to be in use.
- Wallet.Service.Deposit: does not model int64 overflow of `Balance += amount`. Balances, amounts and sums are unbounded integers. The source checks no bound, and wrap-around there is not part of its intended behaviour.
- Ledger.Reject: does not model int64 overflow of the owner's `Balance += payment.Amount`; the balance is an unbounded integer, for the same reason. This holds for Wallet.Service.Reject too.
- Wallet.Service.SumPayments: does not model int64 overflow of the running sum, for the same reason.
- Pointer aliasing: the Find methods return the record value, not a pointer into the slice. Updates in place go through the record's position, so the state effect is the same, but a caller keeping the returned pointer is not modelled.
- Panics: a row with too few fields, reading the empty single file, and `records == 0` in `HistoryToFiles` are preconditions, not modelled panics.
- Wallet.Service.ImportFromFile: models the code as it is. It never advances `nextAccountID`, so a later `RegisterAccount` may hand out an ID that an imported account already has. Nothing is proved about that combination.
- Text.TrimSpace: only the white-space set of `unicode.IsSpace` for single characters is modelled. Byte-level UTF-8 decoding of invalid sequences is not.
- Codec.PaymentsSectionRoundTrip: requires every payment ID not to start with white space and every status not to end with it, and likewise every favorite ID and category. Import's `TrimSpace` of the whole file only affects the first line's ID and the last line's status or category; the condition is imposed on every record for simplicity.
- The demo program in cmd/main.go only calls the service and is not part of this model.
- pkg/wallet/service_test.go refers to an error `ErrFavoritePaymentsNotFound` that the service does not declare. The model uses the declared `ErrFavoriteNotFound`.
