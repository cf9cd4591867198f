/** Record types of the wallet ledger and the error values its operations return. */
module Types {

  /** Money is a signed count of minor currency units (int64 in the source). */
  type Money = int

  /** The three predefined payment statuses. A status is an arbitrary string:
      an imported dump may carry any text in the status column. */
  const StatusOK: string := "OK"
  const StatusFail: string := "FAIL"
  const StatusInProgress: string := "INPROGRESS"

  datatype Account = Account(id: int, phone: string, balance: Money)

  datatype Payment = Payment(id: string, accountID: int, amount: Money, category: string, status: string)

  datatype Favorite = Favorite(id: string, accountID: int, name: string, amount: Money, category: string)

  /** The six error values of the service, plus the two kinds of integer
      parse failure that the directory import hands back unchanged. */
  datatype Error =
    | ErrPhoneRegistered
    | ErrAmountMustBePositive
    | ErrAccountNotFound
    | ErrNotEnoughBalance
    | ErrPaymentNotFound
    | ErrFavoriteNotFound
    | ErrSyntax(num: string)
    | ErrRange(num: string)

  /** A value or an error, for the operations that return both. */
  datatype Result<+T> = Success(value: T) | Failure(error: Error)

  /** A nil or non-nil error, for the operations that return only an error. */
  datatype Outcome = Pass | Fail(error: Error)

  datatype Option<+T> = None | Some(value: T)

  /** A file written by the dump codec: its name inside the target directory and its contents. */
  datatype DumpFile = DumpFile(name: string, contents: string)
}
