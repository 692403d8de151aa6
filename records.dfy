/** Shapes the server and the client agree on over HTTP: the two transaction
    kinds, the monthly summary and an error reply. */
module Records {

  const Income := "income"
  const Expense := "expense"

  /** `Summary` on both sides: totals and the expense total per category name. */
  datatype Summary = Summary(totalIncome: real, totalExpense: real, balance: real, byCategory: map<string, real>)

  const StatusBadRequest := 400
  const StatusUnauthorized := 401
  const StatusInternalServerError := 500

  /** A non-2xx reply with its `{"error": message}` body. */
  datatype HttpError = HttpError(status: int, message: string)

  /** The reply of a handler that finds no user claims in its request context. */
  const NotAuthenticated := HttpError(StatusUnauthorized, "Not authenticated")
}
