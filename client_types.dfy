/** The client's records (its `types` file): identifiers are arbitrary
    JavaScript values, kinds are whatever text the server sent. */
module ClientTypes {
  import opened Base
  import opened JsValue
  import opened Records

  datatype Transaction = Transaction(
    id: Value,
    kind: string,
    amount: real,
    category: string,
    description: string,
    date: string,
    createdAt: Option<string>)

  datatype Category = Category(id: Value, name: string, kind: string, icon: string, color: string)

  /** The kind picked on the add screen. */
  datatype Kind = IncomeKind | ExpenseKind

  function KindName(k: Kind): (name: string)
    ensures name == Income || name == Expense
  {
    match k
    case IncomeKind => Income
    case ExpenseKind => Expense
  }

  /** The body of the create request. */
  datatype NewTransaction = NewTransaction(kind: string, amount: real, category: string, description: string, date: string)
}
