/** One row of the transaction list: the category looked up by name, the
    icon, sign and description with their fallbacks, and the identifier
    handed to the delete callback. Currency and date formatting are not part
    of this model; the row carries the raw amount and date. */
module TransactionItem {
  import opened Base
  import opened JsValue
  import opened Records
  import opened ClientTypes
  import opened Helpers

  /** `categories.find(c => c.name === name)`: the first category with that name. */
  function FindCategory(categories: seq<Category>, name: string): (r: Option<Category>)
    ensures r.None? <==> forall i :: 0 <= i < |categories| ==> categories[i].name != name
    ensures r.Some? ==> exists i :: 0 <= i < |categories| && categories[i] == r.value && r.value.name == name
                                 && forall j :: 0 <= j < i ==> categories[j].name != name
  {
    if categories == [] then None
    else if categories[0].name == name then Some(categories[0])
    else
      var r := FindCategory(categories[1..], name);
      assert r.Some? ==> exists i :: 1 <= i < |categories| && categories[i] == r.value
                                   && forall j :: 0 <= j < i ==> categories[j].name != name by {
        if r.Some? {
          var k :| 0 <= k < |categories[1..]| && categories[1..][k] == r.value && r.value.name == name
                   && forall j :: 0 <= j < k ==> categories[1..][j].name != name;
          assert categories[k + 1] == r.value;
        }
      }
      r
  }

  predicate IsIncome(tx: Transaction) {
    tx.kind == Income
  }

  const IncomeIcon := "💰"
  const ExpenseIcon := "💸"
  const NoDescription := "説明なし"

  /** What the row shows. */
  datatype ItemView = ItemView(icon: string, title: string, description: string, sign: string, amount: real, date: string)

  /** The row for `tx`: the found category's icon when it has one, otherwise
      a kind icon; the description or a fixed placeholder; `+` for income and
      `-` for every other kind. */
  function Render(tx: Transaction, categories: seq<Category>): (v: ItemView)
    ensures v.icon != "" && v.description != ""
    ensures v.sign == "+" <==> IsIncome(tx)
    ensures v.sign == "+" || v.sign == "-"
    ensures v.title == tx.category && v.amount == tx.amount && v.date == tx.date
    ensures tx.description != "" ==> v.description == tx.description
    ensures match FindCategory(categories, tx.category)
            case Some(c) => v.icon == if c.icon != "" then c.icon else if IsIncome(tx) then IncomeIcon else ExpenseIcon
            case None => v.icon == if IsIncome(tx) then IncomeIcon else ExpenseIcon
  {
    var found := FindCategory(categories, tx.category);
    var icon := if found.Some? && found.value.icon != "" then found.value.icon
                else if IsIncome(tx) then IncomeIcon else ExpenseIcon;
    ItemView(icon,
             tx.category,
             if tx.description != "" then tx.description else NoDescription,
             if IsIncome(tx) then "+" else "-",
             tx.amount,
             tx.date)
  }

  /** The value handed to `onDelete`: the normalised id, never the raw one. */
  function DeleteArgument(tx: Transaction): (id: Value)
    ensures tx.id.Str? ==> id == tx.id
    ensures tx.id.Obj? && Truthy(Property(tx.id, "ID")) ==> id == Property(tx.id, "ID")
    ensures tx.id.Obj? && !Truthy(Property(tx.id, "ID")) ==> id.Str? && id != tx.id
  {
    NormalizeId(tx.id)
  }
}
