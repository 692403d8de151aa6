/** The home screen: transactions sorted newest first on a copy, the summary
    figures with their fallbacks when no summary is loaded, and the key each
    list row gets. `time` stands for `new Date(d).getTime()` on a date text. */
module HomeScreen {
  import opened Base
  import opened JsValue
  import opened Records
  import opened ClientTypes
  import opened Helpers

  /** `x` placed before the first element that is not later than it; an
      element with an equal date stays behind `x`, which came first. */
  function InsertByDate(x: Transaction, sorted: seq<Transaction>, time: string -> int): (r: seq<Transaction>)
    ensures multiset(r) == multiset([x] + sorted)
  {
    if sorted == [] || time(x.date) >= time(sorted[0].date) then [x] + sorted
    else
      assert sorted == [sorted[0]] + sorted[1..];
      [sorted[0]] + InsertByDate(x, sorted[1..], time)
  }

  /** `[...transactions].sort((a, b) => time(b.date) - time(a.date))`: a
      stable sort (as ECMAScript 2019 requires) by date, newest first. The
      argument is a value, so the list the hook holds is not touched. */
  function SortByDateDesc(txs: seq<Transaction>, time: string -> int): (r: seq<Transaction>)
    ensures multiset(r) == multiset(txs)
  {
    if txs == [] then []
    else
      assert txs == [txs[0]] + txs[1..];
      InsertByDate(txs[0], SortByDateDesc(txs[1..], time), time)
  }

  predicate NewestFirst(s: seq<Transaction>, time: string -> int) {
    forall i, j :: 0 <= i < j < |s| ==> time(s[i].date) >= time(s[j].date)
  }

  function DatedAt(time: string -> int, t: int): Transaction -> bool {
    (x: Transaction) => time(x.date) == t
  }

  lemma NewestFirstTail(s: seq<Transaction>, time: string -> int)
    requires s != [] && NewestFirst(s, time)
    ensures NewestFirst(s[1..], time)
  {
    var tail := s[1..];
    forall i, j | 0 <= i < j < |tail| ensures time(tail[i].date) >= time(tail[j].date) {
      assert tail[i] == s[i + 1] && tail[j] == s[j + 1];
    }
  }

  lemma NewestFirstCons(a: Transaction, rest: seq<Transaction>, time: string -> int)
    requires NewestFirst(rest, time)
    requires forall k :: 0 <= k < |rest| ==> time(a.date) >= time(rest[k].date)
    ensures NewestFirst([a] + rest, time)
  {
    var r := [a] + rest;
    forall i, j | 0 <= i < j < |r| ensures time(r[i].date) >= time(r[j].date) {
      assert r[j] == rest[j - 1];
      if i > 0 {
        assert r[i] == rest[i - 1];
      }
    }
  }

  lemma {:induction false} InsertByDateSorted(x: Transaction, s: seq<Transaction>, time: string -> int)
    requires NewestFirst(s, time)
    ensures NewestFirst(InsertByDate(x, s, time), time)
  {
    if s == [] || time(x.date) >= time(s[0].date) {
      forall k | 0 <= k < |s| ensures time(x.date) >= time(s[k].date) {
        if k > 0 {
          assert time(s[0].date) >= time(s[k].date);
        }
      }
      NewestFirstCons(x, s, time);
    } else {
      var tail := s[1..];
      NewestFirstTail(s, time);
      InsertByDateSorted(x, tail, time);
      var rest := InsertByDate(x, tail, time);
      forall k | 0 <= k < |rest|
        ensures time(s[0].date) >= time(rest[k].date)
      {
        assert rest[k] in multiset([x] + tail);
        if rest[k] != x {
          assert rest[k] in tail;
          var j :| 0 <= j < |tail| && tail[j] == rest[k];
          assert s[j + 1] == rest[k];
        }
      }
      NewestFirstCons(s[0], rest, time);
    }
  }

  lemma {:induction false} InsertByDateStable(x: Transaction, s: seq<Transaction>, time: string -> int, t: int)
    ensures Filter(InsertByDate(x, s, time), DatedAt(time, t)) == Filter([x] + s, DatedAt(time, t))
  {
    var p := DatedAt(time, t);
    if s != [] && time(x.date) < time(s[0].date) {
      var tail := s[1..];
      InsertByDateStable(x, tail, time, t);
      var rest := InsertByDate(x, tail, time);
      var headX := if p(x) then [x] else [];
      var headS := if p(s[0]) then [s[0]] else [];
      assert headX == [] || headS == [];
      assert ([s[0]] + rest)[1..] == rest;
      assert Filter(InsertByDate(x, s, time), p) == headS + Filter(rest, p);
      assert ([x] + tail)[1..] == tail;
      assert Filter(rest, p) == headX + Filter(tail, p);
      assert ([x] + s)[1..] == s;
      assert Filter([x] + s, p) == headX + Filter(s, p);
      assert Filter(s, p) == headS + Filter(tail, p);
    }
  }

  /** The sorted list never goes from an older date to a newer one. */
  lemma {:induction false} SortIsNewestFirst(txs: seq<Transaction>, time: string -> int)
    ensures NewestFirst(SortByDateDesc(txs, time), time)
  {
    if txs != [] {
      SortIsNewestFirst(txs[1..], time);
      InsertByDateSorted(txs[0], SortByDateDesc(txs[1..], time), time);
    }
  }

  /** Transactions with equal dates keep their original relative order. */
  lemma {:induction false} SortIsStable(txs: seq<Transaction>, time: string -> int, t: int)
    ensures Filter(SortByDateDesc(txs, time), DatedAt(time, t)) == Filter(txs, DatedAt(time, t))
  {
    if txs != [] {
      var p := DatedAt(time, t);
      var rest := SortByDateDesc(txs[1..], time);
      SortIsStable(txs[1..], time, t);
      InsertByDateStable(txs[0], rest, time, t);
      assert ([txs[0]] + rest)[1..] == rest;
      assert Filter([txs[0]] + rest, p) == (if p(txs[0]) then [txs[0]] else []) + Filter(rest, p);
    }
  }

  /** What the balance header shows: a formatted amount, or the fixed zero text. */
  datatype Shown = Currency(amount: real) | Placeholder(text: string)

  const ZeroBalanceText := "¥0"

  /** `summary ? formatCurrency(summary.balance) : '¥0'`. */
  function BalanceShown(summary: Option<Summary>): (r: Shown)
    ensures summary.None? <==> r == Placeholder(ZeroBalanceText)
    ensures summary.Some? ==> r == Currency(summary.value.balance)
  {
    if summary.Some? then Currency(summary.value.balance) else Placeholder(ZeroBalanceText)
  }

  /** `summary?.total_income || 0`. */
  function IncomeShown(summary: Option<Summary>): (r: real)
    ensures summary.None? ==> r == 0.0
    ensures summary.Some? ==> r == summary.value.totalIncome
  {
    if summary.Some? && summary.value.totalIncome != 0.0 then summary.value.totalIncome else 0.0
  }

  /** `summary?.total_expense || 0`. */
  function ExpenseShown(summary: Option<Summary>): (r: real)
    ensures summary.None? ==> r == 0.0
    ensures summary.Some? ==> r == summary.value.totalExpense
  {
    if summary.Some? && summary.value.totalExpense != 0.0 then summary.value.totalExpense else 0.0
  }

  /** The amount a balance display stands for; the placeholder reads as zero. */
  function ShownAmount(s: Shown): real {
    match s
    case Currency(a) => a
    case Placeholder(_) => 0.0
  }

  /** The header and the two cards agree: with no summary everything reads
      zero, and a summary whose balance is income minus expense shows that. */
  lemma ShownFiguresAgree(summary: Option<Summary>)
    requires summary.Some? ==> summary.value.balance == summary.value.totalIncome - summary.value.totalExpense
    ensures ShownAmount(BalanceShown(summary)) == IncomeShown(summary) - ExpenseShown(summary)
  {
  }

  /** The row key `tx.id?.ID || tx.id || index`. */
  function ListKey(id: Value, index: nat): (r: Value)
    ensures Truthy(Property(id, "ID")) ==> r == Property(id, "ID")
    ensures !Truthy(Property(id, "ID")) && Truthy(id) ==> r == id
    ensures !Truthy(Property(id, "ID")) && !Truthy(id) ==> r == Num(index)
  {
    var field := if id.Undefined? || id.Null? then Undefined else Property(id, "ID");
    if Truthy(field) then field else if Truthy(id) then id else Num(index)
  }

  /** For a non-empty string id and for an object with a truthy `ID`, the row
      key is the normalised id; a falsy id falls back to the row index. */
  lemma ListKeyIsNormalizedId(id: Value, index: nat)
    ensures id.Str? && id.s != "" ==> ListKey(id, index) == NormalizeId(id)
    ensures id.Obj? && Truthy(Property(id, "ID")) ==> ListKey(id, index) == NormalizeId(id)
    ensures !Truthy(id) ==> ListKey(id, index) == Num(index)
  {
  }
}
