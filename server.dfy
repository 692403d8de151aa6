/** The REST handlers of the server over an abstract store: each table is a
    sequence of records, a handler that writes gives the table it leaves,
    and every database call that can fail takes its error as an input. */
module Server {
  import opened Base
  import opened Records
  import opened Auth

  /** A database record identifier: its table and its key. */
  datatype RecordId = RecordId(table: string, key: string)

  /** The `table:key` text a query names a record by. */
  function RecordIdText(id: RecordId): string {
    id.table + ":" + id.key
  }

  datatype Transaction = Transaction(
    id: Option<RecordId>,
    userId: string,
    kind: string,
    amount: real,
    category: string,
    description: string,
    date: string,
    createdAt: string)

  datatype Category = Category(id: Option<RecordId>, userId: string, name: string, kind: string, icon: string, color: string)

  const TransactionTable := "transaction"
  const TransactionPrefix := "transaction:"
  const CategoryPrefix := "category:"

  const BadKind := HttpError(StatusBadRequest, "Type must be 'income' or 'expense'")
  const NonPositiveAmount := HttpError(StatusBadRequest, "Amount must be positive")

  // ---------------------------------------------------------------------
  // Record identifiers in paths

  /** The id path parameter as a record id: kept when it already carries the
      table prefix, prefixed otherwise. */
  function WithPrefix(prefix: string, idParam: string): (r: string)
    ensures HasPrefix(r, prefix)
    ensures r == idParam || r == prefix + idParam
    ensures r == idParam <==> HasPrefix(idParam, prefix)
  {
    if HasPrefix(idParam, prefix) then idParam else prefix + idParam
  }

  /** The record a transaction route's `:id` names. */
  function TransactionRecordId(idParam: string): (r: string)
    ensures HasPrefix(r, TransactionPrefix)
  {
    WithPrefix(TransactionPrefix, idParam)
  }

  /** The record a category route's `:id` names. */
  function CategoryRecordId(idParam: string): (r: string)
    ensures HasPrefix(r, CategoryPrefix)
  {
    WithPrefix(CategoryPrefix, idParam)
  }

  /** Prefixing twice is prefixing once. */
  lemma WithPrefixIdempotent(prefix: string, idParam: string)
    ensures WithPrefix(prefix, WithPrefix(prefix, idParam)) == WithPrefix(prefix, idParam)
  {
  }

  /** A bare key and the full record text name the same transaction record,
      unless the key itself starts with the table prefix. */
  lemma TransactionKeyOrText(key: string)
    ensures TransactionRecordId(RecordIdText(RecordId(TransactionTable, key))) == RecordIdText(RecordId(TransactionTable, key))
    ensures !HasPrefix(key, TransactionPrefix) ==> TransactionRecordId(key) == RecordIdText(RecordId(TransactionTable, key))
  {
    assert RecordIdText(RecordId(TransactionTable, key)) == TransactionPrefix + key;
  }

  // ---------------------------------------------------------------------
  // Creating records

  predicate KnownKind(kind: string) {
    kind == Income || kind == Expense
  }

  /** The checks of `createTransaction`, in order (caller, body, kind, amount),
      and the record it writes: the body with the caller's uid and the time. */
  function AcceptTransaction(user: Result<UserClaims, string>, bound: Result<Transaction, string>, now: string): (r: Result<Transaction, HttpError>)
    ensures user.Err? ==> r == Err(NotAuthenticated)
    ensures user.Ok? && bound.Err? ==> r == Err(HttpError(StatusBadRequest, bound.error))
    ensures user.Ok? && bound.Ok? && !KnownKind(bound.value.kind) ==> r == Err(BadKind)
    ensures user.Ok? && bound.Ok? && KnownKind(bound.value.kind) && bound.value.amount <= 0.0 ==> r == Err(NonPositiveAmount)
    ensures r.Ok? <==> user.Ok? && bound.Ok? && KnownKind(bound.value.kind) && bound.value.amount > 0.0
    ensures r.Ok? ==> r.value == bound.value.(userId := user.value.uid, createdAt := now)
  {
    match user
    case Err(_) => Err(NotAuthenticated)
    case Ok(claims) =>
      match bound
      case Err(e) => Err(HttpError(StatusBadRequest, e))
      case Ok(tx) =>
        if tx.kind != Income && tx.kind != Expense then Err(BadKind)
        else if tx.amount <= 0.0 then Err(NonPositiveAmount)
        else Ok(tx.(userId := claims.uid, createdAt := now))
  }

  /** A `user_id` or `created_at` sent by the client makes no difference. */
  lemma AcceptIgnoresClientOwner(user: Result<UserClaims, string>, tx: Transaction, userId: string, createdAt: string, now: string)
    ensures AcceptTransaction(user, Ok(tx), now) == AcceptTransaction(user, Ok(tx.(userId := userId, createdAt := createdAt)), now)
  {
  }

  /** `createTransaction`: the accepted record is added under the key the
      database picks; a failed write is a 500 and leaves the table alone. */
  function CreateTransaction(table: seq<Transaction>, user: Result<UserClaims, string>, bound: Result<Transaction, string>,
                             now: string, key: string, writeError: Option<string>): (r: Result<seq<Transaction>, HttpError>)
    ensures r.Ok? <==> AcceptTransaction(user, bound, now).Ok? && writeError.None?
    ensures AcceptTransaction(user, bound, now).Err? ==> r == Err(AcceptTransaction(user, bound, now).error)
    ensures AcceptTransaction(user, bound, now).Ok? && writeError.Some? ==> r == Err(HttpError(StatusInternalServerError, writeError.value))
    ensures r.Ok? ==> r.value == table + [AcceptTransaction(user, bound, now).value.(id := Some(RecordId(TransactionTable, key)))]
  {
    match AcceptTransaction(user, bound, now)
    case Err(e) => Err(e)
    case Ok(tx) =>
      if writeError.Some? then Err(HttpError(StatusInternalServerError, writeError.value))
      else Ok(table + [tx.(id := Some(RecordId(TransactionTable, key)))])
  }

  /** A create adds one record to the caller's list, at its end, and changes
      no other user's list. */
  lemma CreateOnlyAddsToCaller(table: seq<Transaction>, user: Result<UserClaims, string>, bound: Result<Transaction, string>,
                               now: string, key: string, uid: string)
    requires CreateTransaction(table, user, bound, now, key, None).Ok?
    ensures var after := CreateTransaction(table, user, bound, now, key, None).value;
      var written := after[|after| - 1];
      written.userId == user.value.uid && written.amount > 0.0 && KnownKind(written.kind)
      && OwnedBy(after, uid) == OwnedBy(table, uid) + (if uid == user.value.uid then [written] else [])
  {
    var after := CreateTransaction(table, user, bound, now, key, None).value;
    var written := after[|after| - 1];
    assert after == table + [written];
    FilterAppend(table, [written], OwnerIs(uid));
  }

  /** The checks of `createCategory`: the body, then the kind. The record is
      written as sent; no owner is set. */
  function AcceptCategory(bound: Result<Category, string>): (r: Result<Category, HttpError>)
    ensures bound.Err? ==> r == Err(HttpError(StatusBadRequest, bound.error))
    ensures r.Ok? <==> bound.Ok? && KnownKind(bound.value.kind)
    ensures bound.Ok? && !KnownKind(bound.value.kind) ==> r == Err(BadKind)
    ensures r.Ok? ==> r.value == bound.value
  {
    match bound
    case Err(e) => Err(HttpError(StatusBadRequest, e))
    case Ok(cat) =>
      if cat.kind != Income && cat.kind != Expense then Err(BadKind) else Ok(cat)
  }

  /** `createCategory`: the accepted category is added under the key the
      database picks; a failed write is a 500. */
  function CreateCategory(table: seq<Category>, bound: Result<Category, string>, key: string, writeError: Option<string>): (r: Result<seq<Category>, HttpError>)
    ensures r.Ok? <==> AcceptCategory(bound).Ok? && writeError.None?
    ensures AcceptCategory(bound).Err? ==> r == Err(AcceptCategory(bound).error)
    ensures AcceptCategory(bound).Ok? && writeError.Some? ==> r == Err(HttpError(StatusInternalServerError, writeError.value))
    ensures r.Ok? ==> |r.value| == |table| + 1 && r.value[..|table|] == table
    ensures r.Ok? ==> r.value[|table|] == AcceptCategory(bound).value.(id := Some(RecordId("category", key)))
  {
    match AcceptCategory(bound)
    case Err(e) => Err(e)
    case Ok(cat) =>
      if writeError.Some? then Err(HttpError(StatusInternalServerError, writeError.value))
      else Ok(table + [cat.(id := Some(RecordId("category", key)))])
  }

  // ---------------------------------------------------------------------
  // Deleting and updating records

  /** The record named by `recordId` is the one with that record text. */
  predicate Identifies(recordId: string, id: Option<RecordId>) {
    id.Some? && RecordIdText(id.value) == recordId
  }

  function TransactionKept(recordId: string): Transaction -> bool {
    (t: Transaction) => !Identifies(recordId, t.id)
  }

  function CategoryKept(recordId: string): Category -> bool {
    (c: Category) => !Identifies(recordId, c.id)
  }

  /** `deleteTransaction`: the named record is gone and every other record
      stays, in order. Neither the caller nor the owner is looked at. */
  function DeleteTransaction(table: seq<Transaction>, idParam: string, queryError: Option<string>): (r: Result<seq<Transaction>, HttpError>)
    ensures r.Ok? <==> queryError.None?
    ensures r.Err? ==> r.error == HttpError(StatusInternalServerError, queryError.value)
    ensures r.Ok? ==> forall i :: 0 <= i < |r.value| ==> r.value[i] in table && !Identifies(TransactionRecordId(idParam), r.value[i].id)
    ensures r.Ok? ==> forall i :: 0 <= i < |table| && !Identifies(TransactionRecordId(idParam), table[i].id) ==> table[i] in r.value
  {
    if queryError.Some? then Err(HttpError(StatusInternalServerError, queryError.value))
    else Ok(Filter(table, TransactionKept(TransactionRecordId(idParam))))
  }

  /** Whoever asks, a delete removes the record from its owner's list and
      leaves the rest of every user's list as it was. */
  lemma DeleteReachesEveryOwner(table: seq<Transaction>, idParam: string, uid: string)
    ensures OwnedBy(DeleteTransaction(table, idParam, None).value, uid)
         == Filter(OwnedBy(table, uid), TransactionKept(TransactionRecordId(idParam)))
  {
    FilterCommute(table, TransactionKept(TransactionRecordId(idParam)), OwnerIs(uid));
  }

  /** `deleteCategory`: the same rule with the category prefix. */
  function DeleteCategory(table: seq<Category>, idParam: string, queryError: Option<string>): (r: Result<seq<Category>, HttpError>)
    ensures r.Ok? <==> queryError.None?
    ensures r.Err? ==> r.error == HttpError(StatusInternalServerError, queryError.value)
    ensures r.Ok? ==> forall i :: 0 <= i < |r.value| ==> r.value[i] in table && !Identifies(CategoryRecordId(idParam), r.value[i].id)
    ensures r.Ok? ==> forall i :: 0 <= i < |table| && !Identifies(CategoryRecordId(idParam), table[i].id) ==> table[i] in r.value
  {
    if queryError.Some? then Err(HttpError(StatusInternalServerError, queryError.value))
    else Ok(Filter(table, CategoryKept(CategoryRecordId(idParam))))
  }

  /** The five fields an update sends. */
  datatype Patch = Patch(kind: string, amount: real, category: string, description: string, date: string)

  function PatchOf(t: Transaction): Patch {
    Patch(t.kind, t.amount, t.category, t.description, t.date)
  }

  /** `UPDATE … MERGE` with the five fields: those are overwritten, the id,
      the owner and the creation time are kept. */
  function Merge(stored: Transaction, p: Patch): (r: Transaction)
    ensures r.id == stored.id && r.userId == stored.userId && r.createdAt == stored.createdAt
    ensures PatchOf(r) == p
  {
    stored.(kind := p.kind, amount := p.amount, category := p.category, description := p.description, date := p.date)
  }

  /** Merging the same fields again changes nothing; a later merge wins. */
  lemma MergeLastWins(stored: Transaction, p: Patch, q: Patch)
    ensures Merge(Merge(stored, p), p) == Merge(stored, p)
    ensures Merge(Merge(stored, p), q) == Merge(stored, q)
  {
  }

  /** The table after the merge into the named record. */
  function ApplyUpdate(table: seq<Transaction>, recordId: string, p: Patch): (r: seq<Transaction>)
    ensures |r| == |table|
    ensures forall i :: 0 <= i < |table| ==> r[i] == if Identifies(recordId, table[i].id) then Merge(table[i], p) else table[i]
  {
    if table == [] then []
    else [if Identifies(recordId, table[0].id) then Merge(table[0], p) else table[0]] + ApplyUpdate(table[1..], recordId, p)
  }

  /** An update never moves a record from one user's list to another's: the
      caller's list after it is their list before it, updated. */
  lemma {:induction false} UpdateKeepsOwners(table: seq<Transaction>, recordId: string, p: Patch, uid: string)
    ensures OwnedBy(ApplyUpdate(table, recordId, p), uid) == ApplyUpdate(OwnedBy(table, uid), recordId, p)
  {
    if table != [] {
      UpdateKeepsOwners(table[1..], recordId, p, uid);
      var head := if Identifies(recordId, table[0].id) then Merge(table[0], p) else table[0];
      assert ApplyUpdate(table, recordId, p) == [head] + ApplyUpdate(table[1..], recordId, p);
      FilterAppend([head], ApplyUpdate(table[1..], recordId, p), OwnerIs(uid));
      FilterAppend([table[0]], table[1..], OwnerIs(uid));
      assert table == [table[0]] + table[1..];
      if table[0].userId == uid {
        assert OwnedBy(table, uid) == [table[0]] + OwnedBy(table[1..], uid);
        assert OwnedBy(table, uid)[1..] == OwnedBy(table[1..], uid);
      } else {
        assert OwnedBy(table, uid) == OwnedBy(table[1..], uid);
      }
    }
  }

  /** `updateTransaction`: the body must bind; its five fields are merged into
      the named record. Kind and amount are not checked here, and neither
      the caller nor the owner is looked at. */
  function UpdateTransaction(table: seq<Transaction>, idParam: string, bound: Result<Transaction, string>,
                             queryError: Option<string>): (r: Result<seq<Transaction>, HttpError>)
    ensures bound.Err? ==> r == Err(HttpError(StatusBadRequest, bound.error))
    ensures bound.Ok? && queryError.Some? ==> r == Err(HttpError(StatusInternalServerError, queryError.value))
    ensures r.Ok? <==> bound.Ok? && queryError.None?
    ensures r.Ok? ==> r.value == ApplyUpdate(table, TransactionRecordId(idParam), PatchOf(bound.value))
  {
    match bound
    case Err(e) => Err(HttpError(StatusBadRequest, e))
    case Ok(tx) =>
      if queryError.Some? then Err(HttpError(StatusInternalServerError, queryError.value))
      else Ok(ApplyUpdate(table, TransactionRecordId(idParam), PatchOf(tx)))
  }

  // ---------------------------------------------------------------------
  // Reading a user's transactions

  function OwnerIs(uid: string): Transaction -> bool {
    (t: Transaction) => t.userId == uid
  }

  /** The stored transactions of user `uid`, in stored order. */
  function OwnedBy(data: seq<Transaction>, uid: string): (r: seq<Transaction>)
    ensures |r| <= |data|
    ensures forall i :: 0 <= i < |r| ==> r[i].userId == uid && r[i] in data
    ensures forall i :: 0 <= i < |data| && data[i].userId == uid ==> data[i] in r
  {
    Filter(data, OwnerIs(uid))
  }

  /** The caller sees each of their transactions as often as it is stored,
      and nobody else's. */
  lemma OwnedByExact(data: seq<Transaction>, uid: string, t: Transaction)
    ensures multiset(OwnedBy(data, uid))[t] == if t.userId == uid then multiset(data)[t] else 0
  {
    FilterMultiset(data, OwnerIs(uid), t);
  }

  /** `getTransactions`: the caller's transactions, collected by a scan of the
      table. With none, the list stays Go's nil slice, which encodes as JSON
      `null` (None here). */
  method GetTransactions(user: Result<UserClaims, string>, data: Result<seq<Transaction>, string>)
    returns (r: Result<Option<seq<Transaction>>, HttpError>)
    ensures user.Err? ==> r == Err(NotAuthenticated)
    ensures user.Ok? && data.Err? ==> r == Err(HttpError(StatusInternalServerError, data.error))
    ensures user.Ok? && data.Ok? ==> r.Ok?
    ensures user.Ok? && data.Ok? ==> r.value == if OwnedBy(data.value, user.value.uid) == [] then None else Some(OwnedBy(data.value, user.value.uid))
  {
    if user.Err? {
      return Err(NotAuthenticated);
    }
    if data.Err? {
      return Err(HttpError(StatusInternalServerError, data.error));
    }
    var uid := user.value.uid;
    var rows := data.value;
    var owned: seq<Transaction> := [];
    var i := 0;
    while i < |rows|
      invariant 0 <= i <= |rows|
      invariant owned == OwnedBy(rows[..i], uid)
    {
      FilterAppend(rows[..i], [rows[i]], OwnerIs(uid));
      assert rows[..i + 1] == rows[..i] + [rows[i]];
      if rows[i].userId == uid {
        owned := owned + [rows[i]];
      }
      i := i + 1;
    }
    assert rows[..i] == rows;
    r := Ok(if owned == [] then None else Some(owned));
  }

  // ---------------------------------------------------------------------
  // The summary

  function EmptySummary(): Summary {
    Summary(0.0, 0.0, 0.0, map[])
  }

  /** The expense total stored for category `k`, zero when it has none
      (a Go map read of a missing key). */
  function CategoryTotal(m: map<string, real>, k: string): real {
    if k in m then m[k] else 0.0
  }

  /** One iteration of the summary loop. */
  function Step(acc: Summary, tx: Transaction, uid: string): (r: Summary)
    ensures tx.userId != uid ==> r == acc
    ensures r.balance == acc.balance
    ensures r.totalIncome + r.totalExpense == acc.totalIncome + acc.totalExpense + (if tx.userId == uid then tx.amount else 0.0)
    ensures r.byCategory.Keys == acc.byCategory.Keys + (if tx.userId == uid && tx.kind != Income then {tx.category} else {})
  {
    if tx.userId != uid then acc
    else if tx.kind == Income then acc.(totalIncome := acc.totalIncome + tx.amount)
    else acc.(totalExpense := acc.totalExpense + tx.amount,
              byCategory := acc.byCategory[tx.category := CategoryTotal(acc.byCategory, tx.category) + tx.amount])
  }

  /** The accumulator after the loop has seen `rows`. */
  function Fold(rows: seq<Transaction>, uid: string): (s: Summary)
    ensures s.balance == 0.0
    decreases |rows|
  {
    if rows == [] then EmptySummary()
    else Step(Fold(rows[..|rows| - 1], uid), rows[|rows| - 1], uid)
  }

  /** The summary of user `uid`: the loop's totals, then the balance. */
  function SummaryOf(rows: seq<Transaction>, uid: string): (s: Summary)
    ensures s.balance == s.totalIncome - s.totalExpense
  {
    var acc := Fold(rows, uid);
    acc.(balance := acc.totalIncome - acc.totalExpense)
  }

  /** `getSummary`: the caller's totals over the whole table, the
      per-category expense totals and the balance. */
  method GetSummary(user: Result<UserClaims, string>, data: Result<seq<Transaction>, string>) returns (r: Result<Summary, HttpError>)
    ensures user.Err? ==> r == Err(NotAuthenticated)
    ensures user.Ok? && data.Err? ==> r == Err(HttpError(StatusInternalServerError, data.error))
    ensures user.Ok? && data.Ok? ==> r == Ok(SummaryOf(data.value, user.value.uid))
  {
    if user.Err? {
      return Err(NotAuthenticated);
    }
    if data.Err? {
      return Err(HttpError(StatusInternalServerError, data.error));
    }
    var uid := user.value.uid;
    var rows := data.value;
    var summary := EmptySummary();
    var i := 0;
    while i < |rows|
      invariant 0 <= i <= |rows|
      invariant summary == Fold(rows[..i], uid)
    {
      var tx := rows[i];
      assert rows[..i + 1][..i] == rows[..i];
      if tx.userId == uid {
        if tx.kind == Income {
          summary := summary.(totalIncome := summary.totalIncome + tx.amount);
        } else {
          summary := summary.(totalExpense := summary.totalExpense + tx.amount);
          var before := if tx.category in summary.byCategory then summary.byCategory[tx.category] else 0.0;
          summary := summary.(byCategory := summary.byCategory[tx.category := before + tx.amount]);
        }
      }
      i := i + 1;
    }
    assert rows[..i] == rows;
    summary := summary.(balance := summary.totalIncome - summary.totalExpense);
    r := Ok(summary);
  }

  /** The sum of the amounts of `txs`. */
  function Total(txs: seq<Transaction>): real
    decreases |txs|
  {
    if txs == [] then 0.0 else Total(txs[..|txs| - 1]) + txs[|txs| - 1].amount
  }

  lemma TotalSnoc(txs: seq<Transaction>, t: Transaction)
    ensures Total(txs + [t]) == Total(txs) + t.amount
  {
    assert (txs + [t])[..|txs|] == txs;
  }

  function OwnedIncome(uid: string): Transaction -> bool {
    (t: Transaction) => t.userId == uid && t.kind == Income
  }

  /** Every kind other than `income` counts as an expense. */
  function OwnedExpense(uid: string): Transaction -> bool {
    (t: Transaction) => t.userId == uid && t.kind != Income
  }

  function OwnedExpenseIn(uid: string, k: string): Transaction -> bool {
    (t: Transaction) => t.userId == uid && t.kind != Income && t.category == k
  }

  /** Filtering a non-empty sequence: its front part, then its last element if kept. */
  lemma FilterInit(rows: seq<Transaction>, keep: Transaction -> bool)
    requires rows != []
    ensures Filter(rows, keep) == Filter(rows[..|rows| - 1], keep) + (if keep(rows[|rows| - 1]) then [rows[|rows| - 1]] else [])
  {
    var init, last := rows[..|rows| - 1], rows[|rows| - 1];
    assert rows == init + [last];
    FilterAppend(init, [last], keep);
    assert [last][1..] == [];
  }

  /** The income total sums the caller's `income` transactions. */
  lemma {:induction false} IncomeTotal(rows: seq<Transaction>, uid: string)
    ensures Fold(rows, uid).totalIncome == Total(Filter(rows, OwnedIncome(uid)))
  {
    if rows != [] {
      var init, last := rows[..|rows| - 1], rows[|rows| - 1];
      IncomeTotal(init, uid);
      var before := Filter(init, OwnedIncome(uid));
      var after := Filter(rows, OwnedIncome(uid));
      FilterInit(rows, OwnedIncome(uid));
      assert Fold(rows, uid) == Step(Fold(init, uid), last, uid);
      if last.userId == uid && last.kind == Income {
        assert after == before + [last];
        TotalSnoc(before, last);
      } else {
        assert after == before;
      }
    }
  }

  /** The expense total sums all the caller's other transactions, whatever
      their kind text. */
  lemma {:induction false} ExpenseTotal(rows: seq<Transaction>, uid: string)
    ensures Fold(rows, uid).totalExpense == Total(Filter(rows, OwnedExpense(uid)))
  {
    if rows != [] {
      var init, last := rows[..|rows| - 1], rows[|rows| - 1];
      ExpenseTotal(init, uid);
      var before := Filter(init, OwnedExpense(uid));
      var after := Filter(rows, OwnedExpense(uid));
      FilterInit(rows, OwnedExpense(uid));
      assert Fold(rows, uid) == Step(Fold(init, uid), last, uid);
      if last.userId == uid && last.kind != Income {
        assert after == before + [last];
        TotalSnoc(before, last);
      } else {
        assert after == before;
      }
    }
  }

  /** One loop step touches the entry for `k` only when it sees an expense of
      the caller in category `k`, and then adds its amount. */
  lemma StepEntry(acc: Summary, t: Transaction, uid: string, k: string)
    ensures var hit := OwnedExpenseIn(uid, k)(t);
      (k in Step(acc, t, uid).byCategory <==> k in acc.byCategory || hit)
      && CategoryTotal(Step(acc, t, uid).byCategory, k) == CategoryTotal(acc.byCategory, k) + (if hit then t.amount else 0.0)
  {
  }

  /** A category appears in the map exactly when the caller has an expense in
      it, and its value is the sum of those expenses. */
  lemma {:induction false} ByCategoryEntry(rows: seq<Transaction>, uid: string, k: string)
    ensures k in Fold(rows, uid).byCategory <==> Filter(rows, OwnedExpenseIn(uid, k)) != []
    ensures CategoryTotal(Fold(rows, uid).byCategory, k) == Total(Filter(rows, OwnedExpenseIn(uid, k)))
  {
    if rows != [] {
      var init, last := rows[..|rows| - 1], rows[|rows| - 1];
      ByCategoryEntry(init, uid, k);
      var before := Filter(init, OwnedExpenseIn(uid, k));
      var after := Filter(rows, OwnedExpenseIn(uid, k));
      FilterInit(rows, OwnedExpenseIn(uid, k));
      var acc := Fold(init, uid);
      assert Fold(rows, uid) == Step(acc, last, uid);
      StepEntry(acc, last, uid, k);
      if OwnedExpenseIn(uid, k)(last) {
        assert after == before + [last];
        TotalSnoc(before, last);
      } else {
        assert after == before;
      }
    }
  }

  /** The sum of the values of a map. */
  ghost function SumValues(m: map<string, real>): real
    decreases |m|
  {
    if m == map[] then 0.0
    else
      var k :| k in m;
      m[k] + SumValues(m - {k})
  }

  /** The sum can be taken by removing any key first. */
  lemma {:induction false} SumValuesRemove(m: map<string, real>, k: string)
    requires k in m
    ensures SumValues(m) == m[k] + SumValues(m - {k})
    decreases |m|
  {
    var j :| j in m && SumValues(m) == m[j] + SumValues(m - {j});
    if j != k {
      SumValuesRemove(m - {j}, k);
      SumValuesRemove(m - {k}, j);
      assert m - {j} - {k} == m - {k} - {j};
    }
  }

  /** Adding `a` to the entry for `k` adds `a` to the sum. */
  lemma SumValuesAdd(m: map<string, real>, k: string, a: real)
    ensures SumValues(m[k := CategoryTotal(m, k) + a]) == SumValues(m) + a
  {
    var m' := m[k := CategoryTotal(m, k) + a];
    SumValuesRemove(m', k);
    if k in m {
      SumValuesRemove(m, k);
      assert m' - {k} == m - {k};
    } else {
      assert m' - {k} == m;
    }
  }

  /** The per-category values add up to the expense total. */
  lemma {:induction false} ByCategorySumsToExpense(rows: seq<Transaction>, uid: string)
    ensures SumValues(Fold(rows, uid).byCategory) == Fold(rows, uid).totalExpense
  {
    if rows == [] {
    } else {
      var init, last := rows[..|rows| - 1], rows[|rows| - 1];
      ByCategorySumsToExpense(init, uid);
      if last.userId == uid && last.kind != Income {
        SumValuesAdd(Fold(init, uid).byCategory, last.category, last.amount);
      }
    }
  }

  /** Other users' transactions make no difference to the caller's summary. */
  lemma {:induction false} SummaryOnlyOwned(rows: seq<Transaction>, uid: string)
    ensures Fold(rows, uid) == Fold(OwnedBy(rows, uid), uid)
  {
    if rows != [] {
      var init, last := rows[..|rows| - 1], rows[|rows| - 1];
      SummaryOnlyOwned(init, uid);
      var before := OwnedBy(init, uid);
      var after := OwnedBy(rows, uid);
      FilterInit(rows, OwnerIs(uid));
      assert Fold(rows, uid) == Step(Fold(init, uid), last, uid);
      if last.userId == uid {
        assert after == before + [last];
        assert after[..|after| - 1] == before;
        assert Fold(after, uid) == Step(Fold(before, uid), last, uid);
      } else {
        assert after == before;
      }
    }
  }

  /** What `getSummary` reports, in the caller's terms: the income and expense
      totals, the balance between them, the per-category expenses adding up
      to the expense total, and no trace of other users' transactions. */
  lemma SummaryMeaning(rows: seq<Transaction>, uid: string, k: string)
    ensures var s := SummaryOf(rows, uid);
      s.totalIncome == Total(Filter(rows, OwnedIncome(uid)))
      && s.totalExpense == Total(Filter(rows, OwnedExpense(uid)))
      && s.balance == s.totalIncome - s.totalExpense
      && SumValues(s.byCategory) == s.totalExpense
      && (k in s.byCategory <==> Filter(rows, OwnedExpenseIn(uid, k)) != [])
      && CategoryTotal(s.byCategory, k) == Total(Filter(rows, OwnedExpenseIn(uid, k)))
      && s == SummaryOf(OwnedBy(rows, uid), uid)
  {
    IncomeTotal(rows, uid);
    ExpenseTotal(rows, uid);
    ByCategorySumsToExpense(rows, uid);
    ByCategoryEntry(rows, uid, k);
    SummaryOnlyOwned(rows, uid);
  }
}
