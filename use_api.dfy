/** The client's data hook (`useApi`): five state cells that `fetchData`,
    `createTransaction` and `deleteTransaction` overwrite according to how
    each HTTP exchange turns out. The network is a log of issued requests;
    each reply is an abstract outcome given to the method. */
module UseApi {
  import opened Base
  import opened Records
  import opened ClientTypes

  /** How a `fetch` turns out: a response with `ok` set (and its body), one
      with `ok` unset, or a rejected promise. */
  datatype Outcome<T> = OkReply(body: T) | NotOk | Throws

  /** What `await res.json()` gives: a JSON value (null as None) or a rejection. */
  datatype Body<T> = Parsed(value: Option<T>) | Malformed

  /** The replies to the three reads that `fetchData` issues together. */
  datatype Replies = Replies(
    transactions: Outcome<Body<seq<Transaction>>>,
    categories: Outcome<Body<seq<Category>>>,
    summary: Outcome<Body<Summary>>)

  datatype Request =
    | ListTransactions
    | ListCategories
    | GetSummary
    | PostTransaction(payload: NewTransaction)
    | DeleteById(id: string)

  const FetchRequests: seq<Request> := [ListTransactions, ListCategories, GetSummary]

  const LoadError := "データの読み込みに失敗しました"

  /** The five state cells. */
  datatype View = View(
    transactions: seq<Transaction>,
    categories: seq<Category>,
    summary: Option<Summary>,
    loading: bool,
    error: Option<string>)

  predicate AnyThrows(rs: Replies) {
    rs.transactions.Throws? || rs.categories.Throws? || rs.summary.Throws?
  }

  predicate AnyMalformed(rs: Replies) {
    rs.transactions == OkReply(Malformed) || rs.categories == OkReply(Malformed) || rs.summary == OkReply(Malformed)
  }

  /** The `try` block of `fetchData` after the requests are issued: Ok with the
      state it ends in, or Err with the state at the statement that threw.
      A rejected fetch rejects the joint await before any setter runs; a body
      that fails to parse stops the setters that follow it. */
  function TryBlock(v: View, rs: Replies): (r: Result<View, View>)
    ensures r.Ok? <==> !AnyThrows(rs) && !AnyMalformed(rs)
    ensures AnyThrows(rs) ==> r == Err(v)
    ensures match r
      case Ok(w) => w.loading == v.loading && w.error == v.error
      case Err(w) => w.loading == v.loading && w.error == v.error
  {
    if AnyThrows(rs) then Err(v)
    else if rs.transactions == OkReply(Malformed) then Err(v)
    else
      var v1 := if rs.transactions.OkReply? then v.(transactions := rs.transactions.body.value.GetOr([])) else v;
      if rs.categories == OkReply(Malformed) then Err(v1)
      else
        var v2 := if rs.categories.OkReply? then v1.(categories := rs.categories.body.value.GetOr([])) else v1;
        if rs.summary == OkReply(Malformed) then Err(v2)
        else
          var v3 := if rs.summary.OkReply? then v2.(summary := rs.summary.body.value) else v2;
          Ok(v3)
  }

  /** The state `fetchData` leaves once every reply is in: the try block, the
      error message from the catch block, and `loading` cleared by `finally`. */
  function Settle(v: View, rs: Replies): (w: View)
    ensures !w.loading
    ensures w.error == if TryBlock(v, rs).Err? then Some(LoadError) else v.error
  {
    match TryBlock(v, rs)
    case Ok(w) => w.(loading := false)
    case Err(w) => w.(error := Some(LoadError), loading := false)
  }

  /** What `fetchData` does as one step from state `v`. Every reload ends with `loading` false, whatever the replies; the error
      cell ends empty exactly when no fetch was rejected and every ok body
      parsed; each resource keeps its old value or takes its ok reply's body. */
  function Reload(v: View, rs: Replies): (w: View)
    ensures !w.loading
    ensures w.error == if AnyThrows(rs) || AnyMalformed(rs) then Some(LoadError) else None
    ensures w.transactions == v.transactions
      || (rs.transactions.OkReply? && rs.transactions.body.Parsed? && w.transactions == rs.transactions.body.value.GetOr([]))
    ensures w.categories == v.categories
      || (rs.categories.OkReply? && rs.categories.body.Parsed? && w.categories == rs.categories.body.value.GetOr([]))
    ensures w.summary == v.summary
      || (rs.summary.OkReply? && rs.summary.body.Parsed? && w.summary == rs.summary.body.value)
  {
    Settle(v.(loading := true, error := None), rs)
  }

  /** A not-ok reply leaves that resource's previous value in place. */
  lemma NotOkKeepsResource(v: View, rs: Replies)
    ensures rs.transactions.NotOk? ==> Reload(v, rs).transactions == v.transactions
    ensures rs.categories.NotOk? ==> Reload(v, rs).categories == v.categories
    ensures rs.summary.NotOk? ==> Reload(v, rs).summary == v.summary
  {
  }

  /** An ok body that fails to parse throws inside the `try` block, so the
      setters after it do not run: the resources read later keep their old
      values, and the error is set. The setters before it have run: a body
      that parsed earlier is taken. */
  lemma MalformedStopsLater(v: View, rs: Replies)
    requires !AnyThrows(rs)
    ensures rs.transactions == OkReply(Malformed) ==>
      Reload(v, rs).categories == v.categories && Reload(v, rs).summary == v.summary
    ensures rs.categories == OkReply(Malformed) ==> Reload(v, rs).summary == v.summary
    ensures AnyMalformed(rs) ==> Reload(v, rs).error == Some(LoadError)
    ensures rs.transactions.OkReply? && rs.transactions.body.Parsed? ==>
      Reload(v, rs).transactions == rs.transactions.body.value.GetOr([])
    ensures rs.transactions != OkReply(Malformed) && rs.categories.OkReply? && rs.categories.body.Parsed? ==>
      Reload(v, rs).categories == rs.categories.body.value.GetOr([])
  {
  }

  /** A rejected fetch leaves all three resources as they were and sets the error. */
  lemma ThrowKeepsAll(v: View, rs: Replies)
    requires AnyThrows(rs)
    ensures Reload(v, rs).transactions == v.transactions
    ensures Reload(v, rs).categories == v.categories
    ensures Reload(v, rs).summary == v.summary
    ensures Reload(v, rs).error == Some(LoadError)
  {
  }

  /** An ok reply whose body is null gives an empty list for transactions and
      categories, and no summary; a list body is taken as it is. */
  lemma OkBodyTaken(v: View, rs: Replies)
    requires !AnyThrows(rs) && !AnyMalformed(rs)
    ensures rs.transactions.OkReply? ==> Reload(v, rs).transactions == rs.transactions.body.value.GetOr([])
    ensures rs.categories.OkReply? ==> Reload(v, rs).categories == rs.categories.body.value.GetOr([])
    ensures rs.summary.OkReply? ==> Reload(v, rs).summary == rs.summary.body.value
    ensures Reload(v, rs).error == None
  {
  }

  /** The three resources are independent: a failed category read neither
      blocks nor blanks the transactions and the summary. */
  lemma FailedCategoriesKeepOthers(v: View, txs: seq<Transaction>, s: Summary)
    ensures var w := Reload(v, Replies(OkReply(Parsed(Some(txs))), NotOk, OkReply(Parsed(Some(s)))));
      w.transactions == txs && w.categories == v.categories && w.summary == Some(s) && w.error == None
  {
  }

  /** The hook's state, with the requests it has sent. */
  class ApiHook {
    var transactions: seq<Transaction>
    var categories: seq<Category>
    var summary: Option<Summary>
    var loading: bool
    var error: Option<string>
    var requests: seq<Request>

    function Snapshot(): View
      reads this
    {
      View(transactions, categories, summary, loading, error)
    }

    constructor ()
      ensures Snapshot() == View([], [], None, true, None)
      ensures requests == []
    {
      transactions := [];
      categories := [];
      summary := None;
      loading := true;
      error := None;
      requests := [];
    }

    /** The start of `fetchData`, up to the joint await: while the three reads
        are in flight, `loading` is true and the error is cleared. */
    method BeginFetch()
      modifies this
      ensures Snapshot() == old(Snapshot()).(loading := true, error := None)
      ensures requests == old(requests) + FetchRequests
    {
      loading := true;
      error := None;
      requests := requests + FetchRequests;
    }

    /** The rest of `fetchData`, once the replies are in. */
    method FinishFetch(rs: Replies)
      modifies this
      ensures Snapshot() == Settle(old(Snapshot()), rs)
      ensures requests == old(requests)
    {
      var failed := AnyThrows(rs);
      if !failed {
        match rs.transactions {
          case OkReply(Parsed(body)) => transactions := body.GetOr([]);
          case OkReply(Malformed) => failed := true;
          case _ =>
        }
      }
      if !failed {
        match rs.categories {
          case OkReply(Parsed(body)) => categories := body.GetOr([]);
          case OkReply(Malformed) => failed := true;
          case _ =>
        }
      }
      if !failed {
        match rs.summary {
          case OkReply(Parsed(body)) => summary := body;
          case OkReply(Malformed) => failed := true;
          case _ =>
        }
      }
      if failed {
        error := Some(LoadError);
      }
      loading := false;
    }

    method FetchData(rs: Replies)
      modifies this
      ensures Snapshot() == Reload(old(Snapshot()), rs)
      ensures requests == old(requests) + FetchRequests
    {
      BeginFetch();
      FinishFetch(rs);
    }

    /** `createTransaction`: one POST; on an ok reply a full reload and true,
        otherwise (not ok or rejected) false and no further request. */
    method CreateTransaction(payload: NewTransaction, reply: Outcome<()>, reload: Replies) returns (ok: bool)
      modifies this
      ensures ok <==> reply.OkReply?
      ensures Snapshot() == if ok then Reload(old(Snapshot()), reload) else old(Snapshot())
      ensures requests == old(requests) + [PostTransaction(payload)] + (if ok then FetchRequests else [])
    {
      requests := requests + [PostTransaction(payload)];
      if reply.OkReply? {
        FetchData(reload);
        ok := true;
      } else {
        ok := false;
      }
    }

    /** `deleteTransaction`: one DELETE for `id`, never retried; on an ok
        reply a full reload and true, otherwise false. */
    method DeleteTransaction(id: string, reply: Outcome<()>, reload: Replies) returns (ok: bool)
      modifies this
      ensures ok <==> reply.OkReply?
      ensures Snapshot() == if ok then Reload(old(Snapshot()), reload) else old(Snapshot())
      ensures requests == old(requests) + [DeleteById(id)] + (if ok then FetchRequests else [])
    {
      requests := requests + [DeleteById(id)];
      if reply.OkReply? {
        FetchData(reload);
        ok := true;
      } else {
        ok := false;
      }
    }
  }
}
