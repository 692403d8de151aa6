/** How the two sides meet over HTTP: the JSON shape the server gives a
    record identifier (an object with `Table` and `ID` members, since the
    identifier type has no JSON tags), the transaction as the client reads it,
    and the properties that need both sides: the identifier path from a list
    row back to the record it names, the create form against the server's
    checks, and the lists the client ends up showing. */
module EndToEnd {
  import opened Base
  import opened JsValue
  import opened Records
  import opened Auth
  import Server
  import ClientTypes
  import Helpers
  import AddScreen
  import UseApi
  import TransactionItem

  /** The JSON of a server record identifier; an absent one is omitted. */
  function ToClientId(id: Option<Server.RecordId>): (v: Value)
    ensures id.None? <==> v.Undefined?
    ensures id.Some? ==> Property(v, "ID") == Str(id.value.key)
  {
    match id
    case None => Undefined
    case Some(rid) =>
      var members := [Member("Table", Str(rid.table)), Member("ID", Str(rid.key))];
      assert "Table" != "ID" by { assert |"Table"| != |"ID"|; }
      assert members[1..] == [Member("ID", Str(rid.key))];
      assert Lookup(members[1..], "ID") == Str(rid.key);
      assert Lookup(members, "ID") == Lookup(members[1..], "ID");
      Obj(members)
  }

  /** A server transaction as the client receives it; an empty `created_at`
      is omitted. */
  function ToClient(t: Server.Transaction): (c: ClientTypes.Transaction)
    ensures c.kind == t.kind && c.amount == t.amount && c.category == t.category
    ensures c.description == t.description && c.date == t.date
    ensures c.createdAt.None? <==> t.createdAt == ""
  {
    ClientTypes.Transaction(ToClientId(t.id), t.kind, t.amount, t.category, t.description, t.date,
                            if t.createdAt == "" then None else Some(t.createdAt))
  }

  function ToClientAll(ts: seq<Server.Transaction>): (cs: seq<ClientTypes.Transaction>)
    ensures |cs| == |ts|
    ensures forall i :: 0 <= i < |ts| ==> cs[i] == ToClient(ts[i])
  {
    if ts == [] then [] else [ToClient(ts[0])] + ToClientAll(ts[1..])
  }

  /** The body of the list reply as the client parses it: `null` for Go's nil
      slice, otherwise the array. */
  function ListBody(body: Option<seq<Server.Transaction>>): UseApi.Body<seq<ClientTypes.Transaction>> {
    match body
    case None => UseApi.Parsed(None)
    case Some(ts) => UseApi.Parsed(Some(ToClientAll(ts)))
  }

  /** The identifier path: a stored transaction's id, normalised on the client
      and prefixed on the server, names that same record again, provided its
      key is not empty and does not itself start with the table prefix. */
  lemma {:induction false} IdPathRoundTrip(key: string)
    requires key != "" && !HasPrefix(key, Server.TransactionPrefix)
    ensures Helpers.NormalizeId(ToClientId(Some(Server.RecordId(Server.TransactionTable, key)))) == Str(key)
    ensures Server.TransactionRecordId(key) == Server.RecordIdText(Server.RecordId(Server.TransactionTable, key))
    ensures Server.Identifies(Server.TransactionRecordId(key), Some(Server.RecordId(Server.TransactionTable, key)))
  {
    var v := ToClientId(Some(Server.RecordId(Server.TransactionTable, key)));
    assert Truthy(v) && IsObjectType(v);
    assert Truthy(Str(key));
    Server.TransactionKeyOrText(key);
  }

  /** The row's delete button sends the same key. */
  lemma DeleteArgumentIsKey(t: Server.Transaction)
    requires t.id.Some? && t.id.value.key != ""
    ensures TransactionItem.DeleteArgument(ToClient(t)) == Str(t.id.value.key)
  {
    var v := ToClientId(t.id);
    assert Truthy(v) && IsObjectType(v);
    assert Truthy(Str(t.id.value.key));
  }

  /** After a delete through a row's button, no list the server gives out
      holds the record the row showed. */
  lemma {:induction false} DeleteThenListHidesRow(table: seq<Server.Transaction>, key: string, uid: string)
    requires key != "" && !HasPrefix(key, Server.TransactionPrefix)
    ensures var sent := Helpers.NormalizeId(ToClientId(Some(Server.RecordId(Server.TransactionTable, key))));
      sent.Str? &&
      var after := Server.DeleteTransaction(table, sent.s, None).value;
      forall i :: 0 <= i < |Server.OwnedBy(after, uid)| ==>
        Server.OwnedBy(after, uid)[i].id != Some(Server.RecordId(Server.TransactionTable, key))
  {
    IdPathRoundTrip(key);
    var after := Server.DeleteTransaction(table, key, None).value;
    var owned := Server.OwnedBy(after, uid);
    forall i | 0 <= i < |owned|
      ensures owned[i].id != Some(Server.RecordId(Server.TransactionTable, key))
    {
      assert owned[i] in after;
    }
  }

  /** The request the add screen sends, as the server binds it: no id, owner
      or creation time. */
  function Bound(p: ClientTypes.NewTransaction): (t: Server.Transaction)
    ensures t.id.None? && t.userId == "" && t.createdAt == ""
    ensures t.kind == p.kind && t.amount == p.amount && t.category == p.category
    ensures t.description == p.description && t.date == p.date
  {
    Server.Transaction(None, "", p.kind, p.amount, p.category, p.description, p.date, "")
  }

  /** Every form the add screen lets through passes the server's checks for a
      signed-in caller, and the stored record carries the form's values. */
  lemma ValidFormAccepted(kind: ClientTypes.Kind, amount: string, category: string, description: string, date: string,
                          parsed: Option<real>, claims: UserClaims, now: string)
    requires AddScreen.ValidateForm(kind, amount, category, description, date, parsed).Ok?
    ensures var p := AddScreen.ValidateForm(kind, amount, category, description, date, parsed).value;
      var r := Server.AcceptTransaction(Ok(claims), Ok(Bound(p)), now);
      r.Ok? && r.value.userId == claims.uid && r.value.amount == parsed.value && r.value.category == category
      && r.value.kind == ClientTypes.KindName(kind)
  {
    AddScreen.ValidPayload(kind, amount, category, description, date, parsed);
  }

  /** After a reload whose transaction read succeeds, the client holds exactly
      the caller's stored transactions in stored order, and an empty list
      (sent as `null`) becomes an empty list rather than the old one. */
  lemma {:induction false} ReloadShowsOwned(v: UseApi.View, data: seq<Server.Transaction>, uid: string,
                                            categories: UseApi.Outcome<UseApi.Body<seq<ClientTypes.Category>>>,
                                            summary: UseApi.Outcome<UseApi.Body<Summary>>)
    requires !categories.Throws? && !summary.Throws?
    requires categories != UseApi.OkReply(UseApi.Malformed) && summary != UseApi.OkReply(UseApi.Malformed)
    ensures var owned := Server.OwnedBy(data, uid);
      var body := if owned == [] then None else Some(owned);
      UseApi.Reload(v, UseApi.Replies(UseApi.OkReply(ListBody(body)), categories, summary)).transactions
        == ToClientAll(owned)
  {
    var owned := Server.OwnedBy(data, uid);
    if owned == [] {
      assert ToClientAll(owned) == [];
    }
  }

  /** The client's reads carry no `Authorization` header, so the protected
      routes answer 401 before any handler runs; the client then keeps the
      transactions and summary it had, and shows no error. */
  lemma UnsignedReadsKeepOldState(verify: string -> Option<Token>, v: UseApi.View,
                                  categories: UseApi.Outcome<UseApi.Body<seq<ClientTypes.Category>>>)
    requires !categories.Throws? && categories != UseApi.OkReply(UseApi.Malformed)
    ensures Authorize("", verify) == Err(HeaderRequired)
    ensures var w := UseApi.Reload(v, UseApi.Replies(UseApi.NotOk, categories, UseApi.NotOk));
      w.transactions == v.transactions && w.summary == v.summary && w.error == None
  {
  }
}
