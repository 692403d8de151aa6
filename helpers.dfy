/** The client's identifier normaliser (`getRecordId`) and the date-input
    formatter (`formatDateForInput`). Currency and locale date formatting are
    not part of this model. */
module Helpers {
  import opened Base
  import opened JsValue

  /** `getRecordId(id)`: a string is kept; a truthy object whose `ID` property
      is truthy gives that property; anything else gives its JSON text (and
      undefined, which has no JSON text, gives undefined). The result is a
      string except for undefined and for an object whose truthy `ID` is not
      a string. */
  function NormalizeId(id: Value): (r: Value)
    ensures id.Str? ==> r == id
    ensures id.Obj? && Truthy(Property(id, "ID")) ==> r == Property(id, "ID")
    ensures id.Obj? && !Truthy(Property(id, "ID")) ==> r.Str? && HasPrefix(r.s, "{")
    ensures id.Null? ==> r == Str("null")
    ensures !id.Str? && !(id.Obj? && Truthy(Property(id, "ID"))) && !id.Undefined? ==> r == Str(Stringify(id).value)
    ensures !r.Str? <==> id.Undefined? || (id.Obj? && Truthy(Property(id, "ID")) && !Property(id, "ID").Str?)
  {
    if id.Str? then id
    else if Truthy(id) && IsObjectType(id) && Truthy(Property(id, "ID")) then Property(id, "ID")
    else
      match Stringify(id)
      case Some(text) => Str(text)
      case None => Undefined
  }

  /** An object without an `ID` is normalised to its JSON text, which lists
      an array-index key before a key added earlier: `getRecordId({b: x, 0: y})`
      is `'{"0":y,"b":x}'`. */
  lemma NormalizeIdIndexKeyFirst(x: Value, y: Value)
    requires !x.Undefined? && !y.Undefined?
    ensures NormalizeId(Obj([Member("b", x), Member("0", y)]))
      == Str("{" + ("\"0\":" + Stringify(y).value + ",\"b\":" + Stringify(x).value) + "}")
  {
    NoIdMember(x, y);
    StringifyIndexKeyFirst(x, y);
  }

  lemma NoIdMember(x: Value, y: Value)
    ensures Property(Obj([Member("b", x), Member("0", y)]), "ID") == Undefined
  {
    var ms := [Member("b", x), Member("0", y)];
    assert ms[1..] == [Member("0", y)] && ms[1..][1..] == [];
  }

  /** Normalising a string result again returns it unchanged. */
  lemma NormalizeIdIdempotent(id: Value)
    requires NormalizeId(id).Str?
    ensures NormalizeId(NormalizeId(id)) == NormalizeId(id)
  {
  }

  /** `formatDateForInput`: the part of an ISO timestamp before its first `T`
      (`iso.split('T')[0]`), the whole text when it has none. */
  function DateForInput(iso: string): (day: string)
    ensures HasPrefix(iso, day)
    ensures 'T' !in day
    ensures day == iso || iso[|day|] == 'T'
  {
    SplitFirstPart(iso, 'T');
    Split(iso, 'T')[0]
  }
}
