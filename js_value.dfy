/** The JavaScript values a record identifier can take on the client, with the
    three operations the client applies to them: truthiness (`x && ...`,
    `x || ...`), reading the `ID` property, and `JSON.stringify`. */
module JsValue {
  import opened Base

  /** Numbers are integers here. Object members are held in insertion
      order; `MemberOrder` gives the order JSON.stringify writes them in. */
  datatype Value =
    | Undefined
    | Null
    | Bool(b: bool)
    | Num(n: int)
    | Str(s: string)
    | Arr(items: seq<Value>)
    | Obj(members: seq<Member>)

  datatype Member = Member(key: string, value: Value)

  /** false, 0, "", null and undefined are falsy; arrays and objects are truthy. */
  predicate Truthy(v: Value) {
    match v
    case Undefined => false
    case Null => false
    case Bool(b) => b
    case Num(n) => n != 0
    case Str(s) => s != ""
    case Arr(_) => true
    case Obj(_) => true
  }

  /** `typeof v === 'object'`, which holds for null and arrays too. */
  predicate IsObjectType(v: Value) {
    v.Null? || v.Arr? || v.Obj?
  }

  /** The value bound to `key` among `members`, or undefined. */
  function Lookup(members: seq<Member>, key: string): (r: Value)
    ensures r != Undefined ==> exists i :: 0 <= i < |members| && members[i] == Member(key, r)
  {
    if members == [] then Undefined
    else if members[0].key == key then members[0].value
    else Lookup(members[1..], key)
  }

  /** Property read `v.key` for a key that no primitive or array owns (such
      as `ID`): only a plain object can supply it; `v?.key` on null or
      undefined gives undefined as well. */
  function Property(v: Value, key: string): (r: Value)
    ensures r != Undefined ==> v.Obj?
  {
    if v.Obj? then Lookup(v.members, key) else Undefined
  }

  function Digit(d: nat): char
    requires d < 10
  {
    "0123456789"[d]
  }

  function NatText(n: nat): string
    decreases n
  {
    if n < 10 then [Digit(n)] else NatText(n / 10) + [Digit(n % 10)]
  }

  function IntText(n: int): string {
    if n < 0 then "-" + NatText(-n) else NatText(n)
  }

  function HexDigit(d: nat): char
    requires d < 16
  {
    "0123456789abcdef"[d]
  }

  /** One character as it appears inside a JSON string literal. */
  function EscapeChar(c: char): string {
    if c == '"' then "\\\""
    else if c == '\\' then "\\\\"
    else if c == '\n' then "\\n"
    else if c == '\r' then "\\r"
    else if c == '\t' then "\\t"
    else if c == '\U{8}' then "\\b"
    else if c == '\U{C}' then "\\f"
    else if (c as int) < 0x20 then "\\u00" + [HexDigit(c as int / 16), HexDigit(c as int % 16)]
    else [c]
  }

  function Escape(s: string): string {
    if s == [] then "" else EscapeChar(s[0]) + Escape(s[1..])
  }

  /** A JSON string literal. */
  function Quote(s: string): string {
    "\"" + Escape(s) + "\""
  }

  /** The texts glued with commas. */
  function Commas(texts: seq<string>): string {
    if |texts| == 0 then ""
    else if |texts| == 1 then texts[0]
    else texts[0] + "," + Commas(texts[1..])
  }

  /** The value of a text of decimal digits. */
  function DecimalValue(k: string): int
    decreases |k|
  {
    if k == [] then 0 else DecimalValue(k[..|k| - 1]) * 10 + (k[|k| - 1] as int - '0' as int)
  }

  /** A key that is an array index: the canonical decimal text (no leading
      zero) of an integer below 2^32 - 1. */
  predicate IsIndexKey(k: string) {
    0 < |k| && AllDigits(k) && (k[0] != '0' || k == "0") && DecimalValue(k) < 0xFFFF_FFFF
  }

  predicate AllDigits(k: string) {
    k == [] || ('0' <= k[0] <= '9' && AllDigits(k[1..]))
  }

  function IsIndexMember(): Member -> bool {
    (m: Member) => IsIndexKey(m.key)
  }

  /** `m` placed before the first member whose index is not smaller. */
  function InsertByIndex(m: Member, sorted: seq<Member>): (r: seq<Member>)
    ensures multiset(r) == multiset([m] + sorted)
  {
    if sorted == [] || DecimalValue(m.key) <= DecimalValue(sorted[0].key) then [m] + sorted
    else
      assert sorted == [sorted[0]] + sorted[1..];
      [sorted[0]] + InsertByIndex(m, sorted[1..])
  }

  function SortByIndex(ms: seq<Member>): (r: seq<Member>)
    ensures multiset(r) == multiset(ms)
  {
    if ms == [] then []
    else
      assert ms == [ms[0]] + ms[1..];
      InsertByIndex(ms[0], SortByIndex(ms[1..]))
  }

  predicate Ascending(ms: seq<Member>) {
    forall i, j :: 0 <= i < j < |ms| ==> DecimalValue(ms[i].key) <= DecimalValue(ms[j].key)
  }

  /** The order in which an ordinary object's own keys are listed (section
      10.1.11.1 of ECMA-262, OrdinaryOwnPropertyKeys), which JSON.stringify
      follows: array-index keys in ascending numeric order, then the other
      keys in insertion order. */
  function MemberOrder(members: seq<Member>): (r: seq<Member>)
    ensures multiset(r) == multiset(members)
  {
    FilterSplit(members, IsIndexMember());
    SortByIndex(Filter(members, IsIndexMember())) + Filter(members, Not(IsIndexMember()))
  }

  lemma AscendingTail(ms: seq<Member>)
    requires ms != [] && Ascending(ms)
    ensures Ascending(ms[1..])
  {
    var tail := ms[1..];
    forall i, j | 0 <= i < j < |tail| ensures DecimalValue(tail[i].key) <= DecimalValue(tail[j].key) {
      assert tail[i] == ms[i + 1] && tail[j] == ms[j + 1];
    }
  }

  lemma AscendingCons(m: Member, rest: seq<Member>)
    requires Ascending(rest)
    requires forall k :: 0 <= k < |rest| ==> DecimalValue(m.key) <= DecimalValue(rest[k].key)
    ensures Ascending([m] + rest)
  {
    var r := [m] + rest;
    forall i, j | 0 <= i < j < |r| ensures DecimalValue(r[i].key) <= DecimalValue(r[j].key) {
      assert r[j] == rest[j - 1];
      if i > 0 {
        assert r[i] == rest[i - 1];
      }
    }
  }

  /** A lower bound on every index survives inserting a member above it. */
  lemma InsertKeepsBound(m: Member, s: seq<Member>, low: int)
    requires low <= DecimalValue(m.key)
    requires forall k :: 0 <= k < |s| ==> low <= DecimalValue(s[k].key)
    ensures forall k :: 0 <= k < |InsertByIndex(m, s)| ==> low <= DecimalValue(InsertByIndex(m, s)[k].key)
  {
    var r := InsertByIndex(m, s);
    forall k | 0 <= k < |r| ensures low <= DecimalValue(r[k].key) {
      assert r[k] in multiset([m] + s);
      if r[k] != m {
        assert r[k] in s;
        var j :| 0 <= j < |s| && s[j] == r[k];
      }
    }
  }

  lemma {:induction false} InsertByIndexAscending(m: Member, s: seq<Member>)
    requires Ascending(s)
    ensures Ascending(InsertByIndex(m, s))
  {
    if s == [] || DecimalValue(m.key) <= DecimalValue(s[0].key) {
      forall k | 0 <= k < |s| ensures DecimalValue(m.key) <= DecimalValue(s[k].key) {
        if k > 0 {
          assert DecimalValue(s[0].key) <= DecimalValue(s[k].key);
        }
      }
      AscendingCons(m, s);
    } else {
      var tail := s[1..];
      AscendingTail(s);
      InsertByIndexAscending(m, tail);
      forall k | 0 <= k < |tail| ensures DecimalValue(s[0].key) <= DecimalValue(tail[k].key) {
        assert tail[k] == s[k + 1];
      }
      InsertKeepsBound(m, tail, DecimalValue(s[0].key));
      AscendingCons(s[0], InsertByIndex(m, tail));
    }
  }

  lemma {:induction false} SortByIndexAscending(ms: seq<Member>)
    ensures Ascending(SortByIndex(ms))
  {
    if ms != [] {
      SortByIndexAscending(ms[1..]);
      InsertByIndexAscending(ms[0], SortByIndex(ms[1..]));
    }
  }

  /** Array-index keys come first, in ascending numeric order. */
  lemma IndexKeysFirst(members: seq<Member>)
    ensures IndexFirstAscending(MemberOrder(members))
  {
    var idx := Filter(members, IsIndexMember());
    var sorted := SortByIndex(idx);
    var other := Filter(members, Not(IsIndexMember()));
    var r := MemberOrder(members);
    assert r == sorted + other;
    SortByIndexAscending(idx);
    forall i, j | 0 <= i < j < |r| && IsIndexKey(r[j].key)
      ensures IsIndexKey(r[i].key) && DecimalValue(r[i].key) <= DecimalValue(r[j].key)
    {
      assert j < |sorted|;
      assert r[i] == sorted[i] && r[j] == sorted[j];
      assert sorted[i] in multiset(idx);
      assert sorted[i] in idx;
    }
  }

  /** Every member sorted by `MemberOrder` has an array-index key. */
  lemma SortedAreIndexMembers(idx: seq<Member>)
    requires forall i :: 0 <= i < |idx| ==> IsIndexKey(idx[i].key)
    ensures forall i :: 0 <= i < |SortByIndex(idx)| ==> IsIndexKey(SortByIndex(idx)[i].key)
  {
    var sorted := SortByIndex(idx);
    forall i | 0 <= i < |sorted| ensures IsIndexKey(sorted[i].key) {
      assert sorted[i] in multiset(idx);
      var j :| 0 <= j < |idx| && idx[j] == sorted[i];
    }
  }

  lemma NoneKept(ms: seq<Member>, keep: Member -> bool)
    requires forall i :: 0 <= i < |ms| ==> !keep(ms[i])
    ensures Filter(ms, keep) == []
  {
  }

  /** The other keys keep their insertion order. */
  lemma OtherKeysInInsertionOrder(members: seq<Member>)
    ensures Filter(MemberOrder(members), Not(IsIndexMember())) == Filter(members, Not(IsIndexMember()))
  {
    var notIndex := Not(IsIndexMember());
    var sorted := SortByIndex(Filter(members, IsIndexMember()));
    var other := Filter(members, notIndex);
    FilterAppend(sorted, other, notIndex);
    SortedAreIndexMembers(Filter(members, IsIndexMember()));
    NoneKept(sorted, notIndex);
    FilterKeepsAll(other, notIndex);
  }

  function IsDefinedMember(): Member -> bool {
    (m: Member) => !m.value.Undefined?
  }

  /** `JSON.stringify(v)`: no text for undefined; inside an array undefined is
      written as null, and an object member whose value is undefined is left
      out; object members are written in `MemberOrder`. */
  function Stringify(v: Value): (r: Option<string>)
    ensures r.None? <==> v.Undefined?
    decreases v, 0
  {
    match v
    case Undefined => None
    case Null => Some("null")
    case Bool(b) => Some(if b then "true" else "false")
    case Num(n) => Some(IntText(n))
    case Str(s) => Some(Quote(s))
    case Arr(items) =>
      Some("[" + Commas(seq(|items|, i requires 0 <= i < |items| => Stringify(items[i]).GetOr("null"))) + "]")
    case Obj(members) =>
      var ordered := MemberOrder(members);
      var shown := Filter(ordered, IsDefinedMember());
      Some("{" + Commas(seq(|shown|, i requires 0 <= i < |shown| =>
        assert shown[i] in multiset(ordered);
        assert shown[i] in members;
        MemberText(shown[i]))) + "}")
  }

  lemma KeysOfExample()
    ensures !IsIndexKey("b") && IsIndexKey("0")
    ensures Quote("0") == "\"0\"" && Quote("b") == "\"b\""
  {
    assert !AllDigits("b");
    assert DecimalValue("0") == DecimalValue("") * 10 + 0;
    assert Escape("0") == EscapeChar('0') + Escape("");
    assert Escape("b") == EscapeChar('b') + Escape("");
  }

  /** Members added as `b` then `0` are listed as `0` then `b`. */
  lemma IndexKeyListedFirst(x: Value, y: Value)
    ensures MemberOrder([Member("b", x), Member("0", y)]) == [Member("0", y), Member("b", x)]
  {
    var members := [Member("b", x), Member("0", y)];
    KeysOfExample();
    assert members[1..] == [Member("0", y)] && members[1..][1..] == [];
    assert Filter(members, IsIndexMember()) == [Member("0", y)];
    assert Filter(members, Not(IsIndexMember())) == [Member("b", x)];
    var one := [Member("0", y)];
    assert one[1..] == [];
    assert SortByIndex(one) == InsertByIndex(one[0], SortByIndex([]));
  }

  /** The text of one shown member: its quoted key, a colon and its value's text. */
  function MemberText(m: Member): string
    requires !m.value.Undefined?
    decreases m.value, 1
  {
    Quote(m.key) + ":" + Stringify(m.value).value
  }

  function MemberTexts(shown: seq<Member>): (texts: seq<string>)
    requires forall i :: 0 <= i < |shown| ==> !shown[i].value.Undefined?
    ensures |texts| == |shown|
    ensures forall i :: 0 <= i < |shown| ==> texts[i] == MemberText(shown[i])
  {
    seq(|shown|, i requires 0 <= i < |shown| => MemberText(shown[i]))
  }

  /** The members an object's JSON text lists, in the order it lists them. */
  function Shown(members: seq<Member>): (shown: seq<Member>)
    ensures forall i :: 0 <= i < |shown| ==> !shown[i].value.Undefined?
  {
    Filter(MemberOrder(members), IsDefinedMember())
  }

  /** Unfolds `Stringify` on an object into the texts of its `Shown` members. */
  lemma StringifyObject(members: seq<Member>)
    ensures Stringify(Obj(members)) == Some("{" + Commas(MemberTexts(Shown(members))) + "}")
  {
  }

  /** Array-index keys before all others, in ascending numeric order. */
  predicate IndexFirstAscending(r: seq<Member>) {
    forall i, j :: 0 <= i < j < |r| && IsIndexKey(r[j].key) ==>
      IsIndexKey(r[i].key) && DecimalValue(r[i].key) <= DecimalValue(r[j].key)
  }

  /** `m` may stand before every member of `t` without breaking `IndexFirstAscending`. */
  predicate HeadBound(m: Member, t: seq<Member>) {
    forall k :: 0 <= k < |t| && IsIndexKey(t[k].key) ==>
      IsIndexKey(m.key) && DecimalValue(m.key) <= DecimalValue(t[k].key)
  }

  lemma IndexFirstTail(s: seq<Member>)
    requires s != [] && IndexFirstAscending(s)
    ensures IndexFirstAscending(s[1..]) && HeadBound(s[0], s[1..])
  {
    var tail := s[1..];
    forall i, j | 0 <= i < j < |tail| && IsIndexKey(tail[j].key)
      ensures IsIndexKey(tail[i].key) && DecimalValue(tail[i].key) <= DecimalValue(tail[j].key)
    {
      assert tail[i] == s[i + 1] && tail[j] == s[j + 1];
    }
    forall k | 0 <= k < |tail| && IsIndexKey(tail[k].key)
      ensures IsIndexKey(s[0].key) && DecimalValue(s[0].key) <= DecimalValue(tail[k].key)
    {
      assert tail[k] == s[k + 1];
    }
  }

  lemma IndexFirstCons(m: Member, rest: seq<Member>)
    requires IndexFirstAscending(rest) && HeadBound(m, rest)
    ensures IndexFirstAscending([m] + rest)
  {
    var r := [m] + rest;
    forall i, j | 0 <= i < j < |r| && IsIndexKey(r[j].key)
      ensures IsIndexKey(r[i].key) && DecimalValue(r[i].key) <= DecimalValue(r[j].key)
    {
      assert r[j] == rest[j - 1];
      if i > 0 {
        assert r[i] == rest[i - 1];
      }
    }
  }

  lemma FilterKeepsHeadBound(m: Member, t: seq<Member>, keep: Member -> bool)
    requires HeadBound(m, t)
    ensures HeadBound(m, Filter(t, keep))
  {
    var f := Filter(t, keep);
    forall k | 0 <= k < |f| && IsIndexKey(f[k].key)
      ensures IsIndexKey(m.key) && DecimalValue(m.key) <= DecimalValue(f[k].key)
    {
      assert f[k] in t;
      var n :| 0 <= n < |t| && t[n] == f[k];
    }
  }

  /** Filtering keeps array-index keys first and ascending. */
  lemma {:induction false} FilterKeepsIndexFirst(s: seq<Member>, keep: Member -> bool)
    requires IndexFirstAscending(s)
    ensures IndexFirstAscending(Filter(s, keep))
  {
    if s != [] {
      IndexFirstTail(s);
      FilterKeepsIndexFirst(s[1..], keep);
      if keep(s[0]) {
        FilterKeepsHeadBound(s[0], s[1..], keep);
        IndexFirstCons(s[0], Filter(s[1..], keep));
      }
    }
  }

  lemma MultisetOfFilter(a: seq<Member>, b: seq<Member>, keep: Member -> bool)
    requires multiset(a) == multiset(b)
    ensures multiset(Filter(a, keep)) == multiset(Filter(b, keep))
  {
    forall x ensures multiset(Filter(a, keep))[x] == multiset(Filter(b, keep))[x] {
      FilterMultiset(a, keep, x);
      FilterMultiset(b, keep, x);
    }
  }

  /** An object's JSON text lists the `Shown` members, and they are exactly
      the members whose value is defined, each once per binding; array-index keys come first in
      ascending order; the other keys follow in insertion order. */
  lemma ShownMembers(members: seq<Member>)
    ensures Stringify(Obj(members)) == Some("{" + Commas(MemberTexts(Shown(members))) + "}")
    ensures multiset(Shown(members)) == multiset(Filter(members, IsDefinedMember()))
    ensures IndexFirstAscending(Shown(members))
    ensures Filter(Shown(members), Not(IsIndexMember()))
      == Filter(Filter(members, IsDefinedMember()), Not(IsIndexMember()))
  {
    var ordered := MemberOrder(members);
    StringifyObject(members);
    MultisetOfFilter(ordered, members, IsDefinedMember());
    IndexKeysFirst(members);
    FilterKeepsIndexFirst(ordered, IsDefinedMember());
    FilterCommute(ordered, IsDefinedMember(), Not(IsIndexMember()));
    OtherKeysInInsertionOrder(members);
    FilterCommute(members, IsDefinedMember(), Not(IsIndexMember()));
  }

  lemma TwoMembersShown(x: Value, y: Value)
    requires !x.Undefined? && !y.Undefined?
    ensures Filter([Member("0", y), Member("b", x)], IsDefinedMember()) == [Member("0", y), Member("b", x)]
  {
    var ordered := [Member("0", y), Member("b", x)];
    assert ordered[1..] == [Member("b", x)] && ordered[1..][1..] == [];
  }

  lemma TwoMemberTexts(first: Member, second: Member)
    requires !first.value.Undefined? && !second.value.Undefined?
    ensures Commas(MemberTexts([first, second])) == MemberText(first) + "," + MemberText(second)
  {
    var texts := MemberTexts([first, second]);
    assert texts[1..] == [texts[1]];
  }

  lemma ExampleMemberTexts(x: Value, y: Value)
    requires !x.Undefined? && !y.Undefined?
    ensures MemberText(Member("0", y)) + "," + MemberText(Member("b", x))
      == "\"0\":" + Stringify(y).value + ",\"b\":" + Stringify(x).value
  {
    KeysOfExample();
    LiteralPieces();
  }

  lemma LiteralPieces()
    ensures "\"0\"" + ":" == "\"0\":"
    ensures "," + ("\"b\"" + ":") == ",\"b\":"
  {
  }

  lemma ShownOfExample(x: Value, y: Value)
    requires !x.Undefined? && !y.Undefined?
    ensures Shown([Member("b", x), Member("0", y)]) == [Member("0", y), Member("b", x)]
  {
    IndexKeyListedFirst(x, y);
    TwoMembersShown(x, y);
  }

  /** An array-index key is written before a key that was added earlier:
      `{b: x, 0: y}` is written as `{"0":y,"b":x}`. */
  lemma StringifyIndexKeyFirst(x: Value, y: Value)
    requires !x.Undefined? && !y.Undefined?
    ensures Stringify(Obj([Member("b", x), Member("0", y)]))
      == Some("{" + ("\"0\":" + Stringify(y).value + ",\"b\":" + Stringify(x).value) + "}")
  {
    StringifyObject([Member("b", x), Member("0", y)]);
    ShownOfExample(x, y);
    TwoMemberTexts(Member("0", y), Member("b", x));
    ExampleMemberTexts(x, y);
  }
}
