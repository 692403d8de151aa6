/** The add-transaction screen: the category list filtered by the chosen
    kind, the effect that picks a default category, and the submit handler
    that validates the form before anything is sent. `Number.parseFloat` is
    an input: the number it gives, or None for NaN. */
module AddScreen {
  import opened Base
  import opened ClientTypes
  import opened Helpers
  import UseApi

  function KindIs(kind: string): Category -> bool {
    (c: Category) => c.kind == kind
  }

  /** `categories.filter(c => c.type === type)`. */
  function CategoriesOfKind(categories: seq<Category>, kind: string): (r: seq<Category>)
    ensures forall i :: 0 <= i < |r| ==> r[i].kind == kind && r[i] in categories
    ensures forall i :: 0 <= i < |categories| && categories[i].kind == kind ==> categories[i] in r
  {
    Filter(categories, KindIs(kind))
  }

  /** The filter keeps the original order: filtering a concatenation filters each part. */
  lemma CategoriesOfKindInOrder(a: seq<Category>, b: seq<Category>, kind: string)
    ensures CategoriesOfKind(a + b, kind) == CategoriesOfKind(a, kind) + CategoriesOfKind(b, kind)
  {
    FilterAppend(a, b, KindIs(kind));
  }

  /** The filter keeps every category of the kind as often as it occurs, and no other. */
  lemma CategoriesOfKindCounts(categories: seq<Category>, kind: string, c: Category)
    ensures multiset(CategoriesOfKind(categories, kind))[c] == if c.kind == kind then multiset(categories)[c] else 0
  {
    FilterMultiset(categories, KindIs(kind), c);
  }

  predicate NamedIn(categories: seq<Category>, name: string) {
    exists i :: 0 <= i < |categories| && categories[i].name == name
  }

  /** The default-category effect: with a non-empty filtered list that does
      not name the current choice, the first filtered name; otherwise the
      current choice. */
  function DefaultCategory(filtered: seq<Category>, current: string): (r: string)
    ensures filtered != [] ==> NamedIn(filtered, r)
    ensures NamedIn(filtered, current) || filtered == [] ==> r == current
    ensures r == current || r == filtered[0].name
  {
    if |filtered| > 0 && !NamedIn(filtered, current) then filtered[0].name else current
  }

  /** Running the effect again changes nothing, so it settles after one step. */
  lemma DefaultCategoryStable(filtered: seq<Category>, current: string)
    ensures DefaultCategory(filtered, DefaultCategory(filtered, current)) == DefaultCategory(filtered, current)
  {
  }

  datatype FormError = MissingField | InvalidAmount

  /** The checks of `handleSubmit` before the request: an empty amount or
      category first, then an amount that is NaN or not positive. */
  function ValidateForm(kind: Kind, amount: string, category: string, description: string, date: string,
                        parsed: Option<real>): (r: Result<NewTransaction, FormError>)
    ensures r == Err(MissingField) <==> amount == "" || category == ""
    ensures r.Ok? <==> amount != "" && category != "" && parsed.Some? && parsed.value > 0.0
    ensures r.Ok? ==> r.value == NewTransaction(KindName(kind), parsed.value, category, description, date)
  {
    if amount == "" || category == "" then Err(MissingField)
    else if parsed.None? || parsed.value <= 0.0 then Err(InvalidAmount)
    else Ok(NewTransaction(KindName(kind), parsed.value, category, description, date))
  }

  /** Every payload the form lets through has a known kind, a positive amount and a category. */
  lemma ValidPayload(kind: Kind, amount: string, category: string, description: string, date: string,
                     parsed: Option<real>)
    requires ValidateForm(kind, amount, category, description, date, parsed).Ok?
    ensures var p := ValidateForm(kind, amount, category, description, date, parsed).value;
      (p.kind == Records.Income || p.kind == Records.Expense) && p.amount > 0.0 && p.category != ""
  {
  }

  /** How a press of the save button ends. */
  datatype SubmitResult = Rejected(error: FormError) | Saved | SaveFailed

  /** The screen's form state. */
  class AddForm {
    var kind: Kind
    var amount: string
    var category: string
    var description: string
    var date: string
    var submitting: bool

    /** The initial state; the date field starts at today's date taken from `nowIso`. */
    constructor (nowIso: string)
      ensures kind == ExpenseKind && amount == "" && category == "" && description == ""
      ensures date == DateForInput(nowIso) && !submitting
    {
      kind := ExpenseKind;
      amount := "";
      category := "";
      description := "";
      date := DateForInput(nowIso);
      submitting := false;
    }

    /** The default-category effect over the categories the hook holds. */
    method SelectDefaultCategory(categories: seq<Category>)
      modifies this`category
      ensures category == DefaultCategory(CategoriesOfKind(categories, KindName(kind)), old(category))
    {
      var filtered := CategoriesOfKind(categories, KindName(kind));
      if |filtered| > 0 && !NamedIn(filtered, category) {
        category := filtered[0].name;
      }
    }

    /** `handleSubmit` up to the awaited create call: on a valid form the flag
        is raised and the payload is returned for sending; otherwise nothing
        changes. */
    method BeginSubmit(parsed: Option<real>) returns (r: Result<NewTransaction, FormError>)
      modifies this`submitting
      ensures r == ValidateForm(kind, amount, category, description, date, parsed)
      ensures submitting == if r.Ok? then true else old(submitting)
    {
      r := ValidateForm(kind, amount, category, description, date, parsed);
      if r.Ok? {
        submitting := true;
      }
    }

    /** `handleSubmit` after the awaited create call: the flag is lowered
        whatever the outcome; the screen goes back only on success. */
    method FinishSubmit(success: bool) returns (goBack: bool)
      modifies this`submitting
      ensures !submitting && goBack == success
    {
      submitting := false;
      goBack := success;
    }

    /** The whole handler: a rejected form sends nothing; a valid one sends
        exactly the payload built from the form and ends with the flag down. */
    method HandleSubmit(api: UseApi.ApiHook, parsed: Option<real>, reply: UseApi.Outcome<()>,
                        reload: UseApi.Replies) returns (r: SubmitResult)
      modifies this`submitting, api
      ensures var v := ValidateForm(old(kind), old(amount), old(category), old(description), old(date), parsed);
        match v
        case Err(e) =>
          r == Rejected(e) && submitting == old(submitting)
          && api.requests == old(api.requests) && api.Snapshot() == old(api.Snapshot())
        case Ok(payload) =>
          !submitting && (r == Saved <==> reply.OkReply?) && (r == SaveFailed <==> !reply.OkReply?)
          && api.requests == old(api.requests) + [UseApi.PostTransaction(payload)]
                             + (if reply.OkReply? then UseApi.FetchRequests else [])
          && api.Snapshot() == if reply.OkReply? then UseApi.Reload(old(api.Snapshot()), reload) else old(api.Snapshot())
    {
      var v := BeginSubmit(parsed);
      if v.Err? {
        return Rejected(v.error);
      }
      var success := api.CreateTransaction(v.value, reply, reload);
      var goBack := FinishSubmit(success);
      r := if goBack then Saved else SaveFailed;
    }
  }
}
