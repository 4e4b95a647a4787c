/**
 * The campaign dialog of the marketing page: the form loaded from a campaign or reset,
 * the channel and ad-type checkboxes, the client-side validation with its fixed order of
 * messages, and the request body it sends. `parseFloat` is a parameter (`None` standing
 * for NaN) and so is the rendering of a number as text.
 */
module NewCampaignForm {
  import opened Wrappers
  import opened Text
  import opened Seqs

  /** The form state; amounts are kept as the text of their input fields. */
  datatype FormData = FormData(auctionNumber: string, auctionLink: string, endDate: string,
                               estimatedRevenue: string, budget: string, channels: seq<string>,
                               metaAdTypes: seq<string>, googleAdTypes: seq<string>, notes: string)

  const EmptyForm := FormData("", "", "", "", "", [], [], [], "")

  /** The campaign passed in for editing, with the fields it may lack. */
  datatype EditCampaign = EditCampaign(auctionNumber: Option<string>, auctionLink: Option<string>, endDate: Option<string>,
                                       estimatedRevenue: Option<real>, budget: Option<real>, channels: Option<seq<string>>,
                                       metaAdTypes: Option<seq<string>>, googleAdTypes: Option<seq<string>>, notes: Option<string>)

  /** `x || ''` on an optional string. */
  function OrEmpty(s: Option<string>): string {
    if s.Some? then s.value else ""
  }

  /** `endDate ? endDate.split('T')[0] : ''`: the part before the first 'T'. */
  function DatePart(endDate: Option<string>): (r: string)
    ensures 'T' !in r
    ensures endDate.None? ==> r == ""
    ensures endDate.Some? ==> r <= endDate.value
    ensures endDate.Some? && 'T' in endDate.value ==> r == endDate.value[..IndexOf(endDate.value, 'T')]
  {
    if endDate.Some? && endDate.value != "" then
      SplitFirst(endDate.value, 'T');
      Split(endDate.value, 'T')[0]
    else ""
  }

  /** `n?.toString() || ''`: the number's text, or nothing. */
  function AmountText(n: Option<real>, render: real -> string): string {
    if n.Some? then render(n.value) else ""
  }

  /** The load effect on opening: the edited campaign's fields, the end date cut at 'T', or the empty form. */
  function LoadForm(edit: Option<EditCampaign>, render: real -> string): (f: FormData)
    ensures edit.None? ==> f == EmptyForm
    ensures edit.Some? ==> var c := edit.value;
      && f.auctionNumber == OrEmpty(c.auctionNumber) && f.auctionLink == OrEmpty(c.auctionLink)
      && f.endDate == DatePart(c.endDate)
      && f.estimatedRevenue == AmountText(c.estimatedRevenue, render) && f.budget == AmountText(c.budget, render)
      && f.channels == c.channels.GetOr([]) && f.metaAdTypes == c.metaAdTypes.GetOr([])
      && f.googleAdTypes == c.googleAdTypes.GetOr([]) && f.notes == OrEmpty(c.notes)
  {
    match edit
    case None => EmptyForm
    case Some(c) =>
      FormData(OrEmpty(c.auctionNumber), OrEmpty(c.auctionLink), DatePart(c.endDate),
               AmountText(c.estimatedRevenue, render), AmountText(c.budget, render),
               c.channels.GetOr([]), c.metaAdTypes.GetOr([]), c.googleAdTypes.GetOr([]), OrEmpty(c.notes))
  }

  // ----- Checkboxes -----

  function Other(id: string): string -> bool {
    (x: string) => x != id
  }

  /** Checking appends the id; unchecking removes every occurrence of it. */
  function Toggled(xs: seq<string>, id: string, checked: bool): (r: seq<string>)
    ensures checked ==> r == xs + [id]
    ensures !checked ==> id !in r && forall x :: x != id ==> (x in r <==> x in xs)
    ensures !checked ==> IsSubsequence(r, xs)
  {
    if checked then xs + [id]
    else
      FilterIsSubsequence(xs, Other(id));
      Filter(xs, Other(id))
  }

  /** `handleChannelChange(channelId, checked)`: unchecking meta or google also empties that channel's ad types. */
  function ChannelChange(f: FormData, id: string, checked: bool): (r: FormData)
    ensures r.channels == Toggled(f.channels, id, checked)
    ensures r.metaAdTypes == (if !checked && id == "meta" then [] else f.metaAdTypes)
    ensures r.googleAdTypes == (if !checked && id == "google" then [] else f.googleAdTypes)
    ensures r.(channels := f.channels, metaAdTypes := f.metaAdTypes, googleAdTypes := f.googleAdTypes) == f
  {
    f.(channels := Toggled(f.channels, id, checked),
       metaAdTypes := if !checked && id == "meta" then [] else f.metaAdTypes,
       googleAdTypes := if !checked && id == "google" then [] else f.googleAdTypes)
  }

  /** `handleMetaAdTypeChange(typeId, checked)`: only the meta list changes. */
  function MetaAdTypeChange(f: FormData, id: string, checked: bool): (r: FormData)
    ensures r.metaAdTypes == Toggled(f.metaAdTypes, id, checked)
    ensures r.(metaAdTypes := f.metaAdTypes) == f
  {
    f.(metaAdTypes := Toggled(f.metaAdTypes, id, checked))
  }

  /** `handleGoogleAdTypeChange(typeId, checked)`: only the Google list changes. */
  function GoogleAdTypeChange(f: FormData, id: string, checked: bool): (r: FormData)
    ensures r.googleAdTypes == Toggled(f.googleAdTypes, id, checked)
    ensures r.(googleAdTypes := f.googleAdTypes) == f
  {
    f.(googleAdTypes := Toggled(f.googleAdTypes, id, checked))
  }

  /** A click on one of the dialog's checkboxes; `checked` is the box's new state. */
  datatype Click = ChannelBox(id: string, checked: bool) | MetaBox(id: string, checked: bool) | GoogleBox(id: string, checked: bool)

  /**
   * The clicks the dialog offers: a box shows `includes(id)`, so a click flips that state, and
   * the ad-type boxes of a channel are only rendered while the channel is chosen.
   */
  predicate Offered(f: FormData, c: Click) {
    match c
    case ChannelBox(id, checked) => checked == (id !in f.channels)
    case MetaBox(id, checked) => "meta" in f.channels && checked == (id !in f.metaAdTypes)
    case GoogleBox(id, checked) => "google" in f.channels && checked == (id !in f.googleAdTypes)
  }

  function Apply(f: FormData, c: Click): FormData {
    match c
    case ChannelBox(id, checked) => ChannelChange(f, id, checked)
    case MetaBox(id, checked) => MetaAdTypeChange(f, id, checked)
    case GoogleBox(id, checked) => GoogleAdTypeChange(f, id, checked)
  }

  predicate NoDuplicates(xs: seq<string>) {
    forall i, j :: 0 <= i < j < |xs| ==> xs[i] != xs[j]
  }

  /** Ad types are only held for a chosen channel, and no list holds an id twice. */
  predicate Consistent(f: FormData) {
    && ("meta" !in f.channels ==> f.metaAdTypes == [])
    && ("google" !in f.channels ==> f.googleAdTypes == [])
    && NoDuplicates(f.channels) && NoDuplicates(f.metaAdTypes) && NoDuplicates(f.googleAdTypes)
  }

  /** Removing from a list without duplicates leaves one without duplicates; so does appending a new id. */
  lemma ToggledNoDuplicates(xs: seq<string>, id: string, checked: bool)
    requires NoDuplicates(xs) && checked == (id !in xs)
    ensures NoDuplicates(Toggled(xs, id, checked))
  {
    if !checked {
      FilterNoDuplicates(xs, Other(id));
    }
  }

  lemma {:induction false} FilterNoDuplicates(xs: seq<string>, g: string -> bool)
    requires NoDuplicates(xs)
    ensures NoDuplicates(Filter(xs, g))
    decreases |xs|
  {
    if xs != [] {
      FilterNoDuplicates(xs[1..], g);
      var rest := Filter(xs[1..], g);
      if g(xs[0]) {
        assert xs[0] !in xs[1..];
        assert xs[0] !in rest;
        var r := Filter(xs, g);
        assert r == [xs[0]] + rest;
        forall i, j | 0 <= i < j < |r| ensures r[i] != r[j] {
          if i == 0 {
            assert r[j] == rest[j - 1];
            assert rest[j - 1] in rest;
          } else {
            assert r[i] == rest[i - 1] && r[j] == rest[j - 1];
          }
        }
      }
    }
  }

  /** The empty form is consistent, and every offered click keeps the form consistent. */
  lemma ClicksKeepConsistent(f: FormData, c: Click)
    requires Consistent(f) && Offered(f, c)
    ensures Consistent(Apply(f, c))
    ensures Consistent(EmptyForm)
  {
    match c
    case ChannelBox(id, checked) =>
      ToggledNoDuplicates(f.channels, id, checked);
    case MetaBox(id, checked) =>
      ToggledNoDuplicates(f.metaAdTypes, id, checked);
    case GoogleBox(id, checked) =>
      ToggledNoDuplicates(f.googleAdTypes, id, checked);
  }

  // ----- Validation -----

  datatype FormError = NoAuctionNumber | NoAuctionLink | NoEndDate | BadRevenue | BadBudget | NoChannel | NoMetaAdType | NoGoogleAdType

  /** The order in which the checks run. */
  function Rank(e: FormError): nat {
    match e
    case NoAuctionNumber => 0
    case NoAuctionLink => 1
    case NoEndDate => 2
    case BadRevenue => 3
    case BadBudget => 4
    case NoChannel => 5
    case NoMetaAdType => 6
    case NoGoogleAdType => 7
  }

  function Message(e: FormError): string {
    match e
    case NoAuctionNumber => "Bitte gib eine Auktionsnummer ein."
    case NoAuctionLink => "Bitte gib den Auktionslink ein."
    case NoEndDate => "Bitte wähle ein Enddatum aus."
    case BadRevenue => "Bitte gib eine gültige Umsatzeinschätzung ein."
    case BadBudget => "Bitte gib ein gültiges Budget ein."
    case NoChannel => "Bitte wähle mindestens einen Werbekanal aus."
    case NoMetaAdType => "Bitte wähle mindestens einen Anzeigentyp für Facebook/Instagram."
    case NoGoogleAdType => "Bitte wähle mindestens einen Anzeigentyp für Google Ads."
  }

  /** `!x || parseFloat(x) <= 0`: an empty field or a number that is not positive; NaN compares false and passes. */
  predicate NotPositive(x: string, parseFloat: string -> Option<real>) {
    x == "" || (parseFloat(x).Some? && parseFloat(x).value <= 0.0)
  }

  /** Whether the check an error names fails, each check on its own. */
  predicate Fails(f: FormData, e: FormError, parseFloat: string -> Option<real>) {
    match e
    case NoAuctionNumber => Trim(f.auctionNumber) == ""
    case NoAuctionLink => Trim(f.auctionLink) == ""
    case NoEndDate => f.endDate == ""
    case BadRevenue => NotPositive(f.estimatedRevenue, parseFloat)
    case BadBudget => NotPositive(f.budget, parseFloat)
    case NoChannel => f.channels == []
    case NoMetaAdType => "meta" in f.channels && f.metaAdTypes == []
    case NoGoogleAdType => "google" in f.channels && f.googleAdTypes == []
  }

  /** `validateForm()`: the first failing check's error, or none. */
  function ValidateForm(f: FormData, parseFloat: string -> Option<real>): Option<FormError> {
    if Trim(f.auctionNumber) == "" then Some(NoAuctionNumber)
    else if Trim(f.auctionLink) == "" then Some(NoAuctionLink)
    else if f.endDate == "" then Some(NoEndDate)
    else if NotPositive(f.estimatedRevenue, parseFloat) then Some(BadRevenue)
    else if NotPositive(f.budget, parseFloat) then Some(BadBudget)
    else if f.channels == [] then Some(NoChannel)
    else if "meta" in f.channels && f.metaAdTypes == [] then Some(NoMetaAdType)
    else if "google" in f.channels && f.googleAdTypes == [] then Some(NoGoogleAdType)
    else None
  }

  /** Every check passes exactly when no error is reported. */
  lemma ValidatePassesAll(f: FormData, parseFloat: string -> Option<real>)
    ensures ValidateForm(f, parseFloat).None? <==> forall e :: !Fails(f, e, parseFloat)
  {
    if ValidateForm(f, parseFloat).None? {
      forall e ensures !Fails(f, e, parseFloat) {
        match e
        case NoAuctionNumber =>
        case NoAuctionLink =>
        case NoEndDate =>
        case BadRevenue =>
        case BadBudget =>
        case NoChannel =>
        case NoMetaAdType =>
        case NoGoogleAdType =>
      }
    } else {
      ValidateFirstFailure(f, parseFloat);
    }
  }

  /** The error reported is a failing check, and every check that runs before it passes. */
  lemma ValidateFirstFailure(f: FormData, parseFloat: string -> Option<real>)
    requires ValidateForm(f, parseFloat).Some?
    ensures var e := ValidateForm(f, parseFloat).value;
      Fails(f, e, parseFloat) && forall d :: Rank(d) < Rank(e) ==> !Fails(f, d, parseFloat)
  {
    var e := ValidateForm(f, parseFloat).value;
    forall d | Rank(d) < Rank(e) ensures !Fails(f, d, parseFloat) {
      match d
      case NoAuctionNumber =>
      case NoAuctionLink =>
      case NoEndDate =>
      case BadRevenue =>
      case BadBudget =>
      case NoChannel =>
      case NoMetaAdType =>
      case NoGoogleAdType =>
    }
  }

  /** A form that passes has a non-blank auction number and link, an end date, amounts that are not empty or non-positive, a channel, and ad types for a chosen meta or google. */
  lemma PassingForm(f: FormData, parseFloat: string -> Option<real>)
    requires ValidateForm(f, parseFloat).None?
    ensures !IsBlank(f.auctionNumber) && !IsBlank(f.auctionLink) && f.endDate != ""
    ensures f.estimatedRevenue != "" && (parseFloat(f.estimatedRevenue).Some? ==> parseFloat(f.estimatedRevenue).value > 0.0)
    ensures f.budget != "" && (parseFloat(f.budget).Some? ==> parseFloat(f.budget).value > 0.0)
    ensures f.channels != []
    ensures "meta" in f.channels ==> f.metaAdTypes != []
    ensures "google" in f.channels ==> f.googleAdTypes != []
  {
    TrimEmptyIffBlank(f.auctionNumber);
    TrimEmptyIffBlank(f.auctionLink);
  }

  // ----- The request -----

  /** The JSON body; `None` is a key sent as `undefined` (and so left out), or NaN for the amounts. */
  datatype Request = Request(auctionNumber: string, auctionLink: string, endDate: string,
                             estimatedRevenue: Option<real>, budget: Option<real>, channels: seq<string>,
                             metaAdTypes: Option<seq<string>>, googleAdTypes: Option<seq<string>>, notes: Option<string>)

  /** `requestData`. */
  function RequestOf(f: FormData, parseFloat: string -> Option<real>): (q: Request)
    ensures q.auctionNumber == Trim(f.auctionNumber) && q.auctionLink == Trim(f.auctionLink) && q.endDate == f.endDate
    ensures q.estimatedRevenue == parseFloat(f.estimatedRevenue) && q.budget == parseFloat(f.budget)
    ensures q.channels == f.channels
    ensures q.metaAdTypes.None? <==> f.metaAdTypes == []
    ensures q.metaAdTypes.Some? ==> q.metaAdTypes.value == f.metaAdTypes
    ensures q.googleAdTypes.None? <==> f.googleAdTypes == []
    ensures q.googleAdTypes.Some? ==> q.googleAdTypes.value == f.googleAdTypes
    ensures q.notes.None? <==> IsBlank(f.notes)
    ensures q.notes.Some? ==> q.notes.value == Trim(f.notes)
  {
    TrimEmptyIffBlank(f.notes);
    Request(Trim(f.auctionNumber), Trim(f.auctionLink), f.endDate,
            parseFloat(f.estimatedRevenue), parseFloat(f.budget), f.channels,
            if |f.metaAdTypes| > 0 then Some(f.metaAdTypes) else None,
            if |f.googleAdTypes| > 0 then Some(f.googleAdTypes) else None,
            if Trim(f.notes) != "" then Some(Trim(f.notes)) else None)
  }

  /** What pressing submit does before the network: show the first error, or send the request. */
  datatype Submission = ShowError(message: string) | Send(request: Request)

  function Submit(f: FormData, parseFloat: string -> Option<real>): (s: Submission)
    ensures s.ShowError? <==> exists e :: Fails(f, e, parseFloat)
    ensures s.ShowError? ==> s.message == Message(ValidateForm(f, parseFloat).value)
    ensures s.Send? ==> s.request == RequestOf(f, parseFloat)
  {
    ValidatePassesAll(f, parseFloat);
    var v := ValidateForm(f, parseFloat);
    if v.Some? then ShowError(Message(v.value)) else Send(RequestOf(f, parseFloat))
  }

  /** A request that is sent has a non-empty auction number and link, a channel, and ad types for a chosen meta or google. */
  lemma SentRequest(f: FormData, parseFloat: string -> Option<real>)
    requires Submit(f, parseFloat).Send?
    ensures var q := Submit(f, parseFloat).request;
      && q.auctionNumber != "" && q.auctionLink != "" && q.endDate != "" && q.channels != []
      && ("meta" in q.channels ==> q.metaAdTypes.Some?)
      && ("google" in q.channels ==> q.googleAdTypes.Some?)
  {
  }
}
