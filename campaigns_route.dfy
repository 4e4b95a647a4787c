/**
 * `/api/campaigns`: `POST` validates a new campaign, refuses an auction number
 * already in use and saves the campaign for the signed-in user with a status
 * derived from its end date; `GET` returns one page of the caller's campaigns.
 * `new URL` and `new Date` are oracles: `urlOk` says whether a link parses, and
 * `parseDate` gives the instant of a date string, or nothing for an invalid date.
 */
module CampaignsRoute {
  import opened Wrappers
  import opened Text
  import opened Seqs
  import opened Http
  import opened CampaignTypes
  import opened CampaignModel
  import opened UserModel
  import opened Store
  import opened Auth

  /**
   * The request body; every field may be missing. `createdAt` is a creation date the client
   * may send, as the date Mongoose casts it to: `...body` carries it into the new document.
   */
  datatype CampaignRequest = CampaignRequest(
    auctionNumber: Option<string>,
    auctionLink: Option<string>,
    endDate: Option<string>,
    estimatedRevenue: Option<real>,
    budget: Option<real>,
    channels: Option<seq<string>>,
    metaAdTypes: Option<seq<string>>,
    googleAdTypes: Option<seq<string>>,
    notes: Option<string>,
    createdAt: Option<int>)

  /** The three lists a loop checks element by element. */
  datatype ListKind = Channels | MetaTypes | GoogleTypes

  /** What the first failing check of `validateCampaignData` reports. */
  datatype Problem =
    | NeedAuctionNumber | NeedAuctionLink | NeedEndDate | NeedRevenue | NeedBudget | NeedChannel
    | BadLink | BadEndDate | NeedMetaAdType | NeedGoogleAdType
    | Rejected(list: ListKind, element: string)
    | NotesOverLimit

  /** The message each problem is reported with; the three loops name the refused element. */
  function ProblemText(p: Problem): string {
    match p
    case NeedAuctionNumber => "Auktionsnummer ist erforderlich"
    case NeedAuctionLink => "Auktionslink ist erforderlich"
    case NeedEndDate => "Enddatum ist erforderlich"
    case NeedRevenue => "Geschätzte Einnahmen müssen größer als 0 sein"
    case NeedBudget => "Budget muss größer als 0 sein"
    case NeedChannel => "Mindestens ein Werbekanal muss ausgewählt werden"
    case BadLink => "Auktionslink muss eine gültige URL sein"
    case BadEndDate => "Ungültiges Enddatum"
    case NeedMetaAdType => "Mindestens ein Anzeigentyp für Facebook/Instagram ist erforderlich"
    case NeedGoogleAdType => "Mindestens ein Anzeigentyp für Google Ads ist erforderlich"
    case Rejected(Channels, ch) => "Ungültiger Kanal: " + ch
    case Rejected(MetaTypes, t) => "Ungültiger Meta Anzeigentyp: " + t
    case Rejected(GoogleTypes, t) => "Ungültiger Google Anzeigentyp: " + t
    case NotesOverLimit => "Notizen dürfen maximal 1000 Zeichen haben"
  }

  /** `value?.trim()` is truthy: some character is not a space (see `Text.TrimEmptyIffBlank`). */
  predicate Filled(s: Option<string>) {
    s.Some? && !IsBlank(s.value)
  }

  /** A number that is present and positive: `!x || x <= 0` fails. */
  predicate Positive(x: Option<real>) {
    x.Some? && x.value > 0.0
  }

  /** A list that is present and non-empty. */
  predicate NonEmpty(s: Option<seq<string>>) {
    s.Some? && s.value != []
  }

  /** The first element of `s` that `ok` refuses: the `for ... of` loop's early return. */
  function FirstInvalid(s: seq<string>, ok: string -> bool): (r: Option<string>)
    ensures r.None? <==> forall i :: 0 <= i < |s| ==> ok(s[i])
    ensures r.Some? ==> r.value in s && !ok(r.value)
    decreases |s|
  {
    if s == [] then None
    else if !ok(s[0]) then Some(s[0])
    else
      assert forall i :: 0 < i < |s| ==> s[i] == s[1..][i - 1];
      FirstInvalid(s[1..], ok)
  }

  /** The loop stops at the first refused element: the one after which every earlier element passed. */
  lemma {:induction false} FirstInvalidIsFirst(s: seq<string>, ok: string -> bool, i: nat)
    requires i < |s| && !ok(s[i]) && forall j :: 0 <= j < i ==> ok(s[j])
    ensures FirstInvalid(s, ok) == Some(s[i])
    decreases i
  {
    if i > 0 {
      assert forall j :: 0 <= j < i - 1 ==> s[1..][j] == s[j + 1];
      FirstInvalidIsFirst(s[1..], ok, i - 1);
    }
  }

  /** `validateCampaignData`: the message of the first failing check, or nothing when every check passes. */
  function Validate(d: CampaignRequest, urlOk: string -> bool, parseDate: string -> Option<int>): Option<Problem> {
    var h := ValidateFields(d.auctionNumber, d.auctionLink, d.endDate, d.estimatedRevenue, d.budget, d.channels, urlOk, parseDate);
    if h.Some? then h else ValidateLists(d.channels.value, d.metaAdTypes, d.googleAdTypes, d.notes)
  }

  /** The chain's first eight checks: the required fields, then the link and the date. */
  function ValidateFields(auctionNumber: Option<string>, auctionLink: Option<string>, endDate: Option<string>,
                          estimatedRevenue: Option<real>, budget: Option<real>, channels: Option<seq<string>>,
                          urlOk: string -> bool, parseDate: string -> Option<int>): (r: Option<Problem>)
    ensures r.None? <==>
      && Filled(auctionNumber) && Filled(auctionLink) && Present(endDate)
      && Positive(estimatedRevenue) && Positive(budget) && NonEmpty(channels)
      && urlOk(auctionLink.value) && parseDate(endDate.value).Some?
  {
    if !Filled(auctionNumber) then Some(NeedAuctionNumber)
    else if !Filled(auctionLink) then Some(NeedAuctionLink)
    else if !Present(endDate) then Some(NeedEndDate)
    else if !Positive(estimatedRevenue) then Some(NeedRevenue)
    else if !Positive(budget) then Some(NeedBudget)
    else if !NonEmpty(channels) then Some(NeedChannel)
    else if !urlOk(auctionLink.value) then Some(BadLink)
    else if parseDate(endDate.value).None? then Some(BadEndDate)
    else None
  }

  /** The rest of the chain: the channel loop, the ad types of a chosen meta and google, the notes. */
  function ValidateLists(channels: seq<string>, meta: Option<seq<string>>, google: Option<seq<string>>,
                         notes: Option<string>): Option<Problem> {
    var c := LoopCheck(channels, IsValidChannel, Channels);
    if c.Some? then c
    else
      var m := AdTypeCheck("meta" in channels, meta, IsValidMetaAdType, NeedMetaAdType, MetaTypes);
      if m.Some? then m
      else
        var g := AdTypeCheck("google" in channels, google, IsValidGoogleAdType, NeedGoogleAdType, GoogleTypes);
        if g.Some? then g
        else NotesCheck(notes)
  }

  /** A loop over a list: the message naming the first refused element. */
  function LoopCheck(s: seq<string>, ok: string -> bool, list: ListKind): (r: Option<Problem>)
    ensures r.None? <==> forall i :: 0 <= i < |s| ==> ok(s[i])
  {
    var x := FirstInvalid(s, ok);
    if x.Some? then Some(Rejected(list, x.value)) else None
  }

  /** The ad types of a channel: checked only when it is chosen, then required and each validated. */
  function AdTypeCheck(chosen: bool, types: Option<seq<string>>, ok: string -> bool, need: Problem, list: ListKind): (r: Option<Problem>)
    ensures r.None? <==> !chosen || (NonEmpty(types) && forall i :: 0 <= i < |types.value| ==> ok(types.value[i]))
  {
    if !chosen then None
    else if !NonEmpty(types) then Some(need)
    else LoopCheck(types.value, ok, list)
  }

  /** `data.notes && data.notes.length > 1000`. */
  function NotesCheck(notes: Option<string>): (r: Option<Problem>)
    ensures r.None? <==> notes.None? || |notes.value| <= 1000
  {
    if notes.Some? && |notes.value| > 1000 then Some(NotesOverLimit) else None
  }

  /** The first present entry of `xs`. */
  function FirstSome(xs: seq<Option<Problem>>): (r: Option<Problem>)
    ensures r.None? <==> forall i :: 0 <= i < |xs| ==> xs[i].None?
    ensures r.Some? ==> exists i :: 0 <= i < |xs| && xs[i] == r && forall j :: 0 <= j < i ==> xs[j].None?
    decreases |xs|
  {
    if xs == [] then None
    else if xs[0].Some? then xs[0]
    else
      var r := FirstSome(xs[1..]);
      if r.Some? then
        var i :| 0 <= i < |xs[1..]| && xs[1..][i] == r && forall j :: 0 <= j < i ==> xs[1..][j].None?;
        assert xs[i + 1] == r && forall j :: 0 <= j < i + 1 ==> xs[j].None?;
        r
      else
        assert forall i :: 0 < i < |xs| ==> xs[i] == xs[1..][i - 1];
        r
  }

  /** A check on its own: its message when `failed`. */
  function Check(failed: bool, problem: Problem): Option<Problem> {
    if failed then Some(problem) else None
  }

  /**
   * The checks one by one, in the order the handler runs them, each judged on its own;
   * a check on a missing field that an earlier check requires reads it as empty.
   */
  function Checks(d: CampaignRequest, urlOk: string -> bool, parseDate: string -> Option<int>): seq<Option<Problem>> {
    FieldChecks(d, urlOk, parseDate) + ListChecks(d)
  }

  /** The first eight checks: the required fields, then the link and the date. */
  function FieldChecks(d: CampaignRequest, urlOk: string -> bool, parseDate: string -> Option<int>): seq<Option<Problem>> {
    [ Check(!Filled(d.auctionNumber), NeedAuctionNumber),
      Check(!Filled(d.auctionLink), NeedAuctionLink),
      Check(!Present(d.endDate), NeedEndDate),
      Check(!Positive(d.estimatedRevenue), NeedRevenue),
      Check(!Positive(d.budget), NeedBudget),
      Check(!NonEmpty(d.channels), NeedChannel),
      Check(!urlOk(d.auctionLink.GetOr("")), BadLink),
      Check(parseDate(d.endDate.GetOr("")).None?, BadEndDate) ]
  }

  /** The last four checks: the channels, the two channels' ad types and the notes. */
  function ListChecks(d: CampaignRequest): seq<Option<Problem>> {
    var channels := d.channels.GetOr([]);
    [ LoopCheck(channels, IsValidChannel, Channels),
      AdTypeCheck("meta" in channels, d.metaAdTypes, IsValidMetaAdType, NeedMetaAdType, MetaTypes),
      AdTypeCheck("google" in channels, d.googleAdTypes, IsValidGoogleAdType, NeedGoogleAdType, GoogleTypes),
      NotesCheck(d.notes) ]
  }

  // ----- Properties of the validation -----

  /** The early-return chain reports the first failing check of the list, in the list's order. */
  lemma ValidateIsFirstFailure(d: CampaignRequest, urlOk: string -> bool, parseDate: string -> Option<int>)
    ensures Validate(d, urlOk, parseDate) == FirstSome(Checks(d, urlOk, parseDate))
  {
    FirstSomeConcat(FieldChecks(d, urlOk, parseDate), ListChecks(d));
    FieldChecksInOrder(d, urlOk, parseDate);
    if NonEmpty(d.channels) {
      ListChecksInOrder(d);
    }
  }

  /** The first eight checks are the chain's field checks. */
  lemma FieldChecksInOrder(d: CampaignRequest, urlOk: string -> bool, parseDate: string -> Option<int>)
    ensures FirstSome(FieldChecks(d, urlOk, parseDate)) ==
      ValidateFields(d.auctionNumber, d.auctionLink, d.endDate, d.estimatedRevenue, d.budget, d.channels, urlOk, parseDate)
  {
    var cs := FieldChecks(d, urlOk, parseDate);
    if !Filled(d.auctionNumber) {
      FirstSomeAt(cs, 0);
    } else if !Filled(d.auctionLink) {
      FirstSomeAt(cs, 1);
    } else if !Present(d.endDate) {
      FirstSomeAt(cs, 2);
    } else if !Positive(d.estimatedRevenue) {
      FirstSomeAt(cs, 3);
    } else if !Positive(d.budget) {
      FirstSomeAt(cs, 4);
    } else if !NonEmpty(d.channels) {
      FirstSomeAt(cs, 5);
    } else if !urlOk(d.auctionLink.value) {
      FirstSomeAt(cs, 6);
    } else if parseDate(d.endDate.value).None? {
      FirstSomeAt(cs, 7);
    }
  }

  /** The first present entry is the one before which every entry is absent. */
  lemma {:induction false} FirstSomeAt(xs: seq<Option<Problem>>, k: nat)
    requires k < |xs| && xs[k].Some? && forall j :: 0 <= j < k ==> xs[j].None?
    ensures FirstSome(xs) == xs[k]
    decreases k
  {
    if k > 0 {
      assert forall j :: 0 <= j < k - 1 ==> xs[1..][j] == xs[j + 1];
      FirstSomeAt(xs[1..], k - 1);
    }
  }

  /** The last four checks of the list are the rest of the chain. */
  lemma ListChecksInOrder(d: CampaignRequest)
    requires d.channels.Some?
    ensures FirstSome(ListChecks(d)) == ValidateLists(d.channels.value, d.metaAdTypes, d.googleAdTypes, d.notes)
  {
    var cs := ListChecks(d);
    FirstSomeFrom(cs, 0);
    FirstSomeFrom(cs, 1);
    FirstSomeFrom(cs, 2);
    FirstSomeFrom(cs, 3);
    assert cs[0..] == cs;
    assert cs[4..] == [];
  }

  /** The first present entry of a concatenation is the first one of its front part, if any. */
  lemma {:induction false} FirstSomeConcat(a: seq<Option<Problem>>, b: seq<Option<Problem>>)
    ensures FirstSome(a + b) == if FirstSome(a).Some? then FirstSome(a) else FirstSome(b)
    decreases |a|
  {
    if a != [] {
      assert (a + b)[0] == a[0];
      assert (a + b)[1..] == a[1..] + b;
      FirstSomeConcat(a[1..], b);
    } else {
      assert a + b == b;
    }
  }

  /** One step of the search for the first present entry. */
  lemma FirstSomeFrom(xs: seq<Option<Problem>>, k: nat)
    requires k < |xs|
    ensures FirstSome(xs[k..]) == if xs[k].Some? then xs[k] else FirstSome(xs[k + 1..])
  {
    assert xs[k..][0] == xs[k];
    assert xs[k..][1..] == xs[k + 1..];
  }

  /**
   * A request passes exactly when the auction number and link are non-blank, the end
   * date is given and parses, revenue and budget are positive, there is at least one
   * channel and all are valid, a chosen meta or google has a non-empty list of valid ad
   * types, and the notes have at most 1000 characters.
   */
  lemma ValidExactly(d: CampaignRequest, urlOk: string -> bool, parseDate: string -> Option<int>)
    ensures Validate(d, urlOk, parseDate).None? <==>
      && Filled(d.auctionNumber) && Filled(d.auctionLink) && urlOk(d.auctionLink.value)
      && Present(d.endDate) && parseDate(d.endDate.value).Some?
      && Positive(d.estimatedRevenue) && Positive(d.budget)
      && NonEmpty(d.channels) && (forall i :: 0 <= i < |d.channels.value| ==> IsValidChannel(d.channels.value[i]))
      && ("meta" in d.channels.value ==>
            NonEmpty(d.metaAdTypes) && forall i :: 0 <= i < |d.metaAdTypes.value| ==> IsValidMetaAdType(d.metaAdTypes.value[i]))
      && ("google" in d.channels.value ==>
            NonEmpty(d.googleAdTypes) && forall i :: 0 <= i < |d.googleAdTypes.value| ==> IsValidGoogleAdType(d.googleAdTypes.value[i]))
      && (d.notes.Some? ==> |d.notes.value| <= 1000)
  {
  }

  /** The meta ad types are not checked unless 'meta' is chosen: replacing them changes nothing. */
  lemma UnchosenMetaIgnored(d: CampaignRequest, urlOk: string -> bool, parseDate: string -> Option<int>, meta: Option<seq<string>>)
    requires d.channels.Some? && "meta" !in d.channels.value
    ensures Validate(d.(metaAdTypes := meta), urlOk, parseDate) == Validate(d, urlOk, parseDate)
  {
    assert ValidateLists(d.channels.value, meta, d.googleAdTypes, d.notes)
        == ValidateLists(d.channels.value, d.metaAdTypes, d.googleAdTypes, d.notes);
  }

  /** The google ad types are not checked unless 'google' is chosen: replacing them changes nothing. */
  lemma UnchosenGoogleIgnored(d: CampaignRequest, urlOk: string -> bool, parseDate: string -> Option<int>, google: Option<seq<string>>)
    requires d.channels.Some? && "google" !in d.channels.value
    ensures Validate(d.(googleAdTypes := google), urlOk, parseDate) == Validate(d, urlOk, parseDate)
  {
    assert ValidateLists(d.channels.value, d.metaAdTypes, google, d.notes)
        == ValidateLists(d.channels.value, d.metaAdTypes, d.googleAdTypes, d.notes);
  }

  /** A channel outside the enum is reported by name, when every earlier check passed. */
  lemma InvalidChannelNamed(d: CampaignRequest, urlOk: string -> bool, parseDate: string -> Option<int>, i: nat)
    requires Filled(d.auctionNumber) && Filled(d.auctionLink) && urlOk(d.auctionLink.value)
    requires Present(d.endDate) && parseDate(d.endDate.value).Some?
    requires Positive(d.estimatedRevenue) && Positive(d.budget) && NonEmpty(d.channels)
    requires i < |d.channels.value| && !IsValidChannel(d.channels.value[i])
    requires forall j :: 0 <= j < i ==> IsValidChannel(d.channels.value[j])
    ensures Validate(d, urlOk, parseDate) == Some(Rejected(Channels, d.channels.value[i]))
    ensures ProblemText(Validate(d, urlOk, parseDate).value) == "Ungültiger Kanal: " + d.channels.value[i]
  {
    FirstInvalidIsFirst(d.channels.value, IsValidChannel, i);
  }

  // ----- POST -----

  const NotAuthenticated := "Nicht authentifiziert"
  const UnknownUser := "Benutzer nicht gefunden"
  const DuplicateAuction := "Eine Kampagne mit dieser Auktionsnummer existiert bereits"

  datatype PostReply = PostRefused(status: Http.Status, error: string) | Saved(campaign: Campaign)

  datatype PostOutcome = PostOutcome(campaigns: seq<Campaign>, nextId: nat, reply: PostReply)

  /** `!session?.user?.email`. */
  predicate SignedOut(session: Option<Claims>) {
    session.None? || !Present(session.value.email)
  }

  /** 'planned' when the end date lies after `now`, 'ended' otherwise. */
  function InitialStatus(endDate: int, now: int): string {
    if endDate > now then StatusKey(Planned) else StatusKey(Ended)
  }

  /**
   * `new Campaign({...body, createdBy, status, performance})` saved at `now`: the schema trims
   * the auction number and link, leaves absent ad-type lists empty, takes a sent `createdAt`
   * and otherwise its default `Date.now`, and the pre-save hook stamps `updatedAt`.
   */
  function Built(d: CampaignRequest, id: nat, endDate: int, owner: nat, now: int): Campaign
    requires d.auctionNumber.Some? && d.auctionLink.Some? && d.estimatedRevenue.Some? && d.budget.Some? && d.channels.Some?
  {
    Campaign(id, Trim(d.auctionNumber.value), Trim(d.auctionLink.value), endDate, d.estimatedRevenue.value, d.budget.value,
             d.channels.value, d.metaAdTypes.GetOr([]), d.googleAdTypes.GetOr([]), InitialStatus(endDate, now), d.notes,
             ZeroPerformance, owner, d.createdAt.GetOr(now), now)
  }

  /** The 400 reply to a failed schema validation: the messages joined by ", ". */
  function SchemaReply(errs: seq<SchemaError>): PostReply {
    PostRefused(BadRequest, Join(seq(|errs|, i requires 0 <= i < |errs| => SchemaMessage(errs[i])), ", "))
  }

  /** The effect of `POST` on the campaigns collection and the id source. */
  function PostResult(users: seq<UserRecord>, campaigns: seq<Campaign>, nextId: nat, session: Option<Claims>,
                      d: CampaignRequest, urlOk: string -> bool, parseDate: string -> Option<int>, now: int): PostOutcome {
    if SignedOut(session) then PostOutcome(campaigns, nextId, PostRefused(Unauthorized, NotAuthenticated))
    else
      var i := FindUser(users, EmailKey(session.value.email.value));
      if i < 0 then PostOutcome(campaigns, nextId, PostRefused(NotFound, UnknownUser))
      else if Validate(d, urlOk, parseDate).Some? then
        PostOutcome(campaigns, nextId, PostRefused(BadRequest, ProblemText(Validate(d, urlOk, parseDate).value)))
      else if !AuctionNumberFree(campaigns, Trim(d.auctionNumber.value)) then
        PostOutcome(campaigns, nextId, PostRefused(Conflict, DuplicateAuction))
      else
        SaveResult(campaigns, nextId, Built(d, nextId, parseDate(d.endDate.value).value, users[i].id, now))
  }

  /** `save()` of the new document: the schema's validators decide. */
  function SaveResult(campaigns: seq<Campaign>, nextId: nat, c: Campaign): PostOutcome {
    if SchemaErrors(c) != [] then PostOutcome(campaigns, nextId + 1, SchemaReply(SchemaErrors(c)))
    else PostOutcome(campaigns + [c], nextId + 1, Saved(c))
  }

  /** `POST /api/campaigns`. */
  method Post(db: Database, session: Option<Claims>, d: CampaignRequest, urlOk: string -> bool,
              parseDate: string -> Option<int>, now: int) returns (reply: PostReply)
    requires db.Valid()
    modifies db
    ensures db.Valid()
    ensures var o := PostResult(old(db.users), old(db.campaigns), old(db.nextId), session, d, urlOk, parseDate, now);
      db.campaigns == o.campaigns && db.nextId == o.nextId && reply == o.reply
    ensures db.users == old(db.users) && db.pending == old(db.pending)
  {
    if session.None? || !Present(session.value.email) {
      return PostRefused(Unauthorized, NotAuthenticated);
    }
    var i := FindUser(db.users, EmailKey(session.value.email.value));
    if i < 0 {
      return PostRefused(NotFound, UnknownUser);
    }
    var validationError := Validate(d, urlOk, parseDate);
    if validationError.Some? {
      return PostRefused(BadRequest, ProblemText(validationError.value));
    }
    if !AuctionNumberFree(db.campaigns, Trim(d.auctionNumber.value)) {
      return PostRefused(Conflict, DuplicateAuction);
    }
    var endDate := parseDate(d.endDate.value).value;
    reply := Create(db, d, endDate, db.users[i].id, now);
  }

  /** `new Campaign({...})` followed by its pre-save hook. */
  method NewDocument(d: CampaignRequest, id: nat, endDate: int, owner: nat, now: int) returns (doc: CampaignDoc)
    requires d.auctionNumber.Some? && d.auctionLink.Some? && d.estimatedRevenue.Some? && d.budget.Some? && d.channels.Some?
    ensures fresh(doc)
    ensures doc.data == Built(d, id, endDate, owner, now)
  {
    var c := Campaign(id, Trim(d.auctionNumber.value), Trim(d.auctionLink.value), endDate, d.estimatedRevenue.value,
                      d.budget.value, d.channels.value, d.metaAdTypes.GetOr([]), d.googleAdTypes.GetOr([]),
                      InitialStatus(endDate, now), d.notes, ZeroPerformance, owner, d.createdAt.GetOr(now), now);
    doc := new CampaignDoc(c);
    doc.PreSave(now);
  }

  /** The new document, its pre-save hook and its save. */
  method Create(db: Database, d: CampaignRequest, endDate: int, owner: nat, now: int) returns (reply: PostReply)
    requires db.Valid()
    requires d.auctionNumber.Some? && d.auctionLink.Some? && d.estimatedRevenue.Some? && d.budget.Some? && d.channels.Some?
    requires AuctionNumberFree(db.campaigns, Trim(d.auctionNumber.value))
    modifies db
    ensures db.Valid()
    ensures var o := SaveResult(old(db.campaigns), old(db.nextId), Built(d, old(db.nextId), endDate, owner, now));
      db.campaigns == o.campaigns && db.nextId == o.nextId && reply == o.reply
    ensures db.users == old(db.users) && db.pending == old(db.pending)
  {
    var id := db.NewId();
    var doc := NewDocument(d, id, endDate, owner, now);
    var ok := db.InsertCampaign(doc.data);
    if !ok {
      return SchemaReply(SchemaErrors(doc.data));
    }
    return Saved(doc.data);
  }

  // ----- Properties of POST -----

  /** Without a signed-in address 401, for an address no user holds 404, for a failing check 400 with its message; nothing is created. */
  lemma PostRefusals(users: seq<UserRecord>, campaigns: seq<Campaign>, nextId: nat, session: Option<Claims>,
                     d: CampaignRequest, urlOk: string -> bool, parseDate: string -> Option<int>, now: int)
    ensures SignedOut(session) ==>
      PostResult(users, campaigns, nextId, session, d, urlOk, parseDate, now) == PostOutcome(campaigns, nextId, PostRefused(Unauthorized, NotAuthenticated))
    ensures !SignedOut(session) && !EmailTaken(users, EmailKey(session.value.email.value)) ==>
      PostResult(users, campaigns, nextId, session, d, urlOk, parseDate, now) == PostOutcome(campaigns, nextId, PostRefused(NotFound, UnknownUser))
    ensures !SignedOut(session) && EmailTaken(users, EmailKey(session.value.email.value)) && Validate(d, urlOk, parseDate).Some? ==>
      PostResult(users, campaigns, nextId, session, d, urlOk, parseDate, now)
        == PostOutcome(campaigns, nextId, PostRefused(BadRequest, ProblemText(Validate(d, urlOk, parseDate).value)))
  {
  }

  /** A valid request whose auction number some campaign already carries gives 409, before anything is built or saved. */
  lemma DuplicateRefused(users: seq<UserRecord>, campaigns: seq<Campaign>, nextId: nat, session: Option<Claims>,
                         d: CampaignRequest, urlOk: string -> bool, parseDate: string -> Option<int>, now: int, k: nat)
    requires !SignedOut(session) && EmailTaken(users, EmailKey(session.value.email.value))
    requires Validate(d, urlOk, parseDate).None?
    requires k < |campaigns| && campaigns[k].auctionNumber == Trim(d.auctionNumber.value)
    ensures PostResult(users, campaigns, nextId, session, d, urlOk, parseDate, now)
      == PostOutcome(campaigns, nextId, PostRefused(Conflict, DuplicateAuction))
  {
  }

  /**
   * A saved campaign is appended with the next id, belongs to the caller, carries the parsed end
   * date, and passed both the handler's checks and the schema; no other campaign had its auction number.
   */
  lemma SavedCampaign(users: seq<UserRecord>, campaigns: seq<Campaign>, nextId: nat, session: Option<Claims>,
                      d: CampaignRequest, urlOk: string -> bool, parseDate: string -> Option<int>, now: int)
    requires PostResult(users, campaigns, nextId, session, d, urlOk, parseDate, now).reply.Saved?
    ensures !SignedOut(session) && Validate(d, urlOk, parseDate).None?
    ensures var i := FindUser(users, EmailKey(session.value.email.value));
      var o := PostResult(users, campaigns, nextId, session, d, urlOk, parseDate, now);
      && 0 <= i < |users|
      && o.reply.campaign == Built(d, nextId, parseDate(d.endDate.value).value, users[i].id, now)
      && o.campaigns == campaigns + [o.reply.campaign] && o.nextId == nextId + 1
      && AuctionNumberFree(campaigns, o.reply.campaign.auctionNumber)
      && SchemaErrors(o.reply.campaign) == []
  {
  }

  /**
   * The built campaign has status 'planned' exactly when its end date lies after `now` and
   * 'ended' otherwise, starts with every counter at 0, keeps a `createdAt` the client sent
   * and otherwise takes `now`, and has `updatedAt` = `now`.
   */
  lemma BuiltCampaign(d: CampaignRequest, id: nat, endDate: int, owner: nat, now: int)
    requires d.auctionNumber.Some? && d.auctionLink.Some? && d.estimatedRevenue.Some? && d.budget.Some? && d.channels.Some?
    ensures var c := Built(d, id, endDate, owner, now);
      && c.id == id && c.createdBy == owner && c.endDate == endDate
      && (c.status == "planned" <==> endDate > now) && (c.status == "ended" <==> endDate <= now)
      && c.performance == Performance(0.0, 0.0, 0.0, 0.0, 0.0)
      && (d.createdAt.None? ==> c.createdAt == now) && (d.createdAt.Some? ==> c.createdAt == d.createdAt.value)
      && c.updatedAt == now
      && c.auctionNumber == Trim(d.auctionNumber.value) && c.auctionLink == Trim(d.auctionLink.value)
      && c.channels == d.channels.value && c.notes == d.notes
  {
  }

  // ----- GET -----

  /** The query string, with `page` and `limit` already parsed; `matchesSearch` stands for the `$regex` test. */
  datatype ListQuery = ListQuery(page: int, limit: int, status: Option<string>, search: Option<string>)

  datatype Page = Page(data: seq<Campaign>, total: nat, page: int, limit: int, totalPages: Option<int>)

  datatype ListReply = ListRefused(status: Http.Status, error: string) | Listed(page: Page)

  const LoadFailed := "Serverfehler beim Laden der Kampagnen"

  /** The filter `{ createdBy, status?, auctionNumber: { $regex }? }`. */
  predicate InFilter(c: Campaign, owner: nat, q: ListQuery, matchesSearch: (string, string) -> bool) {
    && c.createdBy == owner
    && (Present(q.status) ==> c.status == q.status.value)
    && (Present(q.search) ==> matchesSearch(q.search.value, c.auctionNumber))
  }

  function Matching(cs: seq<Campaign>, owner: nat, q: ListQuery, matchesSearch: (string, string) -> bool): (r: seq<Campaign>)
    ensures forall c :: c in r ==> c in cs && InFilter(c, owner, q, matchesSearch)
    ensures forall c :: c in cs && InFilter(c, owner, q, matchesSearch) ==> c in r
    ensures |r| <= |cs|
    decreases |cs|
  {
    if cs == [] then []
    else (if InFilter(cs[0], owner, q, matchesSearch) then [cs[0]] else []) + Matching(cs[1..], owner, q, matchesSearch)
  }

  /** `.skip(skip).limit(limit)`: a limit of 0 means no limit, and a negative limit counts as its absolute value. */
  function Window(xs: seq<Campaign>, skip: nat, limit: int): (r: seq<Campaign>)
    ensures skip >= |xs| ==> r == []
    ensures skip < |xs| && limit != 0 ==> |r| == Min(|xs| - skip, Abs(limit))
    ensures skip < |xs| && limit == 0 ==> |r| == |xs| - skip
    ensures forall k :: 0 <= k < |r| ==> skip + k < |xs| && r[k] == xs[skip + k]
  {
    if skip >= |xs| then []
    else
      var rest := xs[skip..];
      if limit == 0 || Abs(limit) >= |rest| then rest else rest[..Abs(limit)]
  }

  function Abs(x: int): nat { if x < 0 then -x else x }

  function Min(a: int, b: int): int { if a <= b then a else b }

  /** `Math.ceil(total / limit)`; nothing for a zero limit, where the quotient is not a finite number. */
  function TotalPages(total: nat, limit: int): (n: Option<int>)
    ensures limit > 0 ==> n.Some? && (n.value - 1) * limit < total <= n.value * limit
    ensures limit == 0 <==> n.None?
  {
    if limit == 0 then None
    else
      var t: int := total;
      if limit > 0 then Some(-((-t) / limit)) else Some(-(t / (-limit)))
  }

  /** `GET /api/campaigns`: reads the collections and changes nothing. */
  function List(users: seq<UserRecord>, campaigns: seq<Campaign>, session: Option<Claims>, q: ListQuery,
                matchesSearch: (string, string) -> bool): ListReply {
    if SignedOut(session) then ListRefused(Unauthorized, NotAuthenticated)
    else
      var i := FindUser(users, EmailKey(session.value.email.value));
      if i < 0 then ListRefused(NotFound, UnknownUser)
      else
        var skip := (q.page - 1) * q.limit;
        // The database refuses a negative skip.
        if skip < 0 then ListRefused(InternalError, LoadFailed)
        else
          var found := Matching(campaigns, users[i].id, q, matchesSearch);
          Listed(Page(Window(found, skip, q.limit), |found|, q.page, q.limit, TotalPages(|found|, q.limit)))
  }

  /** `(page − 1) · limit` is not negative for a positive limit only from page 1 on. */
  lemma SkipSign(page: int, limit: int)
    requires limit > 0
    ensures (page - 1) * limit >= 0 <==> page >= 1
  {
    if page < 1 {
      assert (page - 1) * limit <= -limit;
    }
  }

  /** Pages up to `totalPages` start inside the list. */
  lemma PageStartsInside(page: int, limit: int, total: nat, pages: int)
    requires limit > 0 && 1 <= page <= pages && (pages - 1) * limit < total
    ensures (page - 1) * limit < total
  {
    assert (page - 1) * limit <= (pages - 1) * limit;
  }

  /**
   * One window of the matching list: the entries from position `skip` = (page − 1) · limit
   * on, at most `limit` of them; `totalPages` is the least number of pages of `limit` that
   * hold the list, and a page up to `totalPages` is empty only when the list is.
   */
  lemma PageOf(found: seq<Campaign>, page: int, limit: int, skip: nat)
    requires limit > 0 && skip == (page - 1) * limit
    ensures var data := Window(found, skip, limit);
      var pages := TotalPages(|found|, limit);
      && |data| <= limit
      && (forall k :: 0 <= k < |data| ==> data[k] == found[skip + k])
      && pages.Some? && (pages.value - 1) * limit < |found| <= pages.value * limit
      && (page <= pages.value ==> data != [] || |found| == 0)
  {
    var pages := TotalPages(|found|, limit);
    SkipSign(page, limit);
    if page <= pages.value && |found| > 0 {
      PageStartsInside(page, limit, |found|, pages.value);
    }
  }

  /**
   * A page lists only the caller's campaigns that pass the filters: it is the window of the
   * matching list that `PageOf` describes, and `total` counts every matching campaign.
   */
  lemma PageContents(users: seq<UserRecord>, campaigns: seq<Campaign>, session: Option<Claims>, q: ListQuery,
                     matchesSearch: (string, string) -> bool)
    requires List(users, campaigns, session, q, matchesSearch).Listed?
    requires q.limit > 0
    ensures !SignedOut(session) && q.page >= 1
    ensures var i := FindUser(users, EmailKey(session.value.email.value));
      var p := List(users, campaigns, session, q, matchesSearch).page;
      var found := Matching(campaigns, users[i].id, q, matchesSearch);
      && 0 <= i < |users|
      && p == Page(Window(found, (q.page - 1) * q.limit, q.limit), |found|, q.page, q.limit, TotalPages(|found|, q.limit))
      && (forall c :: c in p.data ==> c in campaigns && c.createdBy == users[i].id)
  {
    SkipSign(q.page, q.limit);
    var i := FindUser(users, EmailKey(session.value.email.value));
    var found := Matching(campaigns, users[i].id, q, matchesSearch);
    var skip: nat := (q.page - 1) * q.limit;
    var data := Window(found, skip, q.limit);
    assert List(users, campaigns, session, q, matchesSearch).page == Page(data, |found|, q.page, q.limit, TotalPages(|found|, q.limit));
    forall c | c in data ensures c in campaigns && c.createdBy == users[i].id {
      var k :| 0 <= k < |data| && data[k] == c;
      assert c in found;
    }
  }
}
