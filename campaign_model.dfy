/**
 * The `Campaign` document: schema constraints, the auction-link pattern, the
 * pre-save timestamp and the `roi`, `actualRoi` and `isActive` virtuals.
 * Money and counters are JavaScript numbers, modelled as reals; times are milliseconds.
 */
module CampaignModel {
  import opened Wrappers
  import opened Text
  import opened CampaignTypes

  datatype Performance = Performance(clicks: real, impressions: real, conversions: real, spentBudget: real, actualRevenue: real)

  /** Every counter starts at 0. */
  const ZeroPerformance := Performance(0.0, 0.0, 0.0, 0.0, 0.0)

  /** A stored campaign. The ad-type lists are empty when the request left them out. */
  datatype Campaign = Campaign(
    id: nat,
    auctionNumber: string,
    auctionLink: string,
    endDate: int,
    estimatedRevenue: real,
    budget: real,
    channels: seq<string>,
    metaAdTypes: seq<string>,
    googleAdTypes: seq<string>,
    status: string,
    notes: Option<string>,
    performance: Performance,
    createdBy: nat,
    createdAt: int,
    updatedAt: int)

  /** Position just after a leading "http://" or "https://", if there is one. */
  function SchemeEnd(v: string): (k: Option<nat>)
    ensures k.Some? ==> k.value <= |v|
  {
    if StartsWith(v, "http://") then Some(7)
    else if StartsWith(v, "https://") then Some(8)
    else None
  }

  /** The link validator `/^https?:\/\/.+/`: the scheme, then at least one character other than a line terminator. */
  predicate LinkMatches(v: string) {
    var k := SchemeEnd(v);
    k.Some? && k.value < |v| && !IsLineTerminator(v[k.value])
  }

  /** The pattern accepts a link exactly when it begins "http://" or "https://" and a non-line-terminator follows. */
  lemma LinkMatchesExactly(v: string)
    ensures LinkMatches(v) <==>
      (StartsWith(v, "http://") && |v| > 7 && !IsLineTerminator(v[7]))
      || (StartsWith(v, "https://") && |v| > 8 && !IsLineTerminator(v[8]))
  {
    if StartsWith(v, "https://") {
      assert v[4] == 's';
      assert !StartsWith(v, "http://") by { assert "http://"[4] == ':'; }
    }
  }

  /** Two concrete links: a bare scheme is refused, a scheme with a host is accepted. */
  lemma LinkExamples()
    ensures !LinkMatches("https://")
    ensures LinkMatches("https://example.org")
    ensures !LinkMatches("ftp://example.org")
  {
    assert "https://example.org"[..8] == "https://";
    assert "https://"[..7] != "http://" by { assert "https://"[4] != "http://"[4]; }
    assert "ftp://example.org"[..7] != "http://" by { assert "ftp://example.org"[0] != 'h'; }
    assert "ftp://example.org"[..8] != "https://" by { assert "ftp://example.org"[0] != 'h'; }
  }

  /** The `roi` virtual. */
  function Roi(c: Campaign): real {
    if c.budget > 0.0 then c.estimatedRevenue / c.budget else 0.0
  }

  /** The `actualRoi` virtual. */
  function ActualRoi(c: Campaign): real {
    if c.performance.spentBudget > 0.0 then c.performance.actualRevenue / c.performance.spentBudget else 0.0
  }

  /** ROI times budget gives back the revenue when there is a budget; otherwise the ROI is 0. Likewise for the actual figures. */
  lemma RoiRecoversRevenue(c: Campaign)
    ensures c.budget > 0.0 ==> Roi(c) * c.budget == c.estimatedRevenue
    ensures c.budget <= 0.0 ==> Roi(c) == 0.0
    ensures c.performance.spentBudget > 0.0 ==> ActualRoi(c) * c.performance.spentBudget == c.performance.actualRevenue
    ensures c.performance.spentBudget <= 0.0 ==> ActualRoi(c) == 0.0
    ensures c.estimatedRevenue >= 0.0 ==> Roi(c) >= 0.0
  {
  }

  /** The `isActive` virtual at time `now`. */
  predicate IsActive(c: Campaign, now: int) {
    c.status == "active" && c.endDate > now
  }

  /** A campaign is active only while its status says so and before its end date; once the end date passes it stays inactive. */
  lemma IsActiveOverTime(c: Campaign, t: int, later: int)
    requires t <= later
    ensures IsActive(c, later) ==> IsActive(c, t)
    ensures IsActive(c, t) ==> c.status == StatusKey(Active)
  {
  }

  /** A failed schema validator, in schema path order. */
  datatype SchemaError =
    | RequiredMissing(path: string)
    | LinkPattern
    | BelowMinimum(path: string)
    | NotInEnum(path: string, value: string)
    | NotesTooLong

  /** The elements of `s` that `ok` refuses, each with its position counted from `from`. */
  function Refused(s: seq<string>, ok: string -> bool, from: nat): (r: seq<(nat, string)>)
    ensures r == [] <==> forall i :: 0 <= i < |s| ==> ok(s[i])
    ensures forall k :: 0 <= k < |r| ==> (from <= r[k].0 < from + |s| && s[r[k].0 - from] == r[k].1 && !ok(r[k].1))
    decreases |s|
  {
    if s == [] then []
    else (if ok(s[0]) then [] else [(from, s[0])]) + Refused(s[1..], ok, from + 1)
  }

  /** One enum error per refused element of an array path, named `path.i` as Mongoose names it. */
  function EnumErrors(path: string, s: seq<string>, ok: string -> bool): (errs: seq<SchemaError>)
    ensures errs == [] <==> forall i :: 0 <= i < |s| ==> ok(s[i])
  {
    var r := Refused(s, ok, 0);
    seq(|r|, k requires 0 <= k < |r| => NotInEnum(path + "." + DecimalString(r[k].0), r[k].1))
  }

  /** The validators of the schema, in path order. */
  function SchemaErrors(c: Campaign): (errs: seq<SchemaError>)
    ensures errs == [] <==>
      && c.auctionNumber != "" && LinkMatches(c.auctionLink)
      && c.estimatedRevenue >= 0.0 && c.budget >= 0.0
      && (forall i :: 0 <= i < |c.channels| ==> IsValidChannel(c.channels[i]))
      && (forall i :: 0 <= i < |c.metaAdTypes| ==> IsValidMetaAdType(c.metaAdTypes[i]))
      && (forall i :: 0 <= i < |c.googleAdTypes| ==> IsValidGoogleAdType(c.googleAdTypes[i]))
      && IsValidStatus(c.status)
      && (c.notes.Some? ==> |c.notes.value| <= 1000)
  {
    (if c.auctionNumber == "" then [RequiredMissing("auctionNumber")] else [])
    + (if c.auctionLink == "" then [RequiredMissing("auctionLink")]
       else if !LinkMatches(c.auctionLink) then [LinkPattern] else [])
    + (if c.estimatedRevenue < 0.0 then [BelowMinimum("estimatedRevenue")] else [])
    + (if c.budget < 0.0 then [BelowMinimum("budget")] else [])
    + EnumErrors("channels", c.channels, IsValidChannel)
    + EnumErrors("metaAdTypes", c.metaAdTypes, IsValidMetaAdType)
    + EnumErrors("googleAdTypes", c.googleAdTypes, IsValidGoogleAdType)
    + (if !IsValidStatus(c.status) then [NotInEnum("status", c.status)] else [])
    + (if c.notes.Some? && |c.notes.value| > 1000 then [NotesTooLong] else [])
  }

  /** The message Mongoose reports for a failed validator: the schema's own text, or Mongoose's default for an enum. */
  function SchemaMessage(e: SchemaError): string {
    match e
    case RequiredMissing(p) =>
      if p == "auctionNumber" then "Auktionsnummer ist erforderlich" else "Auktionslink ist erforderlich"
    case LinkPattern => "Auktionslink muss eine gültige URL sein"
    case BelowMinimum(p) =>
      if p == "budget" then "Budget muss positiv sein" else "Geschätzte Einnahmen müssen positiv sein"
    case NotInEnum(p, v) => "`" + v + "` is not a valid enum value for path `" + p + "`."
    case NotesTooLong => "Notizen dürfen maximal 1000 Zeichen haben"
  }

  /** A Mongoose `Campaign` document in memory. */
  class CampaignDoc {
    var data: Campaign

    constructor (c: Campaign)
      ensures data == c
    {
      data := c;
    }

    /** The pre-save hook: every save stamps `updatedAt` with the current time and changes nothing else. */
    method PreSave(now: int)
      modifies this
      ensures data == old(data).(updatedAt := now)
    {
      data := data.(updatedAt := now);
    }
  }
}
