/** The campaign vocabulary: statuses, channels, ad types, their labels and validators. */
module CampaignTypes {

  datatype Status = Draft | Planned | Active | Ended | Paused
  datatype Channel = Meta | Google | LinkedIn | Newsletter
  datatype MetaAdType = SingleImage | Carousel | MetaVideo | Collection
  datatype GoogleAdType = Search | Display | GoogleVideo | PerformanceMax

  function StatusKey(s: Status): string {
    match s
    case Draft => "draft"
    case Planned => "planned"
    case Active => "active"
    case Ended => "ended"
    case Paused => "paused"
  }

  function ChannelKey(c: Channel): string {
    match c
    case Meta => "meta"
    case Google => "google"
    case LinkedIn => "linkedin"
    case Newsletter => "newsletter"
  }

  function MetaAdTypeKey(t: MetaAdType): string {
    match t
    case SingleImage => "single-image"
    case Carousel => "carousel"
    case MetaVideo => "video"
    case Collection => "collection"
  }

  function GoogleAdTypeKey(t: GoogleAdType): string {
    match t
    case Search => "search"
    case Display => "display"
    case GoogleVideo => "video"
    case PerformanceMax => "performance-max"
  }

  /** `isValidChannel`. */
  predicate IsValidChannel(s: string)
  {
    s in ["meta", "google", "linkedin", "newsletter"]
  }

  /** `isValidStatus`. */
  predicate IsValidStatus(s: string)
  {
    s in ["draft", "planned", "active", "ended", "paused"]
  }

  /** `isValidMetaAdType`. */
  predicate IsValidMetaAdType(s: string)
  {
    s in ["single-image", "carousel", "video", "collection"]
  }

  /** `isValidGoogleAdType`. */
  predicate IsValidGoogleAdType(s: string)
  {
    s in ["search", "display", "video", "performance-max"]
  }

  /** `isValidChannel` accepts exactly the keys of the Channel values. */
  lemma IsValidChannelExactly(s: string)
    ensures IsValidChannel(s) <==> exists c: Channel :: ChannelKey(c) == s
  {
    if s == "meta" { assert ChannelKey(Meta) == s; }
    else if s == "google" { assert ChannelKey(Google) == s; }
    else if s == "linkedin" { assert ChannelKey(LinkedIn) == s; }
    else if s == "newsletter" { assert ChannelKey(Newsletter) == s; }
  }

  /** `isValidStatus` accepts exactly the keys of the Status values. */
  lemma IsValidStatusExactly(s: string)
    ensures IsValidStatus(s) <==> exists st: Status :: StatusKey(st) == s
  {
    if s == "draft" { assert StatusKey(Draft) == s; }
    else if s == "planned" { assert StatusKey(Planned) == s; }
    else if s == "active" { assert StatusKey(Active) == s; }
    else if s == "ended" { assert StatusKey(Ended) == s; }
    else if s == "paused" { assert StatusKey(Paused) == s; }
  }

  /** `isValidMetaAdType` accepts exactly the keys of the MetaAdType values. */
  lemma IsValidMetaAdTypeExactly(s: string)
    ensures IsValidMetaAdType(s) <==> exists t: MetaAdType :: MetaAdTypeKey(t) == s
  {
    if s == "single-image" { assert MetaAdTypeKey(SingleImage) == s; }
    else if s == "carousel" { assert MetaAdTypeKey(Carousel) == s; }
    else if s == "video" { assert MetaAdTypeKey(MetaVideo) == s; }
    else if s == "collection" { assert MetaAdTypeKey(Collection) == s; }
  }

  /** `isValidGoogleAdType` accepts exactly the keys of the GoogleAdType values. */
  lemma IsValidGoogleAdTypeExactly(s: string)
    ensures IsValidGoogleAdType(s) <==> exists t: GoogleAdType :: GoogleAdTypeKey(t) == s
  {
    if s == "search" { assert GoogleAdTypeKey(Search) == s; }
    else if s == "display" { assert GoogleAdTypeKey(Display) == s; }
    else if s == "video" { assert GoogleAdTypeKey(GoogleVideo) == s; }
    else if s == "performance-max" { assert GoogleAdTypeKey(PerformanceMax) == s; }
  }

  /** 'video' is the one ad type both platforms accept; no other string is valid for both. */
  lemma SharedAdType(s: string)
    ensures IsValidMetaAdType(s) && IsValidGoogleAdType(s) <==> s == "video"
  {
  }

  /** `CHANNEL_LABELS`. */
  function ChannelLabel(c: Channel): (s: string)
    ensures s != ""
  {
    match c
    case Meta => "Facebook/Instagram"
    case Google => "Google Ads"
    case LinkedIn => "LinkedIn"
    case Newsletter => "Newsletter"
  }

  /** `STATUS_LABELS`. */
  function StatusLabel(s: Status): (l: string)
    ensures l != ""
  {
    match s
    case Draft => "Entwurf"
    case Planned => "Geplant"
    case Active => "Aktiv"
    case Ended => "Beendet"
    case Paused => "Pausiert"
  }

  /** `META_AD_TYPE_LABELS`. */
  function MetaAdTypeLabel(t: MetaAdType): (l: string)
    ensures l != ""
  {
    match t
    case SingleImage => "Single Image"
    case Carousel => "Carousel"
    case MetaVideo => "Video"
    case Collection => "Collection"
  }

  /** `GOOGLE_AD_TYPE_LABELS`. */
  function GoogleAdTypeLabel(t: GoogleAdType): (l: string)
    ensures l != ""
  {
    match t
    case Search => "Suchnetzwerk"
    case Display => "Display"
    case GoogleVideo => "Video (YouTube)"
    case PerformanceMax => "Performance Max"
  }

  /** Each label map is total and gives different members different labels. */
  lemma LabelsDistinct()
    ensures forall a: Channel, b: Channel :: ChannelLabel(a) == ChannelLabel(b) ==> a == b
    ensures forall a: Status, b: Status :: StatusLabel(a) == StatusLabel(b) ==> a == b
    ensures forall a: MetaAdType, b: MetaAdType :: MetaAdTypeLabel(a) == MetaAdTypeLabel(b) ==> a == b
    ensures forall a: GoogleAdType, b: GoogleAdType :: GoogleAdTypeLabel(a) == GoogleAdTypeLabel(b) ==> a == b
  {
  }

  /** Keys identify their members: each validator's accepted strings are in one-to-one correspondence with the type. */
  lemma KeysInjective()
    ensures forall a: Channel, b: Channel :: ChannelKey(a) == ChannelKey(b) ==> a == b
    ensures forall a: Status, b: Status :: StatusKey(a) == StatusKey(b) ==> a == b
    ensures forall a: MetaAdType, b: MetaAdType :: MetaAdTypeKey(a) == MetaAdTypeKey(b) ==> a == b
    ensures forall a: GoogleAdType, b: GoogleAdType :: GoogleAdTypeKey(a) == GoogleAdTypeKey(b) ==> a == b
  {
  }
}
