/**
 * The bundle record shared by the scraper and the feed generator, and the list
 * that collects the valid ones (internal/models/bundle.go).
 */
module Models {
  import opened Text
  import opened Seqs

  /** A `time.Time`: its zero value, or an instant in Unix seconds. */
  datatype Time = Zero | Instant(unix: int)

  /** One bundle offer. Go copies this struct on assignment, so it is a value here. */
  datatype Bundle = Bundle(
    ID: string,
    Title: string,
    Link: string,
    Description: string,
    Price: string,
    ItemCount: string,
    ImageURL: string,
    Tier: string,
    BundleType: string,
    CreatedAt: Time,
    UpdatedAt: Time)

  const BaseURL := "https://www.fanatical.com"

  /** The bundle types the site publishes. */
  predicate IsKnownType(bundleType: string)
  {
    bundleType == "games" || bundleType == "books" || bundleType == "software"
  }

  /** `NewBundle`: only ID, title and type are set; both timestamps are `now`. */
  function NewBundle(id: string, title: string, bundleType: string, now: int): (b: Bundle)
    ensures b.ID == id && b.Title == title && b.BundleType == bundleType
    ensures b.CreatedAt == Instant(now) && b.UpdatedAt == Instant(now)
    ensures b.Link == "" && b.Description == "" && b.Price == "" && b.ItemCount == "" && b.ImageURL == "" && b.Tier == ""
    ensures !IsValid(b)
  {
    Bundle(id, title, "", "", "", "", "", "", bundleType, Instant(now), Instant(now))
  }

  /** `IsValid`: title, link and type are all present. */
  predicate IsValid(b: Bundle)
  {
    b.Title != "" && b.Link != "" && b.BundleType != ""
  }

  /** `GetGUID`: "fanatical-<type>-bundle-<id>". */
  function GetGUID(b: Bundle): string
  {
    "fanatical-" + b.BundleType + "-bundle-" + b.ID
  }

  /**
   * For the three published types the GUID identifies type and ID: two bundles
   * of known types share a GUID only when they share both.
   */
  lemma GuidIdentifiesBundle(a: Bundle, b: Bundle)
    requires IsKnownType(a.BundleType) && IsKnownType(b.BundleType)
    requires GetGUID(a) == GetGUID(b)
    ensures a.BundleType == b.BundleType && a.ID == b.ID
  {
    var ga, gb := GetGUID(a), GetGUID(b);
    assert ga[10] == a.BundleType[0] && gb[10] == b.BundleType[0];
    assert a.BundleType == b.BundleType;
    var n := |"fanatical-" + a.BundleType + "-bundle-"|;
    assert ga[n..] == a.ID && gb[n..] == b.ID;
  }

  /** For arbitrary type strings the GUID does not identify the bundle. */
  lemma GuidAmbiguousForOtherTypes()
    ensures var a := NewBundle("y-bundle-z", "A", "x", 0);
            var b := NewBundle("z", "B", "x-bundle-y", 0);
            GetGUID(a) == GetGUID(b) && a.ID != b.ID
  {
  }

  /** `GetFullDescription`: the description, then " - Price: ", " - " and " - Tier: " parts for the fields that are set. */
  function GetFullDescription(b: Bundle): (r: string)
    ensures HasPrefix(r, b.Description)
    ensures r == b.Description <==> b.Price == "" && b.ItemCount == "" && b.Tier == ""
  {
    b.Description
      + (if b.Price != "" then " - Price: " + b.Price else "")
      + (if b.ItemCount != "" then " - " + b.ItemCount else "")
      + (if b.Tier != "" then " - Tier: " + b.Tier else "")
  }

  /** The singular type label `SetDefaults` puts in an empty description. */
  function DefaultTypeName(bundleType: string): string
  {
    match bundleType
    case "games" => "Game Bundle"
    case "books" => "Book Bundle"
    case "software" => "Software Bundle"
    case _ => "Bundle"
  }

  /** The plural type label of `GetBundleTypeName`. */
  function TypeNamePlural(bundleType: string): string
  {
    match bundleType
    case "games" => "Game Bundles"
    case "books" => "Book Bundles"
    case "software" => "Software Bundles"
    case _ => "Bundles"
  }

  /** `GetBundleTypeName`: the plural of the label used for default descriptions. */
  function GetBundleTypeName(b: Bundle): (r: string)
    ensures r == DefaultTypeName(b.BundleType) + "s"
    ensures IsKnownType(b.BundleType) <==> r != "Bundles"
  {
    TypeNamePlural(b.BundleType)
  }

  /** `GetItemTypeName`: what the items of a bundle of this type are called. */
  function GetItemTypeName(b: Bundle): (r: string)
    ensures IsKnownType(b.BundleType) <==> r != "Items"
  {
    match b.BundleType
    case "games" => "Games"
    case "books" => "Books"
    case "software" => "Software"
    case _ => "Items"
  }

  /**
   * `SetDefaults`: fills an empty description from the type, makes a
   * site-relative link absolute, and stamps zero timestamps with `now`.
   */
  function SetDefaults(b: Bundle, now: int): (r: Bundle)
    ensures r.ID == b.ID && r.Title == b.Title && r.Price == b.Price && r.ItemCount == b.ItemCount
    ensures r.ImageURL == b.ImageURL && r.Tier == b.Tier && r.BundleType == b.BundleType
    ensures b.Description == "" ==> r.Description == "Fanatical " + DefaultTypeName(b.BundleType)
    ensures b.Description != "" ==> r.Description == b.Description
    ensures HasPrefix(b.Link, "/") ==> r.Link == BaseURL + b.Link
    ensures !HasPrefix(b.Link, "/") ==> r.Link == b.Link
    ensures b.CreatedAt != Zero ==> r.CreatedAt == b.CreatedAt
    ensures b.UpdatedAt != Zero ==> r.UpdatedAt == b.UpdatedAt
    ensures b.CreatedAt == Zero ==> r.CreatedAt == Instant(now)
    ensures b.UpdatedAt == Zero ==> r.UpdatedAt == Instant(now)
    ensures r.Description != "" && !HasPrefix(r.Link, "/") && r.CreatedAt != Zero && r.UpdatedAt != Zero
    ensures IsValid(r) == IsValid(b)
  {
    var description := if b.Description == "" then "Fanatical " + DefaultTypeName(b.BundleType) else b.Description;
    var link := if b.Link != "" && b.Link[0] == '/' then BaseURL + b.Link else b.Link;
    var created := if b.CreatedAt == Zero then Instant(now) else b.CreatedAt;
    var updated := if b.UpdatedAt == Zero then Instant(now) else b.UpdatedAt;
    assert link != [] ==> link[0] != '/';
    b.(Description := description, Link := link, CreatedAt := created, UpdatedAt := updated)
  }

  /** Applying the defaults a second time, at any time, changes nothing. */
  lemma SetDefaultsIdempotent(b: Bundle, now: int, later: int)
    ensures SetDefaults(SetDefaults(b, now), later) == SetDefaults(b, now)
  {
  }

  /**
   * `BundleList`: the bundles accepted so far, with a count the Go code keeps
   * equal to the slice length.
   */
  class BundleList {
    var Bundles: seq<Bundle>
    var TotalCount: int
    var LastUpdated: int
    var Source: string
    var BundleType: string

    /** The list invariant: the count is the length and only valid bundles are stored. */
    ghost predicate Valid()
      reads this
    {
      TotalCount == |Bundles| && forall i :: 0 <= i < |Bundles| ==> IsValid(Bundles[i])
    }

    /** `NewBundleList`. */
    constructor (bundleType: string, now: int)
      ensures Valid()
      ensures Bundles == [] && TotalCount == 0 && LastUpdated == now
      ensures Source == "https://www.fanatical.com/de/bundle/" + bundleType && BundleType == bundleType
    {
      Bundles := [];
      TotalCount := 0;
      LastUpdated := now;
      Source := "https://www.fanatical.com/de/bundle/" + bundleType;
      BundleType := bundleType;
    }

    /**
     * `AddBundle`: the defaulted copy of `bundle` is appended when it is valid;
     * otherwise nothing changes.
     */
    method AddBundle(bundle: Bundle, now: int)
      modifies this
      ensures IsValid(bundle) ==> Bundles == old(Bundles) + [SetDefaults(bundle, now)]
      ensures IsValid(bundle) ==> TotalCount == |Bundles| && LastUpdated == now
      ensures !IsValid(bundle) ==> Bundles == old(Bundles) && TotalCount == old(TotalCount) && LastUpdated == old(LastUpdated)
      ensures Source == old(Source) && BundleType == old(BundleType)
      ensures old(Valid()) ==> Valid()
    {
      var b := SetDefaults(bundle, now);
      if IsValid(b) {
        Bundles := Bundles + [b];
        TotalCount := |Bundles|;
        LastUpdated := now;
      }
    }

    /** `GetValidBundles`: the valid bundles in list order; all of them when the invariant holds. */
    method GetValidBundles() returns (valid: seq<Bundle>)
      ensures valid == Filter(Bundles, IsValid)
      ensures |valid| <= |Bundles|
      ensures Valid() ==> valid == Bundles
    {
      valid := [];
      var i := 0;
      while i < |Bundles|
        invariant 0 <= i <= |Bundles|
        invariant valid == Filter(Bundles[..i], IsValid)
      {
        FilterStep(Bundles, IsValid, i);
        if IsValid(Bundles[i]) {
          valid := valid + [Bundles[i]];
        }
        i := i + 1;
      }
      assert Bundles[..i] == Bundles;
      if Valid() {
        FilterKeepsAll(Bundles, IsValid);
      }
    }

    /** `GetBundleTypeName` of the list: the same label a bundle of the list's type gets. */
    function GetBundleTypeName(): (r: string)
      reads this
      ensures r == DefaultTypeName(BundleType) + "s"
    {
      TypeNamePlural(BundleType)
    }
  }
}
