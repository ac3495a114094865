/**
 * The RSS generator of internal/generator/generator.go: per-type feed
 * metadata, title escaping, keyword categories and the selection of valid
 * bundles into items. The XML text itself is not modelled: `GenerateRSS`
 * returns the document structure that would be marshalled.
 */
module Rss {
  import opened Wrappers
  import opened Text
  import opened Seqs
  import opened Models

  // ---------------------------------------------------------------------------
  // Per-type metadata
  // ---------------------------------------------------------------------------

  /** `getFeedTitle`: "Fanatical" and the plural label of the type. */
  function GetFeedTitle(bundleType: string): (r: string)
    ensures r == "Fanatical " + TypeNamePlural(bundleType)
  {
    match bundleType
    case "games" => "Fanatical Game Bundles"
    case "books" => "Fanatical Book Bundles"
    case "software" => "Fanatical Software Bundles"
    case _ => "Fanatical Bundles"
  }

  const DefaultFeedDescription := "Current bundles from Fanatical - Automatically generated"

  /** `getFeedDescription`: a type-specific sentence for the three types, a generic one otherwise. */
  function GetFeedDescription(bundleType: string): (r: string)
    ensures IsKnownType(bundleType) <==> r != DefaultFeedDescription
  {
    match bundleType
    case "games" => "Current game bundles from Fanatical - Automatically generated"
    case "books" => "Current book bundles from Fanatical - Automatically generated"
    case "software" => "Current software bundles from Fanatical - Automatically generated"
    case _ => DefaultFeedDescription
  }

  /** `getFeedCategory`: a type-specific category for the three types, "Technology" otherwise. */
  function GetFeedCategory(bundleType: string): (r: string)
    ensures IsKnownType(bundleType) <==> r != "Technology"
  {
    match bundleType
    case "games" => "Gaming"
    case "books" => "Books & Literature"
    case "software" => "Software & Technology"
    case _ => "Technology"
  }

  // ---------------------------------------------------------------------------
  // cleanTitle
  // ---------------------------------------------------------------------------

  /**
   * What the three replacements of `cleanTitle` do to one rune: '<' and '>'
   * become entities whose '&' is escaped again by the third replacement.
   */
  function EscapeRune(c: char): (r: string)
    ensures '<' !in r && '>' !in r
  {
    if c == '<' then "&amp;lt;"
    else if c == '>' then "&amp;gt;"
    else if c == '&' then "&amp;"
    else [c]
  }

  /** Rune-by-rune escaping. */
  function Escape(s: string): (r: string)
    ensures '<' !in r && '>' !in r
    decreases |s|
  {
    if s == [] then "" else EscapeRune(s[0]) + Escape(s[1..])
  }

  /** The three replacements, in the order `cleanTitle` applies them. */
  function ReplaceMarkup(s: string): string
  {
    ReplaceAll(ReplaceAll(ReplaceAll(s, "<", "&lt;"), ">", "&gt;"), "&", "&amp;")
  }

  /** The replacement chain applied to a single rune. */
  lemma ReplaceMarkupRune(c: char)
    ensures ReplaceMarkup([c]) == EscapeRune(c)
  {
    if c == '<' {
      assert ReplaceAll([c], "<", "&lt;") == "&lt;";
      ReplaceAbsent("&lt;", ">", "&gt;");
      ReplaceAbsent("lt;", "&", "&amp;");
      assert "&lt;"[1..] == "lt;";
    } else if c == '>' {
      ReplaceAbsent([c], "<", "&lt;");
      assert ReplaceAll([c], ">", "&gt;") == "&gt;";
      ReplaceAbsent("gt;", "&", "&amp;");
      assert "&gt;"[1..] == "gt;";
    } else {
      ReplaceAbsent([c], "<", "&lt;");
      ReplaceAbsent([c], ">", "&gt;");
    }
  }

  /** The replacement chain escapes rune by rune. */
  lemma {:induction false} ReplaceMarkupIsEscape(s: string)
    ensures ReplaceMarkup(s) == Escape(s)
    decreases |s|
  {
    if s != [] {
      var c, t := s[0], s[1..];
      assert s == [c] + t;
      ReplaceRuneConcat([c], t, '<', "&lt;");
      var a, b := ReplaceAll([c], "<", "&lt;"), ReplaceAll(t, "<", "&lt;");
      ReplaceRuneConcat(a, b, '>', "&gt;");
      var a', b' := ReplaceAll(a, ">", "&gt;"), ReplaceAll(b, ">", "&gt;");
      ReplaceRuneConcat(a', b', '&', "&amp;");
      ReplaceMarkupRune(c);
      ReplaceMarkupIsEscape(t);
    }
  }

  /**
   * `cleanTitle`: the escaped title with its ends trimmed. The result holds
   * no '<' or '>' and neither starts nor ends with white space; a '<' of the
   * input comes out as "&amp;lt;".
   */
  function CleanTitle(title: string): (r: string)
    ensures r == TrimSpace(Escape(title))
    ensures '<' !in r && '>' !in r
    ensures r == [] || (!IsSpace(r[0]) && !IsSpace(r[|r| - 1]))
  {
    ReplaceMarkupIsEscape(title);
    TrimSpaceKeepsOut(Escape(title), '<');
    TrimSpaceKeepsOut(Escape(title), '>');
    TrimSpace(ReplaceMarkup(title))
  }

  // ---------------------------------------------------------------------------
  // Keyword categories
  // ---------------------------------------------------------------------------

  const GameCategories: map<string, string> := map[
    "indie" := "Indie Games", "strategy" := "Strategy", "action" := "Action", "rpg" := "RPG",
    "adventure" := "Adventure", "puzzle" := "Puzzle", "horror" := "Horror", "simulation" := "Simulation",
    "racing" := "Racing", "sports" := "Sports", "shooter" := "Shooter", "platformer" := "Platformer",
    "roguelike" := "Roguelike"]

  const BookCategories: map<string, string> := map[
    "fiction" := "Fiction", "sci-fi" := "Science Fiction", "fantasy" := "Fantasy", "mystery" := "Mystery",
    "romance" := "Romance", "thriller" := "Thriller", "biography" := "Biography", "history" := "History",
    "programming" := "Programming", "tech" := "Technology", "business" := "Business",
    "self-help" := "Self Help", "cooking" := "Cooking", "art" := "Art"]

  const SoftwareCategories: map<string, string> := map[
    "creative" := "Creative Software", "design" := "Design", "photo" := "Photo Editing",
    "video" := "Video Editing", "audio" := "Audio Production", "productivity" := "Productivity",
    "office" := "Office Software", "security" := "Security", "utility" := "Utilities",
    "development" := "Development Tools", "programming" := "Programming", "game" := "Game Development",
    "3d" := "3D Software", "animation" := "Animation"]

  /**
   * An acceptable answer of a keyword lookup: the label of some keyword the
   * title contains, or the fallback label when it contains none. Go visits
   * a map in no fixed order, so any matching keyword may win.
   */
  predicate IsLabelFor(title: string, table: map<string, string>, fallback: string, answer: string)
  {
    if exists k :: k in table && Contains(title, k)
    then exists k :: k in table && Contains(title, k) && table[k] == answer
    else answer == fallback
  }

  /** The `for keyword, category := range categories` loop, visiting the keys in an arbitrary order. */
  method LookupCategory(title: string, table: map<string, string>, fallback: string) returns (answer: string)
    ensures IsLabelFor(title, table, fallback, answer)
  {
    var keys := table.Keys;
    while keys != {}
      invariant keys <= table.Keys
      invariant forall k :: k in table.Keys - keys ==> !Contains(title, k)
      decreases |keys|
    {
      var keyword :| keyword in keys;
      if Contains(title, keyword) {
        return table[keyword];
      }
      keys := keys - {keyword};
    }
    return fallback;
  }

  /** `getGameCategory`. */
  method GetGameCategory(title: string) returns (answer: string)
    ensures IsLabelFor(title, GameCategories, "Gaming", answer)
  {
    answer := LookupCategory(title, GameCategories, "Gaming");
  }

  /** `getBookCategory`. */
  method GetBookCategory(title: string) returns (answer: string)
    ensures IsLabelFor(title, BookCategories, "Books & Literature", answer)
  {
    answer := LookupCategory(title, BookCategories, "Books & Literature");
  }

  /** `getSoftwareCategory`. */
  method GetSoftwareCategory(title: string) returns (answer: string)
    ensures IsLabelFor(title, SoftwareCategories, "Software & Technology", answer)
  {
    answer := LookupCategory(title, SoftwareCategories, "Software & Technology");
  }

  /** The label of any keyword the title contains is an acceptable answer. */
  lemma KeywordLabelIsAcceptable(title: string, table: map<string, string>, fallback: string, keyword: string)
    requires keyword in table && Contains(title, keyword)
    ensures IsLabelFor(title, table, fallback, table[keyword])
  {
  }

  /**
   * A title with two keywords has two acceptable labels: "action rpg" may be
   * filed under "Action" or under "RPG".
   */
  lemma CategoryDependsOnMapOrder()
    ensures IsLabelFor("action rpg", GameCategories, "Gaming", "Action")
    ensures IsLabelFor("action rpg", GameCategories, "Gaming", "RPG")
  {
    ContainsAt("action rpg", "action", 0);
    ContainsAt("action rpg", "rpg", 7);
    assert GameCategories["action"] == "Action";
    assert GameCategories["rpg"] == "RPG";
    KeywordLabelIsAcceptable("action rpg", GameCategories, "Gaming", "action");
    KeywordLabelIsAcceptable("action rpg", GameCategories, "Gaming", "rpg");
  }

  // ---------------------------------------------------------------------------
  // createItemDescription
  // ---------------------------------------------------------------------------

  const DivOpen := "<div style=\"font-family: Arial, sans-serif;\">"

  /** The lines of an item description, one function per line `createItemDescription` may append. */
  function ImageLine(b: Bundle): string
  {
    "<img src=\"" + b.ImageURL + "\" alt=\"" + b.Title + "\" style=\"max-width: 300px; height: auto; margin-bottom: 10px;\" />"
  }

  function TitleLine(b: Bundle): string
  {
    "<h3>" + b.Title + "</h3>"
  }

  function PriceLine(b: Bundle): string
  {
    "<p><strong>Price:</strong> " + b.Price + "</p>"
  }

  function CountLine(b: Bundle): string
  {
    "<p><strong>Number of " + GetItemTypeName(b) + ":</strong> " + b.ItemCount + "</p>"
  }

  function TierLine(b: Bundle): string
  {
    "<p><strong>Tier:</strong> " + b.Tier + "</p>"
  }

  function TypeLine(b: Bundle): string
  {
    "<p><strong>Type:</strong> " + GetBundleTypeName(b) + "</p>"
  }

  function LinkLine(b: Bundle): string
  {
    "<p><a href=\"" + b.Link + "\" target=\"_blank\">View Bundle →</a></p>"
  }

  /** The pieces of an item description in the order `createItemDescription` appends them; absent ones are "". */
  function ItemDescriptionParts(b: Bundle): seq<string>
  {
    [ DivOpen,
      if b.ImageURL != "" then ImageLine(b) else "",
      TitleLine(b),
      if b.Price != "" then PriceLine(b) else "",
      if b.ItemCount != "" then CountLine(b) else "",
      if b.Tier != "" then TierLine(b) else "",
      TypeLine(b),
      LinkLine(b),
      "</div>" ]
  }

  /**
   * `createItemDescription`: an HTML block that opens with the styled div,
   * holds the title heading, the type line, the link and the line of every
   * field that is set, and closes the div.
   */
  function CreateItemDescription(b: Bundle): (r: string)
    ensures HasPrefix(r, DivOpen)
    ensures |r| >= 6 && r[|r| - 6..] == "</div>"
    ensures Contains(r, TitleLine(b)) && Contains(r, TypeLine(b)) && Contains(r, LinkLine(b))
    ensures b.ImageURL != "" ==> Contains(r, ImageLine(b))
    ensures b.Price != "" ==> Contains(r, PriceLine(b))
    ensures b.ItemCount != "" ==> Contains(r, CountLine(b))
    ensures b.Tier != "" ==> Contains(r, TierLine(b))
  {
    var parts := ItemDescriptionParts(b);
    ConcatStartsWithFirst(parts);
    ConcatEndsWithLast(parts);
    ConcatContainsPart(parts, 1);
    ConcatContainsPart(parts, 2);
    ConcatContainsPart(parts, 3);
    ConcatContainsPart(parts, 4);
    ConcatContainsPart(parts, 5);
    ConcatContainsPart(parts, 6);
    ConcatContainsPart(parts, 7);
    Concat(parts)
  }

  // ---------------------------------------------------------------------------
  // The generator
  // ---------------------------------------------------------------------------

  datatype Enclosure = Enclosure(URL: string, Length: int, Type: string)

  /** One RSS item. The publication date is the bundle's update time; its RFC 1123 text is not modelled. */
  datatype Item = Item(
    Title: string,
    Link: string,
    Description: string,
    Author: string,
    Category: string,
    Enclosure: Option<Enclosure>,
    GUID: string,
    PubDate: Time,
    Source: string)

  datatype Image = Image(URL: string, Title: string, Link: string, Width: int, Height: int)

  /** The channel; `PubDate` and `LastBuildDate` are both the generation time. */
  datatype Channel = Channel(
    Title: string,
    Link: string,
    Description: string,
    Language: string,
    Copyright: string,
    ManagingEditor: string,
    WebMaster: string,
    PubDate: int,
    LastBuildDate: int,
    Category: string,
    Generator: string,
    TTL: int,
    Image: Image,
    Items: seq<Item>)

  datatype Document = Document(Version: string, Channel: Channel)

  /** What `getCategoryFromBundle` may answer for `b` when the feed's own category is `feedCategory`. */
  ghost predicate CategoryMatches(feedCategory: string, b: Bundle, category: string)
  {
    var title := ToLower(b.Title);
    match b.BundleType
    case "games" => IsLabelFor(title, GameCategories, "Gaming", category)
    case "books" => IsLabelFor(title, BookCategories, "Books & Literature", category)
    case "software" => IsLabelFor(title, SoftwareCategories, "Software & Technology", category)
    case _ => category == feedCategory
  }

  /** The item built for a valid bundle `b` in a feed with this link and category. */
  ghost predicate ItemMatches(feedLink: string, feedCategory: string, item: Item, b: Bundle)
  {
    && item.Title == CleanTitle(b.Title)
    && item.Link == b.Link
    && item.Description == CreateItemDescription(b)
    && item.Author == "rss@fanatical.com"
    && CategoryMatches(feedCategory, b, item.Category)
    && item.GUID == GetGUID(b)
    && item.PubDate == b.UpdatedAt
    && item.Source == feedLink
    && (item.Enclosure.Some? <==> b.ImageURL != "")
    && (item.Enclosure.Some? ==> item.Enclosure.value == Enclosure(b.ImageURL, 0, "image/jpeg"))
  }

  class Generator {
    var feedTitle: string
    var feedLink: string
    var feedDescription: string
    var feedLanguage: string
    var feedCopyright: string
    var feedCategory: string
    var feedTTL: int
    var bundleType: string

    /** `NewGenerator`: the type's metadata, English, a 60-minute TTL. */
    constructor (bundleType: string)
      ensures feedTitle == GetFeedTitle(bundleType)
      ensures feedLink == "https://www.fanatical.com/en/bundle/" + bundleType
      ensures feedDescription == GetFeedDescription(bundleType)
      ensures feedLanguage == "en-US"
      ensures feedCopyright == "© 2025 Fanatical Bundle RSS Generator"
      ensures feedCategory == GetFeedCategory(bundleType)
      ensures feedTTL == 60
      ensures this.bundleType == bundleType
    {
      feedTitle := GetFeedTitle(bundleType);
      feedLink := "https://www.fanatical.com/en/bundle/" + bundleType;
      feedDescription := GetFeedDescription(bundleType);
      feedLanguage := "en-US";
      feedCopyright := "© 2025 Fanatical Bundle RSS Generator";
      feedCategory := GetFeedCategory(bundleType);
      feedTTL := 60;
      this.bundleType := bundleType;
    }

    /** `SetFeedMetadata`: each non-empty argument replaces its field; nothing else changes. */
    method SetFeedMetadata(title: string, link: string, description: string, language: string)
      modifies this
      ensures feedTitle == (if title != "" then title else old(feedTitle))
      ensures feedLink == (if link != "" then link else old(feedLink))
      ensures feedDescription == (if description != "" then description else old(feedDescription))
      ensures feedLanguage == (if language != "" then language else old(feedLanguage))
      ensures feedCopyright == old(feedCopyright) && feedCategory == old(feedCategory)
      ensures feedTTL == old(feedTTL) && bundleType == old(bundleType)
    {
      if title != "" {
        feedTitle := title;
      }
      if link != "" {
        feedLink := link;
      }
      if description != "" {
        feedDescription := description;
      }
      if language != "" {
        feedLanguage := language;
      }
    }

    /** `SetTTL`: only the TTL changes. */
    method SetTTL(minutes: int)
      modifies this
      ensures feedTTL == minutes
      ensures feedTitle == old(feedTitle) && feedLink == old(feedLink) && feedDescription == old(feedDescription)
      ensures feedLanguage == old(feedLanguage) && feedCopyright == old(feedCopyright)
      ensures feedCategory == old(feedCategory) && bundleType == old(bundleType)
    {
      feedTTL := minutes;
    }

    /** What `getCategoryFromBundle` may answer for `b`. */
    ghost predicate IsCategoryFor(b: Bundle, category: string)
      reads this
    {
      CategoryMatches(feedCategory, b, category)
    }

    /** `getCategoryFromBundle`: the keyword category of the lower-cased title for the bundle's type. */
    method GetCategoryFromBundle(b: Bundle) returns (category: string)
      ensures IsCategoryFor(b, category)
    {
      var title := ToLower(b.Title);
      match b.BundleType
      case "games" =>
        category := GetGameCategory(title);
      case "books" =>
        category := GetBookCategory(title);
      case "software" =>
        category := GetSoftwareCategory(title);
      case _ =>
        category := feedCategory;
    }

    /** The item `GenerateRSS` builds for a valid bundle, given the category chosen for it. */
    ghost predicate IsItemFor(item: Item, b: Bundle)
      reads this
    {
      ItemMatches(feedLink, feedCategory, item, b)
    }

    /** The body of the item loop of `GenerateRSS` for one valid bundle. */
    method BuildItem(bundle: Bundle) returns (item: Item)
      ensures IsItemFor(item, bundle)
    {
      var category := GetCategoryFromBundle(bundle);
      item := Item(CleanTitle(bundle.Title), bundle.Link, CreateItemDescription(bundle), "rss@fanatical.com",
                   category, None, GetGUID(bundle), bundle.UpdatedAt, feedLink);
      if bundle.ImageURL != "" {
        item := item.(Enclosure := Some(Enclosure(bundle.ImageURL, 0, "image/jpeg")));
      }
    }

    /**
     * `GenerateRSS`: one item per valid bundle, in input order, and the
     * channel filled from the generator's metadata.
     */
    method GenerateRSS(bundles: seq<Bundle>, now: int) returns (rss: Document)
      ensures rss.Version == "2.0"
      ensures var c := rss.Channel;
        && c.Title == feedTitle && c.Link == feedLink && c.Description == feedDescription
        && c.Language == feedLanguage && c.Copyright == feedCopyright && c.Category == feedCategory
        && c.TTL == feedTTL && c.PubDate == now && c.LastBuildDate == now
        && c.Image == Image("https://www.fanatical.com/favicon.ico", feedTitle, feedLink, 32, 32)
      ensures ItemsFor(rss.Channel.Items, Filter(bundles, IsValid))
    {
      var items := BuildItems(bundles);
      var channel := Channel(feedTitle, feedLink, feedDescription, feedLanguage, feedCopyright,
                             "rss@fanatical.com", "webmaster@fanatical.com", now, now, feedCategory,
                             "Fanatical Bundle RSS Generator v1.0", feedTTL,
                             Image("https://www.fanatical.com/favicon.ico", feedTitle, feedLink, 32, 32), items);
      rss := Document("2.0", channel);
    }

    /** `items` are the items of `bundles`, position by position. */
    ghost predicate ItemsFor(items: seq<Item>, bundles: seq<Bundle>)
      reads this
    {
      var link, category := feedLink, feedCategory;
      Pointwise(items, bundles, (item, b) => ItemMatches(link, category, item, b))
    }

    /** A step of the item loop over a valid bundle appends its item. */
    lemma ItemsForAdd(bundles: seq<Bundle>, i: nat, items: seq<Item>, item: Item)
      requires i < |bundles| && ItemsFor(items, Filter(bundles[..i], IsValid))
      requires IsValid(bundles[i]) && IsItemFor(item, bundles[i])
      ensures ItemsFor(items + [item], Filter(bundles[..i + 1], IsValid))
    {
      FilterStep(bundles, IsValid, i);
      var link, category := feedLink, feedCategory;
      PointwiseSnoc(items, Filter(bundles[..i], IsValid), item, bundles[i],
                    (item, b) => ItemMatches(link, category, item, b));
    }

    /** A step of the item loop over an invalid bundle appends nothing. */
    lemma ItemsForSkip(bundles: seq<Bundle>, i: nat, items: seq<Item>)
      requires i < |bundles| && ItemsFor(items, Filter(bundles[..i], IsValid))
      requires !IsValid(bundles[i])
      ensures ItemsFor(items, Filter(bundles[..i + 1], IsValid))
    {
      FilterStep(bundles, IsValid, i);
      assert Filter(bundles[..i], IsValid) + [] == Filter(bundles[..i], IsValid);
    }

    /** The item loop of `GenerateRSS`: invalid bundles are skipped, the others become items in order. */
    method BuildItems(bundles: seq<Bundle>) returns (items: seq<Item>)
      ensures ItemsFor(items, Filter(bundles, IsValid))
    {
      items := [];
      var i := 0;
      while i < |bundles|
        invariant 0 <= i <= |bundles|
        invariant ItemsFor(items, Filter(bundles[..i], IsValid))
      {
        var bundle := bundles[i];
        if !IsValid(bundle) {
          ItemsForSkip(bundles, i, items);
          i := i + 1;
          continue;
        }
        var item := BuildItem(bundle);
        ItemsForAdd(bundles, i, items, item);
        items := items + [item];
        i := i + 1;
      }
      assert bundles[..i] == bundles;
    }
  }

  /** The channel title and link that the parsed document reports to `ValidateRSS`. */
  datatype ParsedChannel = ParsedChannel(Title: string, Link: string)

  /**
   * `ValidateRSS`: the first failing check, in order: the three markers in
   * the text, then parsing (its outcome is an input), then a non-empty
   * channel title and link. None means the feed passed.
   */
  function ValidateRSS(content: string, parsed: Result<ParsedChannel, string>): (err: Option<string>)
    ensures err.None? <==>
      && Contains(content, "<?xml") && Contains(content, "<rss") && Contains(content, "<channel>")
      && parsed.Ok? && parsed.value.Title != "" && parsed.value.Link != ""
    ensures !Contains(content, "<?xml") ==> err == Some("XML header missing")
    ensures Contains(content, "<?xml") && !Contains(content, "<rss") ==> err == Some("RSS root element missing")
    ensures Contains(content, "<?xml") && Contains(content, "<rss") && !Contains(content, "<channel>") ==>
      err == Some("channel element missing")
    ensures parsed.Err? && Contains(content, "<?xml") && Contains(content, "<rss") && Contains(content, "<channel>") ==>
      err == Some("XML parsing failed: " + parsed.error)
    ensures parsed.Ok? && Contains(content, "<?xml") && Contains(content, "<rss") && Contains(content, "<channel>") ==>
      && (parsed.value.Title == "" ==> err == Some("channel title missing"))
      && (parsed.value.Title != "" && parsed.value.Link == "" ==> err == Some("channel link missing"))
  {
    if !Contains(content, "<?xml") then Some("XML header missing")
    else if !Contains(content, "<rss") then Some("RSS root element missing")
    else if !Contains(content, "<channel>") then Some("channel element missing")
    else match parsed
      case Err(e) => Some("XML parsing failed: " + e)
      case Ok(channel) =>
        if channel.Title == "" then Some("channel title missing")
        else if channel.Link == "" then Some("channel link missing")
        else None
  }
}
