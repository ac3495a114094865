/**
 * The site builder of main.go: for each bundle type (games, books,
 * software) the scraped bundles become the items of a German RSS 2.0
 * channel. Scraping, XML output and the index page are not modelled.
 */
module Site {
  import opened Text

  /** A scraped bundle; the publication time is a number of seconds. */
  datatype Bundle = Bundle(
    Title: string,
    Description: string,
    Link: string,
    Price: string,
    ImageURL: string,
    PubDate: int)

  /** One entry of `bundleTypes`: display name, page URL and output file. */
  datatype BundleType = BundleType(Name: string, URL: string, File: string)

  const BundleTypes: seq<BundleType> := [
    BundleType("Games", "https://www.fanatical.com/de/bundle/games", "games.rss"),
    BundleType("Books", "https://www.fanatical.com/de/bundle/books", "books.rss"),
    BundleType("Software", "https://www.fanatical.com/de/bundle/software", "software.rss")]

  datatype Item = Item(Title: string, Link: string, Description: string, PubDate: int, GUID: string)

  /** The channel; the last build time is the generation time. */
  datatype Channel = Channel(
    Title: string,
    Link: string,
    Description: string,
    Language: string,
    LastBuildDate: int,
    Items: seq<Item>)

  datatype Rss = Rss(Version: string, Channel: Channel)

  /** The `<img>` tag appended for a bundle with an image. */
  function ImageTag(b: Bundle): string
  {
    "<br><img src=\"" + b.ImageURL + "\" alt=\"" + b.Title + "\" style=\"max-width: 300px;\">"
  }

  /**
   * The item description: the bundle's description, then " - Price: " and
   * the price when there is one, then the image tag when there is an image.
   * This is the specification of the `+=` chain in `Describe`, which is
   * proved to produce it; `ItemFor` states the items through it.
   */
  function ItemDescription(b: Bundle): (r: string)
    ensures HasPrefix(r, b.Description)
    ensures b.Price == "" && b.ImageURL == "" <==> r == b.Description
    ensures b.Price != "" ==> Contains(r, " - Price: " + b.Price)
    ensures b.ImageURL != "" ==> |ImageTag(b)| <= |r| && r[|r| - |ImageTag(b)|..] == ImageTag(b)
  {
    var withPrice := if b.Price != "" then " - Price: " + b.Price else "";
    var withImage := if b.ImageURL != "" then ImageTag(b) else "";
    var r := b.Description + withPrice + withImage;
    assert r[..|b.Description|] == b.Description;
    assert r[|r| - |withImage|..] == withImage;
    if b.Price != "" then
      ContainsAt(r, withPrice, |b.Description|);
      r
    else r
  }

  /** The item of one bundle: its GUID is its link. */
  function ItemFor(b: Bundle): (item: Item)
    ensures item.GUID == item.Link == b.Link
    ensures item.Title == b.Title && item.PubDate == b.PubDate
    ensures item.Description == ItemDescription(b)
  {
    Item(b.Title, b.Link, ItemDescription(b), b.PubDate, b.Link)
  }

  /** The item loop of `generateRSS`: one item per bundle, in order. */
  method BuildItems(bundles: seq<Bundle>) returns (items: seq<Item>)
    ensures |items| == |bundles|
    ensures forall i :: 0 <= i < |bundles| ==> items[i] == ItemFor(bundles[i])
  {
    items := [];
    for k := 0 to |bundles|
      invariant |items| == k
      invariant forall i :: 0 <= i < k ==> items[i] == ItemFor(bundles[i])
    {
      var bundle := bundles[k];
      var description := Describe(bundle);
      items := items + [Item(bundle.Title, bundle.Link, description, bundle.PubDate, bundle.Link)];
    }
  }

  /** The description of one item, built up with `+=` as the loop body does. */
  method Describe(bundle: Bundle) returns (description: string)
    ensures description == ItemDescription(bundle)
  {
    description := bundle.Description;
    if bundle.Price != "" {
      description := description + " - Price: " + bundle.Price;
    }
    if bundle.ImageURL != "" {
      description := description + ImageTag(bundle);
    }
  }

  /**
   * `generateRSS`: one item per bundle, in order, in a German channel named
   * after the bundle type, whose link is the lower-cased type's page.
   */
  method GenerateRSS(bundleType: string, bundles: seq<Bundle>, now: int) returns (rss: Rss)
    ensures rss.Version == "2.0"
    ensures rss.Channel.Title == "Fanatical " + bundleType + " Bundles"
    ensures rss.Channel.Link == "https://www.fanatical.com/de/bundle/" + ToLower(bundleType)
    ensures rss.Channel.Description == "Latest " + ToLower(bundleType) + " bundles from Fanatical"
    ensures rss.Channel.Language == "de-DE" && rss.Channel.LastBuildDate == now
    ensures |rss.Channel.Items| == |bundles|
    ensures forall i :: 0 <= i < |bundles| ==> rss.Channel.Items[i] == ItemFor(bundles[i])
  {
    var items := BuildItems(bundles);
    var channel := Channel("Fanatical " + bundleType + " Bundles",
                           "https://www.fanatical.com/de/bundle/" + ToLower(bundleType),
                           "Latest " + ToLower(bundleType) + " bundles from Fanatical",
                           "de-DE", now, items);
    rss := Rss("2.0", channel);
  }

  /** The feed of each configured type links back to the page its bundles are scraped from. */
  lemma ChannelLinkIsScrapedPage(i: nat)
    requires i < |BundleTypes|
    ensures "https://www.fanatical.com/de/bundle/" + ToLower(BundleTypes[i].Name) == BundleTypes[i].URL
  {
    if i == 0 {
      GamesLink();
      assert BundleTypes[0].Name == "Games";
      assert BundleTypes[0].URL == "https://www.fanatical.com/de/bundle/games";
    } else if i == 1 {
      BooksLink();
      assert BundleTypes[1].Name == "Books";
      assert BundleTypes[1].URL == "https://www.fanatical.com/de/bundle/books";
    } else {
      SoftwareLink();
      assert BundleTypes[2].Name == "Software";
      assert BundleTypes[2].URL == "https://www.fanatical.com/de/bundle/software";
    }
  }

  /** A capitalised word lower-cases to its first letter folded and the rest unchanged. */
  lemma LowerCapitalised(s: string)
    requires s != [] && forall i :: 1 <= i < |s| ==> !('A' <= s[i] <= 'Z')
    ensures ToLower(s) == [LowerChar(s[0])] + s[1..]
  {
    ToLowerOfLower(s[1..]);
  }

  lemma GamesLink()
    ensures "https://www.fanatical.com/de/bundle/" + ToLower("Games") == "https://www.fanatical.com/de/bundle/games"
  {
    var r := ToLower("Games");
    LowerCapitalised("Games");
    assert "Games"[0] == 'G' && LowerChar('G') == 'g';
    assert "Games"[1..] == "ames";
    assert r == ['g'] + "ames" == "games";
  }

  lemma BooksLink()
    ensures "https://www.fanatical.com/de/bundle/" + ToLower("Books") == "https://www.fanatical.com/de/bundle/books"
  {
    var r := ToLower("Books");
    LowerCapitalised("Books");
    assert "Books"[0] == 'B' && LowerChar('B') == 'b';
    assert "Books"[1..] == "ooks";
    assert r == ['b'] + "ooks" == "books";
  }

  lemma SoftwareLink()
    ensures "https://www.fanatical.com/de/bundle/" + ToLower("Software") == "https://www.fanatical.com/de/bundle/software"
  {
    var r := ToLower("Software");
    LowerCapitalised("Software");
    assert "Software"[0] == 'S' && LowerChar('S') == 's';
    assert "Software"[1..] == "oftware";
    assert r == ['s'] + "oftware" == "software";
  }

  /** Items of bundles with distinct links have distinct GUIDs, and bundles sharing a link share a GUID. */
  lemma GuidsFollowLinks(bundles: seq<Bundle>, i: nat, j: nat)
    requires i < |bundles| && j < |bundles|
    ensures ItemFor(bundles[i]).GUID == ItemFor(bundles[j]).GUID <==> bundles[i].Link == bundles[j].Link
  {
  }
}
