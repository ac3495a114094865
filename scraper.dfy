/**
 * The HTML scraper of internal/scraper/scraper.go, from the point where the
 * selector lookups have produced text: price and item-count clean-up, the
 * description, bundle assembly and the validity filter.
 */
module Scraper {
  import opened Wrappers
  import opened Text
  import opened Patterns
  import opened Models
  import opened Seqs

  // ---------------------------------------------------------------------------
  // URLs
  // ---------------------------------------------------------------------------

  /** A link or image source that does not start with "http" is taken relative to the shop. */
  function AbsoluteUrl(href: string): (r: string)
    ensures HasPrefix(r, "http")
    ensures HasPrefix(href, "http") ==> r == href
    ensures !HasPrefix(href, "http") ==> r == BaseURL + href
    ensures |href| <= |r| && r[|r| - |href|..] == href
  {
    if HasPrefix(href, "http") then href
    else
      assert (BaseURL + href)[..4] == "http";
      BaseURL + href
  }

  // ---------------------------------------------------------------------------
  // cleanPrice
  // ---------------------------------------------------------------------------

  /** The price text with its tags removed and its ends trimmed: no tag and no white space at either end. */
  function VisiblePrice(price: string): (v: string)
    ensures v == [] || (!IsSpace(v[0]) && !IsSpace(v[|v| - 1]))
    ensures TagFree(v)
  {
    TrimmedTagFree(StripTags(price));
    TrimSpace(StripTags(price))
  }

  /**
   * `cleanPrice`: the euro amount followed by "€" when the text has one,
   * otherwise "$" followed by the dollar amount, otherwise the cleaned text.
   */
  function CleanPrice(price: string): string
  {
    var v := VisiblePrice(price);
    match FindPrice(v, '€')
    case Some(amount) => amount + "€"
    case None =>
      match FindPrice(v, '$')
      case Some(amount) => "$" + amount
      case None => v
  }

  /** A text that quotes a euro amount yields its leftmost euro amount followed by "€", whatever else it quotes. */
  lemma CleanPriceEuro(price: string)
    requires exists i :: 0 <= i < |VisiblePrice(price)| && PriceAt(VisiblePrice(price), '€', i).Some?
    ensures var r := CleanPrice(price); |r| >= 2 && r[|r| - 1] == '€' && IsAmount(r[..|r| - 1])
    ensures var v, r := VisiblePrice(price), CleanPrice(price);
      |r| >= 1 &&
      exists i :: 0 <= i < |v| && PriceAt(v, '€', i) == Some(r[..|r| - 1]) &&
        forall k :: 0 <= k < i ==> PriceAt(v, '€', k).None?
  {
    var v := VisiblePrice(price);
    FindPriceLeftmost(v, '€');
    var r := CleanPrice(price);
    assert r[..|r| - 1] == FindPrice(v, '€').value;
  }

  /** A text that quotes only a dollar amount yields "$" followed by its leftmost dollar amount. */
  lemma CleanPriceDollar(price: string)
    requires forall i :: 0 <= i < |VisiblePrice(price)| ==> PriceAt(VisiblePrice(price), '€', i).None?
    requires exists i :: 0 <= i < |VisiblePrice(price)| && PriceAt(VisiblePrice(price), '$', i).Some?
    ensures var r := CleanPrice(price); |r| >= 2 && r[0] == '$' && IsAmount(r[1..])
    ensures var v, r := VisiblePrice(price), CleanPrice(price);
      |r| >= 1 &&
      exists i :: 0 <= i < |v| && PriceAt(v, '$', i) == Some(r[1..]) &&
        forall k :: 0 <= k < i ==> PriceAt(v, '$', k).None?
  {
    var v := VisiblePrice(price);
    FindPriceLeftmost(v, '€');
    FindPriceLeftmost(v, '$');
    var r := CleanPrice(price);
    assert r[1..] == FindPrice(v, '$').value;
  }

  /** A text that quotes no amount comes back without tags and trimmed. */
  lemma CleanPriceNoAmount(price: string)
    requires forall i :: 0 <= i < |VisiblePrice(price)| ==>
      PriceAt(VisiblePrice(price), '€', i).None? && PriceAt(VisiblePrice(price), '$', i).None?
    ensures var r := CleanPrice(price);
      && r == TrimSpace(StripTags(price))
      && (r == [] || (!IsSpace(r[0]) && !IsSpace(r[|r| - 1])))
      && TagFree(r)
  {
    NoAmountFound(VisiblePrice(price));
  }

  /** Trimming keeps a tag-free text tag-free. */
  lemma TrimmedTagFree(t: string)
    requires TagFree(t)
    ensures TagFree(TrimSpace(t))
  {
    var k := TrimSpaceSlice(t);
    TagFreeSlice(t, k, k + |TrimSpace(t)|);
  }

  /** Neither search finds an amount in a text where no position starts one. */
  lemma NoAmountFound(v: string)
    requires forall i :: 0 <= i < |v| ==> PriceAt(v, '€', i).None? && PriceAt(v, '$', i).None?
    ensures FindPrice(v, '€').None? && FindPrice(v, '$').None?
  {
    FindPriceLeftmost(v, '€');
    FindPriceLeftmost(v, '$');
  }

  // ---------------------------------------------------------------------------
  // extractGameCount
  // ---------------------------------------------------------------------------

  /** The German pattern `(\d+)\s*[Ss]piele?`. */
  function GermanCount(text: string): Option<string>
  {
    FindCount(text, 'S', 's', "piel")
  }

  /** The English pattern `(\d+)\s*[Gg]ames?`. */
  function EnglishCount(text: string): Option<string>
  {
    FindCount(text, 'G', 'g', "ame")
  }

  /** The pattern `(\d+)\s*[Ii]tems?`. */
  function ItemsCount(text: string): Option<string>
  {
    FindCount(text, 'I', 'i', "tem")
  }

  /**
   * `extractGameCount`: the German pattern, then the English one, then the
   * items pattern; German counts are reported in English.
   */
  function ExtractGameCount(text: string): (r: string)
    ensures r == "" <==> GermanCount(text).None? && EnglishCount(text).None? && ItemsCount(text).None?
  {
    match GermanCount(text)
    case Some(n) => n + " Games"
    case None =>
      match EnglishCount(text)
      case Some(n) => n + " Games"
      case None =>
        match ItemsCount(text)
        case Some(n) => n + " Items"
        case None => ""
  }

  /**
   * The patterns are tried in order: a German count wins over an English
   * one, and either wins over an items count.
   */
  lemma ExtractGameCountOrder(text: string)
    ensures GermanCount(text).Some? ==> ExtractGameCount(text) == GermanCount(text).value + " Games"
    ensures GermanCount(text).None? && EnglishCount(text).Some? ==>
      ExtractGameCount(text) == EnglishCount(text).value + " Games"
    ensures GermanCount(text).None? && EnglishCount(text).None? && ItemsCount(text).Some? ==>
      ExtractGameCount(text) == ItemsCount(text).value + " Items"
  {
  }

  /** A non-empty count is a number followed by " Games" or " Items". */
  lemma ExtractGameCountShape(text: string)
    ensures var r := ExtractGameCount(text);
      r != "" ==>
        exists n :: 0 < n < |r| && AllDigits(r[..n]) && (r[n..] == " Games" || r[n..] == " Items")
  {
    var r := ExtractGameCount(text);
    if r != "" {
      var d := if GermanCount(text).Some? then GermanCount(text).value
               else if EnglishCount(text).Some? then EnglishCount(text).value
               else ItemsCount(text).value;
      assert r[..|d|] == d;
    }
  }

  /** Empty text holds no count, so the selector loop's emptiness test changes nothing. */
  lemma NoCountInEmptyText()
    ensures ExtractGameCount("") == ""
  {
  }

  // ---------------------------------------------------------------------------
  // generateDescription
  // ---------------------------------------------------------------------------

  /** Appending a part that may be absent to a join. */
  lemma JoinOptional(parts: seq<string>, present: bool, x: string, sep: string)
    requires parts != []
    ensures Join(parts + (if present then [x] else []), sep) == Join(parts, sep) + (if present then sep + x else "")
  {
    if present {
      assert (parts + [x])[..|parts|] == parts;
    } else {
      assert parts + [] == parts;
    }
  }

  /** The parts `generateDescription` joins: "Fanatical Bundle", then each field that is set. */
  function DescriptionParts(b: Bundle): seq<string>
  {
    ["Fanatical Bundle"]
      + (if b.Price != "" then ["Price: " + b.Price] else [])
      + (if b.ItemCount != "" then [b.ItemCount] else [])
      + (if b.Tier != "" then ["Tier: " + b.Tier] else [])
  }

  /** `generateDescription`: "Fanatical Bundle", the price, the count and the tier, joined by " - ". */
  function GenerateDescription(b: Bundle): (r: string)
    ensures r == GetFullDescription(b.(Description := "Fanatical Bundle"))
  {
    DescriptionsAgree(b);
    Join(DescriptionParts(b), " - ")
  }

  /**
   * The scraper's description is the model's full description of the same
   * bundle with "Fanatical Bundle" as its base text.
   */
  lemma DescriptionsAgree(b: Bundle)
    ensures Join(DescriptionParts(b), " - ") == GetFullDescription(b.(Description := "Fanatical Bundle"))
  {
    var sep := " - ";
    var p0 := ["Fanatical Bundle"];
    var p1 := p0 + (if b.Price != "" then ["Price: " + b.Price] else []);
    var p2 := p1 + (if b.ItemCount != "" then [b.ItemCount] else []);
    assert Join(p0, sep) == "Fanatical Bundle";
    JoinOptional(p0, b.Price != "", "Price: " + b.Price, sep);
    JoinOptional(p1, b.ItemCount != "", b.ItemCount, sep);
    JoinOptional(p2, b.Tier != "", "Tier: " + b.Tier, sep);
    assert sep + ("Price: " + b.Price) == " - Price: " + b.Price;
    assert sep + ("Tier: " + b.Tier) == " - Tier: " + b.Tier;
  }

  // ---------------------------------------------------------------------------
  // extractBundle, parseDocument, fallbackParsing
  // ---------------------------------------------------------------------------

  /**
   * What `extractBundle` reads from one bundle card once the selector lookups
   * are done: the first non-empty title text, the first link's href, the
   * first non-empty price text, the texts the count selectors find (in
   * selector order), the first image's src and the tier text.
   */
  datatype Card = Card(
    titleText: string,
    href: Option<string>,
    priceText: string,
    countTexts: seq<string>,
    imageSrc: Option<string>,
    tierText: string)

  /** The count selector loop of `extractBundle`: it stops at the first text that holds a count. */
  method FirstGameCount(texts: seq<string>) returns (itemCount: string)
    ensures itemCount == FirstNonEmpty(texts, ExtractGameCount)
  {
    itemCount := "";
    var i := 0;
    while i < |texts|
      invariant 0 <= i <= |texts|
      invariant FirstNonEmpty(texts[i..], ExtractGameCount) == FirstNonEmpty(texts, ExtractGameCount)
    {
      var count := texts[i];
      assert texts[i..][1..] == texts[i + 1..];
      if count != "" {
        var gameCount := ExtractGameCount(count);
        if gameCount != "" {
          itemCount := gameCount;
          return;
        }
      } else {
        NoCountInEmptyText();
      }
      i := i + 1;
    }
  }

  /**
   * `extractBundle`: fills the fields from the card and derives the
   * description. No branch sets the bundle type.
   */
  method ExtractBundle(card: Card, index: int, now: int) returns (bundle: Bundle)
    ensures bundle.ID == "bundle-" + IntToString(now) + "-" + IntToString(index)
    ensures bundle.CreatedAt == Instant(now) && bundle.UpdatedAt == Instant(now)
    ensures bundle.Title == (if card.titleText != "" then TrimSpace(card.titleText) else "")
    ensures card.href.Some? ==> bundle.Link == AbsoluteUrl(card.href.value)
    ensures card.href.None? ==> bundle.Link == ""
    ensures bundle.Price == (if card.priceText != "" then CleanPrice(card.priceText) else "")
    ensures bundle.ItemCount == FirstNonEmpty(card.countTexts, ExtractGameCount)
    ensures card.imageSrc.Some? ==> bundle.ImageURL == AbsoluteUrl(card.imageSrc.value)
    ensures card.imageSrc.None? ==> bundle.ImageURL == ""
    ensures bundle.Tier == (if card.tierText != "" then TrimSpace(card.tierText) else "")
    ensures bundle.BundleType == "" && !IsValid(bundle)
    ensures bundle.Description == GenerateDescription(bundle)
  {
    var title, link, price, itemCount, imageUrl, tier := "", "", "", "", "", "";
    if card.titleText != "" {
      title := TrimSpace(card.titleText);
    }
    if card.href.Some? {
      link := AbsoluteUrl(card.href.value);
    }
    if card.priceText != "" {
      price := CleanPrice(card.priceText);
    }
    itemCount := FirstGameCount(card.countTexts);
    if card.imageSrc.Some? {
      imageUrl := AbsoluteUrl(card.imageSrc.value);
    }
    if card.tierText != "" {
      tier := TrimSpace(card.tierText);
    }
    bundle := Bundle("bundle-" + IntToString(now) + "-" + IntToString(index), title, link, "", price, itemCount,
                     imageUrl, tier, "", Instant(now), Instant(now));
    bundle := bundle.(Description := GenerateDescription(bundle));
  }

  /** One link element `fallbackParsing` visits: its href, its text and the alt text of its image. */
  datatype LinkElement = LinkElement(href: Option<string>, text: string, imageAlt: string)

  /**
   * `fallbackParsing`: one bundle per link with a title, kept only if valid.
   * The bundles it builds have no type, so none is ever kept.
   */
  method FallbackParsing(links: seq<LinkElement>, now: int) returns (bundles: seq<Bundle>)
    ensures bundles == []
  {
    bundles := [];
    var i := 0;
    while i < |links|
      invariant 0 <= i <= |links|
      invariant bundles == []
    {
      var link := links[i];
      if link.href.Some? {
        var href := AbsoluteUrl(link.href.value);
        var title := if link.text == "" then link.imageAlt else link.text;
        if title != "" {
          var bundle := Bundle("fallback-" + IntToString(i), TrimSpace(title), href, "Fanatical Bundle",
                               "", "", "", "", "", Instant(now), Instant(now));
          if IsValid(bundle) {
            bundles := bundles + [bundle];
          }
        }
      }
      i := i + 1;
    }
  }

  /**
   * `parseDocument`: the cards found by the first selector that matches, each
   * extracted and kept only if valid; with no cards, `fallbackParsing`. Since
   * no extracted bundle has a type, the result is always empty.
   */
  method ParseDocument(cards: seq<Card>, links: seq<LinkElement>, now: int) returns (bundles: seq<Bundle>)
    ensures bundles == []
  {
    if |cards| == 0 {
      bundles := FallbackParsing(links, now);
      return;
    }
    bundles := [];
    var i := 0;
    while i < |cards|
      invariant 0 <= i <= |cards|
      invariant bundles == []
    {
      var bundle := ExtractBundle(cards[i], i, now);
      if IsValid(bundle) {
        bundles := bundles + [bundle];
      }
      i := i + 1;
    }
  }

  // ---------------------------------------------------------------------------
  // GetMockBundles
  // ---------------------------------------------------------------------------

  /** `GetMockBundles`: three sample game bundles stamped with `now`. */
  function GetMockBundles(now: int): (r: seq<Bundle>)
    ensures |r| == 3
    ensures forall i :: 0 <= i < |r| ==> r[i].Title != "" && r[i].Link != ""
    ensures forall i, j :: 0 <= i < j < |r| ==> r[i].ID != r[j].ID
    ensures forall i :: 0 <= i < |r| ==> r[i].BundleType == "" && !IsValid(r[i])
  {
    [ Bundle("mock-1", "Indie Game Bundle", "https://www.fanatical.com/en/bundle/indie-game-bundle",
             "Indie Game Bundle - Price: $4.99 - 10 Games", "$4.99", "10 Games", "", "", "", Instant(now), Instant(now)),
      Bundle("mock-2", "Strategy Bundle", "https://www.fanatical.com/en/bundle/strategy-bundle",
             "Strategy Bundle - Price: $9.99 - 8 Games", "$9.99", "8 Games", "", "", "", Instant(now), Instant(now)),
      Bundle("mock-3", "Action Bundle", "https://www.fanatical.com/en/bundle/action-bundle",
             "Action Bundle - Price: $7.99 - 12 Games", "$7.99", "12 Games", "", "", "", Instant(now), Instant(now)) ]
  }
}
