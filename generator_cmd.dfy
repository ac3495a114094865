/**
 * The stand-alone German games feed of cmd/generator/main.go: bundle cards
 * found in the HTML of the games page become bundles, and the bundles
 * become the items of an RSS 2.0 channel.
 *
 * The container, title and link patterns are HTML-shaped regular
 * expressions; their matches are inputs here (`Match`). The price and
 * game-count patterns and the text cleaning are modelled.
 */
module GeneratorCmd {
  import opened Wrappers
  import opened Text
  import opened Seqs
  import opened Patterns

  /** A bundle as this program builds it; every field is text. */
  datatype Bundle = Bundle(
    Title: string,
    Link: string,
    Description: string,
    Price: string,
    GameCount: string,
    ID: string)

  function BundleId(b: Bundle): string
  {
    b.ID
  }

  function HasTitle(b: Bundle): bool
  {
    b.Title != ""
  }

  // ---------------------------------------------------------------------------
  // cleanHTML
  // ---------------------------------------------------------------------------

  /** The five character references `cleanHTML` decodes, each produced from the rune it stands for. */
  function EscapeRune(c: char): string
  {
    if c == '&' then "&amp;"
    else if c == '<' then "&lt;"
    else if c == '>' then "&gt;"
    else if c == '"' then "&quot;"
    else if c == '\'' then "&#39;"
    else [c]
  }

  /** Escaping rune by rune: the text an HTML page shows as `s`. */
  function EscapeEntities(s: string): string
    decreases |s|
  {
    if s == [] then "" else EscapeRune(s[0]) + EscapeEntities(s[1..])
  }

  /** The five `strings.ReplaceAll` calls of `cleanHTML`, in their order: "&amp;" first. */
  function DecodeEntitiesAsWritten(s: string): string
  {
    var a := ReplaceAll(s, "&amp;", "&");
    var b := ReplaceAll(a, "&lt;", "<");
    var c := ReplaceAll(b, "&gt;", ">");
    var d := ReplaceAll(c, "&quot;", "\"");
    ReplaceAll(d, "&#39;", "'")
  }

  /**
   * Decoding "&amp;" first turns an escaped reference back into a live one:
   * the page text "&lt;" arrives as "&amp;lt;" and comes out as "<".
   */
  lemma DecodeEntitiesAsWrittenDecodesTwice()
    ensures EscapeEntities("&lt;") == "&amp;lt;"
    ensures DecodeEntitiesAsWritten(EscapeEntities("&lt;")) == "<"
  {
    assert EscapeEntities("&lt;") == "&amp;" + "l" + "t" + ";" by {
      assert "&lt;"[1..] == "lt;";
      assert "lt;"[1..] == "t;";
      assert "t;"[1..] == ";";
    }
    assert ReplaceAll("&amp;lt;", "&amp;", "&") == "&lt;" by {
      assert "&amp;lt;"[..5] == "&amp;" && "&amp;lt;"[5..] == "lt;";
      ReplaceAbsent("lt;", "&amp;", "&");
    }
    assert ReplaceAll("&lt;", "&lt;", "<") == "<" by {
      assert "&lt;"[..4] == "&lt;" && "&lt;"[4..] == "";
    }
    ReplaceAbsent("<", "&gt;", ">");
    ReplaceAbsent("<", "&quot;", "\"");
    ReplaceAbsent("<", "&#39;", "'");
  }

  /** Single-pass decoding of the five references: what each reference in the text stands for. */
  function UnescapeEntities(s: string): string
    decreases |s|
  {
    if s == [] then ""
    else if HasPrefix(s, "&amp;") then "&" + UnescapeEntities(s[5..])
    else if HasPrefix(s, "&lt;") then "<" + UnescapeEntities(s[4..])
    else if HasPrefix(s, "&gt;") then ">" + UnescapeEntities(s[4..])
    else if HasPrefix(s, "&quot;") then "\"" + UnescapeEntities(s[6..])
    else if HasPrefix(s, "&#39;") then "'" + UnescapeEntities(s[5..])
    else [s[0]] + UnescapeEntities(s[1..])
  }

  /** Decoding one escaped rune in front of any text. */
  lemma UnescapeRune(c: char, t: string)
    ensures UnescapeEntities(EscapeRune(c) + t) == [c] + UnescapeEntities(t)
  {
    if c == '&' {
      UnescapeAmp(t);
    } else if c == '<' {
      UnescapeLt(t);
    } else if c == '>' {
      UnescapeGt(t);
    } else if c == '"' {
      UnescapeQuot(t);
    } else if c == '\'' {
      UnescapeApos(t);
    } else {
      UnescapePlain(c, t);
    }
  }

  lemma UnescapeAmp(t: string)
    ensures UnescapeEntities("&amp;" + t) == "&" + UnescapeEntities(t)
  {
    var s := "&amp;" + t;
    assert s[..5] == "&amp;" && s[5..] == t;
  }

  lemma UnescapeLt(t: string)
    ensures UnescapeEntities("&lt;" + t) == "<" + UnescapeEntities(t)
  {
    var s := "&lt;" + t;
    assert s[1] == 'l';
    assert s[..4] == "&lt;" && s[4..] == t;
  }

  lemma UnescapeGt(t: string)
    ensures UnescapeEntities("&gt;" + t) == ">" + UnescapeEntities(t)
  {
    var s := "&gt;" + t;
    assert s[1] == 'g';
    assert s[..4] == "&gt;" && s[4..] == t;
  }

  lemma UnescapeQuot(t: string)
    ensures UnescapeEntities("&quot;" + t) == "\"" + UnescapeEntities(t)
  {
    var s := "&quot;" + t;
    assert s[1] == 'q';
    assert s[..6] == "&quot;" && s[6..] == t;
  }

  lemma UnescapeApos(t: string)
    ensures UnescapeEntities("&#39;" + t) == "'" + UnescapeEntities(t)
  {
    var s := "&#39;" + t;
    assert s[1] == '#';
    assert s[..5] == "&#39;" && s[5..] == t;
  }

  /** Decoding undoes escaping, for every text. */
  lemma {:induction false} UnescapeEscape(s: string)
    ensures UnescapeEntities(EscapeEntities(s)) == s
    decreases |s|
  {
    if s != [] {
      UnescapeRune(s[0], EscapeEntities(s[1..]));
      UnescapeEscape(s[1..]);
    }
  }

  /**
   * The last steps of `cleanHTML`: the ends trimmed and every run of `\s`
   * made one space. The result has no tab or line break, no two spaces in
   * a row and no space at either end.
   */
  function NormalizeSpace(t: string): (r: string)
    ensures forall i :: 0 <= i < |r| ==> r[i] == ' ' || !IsRegexSpace(r[i])
    ensures forall i :: 0 <= i < |r| - 1 ==> !(r[i] == ' ' && r[i + 1] == ' ')
    ensures r == [] || (r[0] != ' ' && r[|r| - 1] != ' ')
    ensures r == [] <==> TrimSpace(t) == []
    ensures t != [] && (forall i :: 0 <= i < |t| ==> !IsSpace(t[i])) ==> r == t
  {
    var u := TrimSpace(t);
    TrimmedEndsAreNotRegexSpace(u);
    assert forall c :: IsRegexSpace(c) ==> IsSpace(c);
    CollapseSpaces(u)
  }

  /** The two sample titles hold no '<', so tag removal keeps them. */
  lemma StripTagsKeepsText(s: string)
    requires s == "&amp;lt;" || s == "&lt;b&gt;"
    ensures StripTags(s) == s
  {
    assert forall i :: 0 <= i < |s| ==> s[i] in "&amplt;bg";
  }

  /** A single rune that is not white space is kept as it is. */
  lemma NormalizeSpaceKeepsRune(c: char)
    requires !IsSpace(c)
    ensures NormalizeSpace([c]) == [c]
  {
    var t := [c];
    assert forall i :: 0 <= i < |t| ==> t[i] == c;
  }

  /** A text made of references and tag brackets only is kept as it is. */
  lemma NormalizeSpaceKeepsPlain(t: string)
    requires t != [] && forall i :: 0 <= i < |t| ==> t[i] in "&lt;gbq#39<>"
    ensures NormalizeSpace(t) == t
  {
    assert forall i :: 0 <= i < |t| ==> !IsSpace(t[i]);
  }

  /**
   * `cleanHTML` as written: tags removed, references decoded by the
   * `ReplaceAll` chain ("&amp;" first), then the white space normalised.
   */
  function CleanHtml(s: string): (r: string)
    ensures forall i :: 0 <= i < |r| ==> r[i] == ' ' || !IsRegexSpace(r[i])
    ensures forall i :: 0 <= i < |r| - 1 ==> !(r[i] == ' ' && r[i + 1] == ' ')
    ensures r == [] || (r[0] != ' ' && r[|r| - 1] != ' ')
    ensures r == [] <==> TrimSpace(DecodeEntitiesAsWritten(StripTags(s))) == []
  {
    NormalizeSpace(DecodeEntitiesAsWritten(StripTags(s)))
  }

  /** A title shown on the page as "&lt;" arrives as "&amp;lt;" and is cleaned to "<". */
  lemma CleanHtmlDecodesTwice()
    ensures CleanHtml("&amp;lt;") == "<"
  {
    var s := "&amp;lt;";
    StripTagsKeepsText(s);
    DecodeEntitiesAsWrittenDecodesTwice();
    assert DecodeEntitiesAsWritten(s) == "<";
    NormalizeSpaceKeepsRune('<');
  }

  /** `cleanHTML` with each reference decoded once, as the comment above the chain intends. */
  function CleanHtmlIntended(s: string): (r: string)
    ensures forall i :: 0 <= i < |r| ==> r[i] == ' ' || !IsRegexSpace(r[i])
    ensures forall i :: 0 <= i < |r| - 1 ==> !(r[i] == ' ' && r[i + 1] == ' ')
    ensures r == [] || (r[0] != ' ' && r[|r| - 1] != ' ')
    ensures r == [] <==> TrimSpace(UnescapeEntities(StripTags(s))) == []
  {
    NormalizeSpace(UnescapeEntities(StripTags(s)))
  }

  /** With single-pass decoding the same title keeps the text the page shows. */
  lemma CleanHtmlIntendedDecodesOnce()
    ensures CleanHtmlIntended("&amp;lt;") == "&lt;"
  {
    StripTagsKeepsText("&amp;lt;");
    UnescapeDoubleEscapedLt();
    NormalizeSpaceKeepsEscapedLt();
  }

  lemma UnescapeDoubleEscapedLt()
    ensures UnescapeEntities("&amp;lt;") == "&lt;"
  {
    DecodeEntitiesAsWrittenDecodesTwice();
    UnescapeEscape("&lt;");
  }

  lemma NormalizeSpaceKeepsEscapedLt()
    ensures NormalizeSpace("&lt;") == "&lt;"
  {
    var d := "&lt;";
    assert forall i :: 0 <= i < |d| ==> d[i] in "&lt;" by {
      assert d[0] == '&' && d[1] == 'l' && d[2] == 't' && d[3] == ';';
    }
    NormalizeSpaceKeepsPlain(d);
  }

  /** Tags are removed before references are decoded, so an escaped tag survives as a tag. */
  lemma CleanHtmlKeepsEscapedTags()
    ensures CleanHtml("&lt;b&gt;") == "<b>"
  {
    var s := "&lt;b&gt;";
    StripTagsKeepsText(s);
    DecodeEscapedTagAsWritten();
    assert DecodeEntitiesAsWritten(s) == "<b>";
    var d := "<b>";
    assert forall i :: 0 <= i < |d| ==> d[i] in "<b>" by {
      assert d[0] == '<' && d[1] == 'b' && d[2] == '>';
    }
    NormalizeSpaceKeepsPlain(d);
  }

  /** The `ReplaceAll` chain turns "&lt;b&gt;" into "<b>". */
  lemma DecodeEscapedTagAsWritten()
    ensures DecodeEntitiesAsWritten("&lt;b&gt;") == "<b>"
  {
    DecodeAmpInEscapedTag();
    DecodeLtInEscapedTag();
    DecodeGtInEscapedTag();
    assert "&quot;"[0] !in "<b>" && "&#39;"[0] !in "<b>";
    ReplaceAbsent("<b>", "&quot;", "\"");
    ReplaceAbsent("<b>", "&#39;", "'");
  }

  lemma DecodeAmpInEscapedTag()
    ensures ReplaceAll("&lt;b&gt;", "&amp;", "&") == "&lt;b&gt;"
  {
    var s := "&lt;b&gt;";
    assert "&amp;"[1] == 'a';
    assert 'a' !in s by {
      assert s[0] == '&' && s[1] == 'l' && s[2] == 't' && s[3] == ';' && s[4] == 'b';
      assert s[5] == '&' && s[6] == 'g' && s[7] == 't' && s[8] == ';';
    }
    MissingRuneNotContained(s, "&amp;", 1);
    ReplaceNotContained(s, "&amp;", "&");
  }

  lemma DecodeLtInEscapedTag()
    ensures ReplaceAll("&lt;b&gt;", "&lt;", "<") == "<b&gt;"
  {
    var t := "b&gt;";
    assert "&lt;b&gt;" == "&lt;" + t;
    ReplaceAtFront("&lt;", t, "<");
    KeepRestOfEscapedTag();
  }

  lemma KeepRestOfEscapedTag()
    ensures ReplaceAll("b&gt;", "&lt;", "<") == "b&gt;"
  {
    var t := "b&gt;";
    assert "&lt;"[1] == 'l';
    assert 'l' !in t by {
      assert t[0] == 'b' && t[1] == '&' && t[2] == 'g' && t[3] == 't' && t[4] == ';';
    }
    MissingRuneNotContained(t, "&lt;", 1);
    ReplaceNotContained(t, "&lt;", "<");
  }

  lemma DecodeGtInEscapedTag()
    ensures ReplaceAll("<b&gt;", "&gt;", ">") == "<b>"
  {
    assert "<b&gt;" == "<b" + "&gt;";
    assert "&gt;"[0] !in "<b";
    ReplaceSkip("<b", "&gt;", "&gt;", ">");
    assert "&gt;" == "&gt;" + "";
    ReplaceAtFront("&gt;", "", ">");
  }

  /** A rune other than '&' starts no reference and is kept. */
  lemma UnescapePlain(c: char, t: string)
    requires c != '&'
    ensures UnescapeEntities([c] + t) == [c] + UnescapeEntities(t)
  {
    var s := [c] + t;
    assert s[0] == c && s[1..] == t;
    FirstRuneNotPrefix(s, "&amp;");
    FirstRuneNotPrefix(s, "&lt;");
    FirstRuneNotPrefix(s, "&gt;");
    FirstRuneNotPrefix(s, "&quot;");
    FirstRuneNotPrefix(s, "&#39;");
  }

  /** The ends of a trimmed text are not `\s` either. */
  lemma TrimmedEndsAreNotRegexSpace(t: string)
    requires t == [] || (!IsSpace(t[0]) && !IsSpace(t[|t| - 1]))
    ensures t == [] || (!IsRegexSpace(t[0]) && !IsRegexSpace(t[|t| - 1]))
  {
  }

  // ---------------------------------------------------------------------------
  // parseHTML
  // ---------------------------------------------------------------------------

  /**
   * One match of the container pattern: the card's inner HTML, the two
   * groups of the title pattern's leftmost match (heading h3 or h2) and
   * the href group of the link pattern's leftmost match, when they match.
   */
  datatype Match = Match(body: string, titleGroups: Option<(string, string)>, href: Option<string>)

  /** The title of a card: the h3 group, or the h2 group when that one is empty. */
  function TitleOf(m: Match): string
  {
    match m.titleGroups
    case None => ""
    case Some(groups) => CleanHtml(if groups.0 != "" then groups.0 else groups.1)
  }

  /** The shop's origin, put in front of a relative card link. */
  const Origin := "https://www.fanatical.com"

  /** A card link that does not start with "http" is taken relative to the shop's origin. */
  function AbsoluteLink(href: string): (r: string)
    ensures HasPrefix(r, "http")
    ensures HasPrefix(href, "http") ==> r == href
    ensures !HasPrefix(href, "http") ==> r == Origin + href
  {
    if HasPrefix(href, "http") then href
    else
      assert (Origin + href)[..4] == "http";
      Origin + href
  }

  /** The body of the `parseHTML` loop for the `i`-th match. */
  function BuildBundle(m: Match, i: nat): (b: Bundle)
    ensures b.ID == "bundle-" + NatToString(i)
    ensures b.Title == TitleOf(m)
    ensures m.href.Some? ==> b.Link == AbsoluteLink(m.href.value) && HasPrefix(b.Link, "http")
    ensures m.href.None? ==> b.Link == ""
    ensures b.Price == PriceText(m.body) && b.GameCount == GameCountText(m.body)
    ensures b.Description == DescriptionText(b.Price, b.GameCount)
  {
    var link := if m.href.Some? then AbsoluteLink(m.href.value) else "";
    var price := PriceText(m.body);
    var count := GameCountText(m.body);
    Bundle(TitleOf(m), link, DescriptionText(price, count), price, count, "bundle-" + NatToString(i))
  }

  /** The price field: the leftmost euro amount followed by '€', or "". */
  function PriceText(body: string): (r: string)
    ensures r == "" <==> FindPrice(body, '€').None?
    ensures r != "" ==> r[|r| - 1] == '€' && IsAmount(r[..|r| - 1])
  {
    match FindPrice(body, '€')
    case Some(p) =>
      assert (p + "€")[..|p|] == p;
      p + "€"
    case None => ""
  }

  /** The game-count field: the leftmost count before "Spiel"/"spiel" followed by " Spiele", or "". */
  function GameCountText(body: string): (r: string)
    ensures r == "" <==> FindCount(body, 'S', 's', "piel").None?
    ensures r != "" ==> |r| > 7 && r[|r| - 7..] == " Spiele" && AllDigits(r[..|r| - 7])
  {
    match FindCount(body, 'S', 's', "piel")
    case Some(c) =>
      assert (c + " Spiele")[..|c|] == c;
      c + " Spiele"
    case None => ""
  }

  /** The description: "Fanatical Bundle", then the price and the count when present. */
  function DescriptionText(price: string, count: string): (r: string)
    ensures HasPrefix(r, "Fanatical Bundle")
    ensures r == "Fanatical Bundle" <==> price == "" && count == ""
    ensures price != "" ==> Contains(r, " - Preis: " + price)
    ensures count != "" ==> Contains(r, " - " + count)
  {
    var withPrice := if price != "" then " - Preis: " + price else "";
    var withCount := if count != "" then " - " + count else "";
    DescriptionFacts("Fanatical Bundle", withPrice, withCount);
    "Fanatical Bundle" + withPrice + withCount
  }

  /** What the description of `BuildBundle` tells about its optional parts. */
  lemma DescriptionFacts(head: string, a: string, b: string)
    requires head != []
    ensures HasPrefix(head + a + b, head)
    ensures head + a + b == head <==> a == "" && b == ""
    ensures a != "" ==> Contains(head + a + b, a)
    ensures b != "" ==> Contains(head + a + b, b)
  {
    assert (head + a + b)[..|head|] == head;
    if a != "" {
      ContainsAt(head + a + b, a, |head|);
    }
    if b != "" {
      ContainsAt(head + a + b, b, |head| + |a|);
    }
  }

  /** Every match built, in order, before the title filter. */
  function BuildAll(matches: seq<Match>): (r: seq<Bundle>)
    ensures |r| == |matches|
    ensures forall i :: 0 <= i < |matches| ==> r[i] == BuildBundle(matches[i], i)
  {
    seq(|matches|, i requires 0 <= i < |matches| => BuildBundle(matches[i], i))
  }

  /** Three fixed bundles used when the page yields none. */
  function GetMockBundles(): (r: seq<Bundle>)
    ensures |r| == 3
    ensures forall i :: 0 <= i < |r| ==> HasTitle(r[i])
  {
    [ Bundle("Indie Game Bundle", "https://www.fanatical.com/de/bundle/indie-game-bundle",
             "Indie Game Bundle - Preis: 4,99€ - 10 Spiele", "4,99€", "10 Spiele", "mock-1"),
      Bundle("Strategy Bundle", "https://www.fanatical.com/de/bundle/strategy-bundle",
             "Strategy Bundle - Preis: 9,99€ - 8 Spiele", "9,99€", "8 Spiele", "mock-2"),
      Bundle("Action Bundle", "https://www.fanatical.com/de/bundle/action-bundle",
             "Action Bundle - Preis: 7,99€ - 12 Spiele", "7,99€", "12 Spiele", "mock-3") ]
  }

  /** The mock bundles have distinct IDs. */
  lemma MockIdsDistinct()
    ensures DistinctKeys(GetMockBundles(), BundleId)
  {
    var r := GetMockBundles();
    assert r[0].ID[5] == '1' && r[1].ID[5] == '2' && r[2].ID[5] == '3';
    PairwiseDistinctKeys(r, BundleId);
  }

  /** What `parseHTML` returns: the titled bundles, or the mock bundles when there are none. */
  function Parsed(matches: seq<Match>): seq<Bundle>
  {
    OrMocks(Filter(BuildAll(matches), HasTitle))
  }

  /** The bundles found, or the mock bundles when none was found. */
  function OrMocks(found: seq<Bundle>): seq<Bundle>
  {
    if found == [] then GetMockBundles() else found
  }

  /** Falling back to the mocks keeps titles non-empty and IDs distinct, and never leaves the list empty. */
  lemma OrMocksWellFormed(found: seq<Bundle>)
    requires forall i :: 0 <= i < |found| ==> found[i].Title != ""
    requires DistinctKeys(found, BundleId)
    ensures |OrMocks(found)| > 0
    ensures forall i :: 0 <= i < |OrMocks(found)| ==> OrMocks(found)[i].Title != ""
    ensures DistinctKeys(OrMocks(found), BundleId)
  {
    if found == [] {
      MockIdsDistinct();
    }
  }

  /** `parseHTML` over the container matches: the loop keeps the bundles that got a title. */
  method ParseHtml(matches: seq<Match>) returns (bundles: seq<Bundle>)
    ensures bundles == Parsed(matches)
  {
    var all := BuildAll(matches);
    bundles := [];
    var i := 0;
    while i < |matches|
      invariant 0 <= i <= |matches|
      invariant bundles == Filter(all[..i], HasTitle)
    {
      var bundle := BuildBundle(matches[i], i);
      assert bundle == all[i];
      FilterStep(all, HasTitle, i);
      if bundle.Title != "" {
        bundles := bundles + [bundle];
      }
      i := i + 1;
    }
    assert all[..i] == all;
    if |bundles| == 0 {
      bundles := GetMockBundles();
    }
  }

  /** The built bundles are numbered by position, so their IDs differ. */
  lemma BuildAllIdsDistinct(matches: seq<Match>)
    ensures DistinctKeys(BuildAll(matches), BundleId)
  {
    var all := BuildAll(matches);
    forall i, j | 0 <= i < j < |all|
      ensures BundleId(all[i]) != BundleId(all[j])
    {
      if all[i].ID == all[j].ID {
        var p := "bundle-";
        assert (p + NatToString(i))[7..] == NatToString(i);
        assert (p + NatToString(j))[7..] == NatToString(j);
        NatToStringInjective(i, j);
      }
    }
    PairwiseDistinctKeys(all, BundleId);
  }

  /**
   * `parseHTML` always returns at least one bundle, every bundle has a
   * title and no two bundles share an ID.
   */
  lemma ParsedWellFormed(matches: seq<Match>)
    ensures |Parsed(matches)| > 0
    ensures forall i :: 0 <= i < |Parsed(matches)| ==> Parsed(matches)[i].Title != ""
    ensures DistinctKeys(Parsed(matches), BundleId)
  {
    var found := FoundWellFormed(matches);
    OrMocksWellFormed(found);
  }

  /** The bundles that got a title have titles and distinct IDs. */
  lemma FoundWellFormed(matches: seq<Match>) returns (found: seq<Bundle>)
    ensures found == Filter(BuildAll(matches), HasTitle)
    ensures forall i :: 0 <= i < |found| ==> found[i].Title != ""
    ensures DistinctKeys(found, BundleId)
  {
    found := Filter(BuildAll(matches), HasTitle);
    BuildAllIdsDistinct(matches);
    FilterKeepsDistinctKeys(BuildAll(matches), HasTitle, BundleId);
  }

  // ---------------------------------------------------------------------------
  // createRSSFeed
  // ---------------------------------------------------------------------------

  /** An item; the publication time is the generation time (its RFC 1123 text is not modelled). */
  datatype Item = Item(Title: string, Link: string, Description: string, PubDate: int, GUID: string)

  datatype Channel = Channel(Title: string, Link: string, Description: string, Language: string, PubDate: int, Items: seq<Item>)

  datatype Rss = Rss(Version: string, Channel: Channel)

  function ItemGuid(item: Item): string
  {
    item.GUID
  }

  /** The item `createRSSFeed` makes of one bundle. */
  function ItemFor(b: Bundle, now: int): (item: Item)
    ensures item.GUID == "fanatical-bundle-" + b.ID
    ensures item.Title == b.Title && item.Link == b.Link && item.Description == b.Description && item.PubDate == now
  {
    Item(b.Title, b.Link, b.Description, now, "fanatical-bundle-" + b.ID)
  }

  /** `createRSSFeed`: one item per bundle, in order, in the fixed German games channel. */
  method CreateRssFeed(bundles: seq<Bundle>, now: int) returns (rss: Rss)
    ensures rss.Version == "2.0"
    ensures rss.Channel.Title == "Fanatical Game Bundles"
    ensures rss.Channel.Link == "https://www.fanatical.com/de/bundle/games"
    ensures rss.Channel.Description == "Aktuelle Spiele-Bundles von Fanatical"
    ensures rss.Channel.Language == "de-DE" && rss.Channel.PubDate == now
    ensures |rss.Channel.Items| == |bundles|
    ensures forall i :: 0 <= i < |bundles| ==> rss.Channel.Items[i] == ItemFor(bundles[i], now)
  {
    var items: seq<Item> := [];
    for k := 0 to |bundles|
      invariant |items| == k
      invariant forall i :: 0 <= i < k ==> items[i] == ItemFor(bundles[i], now)
    {
      items := items + [ItemFor(bundles[k], now)];
    }
    rss := Rss("2.0", Channel("Fanatical Game Bundles", "https://www.fanatical.com/de/bundle/games",
                              "Aktuelle Spiele-Bundles von Fanatical", "de-DE", now, items));
  }

  /** Items get distinct GUIDs exactly when their bundles have distinct IDs. */
  lemma GuidsDistinctIffIdsDistinct(bundles: seq<Bundle>, items: seq<Item>, now: int)
    requires |items| == |bundles|
    requires forall i :: 0 <= i < |bundles| ==> items[i] == ItemFor(bundles[i], now)
    ensures DistinctKeys(items, ItemGuid) <==> DistinctKeys(bundles, BundleId)
  {
    var p := "fanatical-bundle-";
    forall i, j | 0 <= i < |bundles| && 0 <= j < |bundles|
      ensures items[i].GUID == items[j].GUID <==> bundles[i].ID == bundles[j].ID
    {
      assert items[i].GUID[|p|..] == bundles[i].ID;
      assert items[j].GUID[|p|..] == bundles[j].ID;
    }
    if DistinctKeys(bundles, BundleId) {
      forall i, j | 0 <= i < j < |items|
        ensures ItemGuid(items[i]) != ItemGuid(items[j])
      {
        DistinctKeysPairwise(bundles, BundleId, i, j);
      }
      PairwiseDistinctKeys(items, ItemGuid);
    }
    if DistinctKeys(items, ItemGuid) {
      forall i, j | 0 <= i < j < |bundles|
        ensures BundleId(bundles[i]) != BundleId(bundles[j])
      {
        DistinctKeysPairwise(items, ItemGuid, i, j);
      }
      PairwiseDistinctKeys(bundles, BundleId);
    }
  }

  /** The whole program: the feed of any page has at least one item, and no two items share a GUID. */
  method GenerateFeed(matches: seq<Match>, now: int) returns (rss: Rss)
    ensures |rss.Channel.Items| > 0
    ensures DistinctKeys(rss.Channel.Items, ItemGuid)
    ensures forall i :: 0 <= i < |rss.Channel.Items| ==> rss.Channel.Items[i].Title != ""
  {
    var bundles := ParseHtml(matches);
    ParsedWellFormed(matches);
    rss := CreateRssFeed(bundles, now);
    GuidsDistinctIffIdsDistinct(bundles, rss.Channel.Items, now);
  }
}
