# Fanatical bundle RSS feeds — a Dafny model

The Fanatical RSS site turns the bundle offers of the Fanatical shop into RSS
2.0 feeds, one per bundle type (games, books, software, plus a "fallback"
feed for bundles no lexicon claims). This project models, in Dafny, the
parts of the Go code that decide what ends up in those feeds. Each Go file
becomes one module:

- **Feed** (`pkg/feed.go`): the category filter `shouldIncludeBundle`, the
  de-duplication `removeDuplicateBundles` and the collect → de-duplicate →
  filter → fallback pipeline of `updateCategory`.
- **Models** (`internal/models/bundle.go`): the bundle record, its defaults,
  GUID and labels, and the `BundleList` collection.
- **Scraper** (`internal/scraper/scraper.go`): what the scraper derives from
  one bundle card. This covers price cleaning, game counts, descriptions and
  validity.
- **Rss** (`internal/generator/generator.go`): the feed `Generator` and its
  metadata, title escaping, keyword categories, item descriptions and the
  item selection. It also models `ValidateRSS`.
- **GeneratorCmd** (`cmd/generator/main.go`): the stand-alone generator. It
  parses the container matches into bundles, uses `cleanHTML` and builds the
  German games feed.
- **Site** (`main.go`): the site builder's per-type `generateRSS`.

The modules are supported by:

- **Text**: Go's `strings` helpers, the `\d`/`\s` classes and `%d`.
- **Patterns**: hand-written scanners for the price, count and tag regular
  expressions.
- **Seqs**: generic filtering, key sets and first-per-key selection.
- **Wrappers**: Option and Result.

Each module uses its source's own form:

- Mutable Go objects are classes whose methods carry `modifies` clauses.
  These are `Generator` and `BundleList`.
- The source's loops are methods with loop invariants. Each is proved
  against a specification function: the item loops, the de-duplication and
  filtering loops, the count-selector loop and the keyword lookup.
- Computations without loops are functions.
- `models.Bundle` is a Go value struct that is copied on every assignment.
  It is a datatype here, so `SetDefaults` returns the updated copy.

Behaviour of the code that a reader might not expect, each stated by a member of the model:

- The four category feeds do not partition the bundles. A C# bundle whose
  description mentions apps is in both "books" and "software"
  (`Feed.BooksAndSoftwareOverlap`).
- "games" and "fallback" are disjoint except for a bundle whose own category
  is literally "fallback" (`Feed.GamesAndFallbackDisjoint` and
  `Feed.GamesAndFallbackOverlapOnFallbackCategory`).
- The de-duplication key `slug-start` identifies slug and start time only
  for non-negative start times (`Feed.KeyInjective` and
  `Feed.KeyCollidesForNegativeStart`).
- The scraper never sets a bundle type, and `IsValid` requires one. So
  `parseDocument` and `fallbackParsing` always return no bundles
  (`Scraper.ParseDocument`), and the scraper's mock bundles are not valid
  either.
- The scraper stores the count in `GameCount`, but the shared record only
  has `ItemCount`. The model stores it in `ItemCount` (`Scraper.ExtractBundle`).
- `cleanTitle` replaces '<' and '>' first and '&' last, so a '<' becomes
  "&amp;lt;" (`Rss.CleanTitle`).
- `cleanHTML` in the stand-alone generator decodes "&amp;" before the other
  references, so "&amp;lt;" becomes "<" (`GeneratorCmd.CleanHtmlDecodesTwice`).
  The parsing pipeline of the model uses this decoding as written; see
  "## Findings".

## Model

| member | source | states |
|---|---|---|
| Feed.ShouldIncludeBundle | pkg/feed.go:12-29 | a bundle whose lower-cased category equals the lower-cased target is always included |
| Feed.BooksRule | pkg/feed.go:35-87 | "books": included iff direct match, or a book-lexicon title that names no game, gaming or "rpg and fantasy" |
| Feed.GamesRule | pkg/feed.go:54-99 | "games": included iff direct match, or game lexicon and no course/certification/learning/training/software title |
| Feed.SoftwareRule | pkg/feed.go:68-105 | "software": included iff direct match or software lexicon on title or description |
| Feed.FallbackRule | pkg/feed.go:107-113 | "fallback": included iff direct match or none of the three lexicons applies |
| Feed.OtherTargetsAcceptAll | pkg/feed.go:115-116 | any other target accepts every bundle |
| Feed.GamesAndFallbackDisjoint | pkg/feed.go:54-113 | a bundle not itself categorised "fallback" is never in both the games and the fallback feed |
| Feed.GamesAndFallbackOverlapOnFallbackCategory | pkg/feed.go:27-99 | a game titled bundle categorised "fallback" is in both feeds |
| Feed.BooksAndSoftwareOverlap | pkg/feed.go:35-105 | the feeds overlap: a "c#" bundle describing an app is in books and in software |
| Feed.RemoveDuplicateBundles | pkg/feed.go:121-148 | the seen-set loop returns exactly FirstPerKey of its input |
| Feed.FirstPerKeySpec | pkg/feed.go:121-148 | the result is an ordered subsequence of the input, no longer than it, keys are distinct, no key is lost, every first occurrence of a key is kept and every kept bundle is a first occurrence |
| Feed.FirstPerKeyIdempotent | pkg/feed.go:121-148 | de-duplicating twice equals de-duplicating once |
| Feed.FirstOfTwoWins | pkg/feed.go:125-131 | of two bundles with one key, the earlier survives |
| Feed.KeyInjective | pkg/feed.go:127 | for non-negative start times equal keys mean equal slug and equal start time |
| Feed.KeyCollidesForNegativeStart | pkg/feed.go:127 | slug "x-" at 1 and slug "x" at -1 share a key |
| Feed.Select | pkg/feed.go:203-208 | the selection holds only bundles of the input that are included, and every included bundle |
| Feed.SelectKeepsKeysDistinct | pkg/feed.go:199-208 | filtering a de-duplicated list keeps keys distinct |
| Feed.SourcePrecedence | pkg/feed.go:156-199 | after de-duplication, /api/all/de bundles win over algolia, which win over promotions; later sources only add unseen keys |
| Feed.EmptyFallbackFeed | pkg/feed.go:223-233 | the empty fallback feed has no items |
| Feed.CollectBundles | pkg/feed.go:156-194 | the three sources appended in order, a failed fetch contributing nothing |
| Feed.FilterBundles | pkg/feed.go:203-208 | the filter loop returns Select of its input |
| Feed.UpdateCategory | pkg/feed.go:151-246 | the published feed is the de-duplicated selection when non-empty; otherwise the test bundles, or the empty feed for "fallback" |
| Feed.SelectedFeedWellFormed | pkg/feed.go:199-208 | a published selection repeats no key and is an ordered subsequence of the de-duplicated bundles |
| Models.NewBundle | internal/models/bundle.go:24-34 | ID, title and type are the arguments, the other six text fields are empty, both timestamps are now, and the new bundle is not valid |
| Models.GuidIdentifiesBundle | internal/models/bundle.go:55-57 | for the three known types equal GUIDs mean equal type and ID |
| Models.GuidAmbiguousForOtherTypes | internal/models/bundle.go:55-57 | for other type strings two different IDs can share a GUID |
| Models.GetFullDescription | internal/models/bundle.go:36-52 | starts with the description and equals it iff price, count and tier are all empty |
| Models.GetBundleTypeName | internal/models/bundle.go:93-104 | the plural of the default-description label; "Bundles" iff the type is unknown |
| Models.GetItemTypeName | internal/models/bundle.go:107-118 | "Items" iff the type is unknown |
| Models.SetDefaults | internal/models/bundle.go:65-90 | empty description filled from the type, "/" links made absolute, zero times stamped with now, other fields and validity unchanged, and afterwards no field needs a default |
| Models.SetDefaultsIdempotent | internal/models/bundle.go:65-90 | applying the defaults again, at any time, changes nothing |
| Models.BundleList.constructor | internal/models/bundle.go:130-138 | an empty list for the type with its source URL, satisfying the list invariant |
| Models.BundleList.AddBundle | internal/models/bundle.go:140-148 | appends the defaulted bundle when valid, else changes nothing; keeps the count equal to the length and the list valid |
| Models.BundleList.GetValidBundles | internal/models/bundle.go:150-159 | the valid bundles in order; all of them when the list invariant holds |
| Models.BundleList.GetBundleTypeName | internal/models/bundle.go:161-172 | the same plural label as a bundle of the list's type |
| Scraper.AbsoluteUrl | internal/scraper/scraper.go:141-145 | result starts with "http", is the href when it already does, otherwise the shop URL followed by it |
| Scraper.VisiblePrice | internal/scraper/scraper.go:246-247 | the tag-stripped, trimmed price holds no tag and no white space at either end |
| Scraper.CleanPriceEuro | internal/scraper/scraper.go:250-253 | a text with a euro amount yields its leftmost euro amount followed by "€" |
| Scraper.CleanPriceDollar | internal/scraper/scraper.go:256-259 | a text with no euro but a dollar amount yields "$" followed by its leftmost dollar amount |
| Scraper.CleanPriceNoAmount | internal/scraper/scraper.go:244-262 | a text with no amount comes back tag-free and trimmed |
| Scraper.ExtractGameCount | internal/scraper/scraper.go:264-284 | empty iff none of the three patterns matches |
| Scraper.ExtractGameCountOrder | internal/scraper/scraper.go:264-284 | German beats English beats items, each reported with " Games" or " Items" |
| Scraper.ExtractGameCountShape | internal/scraper/scraper.go:264-284 | a non-empty count is digits followed by " Games" or " Items" |
| Scraper.NoCountInEmptyText | internal/scraper/scraper.go:171-178 | empty text yields no count |
| Scraper.GenerateDescription | internal/scraper/scraper.go:286-302 | the scraper's description equals the record's full description with "Fanatical Bundle" as base text |
| Scraper.DescriptionsAgree | internal/scraper/scraper.go:286-302 | joining the optional parts with " - " equals GetFullDescription on base "Fanatical Bundle" |
| Scraper.FirstGameCount | internal/scraper/scraper.go:171-178 | the count selector loop returns the count of the first text that yields one |
| Scraper.ExtractBundle | internal/scraper/scraper.go:115-199 | ID and timestamps from now and index, trimmed title, absolute link and image, cleaned price, first count, trimmed tier, no type so never valid, description generated from the result |
| Scraper.FallbackParsing | internal/scraper/scraper.go:202-240 | no bundle built without a type survives the validity test: the result is empty |
| Scraper.ParseDocument | internal/scraper/scraper.go:72-112 | whether cards are found or the fallback runs, the result is empty |
| Scraper.GetMockBundles | internal/scraper/scraper.go:305-338 | three titled, linked bundles with distinct IDs and no type, hence invalid |
| Rss.GetFeedTitle | internal/generator/generator.go:90-101 | "Fanatical " followed by the type's plural label |
| Rss.GetFeedDescription | internal/generator/generator.go:104-115 | type-specific iff the type is known |
| Rss.GetFeedCategory | internal/generator/generator.go:118-129 | "Technology" iff the type is unknown |
| Rss.Escape | internal/generator/generator.go:239-241 | the escaped text holds no '<' and no '>' |
| Rss.ReplaceMarkupIsEscape | internal/generator/generator.go:239-241 | the three ReplaceAll calls escape rune by rune |
| Rss.CleanTitle | internal/generator/generator.go:237-247 | the trimmed escaped title: no '<', no '>', no white space at either end |
| Rss.LookupCategory | internal/generator/generator.go:267-291 | the map loop answers the label of some keyword in the title, or the fallback when none occurs |
| Rss.GetGameCategory | internal/generator/generator.go:267-291 | a games label of a contained keyword, else "Gaming" |
| Rss.GetBookCategory | internal/generator/generator.go:294-319 | a books label of a contained keyword, else "Books & Literature" |
| Rss.GetSoftwareCategory | internal/generator/generator.go:322-347 | a software label of a contained keyword, else "Software & Technology" |
| Rss.CategoryDependsOnMapOrder | internal/generator/generator.go:267-291 | "action rpg" may be labelled "Action" or "RPG" depending on map order |
| Rss.CreateItemDescription | internal/generator/generator.go:205-234 | opens the styled div, closes it, and holds the title, type and link lines and the line of every set image, price, count and tier |
| Rss.Generator.constructor | internal/generator/generator.go:76-87 | metadata from the type, English, 60-minute TTL |
| Rss.Generator.SetFeedMetadata | internal/generator/generator.go:350-363 | each non-empty argument replaces its field; every other field unchanged |
| Rss.Generator.SetTTL | internal/generator/generator.go:366-368 | only the TTL changes |
| Rss.Generator.GetCategoryFromBundle | internal/generator/generator.go:250-264 | the keyword category of the lower-cased title for the bundle's type, else the feed category |
| Rss.Generator.BuildItem | internal/generator/generator.go:142-160 | the item of one valid bundle: cleaned title, description, category, GUID, update time, feed link as source, enclosure iff an image |
| Rss.Generator.BuildItems | internal/generator/generator.go:136-163 | one item per valid bundle, in input order, invalid ones skipped |
| Rss.Generator.GenerateRSS | internal/generator/generator.go:132-202 | channel filled from the generator's fields and the time, and items matching the valid bundles position by position |
| Rss.ValidateRSS | internal/generator/generator.go:371-402 | no error iff the three markers are present, parsing succeeded and title and link are non-empty; each of the six messages belongs to the first failing check |
| GeneratorCmd.DecodeEntitiesAsWrittenDecodesTwice | cmd/generator/main.go:262-266 | the page text "&lt;" arrives as "&amp;lt;" and the as-written decoding turns it into "<" |
| GeneratorCmd.UnescapeEscape | cmd/generator/main.go:261-266 | single-pass decoding undoes escaping for every text |
| GeneratorCmd.NormalizeSpace | cmd/generator/main.go:268-271 | no tab or line break, no two spaces in a row, no space at either end; empty iff the trimmed text is; a text without white space is kept |
| GeneratorCmd.CleanHtml | cmd/generator/main.go:256-274 | tags removed, then the as-written decoding chain, then the space rules above; empty iff the decoded, trimmed text is |
| GeneratorCmd.CleanHtmlDecodesTwice | cmd/generator/main.go:261-266 | the cleaned title of "&amp;lt;" is "<" |
| GeneratorCmd.CleanHtmlKeepsEscapedTags | cmd/generator/main.go:258-266 | tags are removed before decoding, so "&lt;b&gt;" comes out as "<b>" |
| GeneratorCmd.DecodeEscapedTagAsWritten | cmd/generator/main.go:262-266 | the five replacements, in order, turn "&lt;b&gt;" into "<b>" |
| GeneratorCmd.CleanHtmlIntended | cmd/generator/main.go:256-274 | the same cleaning with each reference decoded once; the same space rules |
| GeneratorCmd.CleanHtmlIntendedDecodesOnce | cmd/generator/main.go:261-266 | with single-pass decoding the cleaned title of "&amp;lt;" is "&lt;", the text the page shows |
| GeneratorCmd.AbsoluteLink | cmd/generator/main.go:158-161 | starts with "http"; the href when it already does, otherwise the shop origin followed by it |
| GeneratorCmd.BuildBundle | cmd/generator/main.go:142-183 | ID "bundle-i", title from the h3 or h2 group, absolute link, price and count fields, description from them |
| GeneratorCmd.PriceText | cmd/generator/main.go:166-168 | empty iff no euro amount; otherwise an amount followed by '€' |
| GeneratorCmd.GameCountText | cmd/generator/main.go:171-173 | empty iff no count; otherwise digits followed by " Spiele" |
| GeneratorCmd.DescriptionText | cmd/generator/main.go:176-183 | starts with "Fanatical Bundle", equals it iff price and count are empty, and contains each present part |
| GeneratorCmd.BuildAll | cmd/generator/main.go:137-184 | one built bundle per match, in order, numbered by position |
| GeneratorCmd.GetMockBundles | cmd/generator/main.go:199-226 | three titled bundles |
| GeneratorCmd.MockIdsDistinct | cmd/generator/main.go:199-226 | the mock bundles have distinct IDs |
| GeneratorCmd.ParseHtml | cmd/generator/main.go:137-196 | the loop returns the titled bundles, or the mocks when none has a title |
| GeneratorCmd.BuildAllIdsDistinct | cmd/generator/main.go:144 | bundles numbered by position have distinct IDs |
| GeneratorCmd.FoundWellFormed | cmd/generator/main.go:137-188 | the bundles kept by the loop all have titles and distinct IDs |
| GeneratorCmd.OrMocksWellFormed | cmd/generator/main.go:190-193 | falling back to the mocks leaves a non-empty list with titles and distinct IDs |
| GeneratorCmd.ParsedWellFormed | cmd/generator/main.go:106-197 | the parse result is never empty, every bundle has a title, IDs are distinct |
| GeneratorCmd.ItemFor | cmd/generator/main.go:232-238 | the item copies title, link and description and has GUID "fanatical-bundle-" + ID |
| GeneratorCmd.CreateRssFeed | cmd/generator/main.go:228-254 | the fixed German games channel with one item per bundle, in order |
| GeneratorCmd.GuidsDistinctIffIdsDistinct | cmd/generator/main.go:237 | items have distinct GUIDs iff their bundles have distinct IDs |
| GeneratorCmd.GenerateFeed | cmd/generator/main.go:106-254 | the program's feed always has items, all titled, with distinct GUIDs |
| Site.ItemDescription | main.go:188-194 | starts with the description, equals it iff no price and no image, contains " - Price: " and the price when set, ends with the image tag when there is an image |
| Site.ItemFor | main.go:196-202 | the item's GUID is its link, which is the bundle's link |
| Site.Describe | main.go:188-194 | the `+=` chain builds ItemDescription |
| Site.BuildItems | main.go:187-204 | one item per bundle, in order |
| Site.GenerateRSS | main.go:178-210 | German channel named after the type, linked to the lower-cased type's page, items one per bundle |
| Site.ChannelLinkIsScrapedPage | main.go:59-181 | each configured type's channel link is the page its bundles are scraped from |
| Site.GuidsFollowLinks | main.go:201 | two items share a GUID iff their bundles share a link |

## Left out

- Networking is not modelled: HTTP requests, goquery document loading and CSS selector matching. The selector results are inputs (`Scraper.Card`, `Scraper.LinkElement`).
- The container, title and link regular expressions of `cmd/generator/main.go` are not modelled; their matches are the input `GeneratorCmd.Match`.
- XML marshalling, RFC 1123 date formatting, file writes and the index page are not modelled. Times are integers and feeds are returned as structures.
- Logging is left out, and so are the goroutines and wait group of `Run`; each category is modelled on its own.
- `fetchBundlesFromNewAPI`, `fetchBundlesFromAlgoliaAPI`, `fetchPromotionsFromAPI`, `convertPromotionsToBundles`, `createTestBundle`, `createFeed` and `writeFeedToFile` are inputs or outputs of `Feed.UpdateCategory`, not modelled functions.
- `XML parsing` in `ValidateRSS` is an input: `Rss.ValidateRSS` receives its outcome.
- Models.SetDefaults: Go updates the bundle in place through a pointer; the model returns the updated copy, so aliasing of a `*Bundle` is not captured (every caller in the core works on its own copy).
- `strings.ToLower` folds ASCII letters only; non-ASCII case mapping is not modelled.
- Rss.GetFeedDescription: states only that the description is type-specific exactly for the three known types, not each sentence.
- Scraper.GetMockBundles: states count, titles, links, distinct IDs and invalidity, not the literal descriptions and prices.
- Scraper.ExtractGameCount: its own contract states only the empty case; the order of the patterns is stated by `Scraper.ExtractGameCountOrder`.
- Rss.LookupCategory: Go's map order is unspecified, so the model allows any matching keyword rather than the one a particular run would pick.

## Findings

| source | as written | input that shows it | evidently intended | confidence | as-written member | corrected member |
|---|---|---|---|---|---|---|
| cmd/generator/main.go:262-266 | "&amp;" is decoded first, and the other four references are decoded afterwards in the same text | a title whose page text is "&lt;" arrives as "&amp;lt;" and is decoded to "<" instead of "&lt;" | each reference decoded once, so that decoding undoes escaping | not executed | GeneratorCmd.DecodeEntitiesAsWrittenDecodesTwice | GeneratorCmd.UnescapeEscape |

`GeneratorCmd.CleanHtml`, and through it the titles of `GeneratorCmd.ParseHtml`,
use the decoding as written. `GeneratorCmd.CleanHtmlIntended` is the corrected
cleaning built on the single-pass decoder `GeneratorCmd.UnescapeEntities`
(`GeneratorCmd.CleanHtmlIntendedDecodesOnce`).
