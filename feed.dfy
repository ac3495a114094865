/**
 * Category selection and de-duplication of the bundles fetched from the shop's
 * APIs (pkg/feed.go, record type from pkg/model.go).
 */
module Feed {
  import opened Wrappers
  import opened Text
  import opened Seqs

  /**
   * The fields of `FanaticalBundle` the pipeline reads. `StartDate` is the
   * start time in Unix seconds.
   */
  datatype FanaticalBundle = FanaticalBundle(
    ID: string,
    Title: string,
    Slug: string,
    Description: string,
    Type: string,
    Category: string,
    StartDate: int)

  // ---------------------------------------------------------------------------
  // shouldIncludeBundle
  // ---------------------------------------------------------------------------

  /** The book lexicon, over a lower-cased title. */
  predicate IsBooks(title: string)
  {
    || Contains(title, "certification")
    || Contains(title, "learning")
    || Contains(title, "elearning")
    || Contains(title, "training")
    || Contains(title, "course")
    || (Contains(title, "development") && !Contains(title, "game"))
    || Contains(title, "programming")
    || Contains(title, "coding")
    || Contains(title, "security")
    || Contains(title, "cloud")
    || Contains(title, "machine learning")
    || (Contains(title, "python") && !Contains(title, "game"))
    || Contains(title, "c#")
    || Contains(title, "graphics and design")
    || Contains(title, "business computing")
    || Contains(title, "network")
    || Contains(title, "robotics")
    || Contains(title, "digital life")
  }

  /** The game lexicon, over the lower-cased category, title and description. */
  predicate IsGames(bundleCategory: string, title: string, description: string)
  {
    || bundleCategory == "games"
    || Contains(title, "game")
    || Contains(title, "rpg")
    || Contains(title, "fantasy")
    || Contains(title, "strategy")
    || Contains(title, "capcom")
    || Contains(title, "brutal")
    || Contains(title, "chillout")
    || Contains(title, "favorites")
    || Contains(title, "point and click")
    || Contains(title, "steam")
    || Contains(description, "game")
    || Contains(title, "voucher")
  }

  /** The software lexicon, over the lower-cased title and description. */
  predicate IsSoftware(title: string, description: string)
  {
    || Contains(title, "software")
    || Contains(title, "app")
    || Contains(description, "software")
    || Contains(description, "app")
    || Contains(title, "excel")
    || Contains(title, "zenva")
  }

  /** Titles the "books" target rejects outright. */
  predicate BooksExcluded(title: string)
  {
    Contains(title, "rpg and fantasy") || Contains(title, "game") || Contains(title, "gaming")
  }

  /** Titles the "games" target rejects outright. */
  predicate GamesExcluded(title: string)
  {
    || Contains(title, "certification")
    || Contains(title, "learning")
    || Contains(title, "training")
    || Contains(title, "course")
    || Contains(title, "software")
  }

  /**
   * `shouldIncludeBundle`: whether `b` belongs in the feed for `category`.
   * Both sides are compared lower-cased; a direct category match always wins.
   */
  function ShouldIncludeBundle(b: FanaticalBundle, category: string): (r: bool)
    ensures ToLower(b.Category) == ToLower(category) ==> r
  {
    var bundleCategory := ToLower(b.Category);
    var target := ToLower(category);
    if bundleCategory == target then true
    else
      var title := ToLower(b.Title);
      var description := ToLower(b.Description);
      match target
      case "books" => !BooksExcluded(title) && IsBooks(title)
      case "games" => !GamesExcluded(title) && IsGames(bundleCategory, title, description)
      case "software" => IsSoftware(title, description)
      case "fallback" => !IsBooks(title) && !IsGames(bundleCategory, title, description) && !IsSoftware(title, description)
      case _ => true
  }

  /** The "books" target: a direct match, or a book title that is not a gaming title. */
  lemma BooksRule(b: FanaticalBundle, category: string)
    requires ToLower(category) == "books"
    ensures ShouldIncludeBundle(b, category) <==>
      ToLower(b.Category) == "books" || (!BooksExcluded(ToLower(b.Title)) && IsBooks(ToLower(b.Title)))
  {
  }

  /** The "games" target: a direct match, or a game bundle whose title is not a course or software title. */
  lemma GamesRule(b: FanaticalBundle, category: string)
    requires ToLower(category) == "games"
    ensures ShouldIncludeBundle(b, category) <==>
      ToLower(b.Category) == "games"
      || (!GamesExcluded(ToLower(b.Title)) && IsGames(ToLower(b.Category), ToLower(b.Title), ToLower(b.Description)))
  {
  }

  /** The "software" target: a direct match or the software lexicon. */
  lemma SoftwareRule(b: FanaticalBundle, category: string)
    requires ToLower(category) == "software"
    ensures ShouldIncludeBundle(b, category) <==>
      ToLower(b.Category) == "software" || IsSoftware(ToLower(b.Title), ToLower(b.Description))
  {
  }

  /** The "fallback" target: a direct match, or no lexicon applies. */
  lemma FallbackRule(b: FanaticalBundle, category: string)
    requires ToLower(category) == "fallback"
    ensures ShouldIncludeBundle(b, category) <==>
      || ToLower(b.Category) == "fallback"
      || (&& !IsBooks(ToLower(b.Title))
          && !IsGames(ToLower(b.Category), ToLower(b.Title), ToLower(b.Description))
          && !IsSoftware(ToLower(b.Title), ToLower(b.Description)))
  {
  }

  /** Any other target accepts every bundle. */
  lemma OtherTargetsAcceptAll(b: FanaticalBundle, category: string)
    requires ToLower(category) !in {"books", "games", "software", "fallback"}
    ensures ShouldIncludeBundle(b, category)
  {
  }

  /**
   * A bundle whose own category is not "fallback" is never in both the
   * "games" and the "fallback" feed.
   */
  lemma GamesAndFallbackDisjoint(b: FanaticalBundle, games: string, fallback: string)
    requires ToLower(games) == "games" && ToLower(fallback) == "fallback"
    requires ToLower(b.Category) != "fallback"
    ensures !(ShouldIncludeBundle(b, games) && ShouldIncludeBundle(b, fallback))
  {
    var c, t, d := ToLower(b.Category), ToLower(b.Title), ToLower(b.Description);
    if ShouldIncludeBundle(b, games) {
      assert c == "games" || IsGames(c, t, d);
      assert IsGames(c, t, d);
    }
  }

  /** The lexicon facts about the title "game" used below. */
  lemma GameTitleFacts()
    ensures IsGames("fallback", "game", "") && !GamesExcluded("game")
  {
    var t := "game";
    ContainsAt(t, "game", 0);
    ShorterNotContained(t, "certification");
    ShorterNotContained(t, "learning");
    ShorterNotContained(t, "training");
    ShorterNotContained(t, "course");
    ShorterNotContained(t, "software");
  }

  /** A bundle whose category is literally "fallback" can be in both feeds. */
  lemma GamesAndFallbackOverlapOnFallbackCategory()
    ensures var b := FanaticalBundle("1", "game", "s", "", "", "fallback", 0);
            ShouldIncludeBundle(b, "games") && ShouldIncludeBundle(b, "fallback")
  {
    ToLowerOfLower("game");
    ToLowerOfLower("games");
    ToLowerOfLower("fallback");
    ToLowerOfLower("");
    GameTitleFacts();
  }

  /** The lexicon facts about the title "c#" and the description "app" used below. */
  lemma CSharpTitleFacts()
    ensures IsBooks("c#") && !BooksExcluded("c#") && IsSoftware("c#", "app")
  {
    var t := "c#";
    ContainsAt(t, "c#", 0);
    ContainsAt("app", "app", 0);
    ShorterNotContained(t, "rpg and fantasy");
    ShorterNotContained(t, "game");
    ShorterNotContained(t, "gaming");
  }

  /**
   * The feeds do not partition the bundles: a C# bundle whose description
   * mentions apps is in "books" and in "software".
   */
  lemma BooksAndSoftwareOverlap()
    ensures var b := FanaticalBundle("1", "c#", "s", "app", "", "", 0);
            ShouldIncludeBundle(b, "books") && ShouldIncludeBundle(b, "software")
  {
    ToLowerOfLower("c#");
    ToLowerOfLower("app");
    ToLowerOfLower("books");
    ToLowerOfLower("software");
    ToLowerOfLower("");
    CSharpTitleFacts();
  }

  // ---------------------------------------------------------------------------
  // removeDuplicateBundles
  // ---------------------------------------------------------------------------

  /** The de-duplication key `fmt.Sprintf("%s-%d", Slug, StartDate.Unix())`. */
  function Key(b: FanaticalBundle): string
  {
    b.Slug + "-" + IntToString(b.StartDate)
  }

  /** What `removeDuplicateBundles` returns: the first bundle for each key, in input order. */
  function FirstPerKey(bs: seq<FanaticalBundle>): seq<FanaticalBundle>
  {
    Unseen(bs, Key, {})
  }

  /** `removeDuplicateBundles`: one pass with a set of the keys seen so far. */
  method RemoveDuplicateBundles(bundles: seq<FanaticalBundle>) returns (unique: seq<FanaticalBundle>)
    ensures unique == FirstPerKey(bundles)
  {
    var seen: set<string> := {};
    unique := [];
    var i := 0;
    while i < |bundles|
      invariant 0 <= i <= |bundles|
      invariant seen == KeySet(bundles[..i], Key)
      invariant unique == Unseen(bundles[..i], Key, {})
    {
      var key := Key(bundles[i]);
      if key !in seen {
        UnseenStepNew(bundles, Key, i);
        seen := seen + {key};
        unique := unique + [bundles[i]];
      } else {
        UnseenStepSeen(bundles, Key, i);
      }
      i := i + 1;
    }
    assert bundles[..i] == bundles;
  }

  /**
   * `removeDuplicateBundles` keeps, in input order, exactly the bundles whose
   * key no earlier bundle has, and loses no key.
   */
  lemma FirstPerKeySpec(bs: seq<FanaticalBundle>)
    ensures IsSubsequence(FirstPerKey(bs), bs) && |FirstPerKey(bs)| <= |bs|
    ensures DistinctKeys(FirstPerKey(bs), Key) && KeySet(FirstPerKey(bs), Key) == KeySet(bs, Key)
    ensures forall i :: 0 <= i < |bs| && Key(bs[i]) !in KeySet(bs[..i], Key) ==> bs[i] in FirstPerKey(bs)
    ensures forall k :: 0 <= k < |FirstPerKey(bs)| ==>
      exists i :: 0 <= i < |bs| && FirstPerKey(bs)[k] == bs[i] && Key(bs[i]) !in KeySet(bs[..i], Key)
  {
    UnseenIsSubsequence(bs, Key, {});
    forall i | 0 <= i < |bs| && Key(bs[i]) !in KeySet(bs[..i], Key) ensures bs[i] in FirstPerKey(bs) {
      UnseenKeepsFirsts(bs, Key, i);
    }
    forall k | 0 <= k < |FirstPerKey(bs)|
      ensures exists i :: 0 <= i < |bs| && FirstPerKey(bs)[k] == bs[i] && Key(bs[i]) !in KeySet(bs[..i], Key)
    {
      var i := UnseenKeepsOnlyFirsts(bs, Key, k);
    }
  }

  /** De-duplicating twice is de-duplicating once. */
  lemma FirstPerKeyIdempotent(bs: seq<FanaticalBundle>)
    ensures FirstPerKey(FirstPerKey(bs)) == FirstPerKey(bs)
  {
    UnseenOfDistinct(FirstPerKey(bs), Key);
  }

  /** Of two bundles with the same key, the earlier one survives. */
  lemma FirstOfTwoWins(x: FanaticalBundle, y: FanaticalBundle)
    requires Key(x) == Key(y)
    ensures FirstPerKey([x, y]) == [x]
  {
    assert [x, y][..1] == [x];
    assert [x][..0] == [];
    assert KeySet([x], Key) == {Key(x)};
    assert Unseen([x], Key, {}) == [x];
  }

  /** In "slug-digits" the separator is the last '-'. */
  lemma DashOnlyAtSeparator(slug: string, digits: string)
    requires AllDigits(digits)
    ensures forall j :: |slug| < j < |slug| + 1 + |digits| ==> (slug + "-" + digits)[j] != '-'
  {
    forall j | |slug| < j < |slug| + 1 + |digits| ensures (slug + "-" + digits)[j] != '-' {
      assert (slug + "-" + digits)[j] == digits[j - |slug| - 1];
    }
  }

  /** Non-negative start times: equal keys mean equal slug and equal start time. */
  lemma KeyInjective(a: FanaticalBundle, b: FanaticalBundle)
    requires a.StartDate >= 0 && b.StartDate >= 0
    requires Key(a) == Key(b)
    ensures a.Slug == b.Slug && a.StartDate == b.StartDate
  {
    var k := Key(a);
    var da, db := NatToString(a.StartDate), NatToString(b.StartDate);
    assert k == a.Slug + "-" + da && k == b.Slug + "-" + db;
    DashOnlyAtSeparator(a.Slug, da);
    DashOnlyAtSeparator(b.Slug, db);
    assert k[|a.Slug|] == '-' && k[|b.Slug|] == '-';
    assert |a.Slug| == |b.Slug|;
    assert a.Slug == k[..|a.Slug|] == b.Slug;
    assert da == k[|a.Slug| + 1..] == db;
    NatToStringInjective(a.StartDate, b.StartDate);
  }

  /** With negative start times, distinct (slug, start) pairs can share a key. */
  lemma KeyCollidesForNegativeStart()
    ensures var a := FanaticalBundle("1", "A", "x-", "", "", "", 1);
            var b := FanaticalBundle("2", "B", "x", "", "", "", -1);
            Key(a) == Key(b) && a.Slug != b.Slug
  {
    assert NatToString(1) == "1";
  }

  // ---------------------------------------------------------------------------
  // updateCategory
  // ---------------------------------------------------------------------------

  /** The per-bundle test of the category filter, as a function value. */
  function Includer(category: string): FanaticalBundle -> bool
  {
    b => ShouldIncludeBundle(b, category)
  }

  /** The bundles of `bs` that belong in the feed for `category`, in order. */
  function Select(bs: seq<FanaticalBundle>, category: string): (r: seq<FanaticalBundle>)
    ensures forall i :: 0 <= i < |r| ==> ShouldIncludeBundle(r[i], category) && r[i] in bs
    ensures forall i :: 0 <= i < |bs| && ShouldIncludeBundle(bs[i], category) ==> bs[i] in r
  {
    Filter(bs, Includer(category))
  }

  /** Selection keeps keys distinct. */
  lemma SelectKeepsKeysDistinct(bs: seq<FanaticalBundle>, category: string)
    requires DistinctKeys(bs, Key)
    ensures DistinctKeys(Select(bs, category), Key)
  {
    FilterKeepsDistinctKeys(bs, Includer(category), Key);
  }

  /** The three sources, concatenated in the order `updateCategory` appends them; a failed fetch adds nothing. */
  function Collected(newApi: Result<seq<FanaticalBundle>, string>,
                     algolia: Result<seq<FanaticalBundle>, string>,
                     promotions: Result<seq<FanaticalBundle>, string>): seq<FanaticalBundle>
  {
    OkOr(newApi, []) + OkOr(algolia, []) + OkOr(promotions, [])
  }

  /**
   * Source precedence: every bundle of /api/all/de that is first with its key
   * survives, and the algolia and promotion bundles only add keys not seen
   * in the earlier sources.
   */
  lemma SourcePrecedence(a: seq<FanaticalBundle>, b: seq<FanaticalBundle>, c: seq<FanaticalBundle>)
    ensures FirstPerKey(a + b + c) ==
      FirstPerKey(a) + Unseen(b, Key, KeySet(a, Key)) + Unseen(c, Key, KeySet(a, Key) + KeySet(b, Key))
    ensures KeySet(Unseen(b, Key, KeySet(a, Key)), Key) !! KeySet(a, Key)
    ensures KeySet(Unseen(c, Key, KeySet(a, Key) + KeySet(b, Key)), Key) !! KeySet(a, Key) + KeySet(b, Key)
  {
    var ka, kb := KeySet(a, Key), KeySet(b, Key);
    UnseenConcat(a + b, c, Key, {});
    assert {} + KeySet(a + b, Key) == ka + kb by {
      KeySetConcat(a, b, Key);
    }
    UnseenConcat(a, b, Key, {});
    assert {} + ka == ka;
  }

  /** What `updateCategory` publishes for one category. */
  datatype CategoryFeed =
    | BundleFeed(bundles: seq<FanaticalBundle>)
    | StaticFeed(title: string, link: string, description: string, items: seq<FanaticalBundle>)

  /** The item-less feed written when the fallback category selects nothing. */
  function EmptyFallbackFeed(): (f: CategoryFeed)
    ensures f.StaticFeed? && f.items == []
  {
    StaticFeed("Fanatical RSS Fallback Bundles",
               "https://feuerlord2.github.io/Fanatical-RSS-Site/",
               "Bundles that don't fit into any other category",
               [])
  }

  /** The collecting part of `updateCategory`: append each source that was fetched without error. */
  method CollectBundles(newApi: Result<seq<FanaticalBundle>, string>,
                        algolia: Result<seq<FanaticalBundle>, string>,
                        promotions: Result<seq<FanaticalBundle>, string>)
    returns (allBundles: seq<FanaticalBundle>)
    ensures allBundles == Collected(newApi, algolia, promotions)
  {
    allBundles := [];
    if newApi.Ok? {
      allBundles := allBundles + newApi.value;
    }
    if algolia.Ok? {
      allBundles := allBundles + algolia.value;
    }
    if promotions.Ok? {
      allBundles := allBundles + promotions.value;
    }
  }

  /** The filtering loop of `updateCategory`: the bundles `shouldIncludeBundle` accepts, in order. */
  method FilterBundles(allBundles: seq<FanaticalBundle>, category: string) returns (filtered: seq<FanaticalBundle>)
    ensures filtered == Select(allBundles, category)
  {
    filtered := [];
    var i := 0;
    while i < |allBundles|
      invariant 0 <= i <= |allBundles|
      invariant filtered == Filter(allBundles[..i], Includer(category))
    {
      FilterStep(allBundles, Includer(category), i);
      if ShouldIncludeBundle(allBundles[i], category) {
        filtered := filtered + [allBundles[i]];
      }
      i := i + 1;
    }
    assert allBundles[..i] == allBundles;
  }

  /**
   * `updateCategory`, from the fetched lists on: collect the sources in order,
   * de-duplicate, filter, and replace an empty result by the test bundles
   * (any category but "fallback") or by an empty feed ("fallback").
   */
  method UpdateCategory(newApi: Result<seq<FanaticalBundle>, string>,
                        algolia: Result<seq<FanaticalBundle>, string>,
                        promotions: Result<seq<FanaticalBundle>, string>,
                        testBundles: seq<FanaticalBundle>,
                        category: string)
    returns (feed: CategoryFeed)
    ensures var selected := Select(FirstPerKey(Collected(newApi, algolia, promotions)), category);
            && (selected != [] ==> feed == BundleFeed(selected))
            && (selected == [] && category != "fallback" ==> feed == BundleFeed(testBundles))
            && (selected == [] && category == "fallback" ==> feed == EmptyFallbackFeed())
  {
    var allBundles := CollectBundles(newApi, algolia, promotions);
    allBundles := RemoveDuplicateBundles(allBundles);
    var filtered := FilterBundles(allBundles, category);
    if |filtered| == 0 && category != "fallback" {
      filtered := testBundles;
    }
    if |filtered| == 0 && category == "fallback" {
      return EmptyFallbackFeed();
    }
    feed := BundleFeed(filtered);
  }

  /** A published category feed never repeats a key and holds only bundles for that category. */
  lemma SelectedFeedWellFormed(bs: seq<FanaticalBundle>, category: string)
    ensures DistinctKeys(Select(FirstPerKey(bs), category), Key)
    ensures IsSubsequence(Select(FirstPerKey(bs), category), FirstPerKey(bs))
  {
    SelectKeepsKeysDistinct(FirstPerKey(bs), category);
    FilterIsSubsequence(FirstPerKey(bs), Includer(category));
  }
}
