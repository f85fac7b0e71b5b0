/** The product recommendation agent
    (`ecommerce_ai_agents/agents/product_recommendation.py`): the parser that turns a
    chat message into a filter command for the listing page, and the reply that
    carries it. The language model's answer and the product search results are
    inputs. Regular expressions are modelled by scanning: `Leftmost` is
    `re.search`, and `MaxPriceAt`/`BetweenAt` say whether a pattern matches at a
    given position. Character classes are ASCII (see README). */
module ProductRecommendation {
  import opened Wrappers
  import opened Seqs
  import opened Text
  import opened Wire
  import opened Catalog

  datatype AgentCategory = AgentCategory(id: int, name: string, slug: string)

  /** The agent's hard-coded catalogue of categories. */
  const Categories: seq<AgentCategory> := [
    AgentCategory(1, "Books", "books"),
    AgentCategory(2, "Fashion", "fashion"),
    AgentCategory(3, "Fitness", "fitness"),
    AgentCategory(4, "Electronics", "electronics"),
    AgentCategory(5, "Home Decor", "home-decor"),
    AgentCategory(6, "Beauty", "beauty")
  ]

  /** Words that never become search terms. */
  const SkipWords: seq<string> := [
    "show", "display", "find", "looking", "for", "me", "want", "need", "products", "items",
    "under", "over", "between", "and", "less", "than", "more", "cheap", "expensive",
    "newest", "popular", "best"
  ]

  // ---------------------------------------------------------------- categories

  /** The slugs, in catalogue order, of the categories whose lower-cased name occurs in `m`. */
  function CategoryMatches(m: string, cats: seq<AgentCategory>): seq<string> {
    if cats == [] then []
    else (if Contains(m, Lower(cats[0].name)) then [cats[0].slug] else []) + CategoryMatches(m, cats[1..])
  }

  function Slugs(cats: seq<AgentCategory>): seq<string> {
    if cats == [] then [] else [cats[0].slug] + Slugs(cats[1..])
  }

  predicate NamedIn(m: string, c: AgentCategory, slug: string) {
    c.slug == slug && Contains(m, Lower(c.name))
  }

  /** A slug is listed exactly when the name of a category with that slug occurs in
      the message. */
  lemma {:induction false} CategoryMatchesMember(m: string, cats: seq<AgentCategory>, slug: string)
    ensures slug in CategoryMatches(m, cats) <==> exists k :: 0 <= k < |cats| && NamedIn(m, cats[k], slug)
    decreases |cats|
  {
    if cats != [] {
      var tail := cats[1..];
      CategoryMatchesMember(m, tail, slug);
      assert (exists k :: 0 <= k < |cats| && NamedIn(m, cats[k], slug))
             <==> NamedIn(m, cats[0], slug) || exists k :: 0 <= k < |tail| && NamedIn(m, tail[k], slug) by {
        assert forall k :: 0 <= k < |tail| ==> tail[k] == cats[k + 1];
        if exists k :: 0 <= k < |cats| && NamedIn(m, cats[k], slug) {
          var k :| 0 <= k < |cats| && NamedIn(m, cats[k], slug);
          if k > 0 {
            assert NamedIn(m, tail[k - 1], slug);
          }
        }
      }
    }
  }

  /** The listed slugs keep catalogue order. */
  lemma {:induction false} CategoryMatchesOrder(m: string, cats: seq<AgentCategory>)
    ensures IsSubsequence(CategoryMatches(m, cats), Slugs(cats))
    decreases |cats|
  {
    if cats != [] {
      CategoryMatchesOrder(m, cats[1..]);
      var rest := CategoryMatches(m, cats[1..]);
      if Contains(m, Lower(cats[0].name)) {
        assert ([cats[0].slug] + rest)[1..] == rest;
        assert (Slugs(cats))[1..] == Slugs(cats[1..]);
      } else {
        assert ([] + rest) == rest;
        SubsequenceDropHead(rest, Slugs(cats));
      }
    }
  }

  /** Both halves: membership by name occurrence, in catalogue order. */
  lemma CategoryMatchesSpec(m: string, cats: seq<AgentCategory>, slug: string)
    ensures slug in CategoryMatches(m, cats) <==>
      exists k :: 0 <= k < |cats| && cats[k].slug == slug && Contains(m, Lower(cats[k].name))
    ensures IsSubsequence(CategoryMatches(m, cats), Slugs(cats))
  {
    CategoryMatchesMember(m, cats, slug);
    CategoryMatchesOrder(m, cats);
  }

  lemma SubsequenceDropHead(r: seq<string>, s: seq<string>)
    requires s != [] && IsSubsequence(r, s[1..])
    ensures IsSubsequence(r, s)
  {
  }

  /** The category name given to a search result: the name of the first catalogue
      entry with the product's (truthy) category id, else "Uncategorized". */
  function CategoryName(categoryId: Option<int>, cats: seq<AgentCategory>): (name: string)
    ensures (categoryId.None? || categoryId.value == 0) ==> name == "Uncategorized"
    ensures categoryId.Some? && categoryId.value != 0 ==>
      (name == "Uncategorized" && forall k :: 0 <= k < |cats| ==> cats[k].id != categoryId.value)
      || exists k :: 0 <= k < |cats| && cats[k].id == categoryId.value && cats[k].name == name
                     && forall j :: 0 <= j < k ==> cats[j].id != categoryId.value
  {
    if categoryId.None? || categoryId.value == 0 then "Uncategorized"
    else
      var k := FirstWithId(cats, categoryId.value);
      if k.Some? then cats[k.value].name else "Uncategorized"
  }

  function FirstWithId(cats: seq<AgentCategory>, id: int): (r: Option<nat>)
    ensures r.Some? ==> r.value < |cats| && cats[r.value].id == id
                        && forall j :: 0 <= j < r.value ==> cats[j].id != id
    ensures r.None? ==> forall k :: 0 <= k < |cats| ==> cats[k].id != id
  {
    if cats == [] then None
    else if cats[0].id == id then Some(0)
    else
      var r := FirstWithId(cats[1..], id);
      assert forall j :: 1 <= j < |cats| ==> cats[j] == cats[1..][j - 1];
      if r.Some? then Some(r.value + 1) else None
  }

  // ---------------------------------------------------------------- re.search

  /** `re.search`: the leftmost position in `i..n` at which the pattern matches, with its match. */
  function Leftmost<T>(n: nat, i: nat, at: nat -> Option<T>): (r: Option<(nat, T)>)
    requires i <= n
    ensures r.Some? ==> i <= r.value.0 <= n && at(r.value.0) == Some(r.value.1)
    ensures r.Some? ==> forall q :: i <= q < r.value.0 ==> at(q).None?
    ensures r.None? ==> forall q :: i <= q <= n ==> at(q).None?
    decreases n - i
  {
    if at(i).Some? then Some((i, at(i).value))
    else if i == n then None
    else Leftmost(n, i + 1, at)
  }

  /** A match at `q` with none before it is the one `Leftmost` finds. */
  lemma LeftmostIsFirst<T>(n: nat, at: nat -> Option<T>, q: nat)
    requires q <= n && at(q).Some?
    requires forall p :: 0 <= p < q ==> at(p).None?
    ensures Leftmost(n, 0, at) == Some((q, at(q).value))
  {
    var r := Leftmost(n, 0, at);
    assert r.Some?;
    assert !(r.value.0 < q);
    assert !(q < r.value.0);
  }

  /** The length of the run of characters satisfying `p` that starts at `i`. */
  function Run(m: string, i: nat, p: char -> bool): (k: nat)
    ensures i <= |m| ==> i + k <= |m|
    ensures i > |m| ==> k == 0
    ensures forall j :: i <= j < i + k ==> p(m[j])
    ensures i + k < |m| ==> !p(m[i + k])
    decreases |m| - i
  {
    if i < |m| && p(m[i]) then 1 + Run(m, i + 1, p) else 0
  }

  predicate IsSpaceChar(c: char) { PySpace(c) }

  /** `\s+\$?(\d+)` at `i`: the number and the position after it. The pattern cannot
      backtrack into a different match: whitespace, "$" and digits are disjoint. */
  function AmountAt(m: string, i: nat): (r: Option<(nat, nat)>)
    ensures r.Some? ==> i < r.value.1 <= |m|
  {
    var k := Run(m, i, IsSpaceChar);
    if k == 0 then None
    else
      var j := i + k + (if i + k < |m| && m[i + k] == '$' then 1 else 0);
      var d := Run(m, j, IsDigit);
      if d == 0 then None
      else Some((DigitsValue(m[j..j + d]), j + d))
  }

  /** `under\s+\$?(\d+)|less than\s+\$?(\d+)|below\s+\$?(\d+)|cheaper than\s+\$?(\d+)` at `i`:
      the first alternative that matches there gives the maximum price. */
  function MaxPriceAt(m: string, i: nat): Option<nat> {
    if OccursAt(m, i, "under") && AmountAt(m, i + 5).Some? then Some(AmountAt(m, i + 5).value.0)
    else if OccursAt(m, i, "less than") && AmountAt(m, i + 9).Some? then Some(AmountAt(m, i + 9).value.0)
    else if OccursAt(m, i, "below") && AmountAt(m, i + 5).Some? then Some(AmountAt(m, i + 5).value.0)
    else if OccursAt(m, i, "cheaper than") && AmountAt(m, i + 12).Some? then Some(AmountAt(m, i + 12).value.0)
    else None
  }

  /** `between\s+\$?(\d+)\s+and\s+\$?(\d+)` at `i`: the two numbers. */
  function BetweenAt(m: string, i: nat): Option<(nat, nat)> {
    if !OccursAt(m, i, "between") then None
    else
      var first := AmountAt(m, i + 7);
      if first.None? then None
      else
        var e := first.value.1;
        var k := Run(m, e, IsSpaceChar);
        if k == 0 || !OccursAt(m, e + k, "and") then None
        else
          var second := AmountAt(m, e + k + 3);
          if second.None? then None else Some((first.value.0, second.value.0))
  }

  // ---------------------------------------------------------------- the criteria

  /** `re.search` of the "between" pattern in `m`. */
  function BetweenSearch(m: string): Option<(nat, (nat, nat))> {
    Leftmost(|m|, 0, q => BetweenAt(m, q))
  }

  /** `re.search` of the maximum-price pattern in `m`. */
  function MaxPriceSearch(m: string): Option<(nat, nat)> {
    Leftmost(|m|, 0, q => MaxPriceAt(m, q))
  }

  /** The price range: a "between" phrase wins over a maximum-price phrase; each is the
      leftmost match of its pattern. */
  function PriceCriterion(m: string): Option<PriceRange> {
    var between := BetweenSearch(m);
    var max := MaxPriceSearch(m);
    if between.Some? then Some(PriceRange(between.value.1.0 as real, between.value.1.1 as real))
    else if max.Some? then Some(PriceRange(0.0, max.value.1 as real))
    else None
  }

  predicate AnyOf(m: string, a: string, b: string, c: string) {
    Contains(m, a) || Contains(m, b) || Contains(m, c)
  }

  function SortCriterion(m: string): Option<string> {
    if AnyOf(m, "cheap", "lowest price", "price low") then Some("price-asc")
    else if AnyOf(m, "expensive", "highest price", "price high") then Some("price-desc")
    else if AnyOf(m, "newest", "latest", "recent") then Some("newest")
    else if AnyOf(m, "popular", "best rated", "top rated") then Some("rating")
    else None
  }

  /** `\w` on ASCII. */
  predicate IsWordChar(c: char) {
    ('a' <= c <= 'z') || ('A' <= c <= 'Z') || ('0' <= c <= '9') || c == '_'
  }

  /** `re.sub(r'[^\w\s]', '', w)`. */
  function Clean(w: string): (r: string)
    ensures |r| <= |w|
    ensures forall i :: 0 <= i < |r| ==> IsWordChar(r[i]) || PySpace(r[i])
  {
    if w == [] then []
    else (if IsWordChar(w[0]) || PySpace(w[0]) then [w[0]] else []) + Clean(w[1..])
  }

  /** `w in ws`, one element at a time. */
  predicate Among(w: string, ws: seq<string>) {
    ws != [] && (ws[0] == w || Among(w, ws[1..]))
  }

  lemma {:induction false} AmongIsIn(w: string, ws: seq<string>)
    ensures Among(w, ws) <==> w in ws
    decreases |ws|
  {
    if ws != [] {
      AmongIsIn(w, ws[1..]);
      assert ws == [ws[0]] + ws[1..];
    }
  }

  predicate IsSkipWord(w: string) {
    Among(w, SkipWords)
  }

  predicate Qualifies(w: string) {
    w != "" && !IsSkipWord(w) && |w| > 2
  }

  /** The cleaned words that qualify, in order. */
  function SearchTerms(words: seq<string>): seq<string> {
    if words == [] then []
    else (if Qualifies(Clean(words[0])) then [Clean(words[0])] else []) + SearchTerms(words[1..])
  }

  function SearchCriterion(m: string): Option<string> {
    var terms := SearchTerms(Words(Lower(m)));
    if terms == [] then None else Some(Join(terms, " "))
  }

  function ViewCriterion(m: string): Option<string> {
    if Contains(m, "compact") || Contains(m, "list") then Some("compact")
    else if Contains(m, "grid") || Contains(m, "tiles") then Some("grid")
    else None
  }

  /** The command `extract_filter_criteria` builds from `message`. */
  function FilterCriteria(message: string): FilterCommand {
    var m := Lower(message);
    var cats := CategoryMatches(m, Categories);
    FilterCommand("filter",
                  if cats == [] then None else Some(cats),
                  PriceCriterion(m),
                  SortCriterion(m),
                  SearchCriterion(m),
                  ViewCriterion(m))
  }

  // ---------------------------------------------------------------- the parser as written

  lemma CategoryMatchesStep(m: string, cats: seq<AgentCategory>, k: nat)
    requires k < |cats|
    ensures CategoryMatches(m, cats[k..]) ==
      (if Contains(m, Lower(cats[k].name)) then [cats[k].slug] else []) + CategoryMatches(m, cats[k + 1..])
  {
    assert cats[k..][1..] == cats[k + 1..];
  }

  /** The loop over the category catalogue. */
  method CollectCategoryMatches(m: string, cats: seq<AgentCategory>) returns (matches: seq<string>)
    ensures matches == CategoryMatches(m, cats)
  {
    matches := [];
    for k := 0 to |cats|
      invariant matches + CategoryMatches(m, cats[k..]) == CategoryMatches(m, cats)
    {
      CategoryMatchesStep(m, cats, k);
      ghost var rest := CategoryMatches(m, cats[k + 1..]);
      if Contains(m, Lower(cats[k].name)) {
        assert matches + ([cats[k].slug] + rest) == (matches + [cats[k].slug]) + rest;
        matches := matches + [cats[k].slug];
      } else {
        assert [] + rest == rest;
      }
    }
    assert cats[|cats|..] == [];
  }

  lemma SearchTermsStep(words: seq<string>, k: nat)
    requires k < |words|
    ensures SearchTerms(words[k..]) ==
      (if Qualifies(Clean(words[k])) then [Clean(words[k])] else []) + SearchTerms(words[k + 1..])
  {
    assert words[k..][1..] == words[k + 1..];
  }

  /** The loop over the words of the message. */
  method CollectSearchTerms(words: seq<string>) returns (terms: seq<string>)
    ensures terms == SearchTerms(words)
  {
    terms := [];
    for k := 0 to |words|
      invariant terms + SearchTerms(words[k..]) == SearchTerms(words)
    {
      SearchTermsStep(words, k);
      ghost var rest := SearchTerms(words[k + 1..]);
      var word := Clean(words[k]);
      if word != "" && !IsSkipWord(word) && |word| > 2 {
        assert terms + ([word] + rest) == (terms + [word]) + rest;
        terms := terms + [word];
      } else {
        assert [] + rest == rest;
      }
    }
    assert words[|words|..] == [];
  }

  /** The if/elif chain over the sort keywords. */
  method ChooseSort(m: string) returns (sort: Option<string>)
    ensures sort == SortCriterion(m)
  {
    sort := None;
    if Contains(m, "cheap") || Contains(m, "lowest price") || Contains(m, "price low") {
      sort := Some("price-asc");
    } else if Contains(m, "expensive") || Contains(m, "highest price") || Contains(m, "price high") {
      sort := Some("price-desc");
    } else if Contains(m, "newest") || Contains(m, "latest") || Contains(m, "recent") {
      sort := Some("newest");
    } else if Contains(m, "popular") || Contains(m, "best rated") || Contains(m, "top rated") {
      sort := Some("rating");
    }
  }

  /** The if/elif chain over the view keywords. */
  method ChooseView(m: string) returns (view: Option<string>)
    ensures view == ViewCriterion(m)
  {
    view := None;
    if Contains(m, "compact") || Contains(m, "list") {
      view := Some("compact");
    } else if Contains(m, "grid") || Contains(m, "tiles") {
      view := Some("grid");
    }
  }

  /** `extract_filter_criteria`: lower-cases the message, then adds one key per
      criterion found, collecting category slugs and search terms in loops. */
  method ExtractFilterCriteria(message: string) returns (cmd: FilterCommand)
    ensures cmd == FilterCriteria(message)
  {
    var m := Lower(message);
    cmd := FilterCommand("filter", None, None, None, None, None);

    var categoryMatches := CollectCategoryMatches(m, Categories);
    if categoryMatches != [] {
      cmd := cmd.(categories := Some(categoryMatches));
    }

    var maxPriceMatch := MaxPriceSearch(m);
    if maxPriceMatch.Some? {
      cmd := cmd.(priceRange := Some(PriceRange(0.0, maxPriceMatch.value.1 as real)));
    }
    var priceRangeMatch := BetweenSearch(m);
    if priceRangeMatch.Some? {
      cmd := cmd.(priceRange := Some(PriceRange(priceRangeMatch.value.1.0 as real, priceRangeMatch.value.1.1 as real)));
    }

    var sort := ChooseSort(m);
    if sort.Some? {
      cmd := cmd.(sort := sort);
    }

    var searchTerms := CollectSearchTerms(Words(Lower(m)));
    if searchTerms != [] {
      cmd := cmd.(search := Some(Join(searchTerms, " ")));
    }

    var view := ChooseView(m);
    if view.Some? {
      cmd := cmd.(view := view);
    }
  }

  // ---------------------------------------------------------------- properties

  /** The action is always "filter", and a key is present only with a value found in
      the message: a non-empty category list, a non-empty search. */
  lemma FilterCriteriaShape(message: string)
    ensures FilterCriteria(message).action == "filter"
    ensures FilterCriteria(message).categories.Some? ==> FilterCriteria(message).categories.value != []
    ensures FilterCriteria(message).search.Some? ==> FilterCriteria(message).search.value != ""
    ensures FilterCriteria(message).sort.Some? ==> IsSortKey(FilterCriteria(message).sort.value)
    ensures FilterCriteria(message).view.Some? ==>
      FilterCriteria(message).view.value == "compact" || FilterCriteria(message).view.value == "grid"
  {
    SortCriterionIsKey(Lower(message));
    ViewCriterionValues(Lower(message));
    var terms := SearchTerms(Words(Lower(Lower(message))));
    if terms != [] {
      assert Qualifies(terms[0]) by { SearchTermsQualify(Words(Lower(Lower(message)))); }
      JoinNonEmpty(terms);
    }
  }

  lemma {:induction false} JoinNonEmpty(ws: seq<string>)
    requires ws != [] && ws[0] != ""
    ensures Join(ws, " ") != ""
    decreases |ws|
  {
    if |ws| > 1 {
      assert |Join(ws, " ")| >= |ws[0]|;
    }
  }

  lemma SortCriterionIsKey(m: string)
    ensures SortCriterion(m).Some? ==> IsSortKey(SortCriterion(m).value)
  {
  }

  lemma ViewCriterionValues(m: string)
    ensures ViewCriterion(m).Some? ==> ViewCriterion(m).value == "compact" || ViewCriterion(m).value == "grid"
  {
  }

  /** A "between" phrase overrides any maximum-price phrase, whatever the order of its
      two numbers; otherwise the leftmost maximum-price phrase gives `[0, N]`. */
  lemma PriceCriterionSpec(m: string, q: nat)
    requires q <= |m|
    ensures BetweenAt(m, q).Some? && (forall p :: 0 <= p < q ==> BetweenAt(m, p).None?) ==>
      PriceCriterion(m) == Some(PriceRange(BetweenAt(m, q).value.0 as real, BetweenAt(m, q).value.1 as real))
    ensures (forall p :: 0 <= p <= |m| ==> BetweenAt(m, p).None?) ==>
      MaxPriceAt(m, q).Some? && (forall p :: 0 <= p < q ==> MaxPriceAt(m, p).None?) ==>
        PriceCriterion(m) == Some(PriceRange(0.0, MaxPriceAt(m, q).value as real))
  {
    var atBetween: nat -> Option<(nat, nat)> := p => BetweenAt(m, p);
    var atMax: nat -> Option<nat> := p => MaxPriceAt(m, p);
    assert BetweenSearch(m) == Leftmost(|m|, 0, atBetween);
    assert MaxPriceSearch(m) == Leftmost(|m|, 0, atMax);
    if BetweenAt(m, q).Some? && (forall p :: 0 <= p < q ==> BetweenAt(m, p).None?) {
      LeftmostIsFirst(|m|, atBetween, q);
    }
    if (forall p :: 0 <= p <= |m| ==> BetweenAt(m, p).None?) && MaxPriceAt(m, q).Some?
       && (forall p :: 0 <= p < q ==> MaxPriceAt(m, p).None?) {
      LeftmostIsFirst(|m|, atMax, q);
    }
  }

  /** No price range exactly when neither pattern matches anywhere. */
  lemma PriceCriterionAbsent(m: string)
    ensures PriceCriterion(m).None? <==>
      (forall p :: 0 <= p <= |m| ==> BetweenAt(m, p).None? && MaxPriceAt(m, p).None?)
  {
    var atBetween: nat -> Option<(nat, nat)> := p => BetweenAt(m, p);
    var atMax: nat -> Option<nat> := p => MaxPriceAt(m, p);
    assert BetweenSearch(m) == Leftmost(|m|, 0, atBetween);
    assert MaxPriceSearch(m) == Leftmost(|m|, 0, atMax);
    if PriceCriterion(m).None? {
      forall p | 0 <= p <= |m| ensures BetweenAt(m, p).None? && MaxPriceAt(m, p).None? {
        assert atBetween(p).None?;
        assert atMax(p).None?;
      }
    } else if BetweenSearch(m).Some? {
      var q := BetweenSearch(m).value.0;
      assert atBetween(q).Some?;
    } else {
      var q := MaxPriceSearch(m).value.0;
      assert atMax(q).Some?;
    }
  }

  /** At most one sort key, with precedence: ascending price words, then descending
      price words, then recency words, then rating words. */
  lemma SortCriterionSpec(m: string)
    ensures Contains(m, "cheap") ==> SortCriterion(m) == Some("price-asc")
    ensures !AnyOf(m, "cheap", "lowest price", "price low") && Contains(m, "expensive") ==>
      SortCriterion(m) == Some("price-desc")
    ensures (!AnyOf(m, "cheap", "lowest price", "price low") && !AnyOf(m, "expensive", "highest price", "price high")
             && Contains(m, "newest")) ==> SortCriterion(m) == Some("newest")
    ensures SortCriterion(m) == Some("rating") <==>
      !AnyOf(m, "cheap", "lowest price", "price low") && !AnyOf(m, "expensive", "highest price", "price high")
      && !AnyOf(m, "newest", "latest", "recent") && AnyOf(m, "popular", "best rated", "top rated")
    ensures SortCriterion(m).None? <==>
      !AnyOf(m, "cheap", "lowest price", "price low") && !AnyOf(m, "expensive", "highest price", "price high")
      && !AnyOf(m, "newest", "latest", "recent") && !AnyOf(m, "popular", "best rated", "top rated")
  {
  }

  /** "cheaper than" contains "cheap", so a maximum-price phrase of that form also
      asks for ascending price. */
  lemma CheaperThanSortsAscending(m: string, i: nat)
    requires OccursAt(m, i, "cheaper than")
    ensures SortCriterion(m) == Some("price-asc")
  {
    assert m[i..i + 5] == m[i..i + 12][..5];
    assert OccursAt(m, i, "cheap");
  }

  lemma {:induction false} SearchTermsQualify(words: seq<string>)
    ensures forall k :: 0 <= k < |SearchTerms(words)| ==> Qualifies(SearchTerms(words)[k])
    decreases |words|
  {
    if words != [] {
      SearchTermsQualify(words[1..]);
    }
  }

  lemma {:induction false} SearchTermsAreWords(words: seq<string>)
    requires forall k :: 0 <= k < |words| ==> IsWord(words[k])
    ensures forall k :: 0 <= k < |SearchTerms(words)| ==> IsWord(SearchTerms(words)[k])
    decreases |words|
  {
    if words != [] {
      assert forall k :: 0 <= k < |words[1..]| ==> words[1..][k] == words[k + 1];
      SearchTermsAreWords(words[1..]);
      var c := Clean(words[0]);
      forall i | 0 <= i < |c| ensures !PySpace(c[i]) {
        CleanKeepsNoSpace(words[0], i);
      }
    }
  }

  lemma {:induction false} CleanKeepsNoSpace(w: string, i: nat)
    requires forall j :: 0 <= j < |w| ==> !PySpace(w[j])
    requires i < |Clean(w)|
    ensures !PySpace(Clean(w)[i])
    decreases |w|
  {
    var head := if IsWordChar(w[0]) || PySpace(w[0]) then [w[0]] else [];
    if i >= |head| {
      assert Clean(w)[i] == Clean(w[1..])[i - |head|];
      CleanKeepsNoSpace(w[1..], i - |head|);
    }
  }

  /** The search string splits back into exactly the qualifying words, in message order. */
  lemma SearchCriterionSpec(m: string)
    ensures SearchCriterion(m).Some? ==>
      Words(SearchCriterion(m).value) == SearchTerms(Words(Lower(m)))
    ensures SearchCriterion(m).Some? ==>
      forall w :: w in Words(SearchCriterion(m).value) ==> Qualifies(w)
    ensures SearchCriterion(m).None? <==> SearchTerms(Words(Lower(m))) == []
  {
    var words := Words(Lower(m));
    WordsAreWords(Lower(m));
    SearchTermsAreWords(words);
    SearchTermsQualify(words);
    if SearchTerms(words) != [] {
      WordsOfJoin(SearchTerms(words));
    }
  }

  /** "compact" or "list" select the compact view even when "grid" or "tiles" occur too. */
  lemma ViewCriterionSpec(m: string)
    ensures (Contains(m, "compact") || Contains(m, "list")) ==> ViewCriterion(m) == Some("compact")
    ensures ViewCriterion(m) == Some("grid") <==>
      !Contains(m, "compact") && !Contains(m, "list") && (Contains(m, "grid") || Contains(m, "tiles"))
  {
  }

  // ---------------------------------------------------------------- process

  /** `should_navigate`: the command has a key besides "action". */
  function ShouldNavigate(cmd: FilterCommand): bool {
    KeyCount(cmd) > 1
  }

  lemma ShouldNavigateSpec(cmd: FilterCommand)
    ensures ShouldNavigate(cmd) <==>
      cmd.categories.Some? || cmd.priceRange.Some? || cmd.sort.Some? || cmd.search.Some? || cmd.view.Some?
  {
  }

  /** The agent's reply: the model's answer, the products found, its agent type, the
      command when it says anything, and the navigation flag. */
  function Process(message: string, aiResponse: string, products: seq<ProductHit>): (r: Reply)
    ensures r.agentType == Some("product_recommendation") && r.message == Some(aiResponse)
    ensures r.shouldNavigate == Some(ShouldNavigate(FilterCriteria(message)))
    ensures r.filterCommand.Some? <==> r.shouldNavigate == Some(true)
    ensures r.filterCommand.Some? ==> r.filterCommand.value == FilterCriteria(message)
    ensures r.products == Some(products) && r.suggestions.None?
    ensures r.suggestedActions.None? && r.orders.None?
  {
    var cmd := FilterCriteria(message);
    var nav := ShouldNavigate(cmd);
    Reply(Some(aiResponse), Some("product_recommendation"), Some(products), None, None, None,
          if nav then Some(cmd) else None, Some(nav))
  }
}
