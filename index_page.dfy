/** The search of the gallery page (`handleSearch` in `Index.tsx`): a blank term shows the
    whole gallery; any other term keeps, in order, the destinations whose lowered title or
    description contains the lowered term, or one of whose lowered hashtags contains the
    lowered term with its first `#` removed. */
module IndexPage {
  import opened Text
  import opened Seqs
  import opened Destinations
  import opened TravelData

  /** `term.trim() === ''`. */
  predicate IsBlank(term: string) {
    Trim(term) == []
  }

  /** `hashtags.some(tag => tag.toLowerCase().includes(p))`. */
  predicate SomeTagIncludes(tags: seq<string>, p: string) {
    exists i :: 0 <= i < |tags| && Includes(LowerStr(tags[i]), p)
  }

  /** The filter callback: the title and the description are compared with the lowered
      term as it is, the hashtags against the lowered term with its first `#` removed. */
  predicate Matches(d: Destination, term: string) {
    var t := LowerStr(term);
    || Includes(LowerStr(d.title), t)
    || Includes(LowerStr(d.description), t)
    || SomeTagIncludes(d.hashtags, ReplaceFirst(t, '#'))
  }

  /** The callback as a value, for `filter`. */
  function MatchesTerm(term: string): Destination -> bool {
    d => Matches(d, term)
  }

  /** The list `handleSearch` stores for `term`, starting from `all`. */
  function Search(all: seq<Destination>, term: string): (r: seq<Destination>)
    ensures forall d :: d in r <==> d in all && (IsBlank(term) || Matches(d, term))
    ensures forall d :: multiset(r)[d] == if IsBlank(term) || Matches(d, term) then multiset(all)[d] else 0
  {
    if IsBlank(term) then all else Filter(all, MatchesTerm(term))
  }

  // ---------------------------------------------------------------------------
  // Properties of the search
  // ---------------------------------------------------------------------------

  /** A term made only of white space (the empty term included) shows everything. */
  lemma BlankTermShowsEverything(all: seq<Destination>, term: string)
    requires forall i :: 0 <= i < |term| ==> IsSpace(term[i])
    ensures Search(all, term) == all
  {
    TrimEmptyIff(term);
  }

  /** Any other term filters: the result is exactly the matching destinations. */
  lemma NonBlankTermFilters(all: seq<Destination>, term: string)
    requires exists i :: 0 <= i < |term| && !IsSpace(term[i])
    ensures Search(all, term) == Filter(all, MatchesTerm(term))
  {
    TrimEmptyIff(term);
  }

  /** The result is always an order-preserving subsequence of the list searched. */
  lemma SearchIsSubsequence(all: seq<Destination>, term: string)
    ensures IsSubsequence(Search(all, term), all)
  {
    if !IsBlank(term) {
      FilterIsSubsequence(all, MatchesTerm(term));
    } else {
      var f := seq(|all|, k requires 0 <= k < |all| => k);
      assert EmbedsAt(all, all, f);
    }
  }

  /** For a non-blank term a destination of the list is kept exactly when it matches, and
      nothing else appears. */
  lemma SearchKeepsMatches(all: seq<Destination>, term: string, d: Destination)
    requires !IsBlank(term)
    ensures d in Search(all, term) <==> d in all && Matches(d, term)
  {
    var r := Search(all, term);
    if d in r {
      var k :| 0 <= k < |r| && r[k] == d;
      assert MatchesTerm(term)(r[k]);
    }
    if d in all && Matches(d, term) {
      var i :| 0 <= i < |all| && all[i] == d;
      assert MatchesTerm(term)(all[i]);
    }
  }

  /** A term is blank exactly when its lowered form is. */
  lemma BlankIgnoresCase(term: string)
    ensures IsBlank(LowerStr(term)) <==> IsBlank(term)
  {
    var l := LowerStr(term);
    TrimEmptyIff(term);
    TrimEmptyIff(l);
    forall i | 0 <= i < |term| ensures IsSpace(l[i]) <==> IsSpace(term[i]) {
      LowerCharKeepsSpace(term[i]);
    }
  }

  /** The search ignores case: two terms with the same lowered form give the same result,
      for every list. */
  lemma SearchIgnoresCase(all: seq<Destination>, t1: string, t2: string)
    requires LowerStr(t1) == LowerStr(t2)
    ensures Search(all, t1) == Search(all, t2)
  {
    BlankIgnoresCase(t1);
    BlankIgnoresCase(t2);
    FilterAgrees(all, MatchesTerm(t1), MatchesTerm(t2));
  }

  /** The matching test, stated with occurrences instead of the `includes` scan. */
  lemma MatchesIff(d: Destination, term: string)
    ensures var t := LowerStr(term);
      Matches(d, term) <==>
        || (exists i :: OccursAt(LowerStr(d.title), t, i))
        || (exists i :: OccursAt(LowerStr(d.description), t, i))
        || (exists k, i :: 0 <= k < |d.hashtags| && OccursAt(LowerStr(d.hashtags[k]), ReplaceFirst(t, '#'), i))
  {
    var t := LowerStr(term);
    IncludesIff(LowerStr(d.title), t);
    IncludesIff(LowerStr(d.description), t);
    var p := ReplaceFirst(t, '#');
    forall k | 0 <= k < |d.hashtags| {
      IncludesIff(LowerStr(d.hashtags[k]), p);
    }
  }

  /** No capital lowers to `#`. */
  lemma NothingLowersToHash(x: char)
    ensures LowerChar(x) == '#' <==> x == '#'
  {
  }

  /** A text without `#` never contains a lowered term that holds `#`. */
  lemma HashFreeTextMisses(text: string, term: string)
    requires '#' !in text && '#' in term
    ensures !Includes(LowerStr(text), LowerStr(term))
  {
    var k :| 0 <= k < |term| && term[k] == '#';
    forall x | IsCapital(x) ensures LowerChar(x) != '#' {
      NothingLowersToHash(x);
    }
    LowerStrLacks(text, '#');
    assert LowerStr(term)[k] == '#';
    MissingCharExcludes(LowerStr(text), LowerStr(term), k);
  }

  /** The `#` is removed only for the hashtag test: against a destination whose title and
      description hold no `#`, a term holding `#` can match only through a hashtag. */
  lemma HashTermMatchesOnlyThroughTags(d: Destination, term: string)
    requires '#' in term && '#' !in d.title && '#' !in d.description
    ensures Matches(d, term) <==> SomeTagIncludes(d.hashtags, ReplaceFirst(LowerStr(term), '#'))
  {
    HashFreeTextMisses(d.title, term);
    HashFreeTextMisses(d.description, term);
  }

  /** The term `#` matches every destination that has a hashtag, since every string contains
      the empty string; a destination without hashtags and without `#` in its texts it does
      not match. */
  lemma HashAloneMatchesTagged(d: Destination)
    ensures |d.hashtags| >= 1 ==> Matches(d, "#")
    ensures '#' !in d.title && '#' !in d.description ==> (Matches(d, "#") <==> |d.hashtags| >= 1)
  {
    assert LowerStr("#") == "#";
    var p := ReplaceFirst("#", '#');
    assert p == [];
    if |d.hashtags| >= 1 {
      IncludesEmpty(LowerStr(d.hashtags[0]));
    }
    if '#' !in d.title && '#' !in d.description {
      HashTermMatchesOnlyThroughTags(d, "#");
    }
  }

  // ---------------------------------------------------------------------------
  // The page state
  // ---------------------------------------------------------------------------

  /** The two state fields `handleSearch` writes. */
  class SearchPage {
    var searchTerm: string
    var filteredDestinations: seq<Destination>

    /** The shown list is the search result for the stored term. */
    ghost predicate Valid()
      reads this
    {
      filteredDestinations == Search(TravelDestinations, searchTerm)
    }

    /** The initial state: the empty term and the whole gallery. */
    constructor ()
      ensures searchTerm == [] && filteredDestinations == TravelDestinations
      ensures Valid()
    {
      searchTerm := [];
      filteredDestinations := TravelDestinations;
    }

    /** `handleSearch(term)`: the raw term is stored, and the list is recomputed from the
        whole gallery, so it depends on `term` alone and not on any earlier search. */
    method HandleSearch(term: string)
      modifies this
      ensures searchTerm == term
      ensures filteredDestinations == Search(TravelDestinations, term)
      ensures Valid()
    {
      searchTerm := term;
      if Trim(term) == [] {
        filteredDestinations := TravelDestinations;
      } else {
        filteredDestinations := Filter(TravelDestinations, MatchesTerm(term));
      }
    }
  }
}
