/** Searches over the built-in gallery, worked out on its literal contents. */
module SearchScenarios {
  import opened Text
  import opened Seqs
  import opened Destinations
  import opened TravelData
  import opened IndexPage

  // ---------------------------------------------------------------------------
  // Filtering a list of six
  // ---------------------------------------------------------------------------

  /** Only the second of six satisfies `p`. */
  lemma FilterSixSecond<T(!new)>(a: T, b: T, c: T, d: T, e: T, f: T, p: T -> bool)
    requires !p(a) && p(b) && !p(c) && !p(d) && !p(e) && !p(f)
    ensures Filter([a, b, c, d, e, f], p) == [b]
  {
    var s := [a, b, c, d, e, f];
    assert forall i :: 0 <= i < |s| && i != 1 ==> !p(s[i]);
    FilterSingle(s, p, 1);
  }

  /** None of six satisfies `p`. */
  lemma FilterSixNone<T(!new)>(a: T, b: T, c: T, d: T, e: T, f: T, p: T -> bool)
    requires !p(a) && !p(b) && !p(c) && !p(d) && !p(e) && !p(f)
    ensures Filter([a, b, c, d, e, f], p) == []
  {
    var s := [a, b, c, d, e, f];
    assert forall i :: 0 <= i < |s| ==> !p(s[i]);
    FilterNone(s, p);
  }

  /** All of six satisfy `p`. */
  lemma FilterSixAll<T(!new)>(a: T, b: T, c: T, d: T, e: T, f: T, p: T -> bool)
    requires p(a) && p(b) && p(c) && p(d) && p(e) && p(f)
    ensures Filter([a, b, c, d, e, f], p) == [a, b, c, d, e, f]
  {
    var s := [a, b, c, d, e, f];
    assert forall i :: 0 <= i < |s| ==> p(s[i]);
    FilterAll(s, p);
  }

  // ---------------------------------------------------------------------------
  // Hashtags
  // ---------------------------------------------------------------------------

  /** A plain hashtag is its own lower case, so a character it lacks keeps it from containing
      any string holding that character. */
  lemma PlainTagMisses(tag: string, p: string, k: int)
    requires IsPlainTag(tag) && 0 <= k < |p| && p[k] !in tag
    ensures !Includes(LowerStr(tag), p)
  {
    LowerStrNoCapitals(tag);
    MissingCharExcludes(tag, p, k);
  }

  /** No plain hashtag contains a string holding a space. */
  lemma PlainTagsMissSpaced(tags: seq<string>, p: string)
    requires TagsWellFormed(tags)
    requires ' ' in p
    ensures !SomeTagIncludes(tags, p)
  {
    var k :| 0 <= k < |p| && p[k] == ' ';
    forall i | 0 <= i < |tags| ensures !Includes(LowerStr(tags[i]), p) {
      PlainTagMisses(tags[i], p, k);
    }
  }

  /** Record 2 carries the hashtag `mare` itself. */
  lemma BeachesHasMare()
    ensures SomeTagIncludes(BeachesTags, "mare")
  {
    assert BeachesTags[0] == "mare";
    LowerStrNoCapitals("mare");
    assert Includes(LowerStr(BeachesTags[0]), "mare");
  }

  /** No hashtag of record 1 contains `mare`. */
  lemma MountainsLacksMare()
    ensures !SomeTagIncludes(MountainsTags, "mare")
  {
    MountainsTagsWellFormed();
    assert "mare"[1] !in MountainsTags[0];
    PlainTagMisses(MountainsTags[0], "mare", 1);
    assert "mare"[0] !in MountainsTags[1];
    PlainTagMisses(MountainsTags[1], "mare", 0);
    assert "mare"[0] !in MountainsTags[2];
    PlainTagMisses(MountainsTags[2], "mare", 0);
    assert "mare"[0] !in MountainsTags[3];
    PlainTagMisses(MountainsTags[3], "mare", 0);
    assert "mare"[0] !in MountainsTags[4];
    PlainTagMisses(MountainsTags[4], "mare", 0);
  }

  /** No hashtag of record 3 contains `mare`. */
  lemma SafariLacksMare()
    ensures !SomeTagIncludes(SafariTags, "mare")
  {
    SafariTagsWellFormed();
    assert "mare"[0] !in SafariTags[0];
    PlainTagMisses(SafariTags[0], "mare", 0);
    assert "mare"[2] !in SafariTags[1];
    PlainTagMisses(SafariTags[1], "mare", 2);
    assert "mare"[0] !in SafariTags[2];
    PlainTagMisses(SafariTags[2], "mare", 0);
    assert "mare"[0] !in SafariTags[3];
    PlainTagMisses(SafariTags[3], "mare", 0);
    assert "mare"[0] !in SafariTags[4];
    PlainTagMisses(SafariTags[4], "mare", 0);
  }

  /** No hashtag of record 4 contains `mare`. */
  lemma HistoricCitiesLacksMare()
    ensures !SomeTagIncludes(HistoricCitiesTags, "mare")
  {
    HistoricCitiesTagsWellFormed();
    assert "mare"[0] !in HistoricCitiesTags[0];
    PlainTagMisses(HistoricCitiesTags[0], "mare", 0);
    assert "mare"[0] !in HistoricCitiesTags[1];
    PlainTagMisses(HistoricCitiesTags[1], "mare", 0);
    assert "mare"[0] !in HistoricCitiesTags[2];
    PlainTagMisses(HistoricCitiesTags[2], "mare", 0);
    assert "mare"[0] !in HistoricCitiesTags[3];
    PlainTagMisses(HistoricCitiesTags[3], "mare", 0);
    assert "mare"[0] !in HistoricCitiesTags[4];
    PlainTagMisses(HistoricCitiesTags[4], "mare", 0);
  }

  /** No hashtag of record 5 contains `mare`. */
  lemma WaterfallsLacksMare()
    ensures !SomeTagIncludes(WaterfallsTags, "mare")
  {
    WaterfallsTagsWellFormed();
    assert "mare"[0] !in WaterfallsTags[0];
    PlainTagMisses(WaterfallsTags[0], "mare", 0);
    assert "mare"[0] !in WaterfallsTags[1];
    PlainTagMisses(WaterfallsTags[1], "mare", 0);
    assert "mare"[0] !in WaterfallsTags[2];
    PlainTagMisses(WaterfallsTags[2], "mare", 0);
    assert "mare"[1] !in WaterfallsTags[3];
    PlainTagMisses(WaterfallsTags[3], "mare", 1);
    assert "mare"[2] !in WaterfallsTags[4];
    PlainTagMisses(WaterfallsTags[4], "mare", 2);
  }

  /** No hashtag of record 6 contains `mare`. */
  lemma PhotographyLacksMare()
    ensures !SomeTagIncludes(PhotographyTags, "mare")
  {
    PhotographyTagsWellFormed();
    assert "mare"[0] !in PhotographyTags[0];
    PlainTagMisses(PhotographyTags[0], "mare", 0);
    assert "mare"[0] !in PhotographyTags[1];
    PlainTagMisses(PhotographyTags[1], "mare", 0);
    assert "mare"[0] !in PhotographyTags[2];
    PlainTagMisses(PhotographyTags[2], "mare", 0);
    assert "mare"[0] !in PhotographyTags[3];
    PlainTagMisses(PhotographyTags[3], "mare", 0);
    assert "mare"[0] !in PhotographyTags[4];
    PlainTagMisses(PhotographyTags[4], "mare", 0);
  }

  // ---------------------------------------------------------------------------
  // `#mare`, in any letter case
  // ---------------------------------------------------------------------------

  lemma ReplaceFirstHashMare()
    ensures ReplaceFirst("#mare", '#') == "mare"
  {
    assert IndexOf("#mare", '#') == 0;
    assert "#mare"[..0] + "#mare"[1..] == "mare";
  }

  /** A term lowering to `#mare` begins with `#`, is not blank, and leaves `mare` for the
      hashtag test. */
  lemma HashMareTerm(term: string)
    requires LowerStr(term) == "#mare"
    ensures '#' in term && !IsBlank(term)
    ensures ReplaceFirst(LowerStr(term), '#') == "mare"
  {
    ReplaceFirstHashMare();
    BeginsWithHash(term);
  }

  /** A term whose lower case begins with `#` begins with `#`, so it is not blank. */
  lemma BeginsWithHash(term: string)
    requires |term| >= 1 && LowerStr(term)[0] == '#'
    ensures '#' in term && !IsBlank(term)
  {
    NothingLowersToHash(term[0]);
    assert !IsSpace(term[0]);
    TrimEmptyIff(term);
  }

  lemma MountainsMissesHashMare(term: string)
    requires LowerStr(term) == "#mare"
    ensures !Matches(Mountains, term)
  {
    HashMareTerm(term);
    MountainsTitleHashFree();
    MountainsDescriptionHashFree();
    HashTermMatchesOnlyThroughTags(Mountains, term);
    MountainsLacksMare();
  }

  lemma BeachesMatchesHashMare(term: string)
    requires LowerStr(term) == "#mare"
    ensures Matches(Beaches, term)
  {
    HashMareTerm(term);
    BeachesHasMare();
  }

  lemma SafariMissesHashMare(term: string)
    requires LowerStr(term) == "#mare"
    ensures !Matches(Safari, term)
  {
    HashMareTerm(term);
    SafariTitleHashFree();
    SafariDescriptionHashFree();
    HashTermMatchesOnlyThroughTags(Safari, term);
    SafariLacksMare();
  }

  lemma HistoricCitiesMissesHashMare(term: string)
    requires LowerStr(term) == "#mare"
    ensures !Matches(HistoricCities, term)
  {
    HashMareTerm(term);
    HistoricCitiesTitleHashFree();
    HistoricCitiesDescriptionHashFree();
    HashTermMatchesOnlyThroughTags(HistoricCities, term);
    HistoricCitiesLacksMare();
  }

  lemma WaterfallsMissesHashMare(term: string)
    requires LowerStr(term) == "#mare"
    ensures !Matches(Waterfalls, term)
  {
    HashMareTerm(term);
    WaterfallsTitleHashFree();
    WaterfallsDescriptionHashFree();
    HashTermMatchesOnlyThroughTags(Waterfalls, term);
    WaterfallsLacksMare();
  }

  lemma PhotographyMissesHashMare(term: string)
    requires LowerStr(term) == "#mare"
    ensures !Matches(Photography, term)
  {
    HashMareTerm(term);
    PhotographyTitleHashFree();
    PhotographyDescriptionHashFree();
    HashTermMatchesOnlyThroughTags(Photography, term);
    PhotographyLacksMare();
  }

  /** Any term that lowers to `#mare` (`#mare`, `#Mare`, `#MARE`, ...) finds record 2 and
      nothing else: the gallery texts hold no `#`, and only record 2 has a hashtag
      containing `mare`. */
  lemma HashMareFindsOnlyBeaches(term: string)
    requires LowerStr(term) == "#mare"
    ensures Search(TravelDestinations, term) == [Beaches]
  {
    HashMareTerm(term);
    var p := MatchesTerm(term);
    MountainsMissesHashMare(term);
    BeachesMatchesHashMare(term);
    SafariMissesHashMare(term);
    HistoricCitiesMissesHashMare(term);
    WaterfallsMissesHashMare(term);
    PhotographyMissesHashMare(term);
    FilterSixSecond(Mountains, Beaches, Safari, HistoricCities, Waterfalls, Photography, p);
  }

  /** `#mare` finds record 2 alone. */
  lemma LowerCaseHashMare()
    ensures Search(TravelDestinations, "#mare") == [Beaches]
  {
    assert LowerStr("#mare") == "#mare";
    HashMareFindsOnlyBeaches("#mare");
  }

  /** The search ignores letter case: `#MARE` finds record 2 alone as well. */
  lemma UpperCaseHashMare()
    ensures Search(TravelDestinations, "#MARE") == [Beaches]
  {
    assert LowerStr("#MARE") == "#mare";
    HashMareFindsOnlyBeaches("#MARE");
  }

  // ---------------------------------------------------------------------------
  // `#mare ` with a trailing space
  // ---------------------------------------------------------------------------

  lemma SpacedTermLowered()
    ensures LowerStr("#mare ") == "#mare "
  {
  }

  lemma SpacedTermTagPart()
    ensures ReplaceFirst("#mare ", '#') == "mare "
  {
    assert IndexOf("#mare ", '#') == 0;
    assert "#mare "[..0] + "#mare "[1..] == "mare ";
  }

  lemma SpacedTermNotBlank()
    ensures !IsBlank("#mare ")
  {
    assert !IsSpace("#mare "[0]);
    TrimEmptyIff("#mare ");
  }

  /** A gallery-like record (no `#` in its texts, plain hashtags) never matches `#mare `. */
  lemma MissesSpacedTerm(d: Destination)
    requires '#' !in d.title && '#' !in d.description && TagsWellFormed(d.hashtags)
    ensures !Matches(d, "#mare ")
  {
    SpacedTermLowered();
    SpacedTermTagPart();
    assert '#' in "#mare " && ' ' in "mare ";
    HashTermMatchesOnlyThroughTags(d, "#mare ");
    PlainTagsMissSpaced(d.hashtags, "mare ");
  }

  lemma MountainsMissesSpacedTerm()
    ensures !Matches(Mountains, "#mare ")
  {
    MountainsTitleHashFree();
    MountainsDescriptionHashFree();
    MountainsTagsWellFormed();
    MissesSpacedTerm(Mountains);
  }

  lemma BeachesMissesSpacedTerm()
    ensures !Matches(Beaches, "#mare ")
  {
    BeachesTitleHashFree();
    BeachesDescriptionHashFree();
    BeachesTagsWellFormed();
    MissesSpacedTerm(Beaches);
  }

  lemma SafariMissesSpacedTerm()
    ensures !Matches(Safari, "#mare ")
  {
    SafariTitleHashFree();
    SafariDescriptionHashFree();
    SafariTagsWellFormed();
    MissesSpacedTerm(Safari);
  }

  lemma HistoricCitiesMissesSpacedTerm()
    ensures !Matches(HistoricCities, "#mare ")
  {
    HistoricCitiesTitleHashFree();
    HistoricCitiesDescriptionHashFree();
    HistoricCitiesTagsWellFormed();
    MissesSpacedTerm(HistoricCities);
  }

  lemma WaterfallsMissesSpacedTerm()
    ensures !Matches(Waterfalls, "#mare ")
  {
    WaterfallsTitleHashFree();
    WaterfallsDescriptionHashFree();
    WaterfallsTagsWellFormed();
    MissesSpacedTerm(Waterfalls);
  }

  lemma PhotographyMissesSpacedTerm()
    ensures !Matches(Photography, "#mare ")
  {
    PhotographyTitleHashFree();
    PhotographyDescriptionHashFree();
    PhotographyTagsWellFormed();
    MissesSpacedTerm(Photography);
  }

  /** A non-blank term is not trimmed: `#mare ` keeps its trailing space, which no hashtag of
      the gallery holds, so nothing is found although `#mare` finds record 2. */
  lemma TrailingSpaceFindsNothing()
    ensures Search(TravelDestinations, "#mare ") == []
  {
    SpacedTermNotBlank();
    MountainsMissesSpacedTerm();
    BeachesMissesSpacedTerm();
    SafariMissesSpacedTerm();
    HistoricCitiesMissesSpacedTerm();
    WaterfallsMissesSpacedTerm();
    PhotographyMissesSpacedTerm();
    FilterSixNone(Mountains, Beaches, Safari, HistoricCities, Waterfalls, Photography, MatchesTerm("#mare "));
  }

  // ---------------------------------------------------------------------------
  // `#` alone
  // ---------------------------------------------------------------------------

  lemma HashNotBlank()
    ensures !IsBlank("#")
  {
    assert !IsSpace("#"[0]);
    TrimEmptyIff("#");
  }

  /** The term `#` shows the whole gallery, because every record has a hashtag. */
  lemma HashAloneFindsEverything()
    ensures Search(TravelDestinations, "#") == TravelDestinations
  {
    HashNotBlank();
    RecordsAreComplete();
    HashAloneMatchesTagged(Mountains);
    HashAloneMatchesTagged(Beaches);
    HashAloneMatchesTagged(Safari);
    HashAloneMatchesTagged(HistoricCities);
    HashAloneMatchesTagged(Waterfalls);
    HashAloneMatchesTagged(Photography);
    FilterSixAll(Mountains, Beaches, Safari, HistoricCities, Waterfalls, Photography, MatchesTerm("#"));
  }
}
