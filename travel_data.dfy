/** The built-in gallery (`travelDestinations`): the constant list of six destinations the
    search runs over. Each description is written as a concatenation of short literal
    pieces; the value is the text of the gallery. */
module TravelData {
  import opened Text
  import opened Seqs
  import opened Destinations

  // Record 1.
  const MountainsTitle: string := "Peisaje de Munte Spectaculoase"
  const MountainsDesc1: string := "Descoperă "
  const MountainsDesc2: string := "frumusețea "
  const MountainsDesc3: string := "nevăzută a "
  const MountainsDesc4: string := "munților înalți, "
  const MountainsDesc5: string := "cu peisaje care "
  const MountainsDesc6: string := "îți taie "
  const MountainsDesc7: string := "respirația și "
  const MountainsDesc8: string := "aer curat de "
  const MountainsDesc9: string := "munte. O "
  const MountainsDesc10: string := "experiență "
  const MountainsDesc11: string := "perfectă pentru "
  const MountainsDesc12: string := "iubitorii "
  const MountainsDesc13: string := "naturii și ai "
  const MountainsDesc14: string := "aventurii."
  const MountainsDescription: string :=
    MountainsDesc1 + MountainsDesc2 + MountainsDesc3 + MountainsDesc4 + MountainsDesc5 + MountainsDesc6 + MountainsDesc7 + MountainsDesc8 + MountainsDesc9 + MountainsDesc10 + MountainsDesc11 + MountainsDesc12 + MountainsDesc13 + MountainsDesc14
  const MountainsTags: seq<string> := ["munte", "natură", "aventură", "peisaj", "fotografie"]
  const Mountains := Destination(
    1, MountainsTitle, MountainsDescription,
    ["photo-1470071459604-3b5ec3a7fe05",
     "photo-1426604966848-d7adac402bff",
     "photo-1469474968028-56623f02e42e"],
    MountainsTags,
    Location(45.5017, 25.5736, "Carpați, România"))

  // Record 2.
  const BeachesTitle: string := "Plaje Cristalline și Relaxare"
  const BeachesDesc1: string := "Bucură-te de "
  const BeachesDesc2: string := "cele mai "
  const BeachesDesc3: string := "frumoase plaje "
  const BeachesDesc4: string := "cu apă "
  const BeachesDesc5: string := "cristalină și "
  const BeachesDesc6: string := "nisip fin. Locul "
  const BeachesDesc7: string := "perfect pentru "
  const BeachesDesc8: string := "relaxare și "
  const BeachesDesc9: string := "pentru a-ți "
  const BeachesDesc10: string := "reîncărca "
  const BeachesDesc11: string := "bateriile "
  const BeachesDesc12: string := "departe de "
  const BeachesDesc13: string := "agitația urbană."
  const BeachesDescription: string :=
    BeachesDesc1 + BeachesDesc2 + BeachesDesc3 + BeachesDesc4 + BeachesDesc5 + BeachesDesc6 + BeachesDesc7 + BeachesDesc8 + BeachesDesc9 + BeachesDesc10 + BeachesDesc11 + BeachesDesc12 + BeachesDesc13
  const BeachesTags: seq<string> := ["mare", "plajă", "relaxare", "vacanță", "soare"]
  const Beaches := Destination(
    2, BeachesTitle, BeachesDescription,
    ["photo-1500375592092-40eb2168fd21",
     "photo-1482938289607-e9573fc25ebb"],
    BeachesTags,
    Location(44.1731, 28.6414, "Mamaia, România"))

  // Record 3.
  const SafariTitle: string := "Safari și Animale Sălbatice"
  const SafariDesc1: string := "O aventură "
  const SafariDesc2: string := "incredibilă în "
  const SafariDesc3: string := "mijlocul naturii "
  const SafariDesc4: string := "sălbatice, unde "
  const SafariDesc5: string := "poți observa "
  const SafariDesc6: string := "animale "
  const SafariDesc7: string := "majestice în "
  const SafariDesc8: string := "habitatul lor "
  const SafariDesc9: string := "natural. O "
  const SafariDesc10: string := "experiență de "
  const SafariDesc11: string := "neuitat pentru "
  const SafariDesc12: string := "toată familia."
  const SafariDescription: string :=
    SafariDesc1 + SafariDesc2 + SafariDesc3 + SafariDesc4 + SafariDesc5 + SafariDesc6 + SafariDesc7 + SafariDesc8 + SafariDesc9 + SafariDesc10 + SafariDesc11 + SafariDesc12
  const SafariTags: seq<string> := ["safari", "animale", "aventură", "natură", "fotografie"]
  const Safari := Destination(
    3, SafariTitle, SafariDescription,
    ["photo-1472396961693-142e6e269027",
     "photo-1466721591366-2d5fba72006d",
     "photo-1493962853295-0fd70327578a",
     "photo-1452378174528-3090a4bba7b2"],
    SafariTags,
    Location(-1.9403, 29.8739, "Parcul Național Akagera, Rwanda"))

  // Record 4.
  const HistoricCitiesTitle: string := "Orașe Istorice și Cultură"
  const HistoricCitiesDesc1: string := "Explorează "
  const HistoricCitiesDesc2: string := "străzi pavate cu "
  const HistoricCitiesDesc3: string := "piatră, "
  const HistoricCitiesDesc4: string := "arhitectură "
  const HistoricCitiesDesc5: string := "medievală și "
  const HistoricCitiesDesc6: string := "tradiții vechi "
  const HistoricCitiesDesc7: string := "de secole. O "
  const HistoricCitiesDesc8: string := "călătorie în "
  const HistoricCitiesDesc9: string := "timp care îți va "
  const HistoricCitiesDesc10: string := "îmbogăți "
  const HistoricCitiesDesc11: string := "cunoștințele "
  const HistoricCitiesDesc12: string := "culturale."
  const HistoricCitiesDescription: string :=
    HistoricCitiesDesc1 + HistoricCitiesDesc2 + HistoricCitiesDesc3 + HistoricCitiesDesc4 + HistoricCitiesDesc5 + HistoricCitiesDesc6 + HistoricCitiesDesc7 + HistoricCitiesDesc8 + HistoricCitiesDesc9 + HistoricCitiesDesc10 + HistoricCitiesDesc11 + HistoricCitiesDesc12
  const HistoricCitiesTags: seq<string> := ["oraș", "istoric", "cultură", "arhitectură", "tradiție"]
  const HistoricCities := Destination(
    4, HistoricCitiesTitle, HistoricCitiesDescription,
    ["photo-1461749280684-dccba630e2f6"],
    HistoricCitiesTags,
    Location(45.9432, 24.9668, "Brașov, România"))

  // Record 5.
  const WaterfallsTitle: string := "Râuri și Cascade Spectaculoase"
  const WaterfallsDesc1: string := "Descoperă "
  const WaterfallsDesc2: string := "puterea și "
  const WaterfallsDesc3: string := "frumusețea "
  const WaterfallsDesc4: string := "naturii prin "
  const WaterfallsDesc5: string := "râuri cristaline "
  const WaterfallsDesc6: string := "și cascade "
  const WaterfallsDesc7: string := "impresionante. "
  const WaterfallsDesc8: string := "Locuri perfecte "
  const WaterfallsDesc9: string := "pentru drumeții "
  const WaterfallsDesc10: string := "și meditație în "
  const WaterfallsDesc11: string := "natură."
  const WaterfallsDescription: string :=
    WaterfallsDesc1 + WaterfallsDesc2 + WaterfallsDesc3 + WaterfallsDesc4 + WaterfallsDesc5 + WaterfallsDesc6 + WaterfallsDesc7 + WaterfallsDesc8 + WaterfallsDesc9 + WaterfallsDesc10 + WaterfallsDesc11
  const WaterfallsTags: seq<string> := ["râu", "cascadă", "natură", "drumeție", "meditație"]
  const Waterfalls := Destination(
    5, WaterfallsTitle, WaterfallsDescription,
    ["photo-1482938289607-e9573fc25ebb",
     "photo-1469474968028-56623f02e42e"],
    WaterfallsTags,
    Location(47.6062, 25.2309, "Cascada Vălul Miresei, România"))

  // Record 6.
  const PhotographyTitle: string := "Aventuri de Fotografie"
  const PhotographyDesc1: string := "Locuri perfecte "
  const PhotographyDesc2: string := "pentru "
  const PhotographyDesc3: string := "pasionații de "
  const PhotographyDesc4: string := "fotografie, cu "
  const PhotographyDesc5: string := "peisaje diverse "
  const PhotographyDesc6: string := "și momente "
  const PhotographyDesc7: string := "magice de "
  const PhotographyDesc8: string := "capturat. De la "
  const PhotographyDesc9: string := "apusuri "
  const PhotographyDesc10: string := "spectaculoase la "
  const PhotographyDesc11: string := "animale în "
  const PhotographyDesc12: string := "libertate."
  const PhotographyDescription: string :=
    PhotographyDesc1 + PhotographyDesc2 + PhotographyDesc3 + PhotographyDesc4 + PhotographyDesc5 + PhotographyDesc6 + PhotographyDesc7 + PhotographyDesc8 + PhotographyDesc9 + PhotographyDesc10 + PhotographyDesc11 + PhotographyDesc12
  const PhotographyTags: seq<string> := ["fotografie", "peisaj", "aventură", "artă", "natură"]
  const Photography := Destination(
    6, PhotographyTitle, PhotographyDescription,
    ["photo-1469474968028-56623f02e42e",
     "photo-1470071459604-3b5ec3a7fe05",
     "photo-1472396961693-142e6e269027"],
    PhotographyTags,
    Location(46.7712, 23.6236, "Cluj-Napoca, România"))

  /** `travelDestinations`. */
  const TravelDestinations: seq<Destination> :=
    [Mountains, Beaches, Safari, HistoricCities, Waterfalls, Photography]

  /** A hashtag as the gallery writes them: non-empty, not beginning with `#`, without
      spaces and without capitals. */
  predicate IsPlainTag(t: string) {
    t != [] && t[0] != '#' && ' ' !in t && forall i :: 0 <= i < |t| ==> !IsCapital(t[i])
  }

  /** Distinct plain hashtags. */
  predicate TagsWellFormed(tags: seq<string>) {
    NoDup(tags) && forall i :: 0 <= i < |tags| ==> IsPlainTag(tags[i])
  }

  /** Neither the title nor the description contains `#`. */
  predicate HashFree(d: Destination) {
    '#' !in d.title && '#' !in d.description
  }

  /** Six records, with ids 1 to 6 in order, hence distinct and ascending. */
  lemma IdsAreOneToSix()
    ensures |TravelDestinations| == 6
    ensures forall i :: 0 <= i < |TravelDestinations| ==> TravelDestinations[i].id == i + 1
    ensures forall i, j :: 0 <= i < j < |TravelDestinations| ==>
      TravelDestinations[i].id < TravelDestinations[j].id
  {
  }

  /** Every record has at least one image, at least one hashtag and a non-empty location
      name. */
  lemma RecordsAreComplete()
    ensures forall i :: 0 <= i < |TravelDestinations| ==>
      && |TravelDestinations[i].images| >= 1
      && |TravelDestinations[i].hashtags| >= 1
      && TravelDestinations[i].location.name != []
  {
  }

  /** Within each record the hashtags are distinct and plain; in particular none begins
      with `#`. */
  lemma HashtagsWellFormed()
    ensures forall i :: 0 <= i < |TravelDestinations| ==> TagsWellFormed(TravelDestinations[i].hashtags)
  {
    MountainsTagsWellFormed();
    BeachesTagsWellFormed();
    SafariTagsWellFormed();
    HistoricCitiesTagsWellFormed();
    WaterfallsTagsWellFormed();
    PhotographyTagsWellFormed();
  }

  /** No title and no description contains `#`. */
  lemma TextsHaveNoHash()
    ensures forall i :: 0 <= i < |TravelDestinations| ==> HashFree(TravelDestinations[i])
  {
    MountainsTitleHashFree();
    MountainsDescriptionHashFree();
    BeachesTitleHashFree();
    BeachesDescriptionHashFree();
    SafariTitleHashFree();
    SafariDescriptionHashFree();
    HistoricCitiesTitleHashFree();
    HistoricCitiesDescriptionHashFree();
    WaterfallsTitleHashFree();
    WaterfallsDescriptionHashFree();
    PhotographyTitleHashFree();
    PhotographyDescriptionHashFree();
  }

  // Per-record facts. Each literal piece and each tag is checked by a lemma of its own,
  // which keeps every proof obligation small.

  lemma MountainsTitleHashFree()
    ensures '#' !in MountainsTitle
  {
  }

  lemma MountainsDescriptionHashFree()
    ensures '#' !in MountainsDescription
  {
    MountainsDesc1HashFree();
    MountainsDesc2HashFree();
    MountainsDesc3HashFree();
    MountainsDesc4HashFree();
    MountainsDesc5HashFree();
    MountainsDesc6HashFree();
    MountainsDesc7HashFree();
    MountainsDesc8HashFree();
    MountainsDesc9HashFree();
    MountainsDesc10HashFree();
    MountainsDesc11HashFree();
    MountainsDesc12HashFree();
    MountainsDesc13HashFree();
    MountainsDesc14HashFree();
  }

  lemma MountainsDesc1HashFree()
    ensures '#' !in MountainsDesc1
  {
  }

  lemma MountainsDesc2HashFree()
    ensures '#' !in MountainsDesc2
  {
  }

  lemma MountainsDesc3HashFree()
    ensures '#' !in MountainsDesc3
  {
  }

  lemma MountainsDesc4HashFree()
    ensures '#' !in MountainsDesc4
  {
  }

  lemma MountainsDesc5HashFree()
    ensures '#' !in MountainsDesc5
  {
  }

  lemma MountainsDesc6HashFree()
    ensures '#' !in MountainsDesc6
  {
  }

  lemma MountainsDesc7HashFree()
    ensures '#' !in MountainsDesc7
  {
  }

  lemma MountainsDesc8HashFree()
    ensures '#' !in MountainsDesc8
  {
  }

  lemma MountainsDesc9HashFree()
    ensures '#' !in MountainsDesc9
  {
  }

  lemma MountainsDesc10HashFree()
    ensures '#' !in MountainsDesc10
  {
  }

  lemma MountainsDesc11HashFree()
    ensures '#' !in MountainsDesc11
  {
  }

  lemma MountainsDesc12HashFree()
    ensures '#' !in MountainsDesc12
  {
  }

  lemma MountainsDesc13HashFree()
    ensures '#' !in MountainsDesc13
  {
  }

  lemma MountainsDesc14HashFree()
    ensures '#' !in MountainsDesc14
  {
  }

  lemma MountainsTagsWellFormed()
    ensures TagsWellFormed(MountainsTags)
  {
    MountainsTagsDistinct();
    MountainsTag0Plain();
    MountainsTag1Plain();
    MountainsTag2Plain();
    MountainsTag3Plain();
    MountainsTag4Plain();
  }

  lemma MountainsTagsDistinct()
    ensures NoDup(MountainsTags)
  {
  }

  lemma MountainsTag0Plain()
    ensures IsPlainTag(MountainsTags[0])
  {
  }

  lemma MountainsTag1Plain()
    ensures IsPlainTag(MountainsTags[1])
  {
  }

  lemma MountainsTag2Plain()
    ensures IsPlainTag(MountainsTags[2])
  {
  }

  lemma MountainsTag3Plain()
    ensures IsPlainTag(MountainsTags[3])
  {
  }

  lemma MountainsTag4Plain()
    ensures IsPlainTag(MountainsTags[4])
  {
  }

  lemma BeachesTitleHashFree()
    ensures '#' !in BeachesTitle
  {
  }

  lemma BeachesDescriptionHashFree()
    ensures '#' !in BeachesDescription
  {
    BeachesDesc1HashFree();
    BeachesDesc2HashFree();
    BeachesDesc3HashFree();
    BeachesDesc4HashFree();
    BeachesDesc5HashFree();
    BeachesDesc6HashFree();
    BeachesDesc7HashFree();
    BeachesDesc8HashFree();
    BeachesDesc9HashFree();
    BeachesDesc10HashFree();
    BeachesDesc11HashFree();
    BeachesDesc12HashFree();
    BeachesDesc13HashFree();
  }

  lemma BeachesDesc1HashFree()
    ensures '#' !in BeachesDesc1
  {
  }

  lemma BeachesDesc2HashFree()
    ensures '#' !in BeachesDesc2
  {
  }

  lemma BeachesDesc3HashFree()
    ensures '#' !in BeachesDesc3
  {
  }

  lemma BeachesDesc4HashFree()
    ensures '#' !in BeachesDesc4
  {
  }

  lemma BeachesDesc5HashFree()
    ensures '#' !in BeachesDesc5
  {
  }

  lemma BeachesDesc6HashFree()
    ensures '#' !in BeachesDesc6
  {
  }

  lemma BeachesDesc7HashFree()
    ensures '#' !in BeachesDesc7
  {
  }

  lemma BeachesDesc8HashFree()
    ensures '#' !in BeachesDesc8
  {
  }

  lemma BeachesDesc9HashFree()
    ensures '#' !in BeachesDesc9
  {
  }

  lemma BeachesDesc10HashFree()
    ensures '#' !in BeachesDesc10
  {
  }

  lemma BeachesDesc11HashFree()
    ensures '#' !in BeachesDesc11
  {
  }

  lemma BeachesDesc12HashFree()
    ensures '#' !in BeachesDesc12
  {
  }

  lemma BeachesDesc13HashFree()
    ensures '#' !in BeachesDesc13
  {
  }

  lemma BeachesTagsWellFormed()
    ensures TagsWellFormed(BeachesTags)
  {
    BeachesTagsDistinct();
    BeachesTag0Plain();
    BeachesTag1Plain();
    BeachesTag2Plain();
    BeachesTag3Plain();
    BeachesTag4Plain();
  }

  lemma BeachesTagsDistinct()
    ensures NoDup(BeachesTags)
  {
  }

  lemma BeachesTag0Plain()
    ensures IsPlainTag(BeachesTags[0])
  {
  }

  lemma BeachesTag1Plain()
    ensures IsPlainTag(BeachesTags[1])
  {
  }

  lemma BeachesTag2Plain()
    ensures IsPlainTag(BeachesTags[2])
  {
  }

  lemma BeachesTag3Plain()
    ensures IsPlainTag(BeachesTags[3])
  {
  }

  lemma BeachesTag4Plain()
    ensures IsPlainTag(BeachesTags[4])
  {
  }

  lemma SafariTitleHashFree()
    ensures '#' !in SafariTitle
  {
  }

  lemma SafariDescriptionHashFree()
    ensures '#' !in SafariDescription
  {
    SafariDesc1HashFree();
    SafariDesc2HashFree();
    SafariDesc3HashFree();
    SafariDesc4HashFree();
    SafariDesc5HashFree();
    SafariDesc6HashFree();
    SafariDesc7HashFree();
    SafariDesc8HashFree();
    SafariDesc9HashFree();
    SafariDesc10HashFree();
    SafariDesc11HashFree();
    SafariDesc12HashFree();
  }

  lemma SafariDesc1HashFree()
    ensures '#' !in SafariDesc1
  {
  }

  lemma SafariDesc2HashFree()
    ensures '#' !in SafariDesc2
  {
  }

  lemma SafariDesc3HashFree()
    ensures '#' !in SafariDesc3
  {
  }

  lemma SafariDesc4HashFree()
    ensures '#' !in SafariDesc4
  {
  }

  lemma SafariDesc5HashFree()
    ensures '#' !in SafariDesc5
  {
  }

  lemma SafariDesc6HashFree()
    ensures '#' !in SafariDesc6
  {
  }

  lemma SafariDesc7HashFree()
    ensures '#' !in SafariDesc7
  {
  }

  lemma SafariDesc8HashFree()
    ensures '#' !in SafariDesc8
  {
  }

  lemma SafariDesc9HashFree()
    ensures '#' !in SafariDesc9
  {
  }

  lemma SafariDesc10HashFree()
    ensures '#' !in SafariDesc10
  {
  }

  lemma SafariDesc11HashFree()
    ensures '#' !in SafariDesc11
  {
  }

  lemma SafariDesc12HashFree()
    ensures '#' !in SafariDesc12
  {
  }

  lemma SafariTagsWellFormed()
    ensures TagsWellFormed(SafariTags)
  {
    SafariTagsDistinct();
    SafariTag0Plain();
    SafariTag1Plain();
    SafariTag2Plain();
    SafariTag3Plain();
    SafariTag4Plain();
  }

  lemma SafariTagsDistinct()
    ensures NoDup(SafariTags)
  {
  }

  lemma SafariTag0Plain()
    ensures IsPlainTag(SafariTags[0])
  {
  }

  lemma SafariTag1Plain()
    ensures IsPlainTag(SafariTags[1])
  {
  }

  lemma SafariTag2Plain()
    ensures IsPlainTag(SafariTags[2])
  {
  }

  lemma SafariTag3Plain()
    ensures IsPlainTag(SafariTags[3])
  {
  }

  lemma SafariTag4Plain()
    ensures IsPlainTag(SafariTags[4])
  {
  }

  lemma HistoricCitiesTitleHashFree()
    ensures '#' !in HistoricCitiesTitle
  {
  }

  lemma HistoricCitiesDescriptionHashFree()
    ensures '#' !in HistoricCitiesDescription
  {
    HistoricCitiesDesc1HashFree();
    HistoricCitiesDesc2HashFree();
    HistoricCitiesDesc3HashFree();
    HistoricCitiesDesc4HashFree();
    HistoricCitiesDesc5HashFree();
    HistoricCitiesDesc6HashFree();
    HistoricCitiesDesc7HashFree();
    HistoricCitiesDesc8HashFree();
    HistoricCitiesDesc9HashFree();
    HistoricCitiesDesc10HashFree();
    HistoricCitiesDesc11HashFree();
    HistoricCitiesDesc12HashFree();
  }

  lemma HistoricCitiesDesc1HashFree()
    ensures '#' !in HistoricCitiesDesc1
  {
  }

  lemma HistoricCitiesDesc2HashFree()
    ensures '#' !in HistoricCitiesDesc2
  {
  }

  lemma HistoricCitiesDesc3HashFree()
    ensures '#' !in HistoricCitiesDesc3
  {
  }

  lemma HistoricCitiesDesc4HashFree()
    ensures '#' !in HistoricCitiesDesc4
  {
  }

  lemma HistoricCitiesDesc5HashFree()
    ensures '#' !in HistoricCitiesDesc5
  {
  }

  lemma HistoricCitiesDesc6HashFree()
    ensures '#' !in HistoricCitiesDesc6
  {
  }

  lemma HistoricCitiesDesc7HashFree()
    ensures '#' !in HistoricCitiesDesc7
  {
  }

  lemma HistoricCitiesDesc8HashFree()
    ensures '#' !in HistoricCitiesDesc8
  {
  }

  lemma HistoricCitiesDesc9HashFree()
    ensures '#' !in HistoricCitiesDesc9
  {
  }

  lemma HistoricCitiesDesc10HashFree()
    ensures '#' !in HistoricCitiesDesc10
  {
  }

  lemma HistoricCitiesDesc11HashFree()
    ensures '#' !in HistoricCitiesDesc11
  {
  }

  lemma HistoricCitiesDesc12HashFree()
    ensures '#' !in HistoricCitiesDesc12
  {
  }

  lemma HistoricCitiesTagsWellFormed()
    ensures TagsWellFormed(HistoricCitiesTags)
  {
    HistoricCitiesTagsDistinct();
    HistoricCitiesTag0Plain();
    HistoricCitiesTag1Plain();
    HistoricCitiesTag2Plain();
    HistoricCitiesTag3Plain();
    HistoricCitiesTag4Plain();
  }

  lemma HistoricCitiesTagsDistinct()
    ensures NoDup(HistoricCitiesTags)
  {
  }

  lemma HistoricCitiesTag0Plain()
    ensures IsPlainTag(HistoricCitiesTags[0])
  {
  }

  lemma HistoricCitiesTag1Plain()
    ensures IsPlainTag(HistoricCitiesTags[1])
  {
  }

  lemma HistoricCitiesTag2Plain()
    ensures IsPlainTag(HistoricCitiesTags[2])
  {
  }

  lemma HistoricCitiesTag3Plain()
    ensures IsPlainTag(HistoricCitiesTags[3])
  {
  }

  lemma HistoricCitiesTag4Plain()
    ensures IsPlainTag(HistoricCitiesTags[4])
  {
  }

  lemma WaterfallsTitleHashFree()
    ensures '#' !in WaterfallsTitle
  {
  }

  lemma WaterfallsDescriptionHashFree()
    ensures '#' !in WaterfallsDescription
  {
    WaterfallsDesc1HashFree();
    WaterfallsDesc2HashFree();
    WaterfallsDesc3HashFree();
    WaterfallsDesc4HashFree();
    WaterfallsDesc5HashFree();
    WaterfallsDesc6HashFree();
    WaterfallsDesc7HashFree();
    WaterfallsDesc8HashFree();
    WaterfallsDesc9HashFree();
    WaterfallsDesc10HashFree();
    WaterfallsDesc11HashFree();
  }

  lemma WaterfallsDesc1HashFree()
    ensures '#' !in WaterfallsDesc1
  {
  }

  lemma WaterfallsDesc2HashFree()
    ensures '#' !in WaterfallsDesc2
  {
  }

  lemma WaterfallsDesc3HashFree()
    ensures '#' !in WaterfallsDesc3
  {
  }

  lemma WaterfallsDesc4HashFree()
    ensures '#' !in WaterfallsDesc4
  {
  }

  lemma WaterfallsDesc5HashFree()
    ensures '#' !in WaterfallsDesc5
  {
  }

  lemma WaterfallsDesc6HashFree()
    ensures '#' !in WaterfallsDesc6
  {
  }

  lemma WaterfallsDesc7HashFree()
    ensures '#' !in WaterfallsDesc7
  {
  }

  lemma WaterfallsDesc8HashFree()
    ensures '#' !in WaterfallsDesc8
  {
  }

  lemma WaterfallsDesc9HashFree()
    ensures '#' !in WaterfallsDesc9
  {
  }

  lemma WaterfallsDesc10HashFree()
    ensures '#' !in WaterfallsDesc10
  {
  }

  lemma WaterfallsDesc11HashFree()
    ensures '#' !in WaterfallsDesc11
  {
  }

  lemma WaterfallsTagsWellFormed()
    ensures TagsWellFormed(WaterfallsTags)
  {
    WaterfallsTagsDistinct();
    WaterfallsTag0Plain();
    WaterfallsTag1Plain();
    WaterfallsTag2Plain();
    WaterfallsTag3Plain();
    WaterfallsTag4Plain();
  }

  lemma WaterfallsTagsDistinct()
    ensures NoDup(WaterfallsTags)
  {
  }

  lemma WaterfallsTag0Plain()
    ensures IsPlainTag(WaterfallsTags[0])
  {
  }

  lemma WaterfallsTag1Plain()
    ensures IsPlainTag(WaterfallsTags[1])
  {
  }

  lemma WaterfallsTag2Plain()
    ensures IsPlainTag(WaterfallsTags[2])
  {
  }

  lemma WaterfallsTag3Plain()
    ensures IsPlainTag(WaterfallsTags[3])
  {
  }

  lemma WaterfallsTag4Plain()
    ensures IsPlainTag(WaterfallsTags[4])
  {
  }

  lemma PhotographyTitleHashFree()
    ensures '#' !in PhotographyTitle
  {
  }

  lemma PhotographyDescriptionHashFree()
    ensures '#' !in PhotographyDescription
  {
    PhotographyDesc1HashFree();
    PhotographyDesc2HashFree();
    PhotographyDesc3HashFree();
    PhotographyDesc4HashFree();
    PhotographyDesc5HashFree();
    PhotographyDesc6HashFree();
    PhotographyDesc7HashFree();
    PhotographyDesc8HashFree();
    PhotographyDesc9HashFree();
    PhotographyDesc10HashFree();
    PhotographyDesc11HashFree();
    PhotographyDesc12HashFree();
  }

  lemma PhotographyDesc1HashFree()
    ensures '#' !in PhotographyDesc1
  {
  }

  lemma PhotographyDesc2HashFree()
    ensures '#' !in PhotographyDesc2
  {
  }

  lemma PhotographyDesc3HashFree()
    ensures '#' !in PhotographyDesc3
  {
  }

  lemma PhotographyDesc4HashFree()
    ensures '#' !in PhotographyDesc4
  {
  }

  lemma PhotographyDesc5HashFree()
    ensures '#' !in PhotographyDesc5
  {
  }

  lemma PhotographyDesc6HashFree()
    ensures '#' !in PhotographyDesc6
  {
  }

  lemma PhotographyDesc7HashFree()
    ensures '#' !in PhotographyDesc7
  {
  }

  lemma PhotographyDesc8HashFree()
    ensures '#' !in PhotographyDesc8
  {
  }

  lemma PhotographyDesc9HashFree()
    ensures '#' !in PhotographyDesc9
  {
  }

  lemma PhotographyDesc10HashFree()
    ensures '#' !in PhotographyDesc10
  {
  }

  lemma PhotographyDesc11HashFree()
    ensures '#' !in PhotographyDesc11
  {
  }

  lemma PhotographyDesc12HashFree()
    ensures '#' !in PhotographyDesc12
  {
  }

  lemma PhotographyTagsWellFormed()
    ensures TagsWellFormed(PhotographyTags)
  {
    PhotographyTagsDistinct();
    PhotographyTag0Plain();
    PhotographyTag1Plain();
    PhotographyTag2Plain();
    PhotographyTag3Plain();
    PhotographyTag4Plain();
  }

  lemma PhotographyTagsDistinct()
    ensures NoDup(PhotographyTags)
  {
  }

  lemma PhotographyTag0Plain()
    ensures IsPlainTag(PhotographyTags[0])
  {
  }

  lemma PhotographyTag1Plain()
    ensures IsPlainTag(PhotographyTags[1])
  {
  }

  lemma PhotographyTag2Plain()
    ensures IsPlainTag(PhotographyTags[2])
  {
  }

  lemma PhotographyTag3Plain()
    ensures IsPlainTag(PhotographyTags[3])
  {
  }

  lemma PhotographyTag4Plain()
    ensures IsPlainTag(PhotographyTags[4])
  {
  }
}
