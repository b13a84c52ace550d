# Travel gallery: search, add-destination form, carousel and image helpers

This project models the logic of a small travel-gallery web application and proves
properties of that model. The application is a React front end. Its logic covers:

- the gallery page, which filters a fixed list of six destinations by a search term;
- the add-destination form, which collects a title, a description, distinct hashtags,
  images and a location, and hands the record over on submit;
- the destination view, whose image carousel steps forwards and backwards with
  wrap-around, jumps to a dot's index and auto-scrolls;
- the ImageKit helpers: the image size clamp before upload, the data URL to bytes
  conversion, the generated upload file name, the optimized-URL builder and the URL check.

Modules, one per source file, plus shared helpers:

- `Wrappers`: `Option` and `Result`.
- `Text`: the JavaScript string operations the code uses, on `seq<char>`. These are
  `includes`, `startsWith`, `replace` of the first occurrence, `split` and `join` on one
  character, `pop` of the last field, `trim` (the ECMAScript white space), `toLowerCase`
  (per character), `substring` and the decimal `toString`.
- `Seqs`: `filter`, order-preserving subsequences, duplicate-free lists.
- `Destinations`: the destination record, its location and the record the form emits.
- `TravelData`: the `travelDestinations` fixture and facts about it.
- `IndexPage`: the search predicate, the search function and the page state as a class.
- `SearchScenarios`: concrete searches over the fixture.
- `AddDestination`: the form state as a class, one method per handler.
- `Carousel`: the index steps and the carousel state as a class.
- `ImageKit`: the helpers of `imagekitService.ts`.

Inputs the code gets from the browser become parameters:

- the image's load outcome and natural size;
- the result of `atob`, as a function that may fail;
- `Date.now()` and the base-36 text of `Math.random()`.

## Model

| member | source | states |
|---|---|---|
| `IndexPage.Matches` | src/pages/Index.tsx:20-24 | the filter callback: the lowered term in the lowered title or description, or the lowered term without its first `#` in some lowered hashtag (characterised by `IndexPage.MatchesIff`) |
| `IndexPage.Search` | src/pages/Index.tsx:17-25 | a destination is in the result iff it is in the list and the term is blank or the destination matches; each such destination occurs as often as in the list, any other not at all |
| `IndexPage.BlankTermShowsEverything` | src/pages/Index.tsx:17-18 | a term made only of white space, the empty term included, yields the list searched unchanged |
| `IndexPage.NonBlankTermFilters` | src/pages/Index.tsx:19-25 | a term holding a non-space character yields the filter of the list by the match predicate |
| `IndexPage.SearchIsSubsequence` | src/pages/Index.tsx:20 | every search result is an order-preserving subsequence of the list searched |
| `IndexPage.SearchKeepsMatches` | src/pages/Index.tsx:20-24 | for a non-blank term, a destination is in the result iff it is in the list and matches |
| `IndexPage.MatchesIff` | src/pages/Index.tsx:21-23 | a match holds iff the lowered term occurs in the lowered title or description, or the lowered term without its first `#` occurs in some lowered hashtag |
| `IndexPage.NothingLowersToHash` | src/pages/Index.tsx:21-23 | lowering yields `#` exactly from `#` |
| `IndexPage.HashFreeTextMisses` | src/pages/Index.tsx:21-22 | a text without `#` never includes a lowered term that holds `#`, since the `#` is kept for these tests |
| `IndexPage.HashTermMatchesOnlyThroughTags` | src/pages/Index.tsx:21-23 | if title and description lack `#` and the term holds `#`, a match holds iff some hashtag includes the lowered term without its first `#` |
| `IndexPage.HashAloneMatchesTagged` | src/pages/Index.tsx:23 | the term `#` matches every destination with a hashtag; if title and description lack `#`, it matches iff there is a hashtag |
| `IndexPage.SearchPage.constructor` | src/pages/Index.tsx:11-13 | the page starts with the empty term and the whole gallery |
| `IndexPage.SearchPage.HandleSearch` | src/pages/Index.tsx:15-27 | the raw term is stored and the list becomes the search of the whole gallery for that term alone, whatever was searched before |
| `TravelData.IdsAreOneToSix` | src/data/travelData.ts:2-96 | six records whose ids are 1 to 6 in order, so distinct and ascending |
| `TravelData.RecordsAreComplete` | src/data/travelData.ts:2-96 | every record has at least one image, at least one hashtag and a non-empty location name |
| `TravelData.HashtagsWellFormed` | src/data/travelData.ts:12-89 | within every record the hashtags are distinct, non-empty, without spaces or capitals, and none begins with `#` |
| `TravelData.TextsHaveNoHash` | src/data/travelData.ts:5-83 | no title and no description contains `#` |
| `SearchScenarios.HashMareFindsOnlyBeaches` | src/data/travelData.ts:27 | every term that lowers to `#mare` yields exactly record 2, the only record with a hashtag holding `mare` |
| `SearchScenarios.LowerCaseHashMare` | src/pages/Index.tsx:20-23 | searching `#mare` yields exactly record 2 |
| `SearchScenarios.UpperCaseHashMare` | src/pages/Index.tsx:21-23 | searching `#MARE` yields exactly record 2, since the comparison lowers the term |
| `SearchScenarios.TrailingSpaceFindsNothing` | src/pages/Index.tsx:17-23 | searching `#mare ` yields nothing, since a non-blank term is matched untrimmed |
| `SearchScenarios.HashAloneFindsEverything` | src/pages/Index.tsx:23 | searching `#` yields the whole gallery |
| `SearchScenarios.BeachesHasMare` | src/data/travelData.ts:27 | some hashtag of record 2 includes `mare` |
| `SearchScenarios.MountainsLacksMare` | src/data/travelData.ts:12 | no hashtag of record 1 includes `mare` |
| `SearchScenarios.SafariLacksMare` | src/data/travelData.ts:44 | no hashtag of record 3 includes `mare` |
| `SearchScenarios.HistoricCitiesLacksMare` | src/data/travelData.ts:58 | no hashtag of record 4 includes `mare` |
| `SearchScenarios.WaterfallsLacksMare` | src/data/travelData.ts:73 | no hashtag of record 5 includes `mare` |
| `SearchScenarios.PhotographyLacksMare` | src/data/travelData.ts:89 | no hashtag of record 6 includes `mare` |
| `SearchScenarios.MissesSpacedTerm` | src/pages/Index.tsx:21-23 | a destination with hash-free texts and plain hashtags does not match `#mare ` |
| `AddDestination.AcceptedTagKeepsValid` | src/components/AddDestinationModal.tsx:40-41 | appending an accepted trimmed input to distinct, trimmed, non-empty tags keeps them so |
| `AddDestination.SameTagTwiceRefused` | src/components/AddDestinationModal.tsx:40 | once a tag is added, committing the same input again is refused |
| `AddDestination.StoredTagsAreTrimmed` | src/components/AddDestinationModal.tsx:40-41 | every stored tag equals its own trim |
| `AddDestination.WithoutTag` | src/components/AddDestinationModal.tsx:48 | the removed tag no longer occurs; every other tag occurs as often as before |
| `AddDestination.WithoutTagKeepsOthers` | src/components/AddDestinationModal.tsx:47-49 | removing a tag drops all its occurrences and keeps every other tag, in order |
| `AddDestination.WithoutTagKeepsValid` | src/components/AddDestinationModal.tsx:47-49 | removing a tag keeps the list distinct, trimmed and non-empty |
| `AddDestination.RemoveAt` | src/components/AddDestinationModal.tsx:136 | for an index in range the result is the list without that element; otherwise the list is unchanged |
| `AddDestination.RemoveAtShifts` | src/components/AddDestinationModal.tsx:136 | removing image `i` shortens the list by one; earlier images keep their index and later ones move down by one |
| `AddDestination.AddDestinationForm.constructor` | src/components/AddDestinationModal.tsx:12-22 | empty fields, no hashtags, no images, the map closed and the default location București (44.4268, 26.1025) |
| `AddDestination.AddDestinationForm.SetTitle` | src/components/AddDestinationModal.tsx:92 | only the title changes |
| `AddDestination.AddDestinationForm.SetDescription` | src/components/AddDestinationModal.tsx:105 | only the description changes |
| `AddDestination.AddDestinationForm.SetHashtagInput` | src/components/AddDestinationModal.tsx:155 | only the hashtag input changes |
| `AddDestination.AddDestinationForm.HashtagKeyDown` | src/components/AddDestinationModal.tsx:37-45 | on Enter or `,` with a trimmed, non-empty, new input, the trimmed input is appended and the input cleared; otherwise tags and input are unchanged; other fields never change; validity is kept |
| `AddDestination.AddDestinationForm.RemoveHashtag` | src/components/AddDestinationModal.tsx:47-49 | the tags become the tags without `t`; other fields are unchanged; validity is kept |
| `AddDestination.AddDestinationForm.ImageLoaded` | src/components/AddDestinationModal.tsx:29-31 | a successful read appends its data URL to the images; nothing else changes |
| `AddDestination.AddDestinationForm.RemoveImage` | src/components/AddDestinationModal.tsx:136 | the images lose exactly the element at the index; nothing else changes |
| `AddDestination.AddDestinationForm.OpenMap` | src/components/AddDestinationModal.tsx:191 | the map picker opens; nothing else changes |
| `AddDestination.AddDestinationForm.CloseMap` | src/components/AddDestinationModal.tsx:228 | the map picker closes; nothing else changes |
| `AddDestination.AddDestinationForm.SelectLocation` | src/components/AddDestinationModal.tsx:229-232 | the location is taken and the picker closes; nothing else changes |
| `AddDestination.AddDestinationForm.Submit` | src/components/AddDestinationModal.tsx:51-67 | nothing is emitted iff the title or the description is empty or there is no image; otherwise exactly the record of title, description, hashtags, images and location is emitted and the form closes |
| `Carousel.NextIndex` | src/components/TravelModal.tsx:37-41 | for an index in `[0, n)` the next index is in range and equals the index plus one modulo `n` |
| `Carousel.PrevIndex` | src/components/TravelModal.tsx:43-47 | for an index in `[0, n)` the previous index is in range and equals the index minus one modulo `n` |
| `Carousel.PrevUndoesNext` | src/components/TravelModal.tsx:37-47 | a step back after a step forwards restores the index |
| `Carousel.NextUndoesPrev` | src/components/TravelModal.tsx:37-47 | a step forwards after a step back restores the index |
| `Carousel.StepsForwardIsModular` | src/components/TravelModal.tsx:37-41 | `k` forward steps from `i` reach `(i + k) mod n` |
| `Carousel.FullCycleReturns` | src/components/TravelModal.tsx:37-41 | `n` forward steps return to the start |
| `Carousel.SingleImageStays` | src/components/TravelModal.tsx:37-47 | with one image both steps stay on index 0 |
| `Carousel.ImageCarousel.constructor` | src/components/TravelModal.tsx:23 | the index starts at 0 |
| `Carousel.ImageCarousel.NextImage` | src/components/TravelModal.tsx:37-41 | the index takes the next-index step; an index in range stays in range |
| `Carousel.ImageCarousel.PrevImage` | src/components/TravelModal.tsx:43-47 | the index takes the previous-index step; an index in range stays in range |
| `Carousel.ImageCarousel.GoToImage` | src/components/TravelModal.tsx:49-51 | the index becomes the argument; the index of any dot drawn (dots appear only for more than one image, one per image, TravelModal.tsx:94-99) keeps the carousel valid |
| `Carousel.ImageCarousel.AutoScrollTick` | src/components/TravelModal.tsx:27-35 | a timer tick takes exactly the next-index step |
| `ImageKit.RoundDiv` | src/services/imagekitService.ts:38 | `Math.round(num / den)`: the result is within one half of the exact quotient, a half rounding up |
| `ImageKit.RoundDivBounds` | src/services/imagekitService.ts:38 | the rounded quotient of a non-negative value stays between 0 and any bound the exact quotient does not exceed |
| `ImageKit.ClampSize` | src/services/imagekitService.ts:33-40 | a width over the maximum becomes the maximum and the height the rounded scaled height; otherwise both are unchanged; width at most the maximum, height at most the original |
| `ImageKit.OptimizeImage` | src/services/imagekitService.ts:27-54 | a failed load returns the original string; a loaded image gives a JPEG of the clamped size |
| `ImageKit.OptimizeForUpload` | src/services/imagekitService.ts:95 | the upload optimizes with the default `maxWidth` of 1200: a loaded image comes out at most 1200 wide, unchanged in size when it was narrower, exactly 1200 wide when it was wider |
| `ImageKit.FirstMatchFrom` | src/services/imagekitService.ts:59 | the leftmost position where `/:(.*?);/` matches, or none iff it matches nowhere |
| `ImageKit.MimeCapture` | src/services/imagekitService.ts:59 | a capture exists iff the pattern matches; it is the text from just after the leftmost matching `:` up to the `;` that follows it, and holds neither `;` nor a line terminator |
| `ImageKit.MimeType` | src/services/imagekitService.ts:59 | the type is never empty: it is the capture when that is non-empty, and `image/jpeg` otherwise |
| `ImageKit.DataHeaderMime` | src/services/imagekitService.ts:59 | for a header `data:<type>;<params>` with a single-line, `;`-free type, the MIME type is that type, or `image/jpeg` when it is empty |
| `ImageKit.MimeDefaultWithoutColon` | src/services/imagekitService.ts:59 | a header without `:` gets `image/jpeg` |
| `ImageKit.Payload` | src/services/imagekitService.ts:58-60 | with no comma the decoder receives `undefined`; otherwise the comma-free text from just after the first comma up to the next comma or the end |
| `ImageKit.CopyBytes` | src/services/imagekitService.ts:61-65 | a fresh array as long as the decoded string, byte `i` being character `i`'s code modulo 256, every index filled by the reverse loop |
| `ImageKit.BlobType` | src/services/imagekitService.ts:66 | the `Blob` constructor empties a type holding a character outside U+0020 to U+007E and otherwise lowers it in ASCII, so a stored type is printable and has no ASCII capital |
| `ImageKit.BlobTypeIdempotent` | src/services/imagekitService.ts:66 | normalising a normalised type changes nothing |
| `ImageKit.BlobTypeKeepsLowerType` | src/services/imagekitService.ts:59-66 | a printable type without ASCII capitals, the `image/jpeg` fallback among them, is stored as it is |
| `ImageKit.Base64ToBlob` | src/services/imagekitService.ts:57-67 | a failing decode fails the call; otherwise the blob has the normalised MIME type of the header and one byte per decoded character, in order |
| `ImageKit.Extension` | src/services/imagekitService.ts:73 | the extension is non-empty and dot-free; unless it is the `jpg` fallback it is the text after the name's last dot, or the whole name |
| `ImageKit.ExtensionCases` | src/services/imagekitService.ts:73 | `a.e` gives `e`; a name ending in a dot gives `jpg`; a dot-free name is its own extension |
| `ImageKit.UniqueFileNamePrefix` | src/services/imagekitService.ts:70-75 | the name starts with `destination_`, the timestamp and `_` |
| `ImageKit.UniqueFileName` | src/services/imagekitService.ts:70-75 | the generated name: the prefix, the random part, a dot and the extension (its properties are the three lemmas around it) |
| `ImageKit.FileNameRandomPart` | src/services/imagekitService.ts:72 | the prefix is followed by characters 2 to 14 of the random text, or by as many of them as it has |
| `ImageKit.UniqueFileNameExtension` | src/services/imagekitService.ts:73-74 | reading the generated name's extension back gives the original name's extension |
| `ImageKit.Serialize` | src/services/imagekitService.ts:176-177 | the query is empty iff there are no parameters |
| `ImageKit.OptimizationParams` | src/services/imagekitService.ts:171-174 | the `w`, `h` and `q` parameters of the truthy arguments, in that order (stated by the three lemmas below) |
| `ImageKit.OptimizationParamsPresent` | src/services/imagekitService.ts:171-174 | at most three parameters; each of `w`, `h`, `q` is present, with its decimal value, iff its argument is truthy |
| `ImageKit.ParamsInOrder` | src/services/imagekitService.ts:171-174 | the parameters come in the order `w`, `h`, `q` |
| `ImageKit.OptimizationParamsUnescaped` | src/services/imagekitService.ts:171-177 | every name and value is made of ASCII letters, digits and `-` only, characters the urlencoded serializer writes unchanged |
| `ImageKit.UnescapedIsPlain` | src/services/imagekitService.ts:176-177 | text the serializer writes unchanged holds neither `&` nor `=` |
| `ImageKit.OptimizationParamsArePlain` | src/services/imagekitService.ts:172-174 | no name or value holds `&` or `=`, so the query splits back into the parameters |
| `ImageKit.SerializeRoundTrip` | src/services/imagekitService.ts:176-177 | a query of plain pairs splits at `&` and `=` back into its names and values, in order |
| `ImageKit.QueryRoundTrip` | src/services/imagekitService.ts:171-177 | the appended query splits back into the parameters |
| `ImageKit.AppendParams` | src/services/imagekitService.ts:171-174 | the successive appends build the parameter list |
| `ImageKit.GetOptimizedImageUrl` | src/services/imagekitService.ts:166-182 | `''` gives `''`; a non-ImageKit URL is returned unchanged; an ImageKit URL gets `&` (iff it holds `?`, else `?`) and the query, or stays unchanged with no parameters; the URL is always a prefix of the result |
| `ImageKit.IsValidImageKitUrl` | src/services/imagekitService.ts:185-187 | `includes('imagekit.io')` or `startsWith('data:')` (characterised by the lemma below) |
| `ImageKit.IsValidImageKitUrlIff` | src/services/imagekitService.ts:185-187 | the check holds iff `imagekit.io` occurs in the URL or it begins with `data:` |
| `ImageKit.OptimizedUrlStaysValid` | src/services/imagekitService.ts:170-177 | an ImageKit URL extended by the builder still passes the check |
| `Text.Includes` | src/pages/Index.tsx:21-23 | `includes` as a left-to-right scan (characterised by `Text.IncludesIff`) |
| `Text.IndexOf` | src/pages/Index.tsx:23 | the index of the first occurrence of the character, or -1 iff it does not occur |
| `Text.LowerStrIdempotent` | src/pages/Index.tsx:21-23 | lowering twice is lowering once |
| `Text.LowerCharKeepsSpace` | src/pages/Index.tsx:17-23 | lowering neither makes nor removes white space |
| `IndexPage.BlankIgnoresCase` | src/pages/Index.tsx:17 | a term is blank iff its lowered form is |
| `IndexPage.SearchIgnoresCase` | src/pages/Index.tsx:17-25 | two terms with the same lowered form give the same result, for every list: the search ignores case |
| `Seqs.FilterAgrees` | src/pages/Index.tsx:20 | filtering by two predicates that agree everywhere gives the same list |
| `Text.IncludesIff` | src/pages/Index.tsx:21-23 | `includes` holds iff the pattern occurs at some index |
| `Text.Trim` | src/pages/Index.tsx:17 | `trim` gives a string with no white space at either end, which is the input with white space removed at both ends only |
| `Text.TrimEmptyIff` | src/pages/Index.tsx:17 | the trim is empty iff every character is white space |
| `Text.TrimIdempotent` | src/components/AddDestinationModal.tsx:40-41 | trimming twice is trimming once |
| `Text.ReplaceFirst` | src/pages/Index.tsx:23 | `replace('#', '')` removes exactly the first `#`, and a string without `#` is unchanged |
| `Text.Split` | src/services/imagekitService.ts:58 | `split` gives at least one field, no field holds the separator, and joining the fields gives the string back |
| `Text.SplitJoin` | src/services/imagekitService.ts:58 | splitting a join of separator-free fields gives the fields back |
| `Text.LastField` | src/services/imagekitService.ts:73 | `pop()` of a split gives a separator-free suffix preceded by the separator unless it is the whole string |
| `Text.Substring` | src/services/imagekitService.ts:72 | `substring` gives exactly the piece between the lower and the upper of its two clamped ends: as long as their difference, occurring at the lower one |
| `Text.Decimal` | src/services/imagekitService.ts:74 | the decimal digits of a natural number, without leading zeros, denote that number |
| `Text.IntText` | src/services/imagekitService.ts:172-174 | an integer's text is a minus sign iff negative, before digits denoting the absolute value, with no leading zero |
| `Seqs.Filter` | src/pages/Index.tsx:20 | `filter` keeps only elements that pass, and keeps every element that passes; each value that passes occurs in the result as often as in the input, and any other value not at all |
| `Seqs.FilterIsSubsequence` | src/pages/Index.tsx:20 | a filter result is an order-preserving subsequence |

## Left out

- Network and foreign calls are left out: `uploadImage`, `deleteImage`, the ImageKit client
  and `generateUploadSignature`. `destinationService.ts`, the Firestore wrapper, is not
  part of this model.
- The map picker and the map view are not part of this model (`LocationPickerModal.tsx`,
  `MapModal.tsx`, with their Nominatim lookups and Leaflet widgets). The form only
  receives a location from the picker (`SelectLocation`).
- Rendering and the UI glue are left out: `SearchBar`, `TravelCard`, `ThemeToggle` and
  all JSX. The only rendered facts kept are the carousel controls, which appear for more
  than one image.
- `handleImageUpload`'s `FileReader` callbacks complete asynchronously in no fixed order.
  Each successful completion is one `ImageLoaded` call; the order of the calls is not
  modelled.
- AddDestination.AddDestinationForm.ImageLoaded: only successful reads are modelled. A failed
  or aborted read also fires `onloadend`, with `reader.result` null, and the source then
  appends `null` to the images, which the submit guard lets through; the model's images are
  always strings.
- The 4-second `setInterval` is left out. Only its step, `AutoScrollTick`, is modelled.
- ImageKit.OptimizeImage: canvas drawing, JPEG encoding and the `quality` argument are browser
  APIs and floating point, so the result carries only the clamped size.
- ImageKit.RoundDiv: `Math.round` is applied to an exact rational here. The floating-point
  division the browser performs first is not modelled.
- Coordinates are kept as Dafny `real` literals. No arithmetic is done on them.
- Text.LowerStr: lowers only ASCII, Latin-1 and Romanian capitals, the letters the
  gallery and its searches use. The rest of Unicode case mapping is not modelled.
- ImageKit.Base64ToBlob: base64 decoding (section 4 of RFC 4648) is a parameter that may fail.
  With no comma in the input, `split(',')[1]` is `undefined`, and that parameter then
  receives the text `undefined`, as `atob` does.
- ImageKit.UniqueFileNamePrefix: `Date.now()` and `Math.random().toString(36)` are parameters.
- ImageKit.ClampSize: image sizes are natural numbers, as the browser reports them.
- Carousel.ImageCarousel.NextImage: the index stays in range only for at least one
  image. With no images the source's steps are modelled as written, but no range is
  claimed.
- ImageKit.GetOptimizedImageUrl: the optional `number` arguments are modelled as optional
  integers. Fractional values (`300.5` gives `"300.5"`), `NaN` (falsy in the source) and the
  exponent form `toString` uses from `1e21` up are not modelled.
- ImageKit.OptimizationParams: takes the same integer arguments, with the same gaps as
  `GetOptimizedImageUrl` for fractional values, `NaN` and the exponent form.
- Text.IntText: the decimal text of an integer only. `Number.prototype.toString` of a
  fraction, of `NaN` or of a number from `1e21` up is not modelled.
- ImageKit.GetOptimizedImageUrl: `URLSearchParams` escaping is not modelled. The names `w`,
  `h`, `q` and the decimal values need none: they hold only characters the serializer
  writes unchanged (`OptimizationParamsUnescaped`).
- Carousel.ImageCarousel.GoToImage: the index is stored as given. Only a dot's index
  is claimed to keep it in range, since dots are the only callers.
- The concrete searches: only a few concrete searches are proved (`#mare`, `#MARE`,
  `#mare `, `#`). Search's general properties hold for every list and term.
