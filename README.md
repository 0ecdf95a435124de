# DEM Properties listing core, modelled in Dafny

This project models the part of the DEM Properties real-estate site that
turns raw Inmovilla listing records into what visitors see. It covers:

- the normaliser `mapInmovillaToProperty`, which builds a display record from a raw listing;
- the catalog page: its facet filter, its list of property types, and pagination at nine per page;
- the listing hook, which fetches the records;
- the filter bar form;
- the catalog card and the quick-view panel, with their image carousels, price lines and the page-wide detail cache;
- the specification panel: the spec groups, amenity check marks and energy strip;
- the detail page: loading, description clean-up and images.

The raw records are untyped JSON, so they are modelled as JavaScript values (module `JsValue`):

- `undefined` and `null`, booleans, integers, strings, arrays, and objects as ordered key/value lists. An object's list is its enumeration order, which for `Object.values` puts integer-like keys first in ascending order and then the other keys in insertion order; the photo object, keyed by photo number, is therefore listed by photo number.
- The coercions the code relies on are written out:
  - truthiness, which every `||` fallback uses;
  - `String(x)` and `Number(x)`, with `None` standing for NaN;
  - property reads with optional chaining, where arrays answer their index keys;
  - `trim`, `toLowerCase`/`toUpperCase`, `includes` and `join`.

Modules and source files:

| module | file | models |
|---|---|---|
| `JsValue` | jsvalue.dfy | JavaScript values and coercions shared by every file |
| `Carousel` | carousel.dfy | the wrap-around previous/next index of both image carousels |
| `PropertyMapper` | mapper.dfy | `src/lib/property-mapper.ts` |
| `Inmovilla` | inmovilla.dfy | the language id and the numeric rental test, each repeated in several files |
| `Catalog` | catalog.dfy | `src/pages/Properties.tsx` |
| `PropertySpecs` | specs.dfy | `src/components/property/PropertySpecs.tsx` |
| `PropertyDetails` | details.dfy | `src/pages/PropertyDetails.tsx` |
| `PropertyCard` | card.dfy | `src/components/property/PropertyCard.tsx` |
| `PropertyPreview` | preview.dfy | `src/components/property/PropertyPreview.tsx` |
| `UseProperties` | hook.dfy | `src/hooks/useProperties.ts` |
| `PropertiesFilters` | filters.dfy | `src/components/properties/PropertiesFilters.tsx` |

Pure code is modelled as functions and lemmas. React state is modelled as classes:

- `CatalogPage`, `DetailsPage`, `CardCarousel`, `PreviewPanel`, `PreviewCache`, `PropertiesStore` and `FiltersForm`;
- their methods are the event handlers and effects;
- each method states the new state with `old`.

Behaviour of the code that the model keeps, although a reader might expect otherwise:

- **Mapper price.** The price is `Number(field) || 0`, so a negative price stays negative.
- **Mapper features.** `features` is always the empty list. The flag rule "S", "1" or a positive number lives in `PropertySpecs.CheckAmenity`.
- **Mapper operation.** Every operation code other than the number 1 is a rental.
- **Mapper on nullish records.** The mapper throws on a `null` or `undefined` record.
- **Catalog filter input.** The filter works on the hook's raw records, not mapped ones, and keeps unavailable listings.
- **Catalog cards.** The grid hands the same raw records to the card (`Properties.tsx` line 117). A raw record has no `status` field, so the card's unavailable check never hides it. It has no `specs` field either, so the card throws when it reads `property.specs.beds`. See "## Findings".
- **Catalog facets.**
  - The search text is town, city and reference.
  - Bathrooms, terrace and minimum price are never consulted.
  - A non-numeric surface bound excludes every record; it is not treated as "no constraint". See `Catalog.NonNumericSurfaceExcludesAll`.
- **The two rental tests.** The mapper's strict test and the catalog's and preview's numeric test (`Number(keyacci) === 2`) classify some codes differently (`Inmovilla.ClassificationsDisagree`).
- **The filter bar is not wired to the catalog.** The catalog passes `filters`, `setFilters` and `propertyTypes` to the filter bar, which accepts only `onSearch`. As the site is written, the catalog's filters therefore keep their initial values. The bar's search and reset hand their values to an absent callback (`hasCallback` is false).

## Model

| member | source | states |
|---|---|---|
| JsValue.Or | src/lib/property-mapper.ts:13-21 | `a \|\| b` is one of its operands, is truthy iff either operand is, and is `a` when `a` is truthy and `b` otherwise |
| JsValue.Get | src/lib/property-mapper.ts:11 | an optional-chained read on `null`/`undefined` gives `undefined` |
| JsValue.ParseNatToString | src/lib/property-mapper.ts:50 | the decimal text of a photo number reads back as that number |
| JsValue.NumberOfString | src/lib/property-mapper.ts:8 | `Number(String(n)) === n` for every integer n |
| JsValue.JoinTwo | src/lib/property-mapper.ts:90 | joining two parts puts the separator between them |
| JsValue.TrimStart | src/pages/PropertyDetails.tsx:31 | the result is a suffix of the input, does not start with whitespace, and only whitespace was removed |
| JsValue.TrimSpec | src/pages/PropertyDetails.tsx:31 | `trim` returns a slice of its input whose cut-off ends are all whitespace |
| JsValue.Trim | src/pages/PropertyDetails.tsx:31 | what `trim` returns neither starts nor ends with whitespace, and is empty only for an all-whitespace input |
| JsValue.Lower | src/pages/Properties.tsx:55 | `toLowerCase` maps each character, keeping the length |
| JsValue.Upper | src/components/property/PropertySpecs.tsx:145 | `toUpperCase` maps each character, keeping the length |
| JsValue.ContainsAt | src/pages/Properties.tsx:55 | `includes` holds exactly when the needle occurs at some offset |
| JsValue.GetArrayIndex | src/pages/PropertyDetails.tsx:55 | reading key "i" of an array gives its element i |
| Carousel.Next | src/components/property/PropertyCard.tsx:42 | `(i + 1) % n` stays in range and wraps from the last image to the first |
| Carousel.Prev | src/components/property/PropertyCard.tsx:48 | `(i - 1 + n) % n` stays in range and wraps from the first image to the last |
| Carousel.PrevUndoesNext | src/components/property/PropertyCard.tsx:39-49 | "previous" after "next" returns to the same image |
| Carousel.NextUndoesPrev | src/components/property/PropertyCard.tsx:39-49 | "next" after "previous" returns to the same image |
| Carousel.NextTimesForward | src/components/property/PropertyCard.tsx:42 | k presses that do not pass the last image move k images forward |
| Carousel.NextTimesCompose | src/components/property/PropertyCard.tsx:42 | a + b presses equal a presses followed by b presses |
| Carousel.FullCycle | src/components/property/PropertyCard.tsx:42 | n presses on n images come back to the starting image |
| PropertyMapper.OfferId | src/lib/property-mapper.ts:8 | the id is "" for a missing offer code, the code itself for a string, and reads back as the code for a number |
| PropertyMapper.Title | src/lib/property-mapper.ts:13-16 | the title is always truthy: the translated title, else the type name, else "Property" |
| PropertyMapper.Description | src/lib/property-mapper.ts:18-21 | the description is always truthy: the translated text, else the raw text, else the placeholder |
| PropertyMapper.OperationOf | src/lib/property-mapper.ts:24-25 | sale exactly when `keyacci` is the number 1 |
| PropertyMapper.OperationLabel | src/lib/property-mapper.ts:27-32 | "Vender" for 1, "Alquilar" for 2, "Otro" for anything else |
| PropertyMapper.NumberOrZero | src/lib/property-mapper.ts:35-38 | the price is 0 exactly when the field is NaN or 0, else the field's numeric value |
| PropertyMapper.StatusOf | src/lib/property-mapper.ts:41-44 | unavailable exactly when `estadoficha === 0` or `nodispo === 1` |
| PropertyMapper.PhotoCount | src/lib/property-mapper.ts:49 | the array length is a positive count itself, and 0 for NaN |
| PropertyMapper.PhotoUrlInjective | src/lib/property-mapper.ts:50 | different photo numbers give different URLs |
| PropertyMapper.Images | src/lib/property-mapper.ts:47-54 | with a photo set, exactly the count of numbered URLs in order; else `[foto]` or `[]`; every entry truthy |
| PropertyMapper.ImagesDistinct | src/lib/property-mapper.ts:49-51 | synthesised photo URLs are pairwise distinct |
| PropertyMapper.MainImage | src/lib/property-mapper.ts:93 | the first image, or "" when there are none |
| PropertyMapper.Location | src/lib/property-mapper.ts:90 | zone and city joined by " / ", each left out when falsy |
| PropertyMapper.SpecsOf | src/lib/property-mapper.ts:60-69 | size from `m_cons`, else `m_uties`, else `m_parcela`, else 0; beds from `total_hab`, else 0; baths from `banyos`, else `aseos`, else 0; conservation, year and ibi from their fields when truthy, else `undefined`; exterior exactly when `todoext` is 1 |
| PropertyMapper.EnergyOf | src/lib/property-mapper.ts:72-77 | each energy field is its raw field (`energialetra`, `energiavalor`, `emisionesletra`, `emisionesvalor`) when that is truthy, else `null` |
| PropertyMapper.MapInmovillaToProperty | src/lib/property-mapper.ts:3-101 | truthy title and description; the operation, price, status and image rules; main image consistent with images; no features |
| PropertyMapper.PhotoSetImages | src/lib/property-mapper.ts:47-51 | n photos give n numbered URLs and the main image is photo 1 |
| PropertyMapper.NegativePhotoCountHidesFoto | src/lib/property-mapper.ts:48-54 | a negative photo count wins over `foto` and leaves no image |
| Inmovilla.LangId | src/hooks/useProperties.ts:34 | "1" exactly for Spanish, "2" otherwise |
| Inmovilla.ClassificationsAgreeOnCodes | src/pages/Properties.tsx:66 | the numeric rental test and the mapper agree on the numbers 1 and 2 |
| Inmovilla.ClassificationsDisagree | src/components/property/PropertyPreview.tsx:78 | code 3 and the string "1" are rentals for the mapper but not for the numeric test |
| Catalog.ListedPrice | src/pages/Properties.tsx:66 | the rent for a rental code, the sale price otherwise |
| Catalog.FilterProperties | src/pages/Properties.tsx:52-71 | a record is kept iff it is in the list and matches every facet; each matching record is kept exactly as often as it occurs, and no other record |
| Catalog.FilterIsSubsequence | src/pages/Properties.tsx:52-71 | the kept records keep their original order |
| Catalog.TightenedMatch | src/pages/Properties.tsx:54-67 | a record matching stricter filters matches the looser ones |
| Catalog.FilterMonotone | src/pages/Properties.tsx:52-71 | stricter filters keep a sub-list of what looser filters keep |
| Catalog.IgnoredFacets | src/pages/Properties.tsx:52-71 | bathrooms, terrace and minimum price never change the result |
| Catalog.InitialFiltersKeep | src/pages/Properties.tsx:27-42 | with the initial filters, a record is kept iff its price is unreadable or at most 50,000,000 |
| Catalog.NonNumericSurfaceExcludesAll | src/pages/Properties.tsx:59 | a non-numeric minimum surface empties the result |
| Catalog.MissingTownSearchable | src/pages/Properties.tsx:55 | a record without a town is found by searching "undefined", in any case |
| Catalog.SubsequenceLength | src/pages/Properties.tsx:52 | a sub-list is never longer than its list |
| Catalog.SubsequenceMembers | src/pages/Properties.tsx:52 | every element of a sub-list is in the list |
| Catalog.AllTypes | src/pages/Properties.tsx:49 | the i-th entry is record i's `tipoinmo` |
| Catalog.TruthyValues | src/pages/Properties.tsx:49 | exactly the truthy values are kept, each as often as it occurs, in their original order |
| Catalog.DedupFrom | src/pages/Properties.tsx:49 | `Array.from(new Set(...))` holds each value not already seen once and nothing else |
| Catalog.DedupFromIsSubsequence | src/pages/Properties.tsx:49 | deduplication keeps the order of the list |
| Catalog.DedupFromFirstAppearance | src/pages/Properties.tsx:49 | the deduplicated values come in the order of their first occurrence |
| Catalog.TruthyFirstIndex | src/pages/Properties.tsx:49 | dropping falsy values keeps the order of first occurrences among the truthy ones |
| Catalog.PropertyTypesSpec | src/pages/Properties.tsx:48-50 | every truthy type of some record is listed exactly once, nothing else, as a sub-list of the truthy types |
| Catalog.PropertyTypesOrder | src/pages/Properties.tsx:48-50 | the types are listed in the order in which each first appears among the records |
| Catalog.TotalPages | src/pages/Properties.tsx:73 | `ceil(n / 9)`: enough pages for every record and no empty last page |
| Catalog.SliceIndex | src/pages/Properties.tsx:76 | a `slice` bound is clamped into the list |
| Catalog.Slice | src/pages/Properties.tsx:76 | for non-negative bounds, `slice` is the clamped sub-list |
| Catalog.Page | src/pages/Properties.tsx:74-77 | page p holds records 9(p-1) up to 9p; at most 9; empty past the last page; non-empty up to it |
| Catalog.PagesUpToPrefix | src/pages/Properties.tsx:74-77 | pages 1..k laid end to end are the first 9k records |
| Catalog.PagesReassemble | src/pages/Properties.tsx:73-77 | all pages together are exactly the filtered list |
| Catalog.RecordOnPage | src/pages/Properties.tsx:74-77 | record i is on page i/9 + 1 at position i % 9 |
| Catalog.CatalogPage.constructor | src/pages/Properties.tsx:19-42 | no records, initial filters, page 1 |
| Catalog.CatalogPage.SetFilters | src/pages/Properties.tsx:44-46 | new filters bring back page 1, showing the first nine matches |
| Catalog.CatalogPage.SetProperties | src/pages/Properties.tsx:19 | a new listing keeps the page, which is empty when past the last page |
| Catalog.CatalogPage.GoToPage | src/pages/Properties.tsx:135-140 | a page button shows a non-empty page of at most nine records |
| Catalog.CatalogPage.PreviousPage | src/pages/Properties.tsx:125-129 | "previous" goes back one page and stays within range |
| Catalog.CatalogPage.NextPage | src/pages/Properties.tsx:159-163 | "next" goes forward one page, within range when it started in range |
| PropertySpecs.Display | src/components/property/PropertySpecs.tsx:102 | a falsy value shows "-", a string or number shows its text |
| PropertySpecs.WithUnit | src/components/property/PropertySpecs.tsx:65 | a truthy value gets its unit appended, a falsy one becomes "-" |
| PropertySpecs.ItemValue | src/components/property/PropertySpecs.tsx:52-78 | reference, operation, type and conservation are their raw fields; the zone joins zone and city; exterior type and regime are `tipo_ext` and `nbestatuto` when truthy, else "Exterior" and "Libre"; surface, age and tax are texts |
| PropertySpecs.FallbackTexts | src/components/property/PropertySpecs.tsx:65-75 | missing exterior type and regime show "Exterior" and "Libre"; surface and tax show their units or "-" |
| PropertySpecs.CheckAmenity | src/components/property/PropertySpecs.tsx:81-84 | an amenity is present iff its field is "S", "1" or a positive number |
| PropertySpecs.AmenityKeysDistinct | src/components/property/PropertySpecs.tsx:23-50 | the 26 amenity fields are distinct |
| PropertySpecs.AmenityStates | src/components/property/PropertySpecs.tsx:116-117 | one check mark per amenity, from its own field |
| PropertySpecs.AmenityIndependent | src/components/property/PropertySpecs.tsx:116-117 | setting one amenity field changes only that amenity's mark |
| PropertySpecs.EnergyStrip | src/components/property/PropertySpecs.tsx:144-145 | seven marks, letter i marked iff the upper-cased rating is that letter |
| PropertySpecs.EnergyStripSpec | src/components/property/PropertySpecs.tsx:144-145 | at most one letter is marked; a missing rating marks none; either case marks its letter |
| PropertyDetails.GtIndex | src/pages/PropertyDetails.tsx:29 | the position of the first '>' |
| PropertyDetails.StripTags | src/pages/PropertyDetails.tsx:29 | removing tags never lengthens the text |
| PropertyDetails.StripTagsKeepsNoGt | src/pages/PropertyDetails.tsx:29 | stripping never introduces a '>' |
| PropertyDetails.StripTagsLeavesNoTags | src/pages/PropertyDetails.tsx:29 | no tag is left after stripping |
| PropertyDetails.StripTagsNoTagsIdentity | src/pages/PropertyDetails.tsx:29 | text without tags is unchanged |
| PropertyDetails.StripTagsIdempotent | src/pages/PropertyDetails.tsx:29 | stripping twice equals stripping once |
| PropertyDetails.Collapse | src/pages/PropertyDetails.tsx:30 | every whitespace run becomes one plain space |
| PropertyDetails.CollapseIdentity | src/pages/PropertyDetails.tsx:30 | collapsed text is unchanged |
| PropertyDetails.CollapseIdempotent | src/pages/PropertyDetails.tsx:30 | collapsing twice equals collapsing once |
| PropertyDetails.CollapsedSlice | src/pages/PropertyDetails.tsx:30-31 | trimming collapsed text keeps it collapsed |
| PropertyDetails.CleanDescription | src/pages/PropertyDetails.tsx:23-32 | a falsy description gives the placeholder |
| PropertyDetails.CleanDescriptionShape | src/pages/PropertyDetails.tsx:23-32 | a cleaned description has no whitespace at its ends, single plain spaces inside, and is no longer than the input |
| PropertyDetails.MarkupOnlyDescription | src/pages/PropertyDetails.tsx:24-31 | a markup-only description cleans to "", not to the placeholder |
| PropertyDetails.DisplayedImages | src/pages/PropertyDetails.tsx:100-105 | the images, else the main image alone, else nothing |
| PropertyDetails.DisplayedImagesOfMapped | src/pages/PropertyDetails.tsx:100-105 | for a mapped record the page shows exactly the mapper's images |
| PropertyDetails.Thumbnails | src/pages/PropertyDetails.tsx:145 | the first five images, or all of them when fewer |
| PropertyDetails.LoadDetails | src/pages/PropertyDetails.tsx:50-71 | a property exactly when the request succeeded and `ficha[1]` is truthy; it is that record mapped with language 1 |
| PropertyDetails.LoadsSecondFichaEntry | src/pages/PropertyDetails.tsx:55 | the record loaded is entry 1 of the `ficha` array |
| PropertyDetails.DetailsPage.constructor | src/pages/PropertyDetails.tsx:41-44 | loading, no property, first image |
| PropertyDetails.DetailsPage.ShownImage | src/pages/PropertyDetails.tsx:123 | the large image is one of the displayed images, when the index is in range |
| PropertyDetails.DetailsPage.Load | src/pages/PropertyDetails.tsx:47-79 | an empty id starts nothing; otherwise loading ends with `LoadDetails`; the image index is not reset |
| PropertyDetails.DetailsPage.SelectImage | src/pages/PropertyDetails.tsx:148 | a thumbnail click shows that image |
| PropertyCard.CardImages | src/components/property/PropertyCard.tsx:31-34 | never empty: a non-empty image array, or the main image alone |
| PropertyCard.PriceLine | src/components/property/PropertyCard.tsx:36-177 | an amount exactly when the price reads as a positive number, and then that number; else "on request" |
| PropertyCard.DetailsLink | src/components/property/PropertyCard.tsx:187 | the link is "/properties/" followed by the printed id |
| PropertyCard.DetailsLinkInjective | src/components/property/PropertyCard.tsx:187 | two cards share a link only when their ids print alike |
| PropertyCard.RenderFields | src/components/property/PropertyCard.tsx:29-182 | hidden exactly for status "unavailable"; throws exactly when otherwise `specs` is missing; else the images, price line, suffix and link |
| PropertyCard.Render | src/components/property/PropertyCard.tsx:29-187 | for a record passed as is: hidden exactly for status "unavailable"; throws for a nullish record or a missing `specs`; the link follows the id |
| PropertyCard.RawRecordThrows | src/components/property/PropertyCard.tsx:29-152 | a record without `status` and `specs`, as the hook delivers it, makes the card throw |
| PropertyCard.RawRecordFields | src/components/property/PropertyCard.tsx:31-187 | for such a record the card computes one `undefined` image, "on request", no suffix and "/properties/undefined" |
| PropertyCard.MappedFields | src/components/property/PropertyCard.tsx:29-187 | the fields the card reads from a mapped record: its id, status, images, price, operation and specs |
| PropertyCard.MappedFieldsRender | src/components/property/PropertyCard.tsx:29-187 | a mapped record never throws, is hidden exactly when unavailable, and shows its photos, positive price, rental suffix and page |
| PropertyCard.MappedCard | src/components/property/PropertyCard.tsx:29-187 | the card of a mapped listing record: never throws; hidden exactly when `estadoficha` is 0 or `nodispo` is 1; suffix for every operation code but 1 |
| PropertyCard.NoPhotoCard | src/components/property/PropertyCard.tsx:31-34 | a mapped record without photos shows one empty image and no buttons |
| PropertyCard.RentalOnRequest | src/components/property/PropertyCard.tsx:175-182 | a mapped rental with an unreadable rent shows "on request" with the per-month suffix |
| PropertyCard.CardCarousel.constructor | src/components/property/PropertyCard.tsx:23-34 | first image, not hovered |
| PropertyCard.CardCarousel.Current | src/components/property/PropertyCard.tsx:66 | the image shown is one of the card's images |
| PropertyCard.CardCarousel.MouseEnter | src/components/property/PropertyCard.tsx:58 | hovering keeps the image |
| PropertyCard.CardCarousel.MouseLeave | src/components/property/PropertyCard.tsx:59 | leaving keeps the image |
| PropertyCard.CardCarousel.NextImage | src/components/property/PropertyCard.tsx:39-43 | the next image, wrapping to the first |
| PropertyCard.CardCarousel.PreviousImage | src/components/property/PropertyCard.tsx:45-49 | the previous image, wrapping to the last |
| PropertyPreview.Loaded | src/components/property/PropertyPreview.tsx:40 | a cached or fetched detail is shown, not loading |
| PropertyPreview.InitialExtra | src/components/property/PropertyPreview.tsx:25-30 | loading, no images, empty description; the title is the town when truthy, else "Propiedad" |
| PropertyPreview.CacheKey | src/components/property/PropertyPreview.tsx:37 | the key is offer code, "_" and language id |
| PropertyPreview.CacheKeyInjective | src/components/property/PropertyPreview.tsx:36-37 | numeric offers share a cache entry only when they are the same offer in the same language |
| PropertyPreview.Gallery | src/components/property/PropertyPreview.tsx:54-56 | exactly the string values containing "http"; never longer than the values |
| PropertyPreview.GalleryCount | src/components/property/PropertyPreview.tsx:54-56 | each URL appears exactly as often as its string among the values, and only if it contains "http" |
| PropertyPreview.GalleryOrder | src/components/property/PropertyPreview.tsx:54-56 | the URLs keep the order of the values |
| PropertyPreview.BuildDetails | src/components/property/PropertyPreview.tsx:50-62 | the gallery of the offer's photo object (none when it is missing); the description of the offer in the language, else ""; the title chain over the translated title, the record title and the town |
| PropertyPreview.DetailedTitle | src/components/property/PropertyPreview.tsx:60 | translated title, else record title, else town, else "Propiedad" |
| PropertyPreview.TranslatedTitleWins | src/components/property/PropertyPreview.tsx:51-60 | a translated title for the offer and language is the one shown |
| PropertyPreview.DisplayPrice | src/components/property/PropertyPreview.tsx:78-79 | the rent for a rental code, else the sale price |
| PropertyPreview.PriceAgreesWithCatalog | src/components/property/PropertyPreview.tsx:197-204 | the preview's price is the catalog filter's price; the suffix appears exactly for a rental code whose rent reads as positive |
| PropertyPreview.SpecDetailValue | src/components/property/PropertyPreview.tsx:226 | the value, unless falsy or "0", in which case "-" |
| PropertyPreview.SpecDetailZero | src/components/property/PropertyPreview.tsx:226 | 0, "0" and a missing value show "-", "00" shows itself |
| PropertyPreview.PreviewCache.constructor | src/components/property/PropertyPreview.tsx:11 | the cache starts empty |
| PropertyPreview.PreviewPanel.constructor | src/components/property/PropertyPreview.tsx:23-30 | initial extra data, first image |
| PropertyPreview.PreviewPanel.Open | src/components/property/PropertyPreview.tsx:32-74 | a cache hit is shown without fetching; a miss fetches, stores and shows; a failure ends loading and keeps the rest; index 0 |
| PropertyPreview.PreviewPanel.NextImage | src/components/property/PropertyPreview.tsx:135 | the next image, wrapping to the first |
| PropertyPreview.PreviewPanel.PreviousImage | src/components/property/PropertyPreview.tsx:132 | the previous image, wrapping to the last |
| UseProperties.ListFromResponse | src/hooks/useProperties.ts:36-63 | a failed request, a falsy body or a non-array `paginacion` give the empty list |
| UseProperties.ListFromResponseSpec | src/hooks/useProperties.ts:45-59 | the list is the array, the array without its header, or empty when the header test throws; nothing is added |
| UseProperties.RecordWithRefKept | src/hooks/useProperties.ts:51-54 | a first entry with a reference is kept as a record |
| UseProperties.PropertiesStore.constructor | src/hooks/useProperties.ts:29-30 | no records, loading |
| UseProperties.PropertiesStore.Fetch | src/hooks/useProperties.ts:32-67 | the request is sent with language id "1" exactly for Spanish; the records are the response's list and loading ends |
| PropertiesFilters.NormalizedType | src/components/properties/PropertiesFilters.tsx:53 | one of the three codes for a known type name, `undefined` otherwise |
| PropertiesFilters.Normalize | src/components/properties/PropertiesFilters.tsx:50-54 | only the type field changes |
| PropertiesFilters.NormalizeTypes | src/components/properties/PropertiesFilters.tsx:26-30 | villa, apartment and penthouse map to 6499, 2799 and 3099; other names and codes map to `undefined` |
| PropertiesFilters.InputText | src/components/properties/PropertiesFilters.tsx:73 | an input shows its text or "" |
| PropertiesFilters.FiltersForm.constructor | src/components/properties/PropertiesFilters.tsx:35-39 | an empty feature list, advanced panel closed |
| PropertiesFilters.FiltersForm.Update | src/components/properties/PropertiesFilters.tsx:41-46 | one field set, every other field kept |
| PropertiesFilters.FiltersForm.HandleSearch | src/components/properties/PropertiesFilters.tsx:50-57 | the normalized values go to the callback if there is one |
| PropertiesFilters.FiltersForm.ResetFilters | src/components/properties/PropertiesFilters.tsx:59-63 | the form empties and the empty values go to the callback |
| PropertiesFilters.FiltersForm.ToggleAdvanced | src/components/properties/PropertiesFilters.tsx:133 | the panel flips, values kept |

## Left out

- Network requests, JSON parsing and HTTP status are modelled as an `Option` parameter. `None` stands for a failed request.
- Rendering, animation, scrolling, navigation, translations and `console` output are left out. Translated strings such as "years" are parameters.
- Numbers are integers. Fractions, exponents and hexadecimal strings read as NaN. `toLocaleString` formatting is not modelled.
- Case mapping covers ASCII letters only. Strings are sequences of characters, not UTF-16 code units.
- Property reads on primitives give `undefined`, except array index keys. Keys inherited from the prototype are not modelled, so `TYPE_MAPPING["constructor"]` is not modelled.
- An `Array.from` length above the array limit would throw a `RangeError`; this is not modelled.
- Objects and arrays compare by value, while `Set` and `===` compare them by reference. This only matters for `tipoinmo` values that are objects.
- Asynchrony is left out. Each effect runs to completion in one method call, so the overlapping requests of a fast language change are not modelled.
- Catalog.MatchRef: a reference that is neither a string nor nullish makes the source's filter throw; the model treats it as no match.
- PropertyDetails.CleanDescription: requires a string or a falsy value, because any other truthy description has no `replace` and throws.
- PropertySpecs.EnergyStrip: requires a string or nullish rating, because `toUpperCase` throws on other values.
- PropertySpecs.Display: requires a value without objects inside, which React refuses to render.
- PropertyMapper.MapInmovillaToProperty: requires a record that is not nullish, because reading its fields throws.
- Catalog.FilterProperties: a `null` or `undefined` record makes the source's filter throw when it reads `prop.keyacci`; the model keeps no such exception and evaluates the record as one without fields (kept when no facet is set and the price is unreadable).
- Catalog.AllTypes: a `null` or `undefined` record makes the source throw when it reads `tipoinmo`; the model gives `undefined` for it, so it adds no type.
- Catalog.InitialFiltersKeep: also covers a nullish record, which the source's filter does not reach because it throws first.
- Catalog.MissingTownSearchable: also covers a nullish record, for which the source's search template throws instead of matching.
- Catalog.CatalogPage: the grid and header are not modelled.
- PropertyPreview.PreviewPanel: `isOpen` and the close handlers are not modelled. `Open` is the effect of an open panel.
- PropertyCard.CardCarousel: `onError`, which replaces a broken image with a placeholder, is not modelled.
- PropertyCard.CardImages: an `images` value that is a non-empty string, or an object with its own positive `length`, is treated as no images; the source would cycle through its characters or keys.
- PropertyCard.RenderFields: of the fields the card reads, only those that decide what it shows are modelled; the title, reference, location and spec values are displayed as they are.

## Findings

| source | as written | input that shows it | evidently intended | confidence | as-written member | corrected member |
|---|---|---|---|---|---|---|
| src/pages/Properties.tsx:117 | the grid gives each raw hook record to the card, which reads `property.specs.beds` (PropertyCard.tsx line 152) and so throws, and whose unavailable check reads a `status` field that raw records lack | any listing record without `specs` and `status`, such as `{"cod_ofer": 1, "ref": "A1"}` | the card receives the mapped record (its props have the mapper's `Property` type), so it never throws and hides exactly the unavailable listings | medium, not executed | PropertyCard.RawRecordThrows | PropertyCard.MappedCard |
