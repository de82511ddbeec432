# Carousel JSON-LD list builder

A Dafny model of the carousel structured-data component of next-seo
(`src/jsonld/carousel.tsx`). The component turns an array of caller records
into a schema.org `ItemList`. The tag `ofType` picks one of six transforms:
`default`, `course`, `movie`, `recipe`, `review` and `custom`.
Each record becomes a `ListItem` with a 1-based `position`. The list is then
wrapped in an object together with the caller's passthrough properties.

The model is pure, like the source. It has four modules:

- `Wrappers`: the `Option` type used for the `?:` fields of the input records.
- `Numerals`: the decimal numeral `${n}` of a natural number and its inverse.
- `Json`: the JavaScript values the builder reads and writes. It also covers
  plain objects, defining a property, the object spread `{...o}`, the rest
  pattern `{a, ...rest}`, truthiness, `||` and `??`. An object keeps its keys
  in the order they were first defined. JavaScript enumerates keys in that
  order only when none of them is an array index such as `"0"`; array-index
  keys come first, in ascending order. `Json.NoArrayIndex` names that
  condition.
- `Carousel`: the input records, the six per-kind transforms, `generateList`
  (`GenerateList`), the `jsonLdData` assembly (`JsonLdData`), the split of the
  component's props into named parameters and passthrough (`CarouselJsonLd`),
  and the properties proved about them.

The six field helpers `setReviews`, `setAuthor`, `setNutrition`,
`setAggregateRating`, `setVideo` and `setInstruction` come from files that are
not part of this model. They are passed in as a `Collaborators` value of
arbitrary functions, so every property proved here holds whatever those
helpers do. The first five take the one value they are called with.
`setInstruction` is the callback of `instructions.map`, so it takes the
element, its index and the whole array.

`ofType` is a string. `GenerateList` returns `None` for a tag that matches no
`case`, because the `switch` has no `default` arm. The assembled object then
holds `itemListElement` with the value `undefined`. The shape of `data` is not
checked at run time (`data: any` plus casts), so `Shaped` states it as a
precondition.

## Model

| member | source | states |
|---|---|---|
| `Carousel.ParseKind` | src/jsonld/carousel.tsx:87-220 | A tag selects the case whose literal it equals; a tag equal to none of the six literals selects no case. |
| `Carousel.ParseKindName` | src/jsonld/carousel.tsx:66 | Each of the six declared `ofType` literals selects its own case. |
| `Numerals.Decimal` | src/jsonld/carousel.tsx:91 | `${n}` is a canonical decimal numeral (digits only, no leading zero) that denotes `n`. |
| `Numerals.DecimalOfValue` | src/jsonld/carousel.tsx:91 | Every canonical numeral is `${n}` of the number it denotes, so numerals and naturals correspond one to one. |
| `Numerals.DecimalInjective` | src/jsonld/carousel.tsx:91 | Different positions get different numerals. |
| `Carousel.TextPosition` | src/jsonld/carousel.tsx:98 | The position of every kind but `custom` is a string, the canonical numeral of `index + 1`. |
| `Carousel.ListItem` | src/jsonld/carousel.tsx:178-181 | An entry is exactly `{@type: "ListItem", position, item}`, keys in that order. |
| `Carousel.DefaultEntry` | src/jsonld/carousel.tsx:89-93 | A `default` entry has exactly the keys `@type`, `position`, `url`; it copies the record's `url` and has no `item`. |
| `Carousel.CourseItem` | src/jsonld/carousel.tsx:99-110 | A course item has exactly the keys `@context`, `@type`, `url`, `name`, `description`, `provider`, in that order, and no other property. It carries the schema context, type `Course`, the url, `courseName` as `name` and the description. The provider is an Organization with exactly the keys `@type`, `name`, `sameAs`, holding `providerName` as name and `providerUrl` as `sameAs`. |
| `Carousel.Person` | src/jsonld/carousel.tsx:126-133 | A director becomes `{@type: "Person", name}`: exactly these two keys in this order, and no other property. |
| `Carousel.DirectorValue` | src/jsonld/carousel.tsx:124-134 | `director` is `undefined` exactly when the record has none; one Person for one director; for an array, an array of Persons of the same length and order. |
| `Carousel.MovieItem` | src/jsonld/carousel.tsx:117-136 | A movie item has exactly the keys `@context`, `@type`, `name`, `url`, `image`, `dateCreated`, `director`, `review`, in that order. It copies name, url, image and dateCreated, shapes the director as above, and passes `review` through `setReviews`. It does not copy `aggregateRating`. |
| `Carousel.RecipeBase` | src/jsonld/carousel.tsx:142-162 | `{@context, @type: "Recipe", ...rest}` holds every record property except the ten named ones; a passed-on `@context` or `@type` replaces the constant; the context and type keys come first. |
| `Carousel.MapEach` | src/jsonld/carousel.tsx:172 | `xs.map(f)` has the length of `xs`; element `i` is `f` called with element `i`, the index `i` and the whole array. |
| `Carousel.RecipeFields` | src/jsonld/carousel.tsx:163-172 | The ten properties written after the spread hold the renamed or helper-shaped record values, whatever the spread put there. |
| `Carousel.RecipeFieldsKeep` | src/jsonld/carousel.tsx:162-172 | A property the recipe case does not write keeps the value the spread gave it, and the written ones are always present. |
| `Carousel.RecipeBaseKeyOrder` | src/jsonld/carousel.tsx:159-162 | A record without array-index keys gives a recipe item start without them, so `@context` and `@type` are also first in enumeration order. |
| `Carousel.RecipeItem` | src/jsonld/carousel.tsx:159-173 | The recipe item holds the ten written properties with their renamed or helper-shaped values; any other record property not taken out by name is passed on; `@context` and `@type` are the constants unless the record supplies them; nothing else is present. |
| `Carousel.RecipeItemAt` | src/jsonld/carousel.tsx:162-172 | In one recipe item, `recipeInstructions` is `setInstruction` applied to each instruction with its index and the array, and an unnamed, unwritten record property is passed on unchanged. |
| `Carousel.RecipeEntryAt` | src/jsonld/carousel.tsx:140-175 | Entry `i` of the recipe list wraps the recipe item of record `i`. |
| `Carousel.ReviewEntryAt` | src/jsonld/carousel.tsx:178-209 | Entry `i` of the review list wraps the review item of record `i`. |
| `Carousel.RecipeEntries` | src/jsonld/carousel.tsx:140-175 | For `recipe`, one entry per record; `recipeInstructions` is the element-wise image of `instructions` under `setInstruction`; an unnamed, unwritten record property is passed on unchanged. |
| `Carousel.OrIsFilled` | src/jsonld/carousel.tsx:186 | The logical-or default on an optional string gives the fallback for an absent value and for an empty string, and is never empty. |
| `Json.Or` | src/jsonld/carousel.tsx:193 | The logical-or operator on values yields `a` when `a` is truthy and `b` otherwise. |
| `Json.Coalesce` | src/jsonld/carousel.tsx:214 | `a ?? b` is `a` unless `a` is `undefined` or `null`, so falsy values such as `0` are kept. |
| `Carousel.RatingValue` | src/jsonld/carousel.tsx:189-196 | `reviewRating` is `undefined` exactly when absent. Otherwise it is a `Rating` with exactly the keys `@type`, `ratingValue`, `bestRating`, `worstRating`. `ratingValue` is copied, and `bestRating`/`worstRating` default to "5"/"1" when absent or empty. |
| `Carousel.TypedName` | src/jsonld/carousel.tsx:185-188 | Author and reviewed item are `{@type, name}`, with exactly these two keys and no other property. The type is the given kind unless it is absent or empty, and then it is the fallback. |
| `Carousel.PublisherValue` | src/jsonld/carousel.tsx:202-207 | `publisher` is present (truthy) exactly when the record's `publisher` is. It is then an Organization with exactly the keys `@type` and `name`, named by `publisherName`. |
| `Carousel.ReviewItem` | src/jsonld/carousel.tsx:181-208 | A review item has exactly the keys `@context`, `@type`, `reviewBody`, `author`, `reviewRating`, `itemReviewed`, `datePublished`, `publisher`, in that order. It carries the context, type `Review` and body. `author` and `itemReviewed` are exactly the `TypedName` objects with fallbacks "Person" and "Organization". The rating, date and publisher are as stated above. |
| `Carousel.CustomPosition` | src/jsonld/carousel.tsx:214 | A custom position is always a number: the record's own position whenever it has one (zero included), otherwise `index + 1`. |
| `Carousel.CustomItem` | src/jsonld/carousel.tsx:215-218 | A custom item is `{@type: item.type, name: item.name}`: exactly these two keys in this order, and no other property. |
| `Carousel.EntryItem` | src/jsonld/carousel.tsx:96-219 | The item of an entry is, case by case, the course, movie, recipe, review or custom item of the record at the same index. |
| `Carousel.Entry` | src/jsonld/carousel.tsx:87-220 | A `default` entry has exactly the keys `@type`, `position`, `url`, and every other entry has exactly `@type`, `position`, `item`, in that order. Entry `i` is a ListItem whose position is the numeral of `i + 1` for five kinds and the custom position for `custom`. A `default` entry carries the record's `url`, and every other entry's `item` is the record's item. |
| `Carousel.GenerateList` | src/jsonld/carousel.tsx:83-221 | For a known tag the list has one entry per record, entry `i` made from record `i`; for an unknown tag there is no list. |
| `Carousel.TextPositionsCount` | src/jsonld/carousel.tsx:89-180 | For the five non-custom kinds, entry `i` has position `"${i + 1}"`, so positions start at 1 and strictly increase in record order. |
| `Carousel.DefaultEntries` | src/jsonld/carousel.tsx:89-93 | For `default`, each entry copies its record's `url` and has no `item`. |
| `Carousel.CustomEntries` | src/jsonld/carousel.tsx:212-219 | For `custom`, entry `i` has the record's position when given, else `i + 1`. Its item is the record's `{@type, name}`, with exactly those two keys and no other property. |
| `Carousel.MovieDirectors` | src/jsonld/carousel.tsx:124-134 | For `movie`, each entry's director keeps the record's singular-or-plural shape, or is `undefined` when absent. |
| `Carousel.ReviewTypeDefaults` | src/jsonld/carousel.tsx:185-200 | For `review`, author type defaults to "Person" and reviewed-item type to "Organization" when the given type is absent or empty. |
| `Carousel.ReviewRatingDefaults` | src/jsonld/carousel.tsx:189-196 | For `review`, an absent rating stays `undefined`; a present one copies `ratingValue` and defaults best/worst to "5"/"1" when absent or empty. |
| `Carousel.ReviewPublisher` | src/jsonld/carousel.tsx:202-207 | The publisher is present exactly when the record's is, its name is `publisherName`, and the record's `publisher.name` cannot change the output. |
| `Json.Object.Spread` | src/jsonld/carousel.tsx:225 | `{...this, ...src}` takes each of `src`'s properties over the target's, keeps the others, and appends new keys in `src`'s order. |
| `Json.Object.Without` | src/jsonld/carousel.tsx:153 | The rest of `{a, b, ...rest}` holds every own property except the named ones, in the original order. |
| `Carousel.ItemListElement` | src/jsonld/carousel.tsx:226 | `itemListElement` is `undefined` when there is no list, else an array of the entries in order. |
| `Carousel.ListAfterRest` | src/jsonld/carousel.tsx:223-226 | After `{@type: "ItemList", ...rest, itemListElement}`, the list wins over a passthrough of that name, which keeps its place; other passthrough properties win over `@type`. |
| `Carousel.AssembleItemList` | src/jsonld/carousel.tsx:223-228 | In `{@type: "ItemList", ...rest, itemListElement, ...rest}` a passthrough property wins over `@type` and over the list; the keys are `@type`, the passthrough keys, then `itemListElement` unless a passthrough already holds it. |
| `Carousel.AssembledKeyOrder` | src/jsonld/carousel.tsx:223-228 | Without array-index passthrough keys the assembled object has none, so the key order `AssembleItemList` states is JavaScript's enumeration order. |
| `Carousel.JsonLdData` | src/jsonld/carousel.tsx:223-228 | A passthrough `@type` or `itemListElement` replaces the constant type and the computed list. Every other property is the passthrough's. The object holds exactly the passthrough keys, `@type` and `itemListElement`. Without a passthrough list, `itemListElement` is `undefined` for an unknown tag, else an array with one element per record. |
| `Carousel.CarouselJsonLd` | src/jsonld/carousel.tsx:76-82 | The `ofType` used is the `ofType` prop. The passthrough is every prop except `type`, `keyOverride`, `ofType` and `data`. None of these four ever appears in the ItemList, so a caller's `type` never reaches it. Every other prop does, and it wins over `@type` and the computed list. |

## Left out

- Carousel.CarouselJsonLd: the `data` prop is passed as the typed record array `Data`, not read from `props`. The `ofType` prop is tied to its parameter, but `data` is taken as given, because the records are not `Json` values in this model.
- Json.Object.Spread: the stated key order is the order in which keys are first defined. JavaScript enumerates array-index keys (`"0"`, `"1"`, …) first, in ascending order, so the stated order is the enumeration order only under `Json.NoArrayIndex`. Spread keeps that condition, but array-index keys are not reordered.
- Carousel.RecipeBase: a record key such as `"1"` would be enumerated before `@context` and `@type` in JavaScript. The stated order holds for records without array-index keys (`Carousel.RecipeBaseKeyOrder`).
- Carousel.AssembleItemList: a passthrough key such as `"0"` would be enumerated before `@type` in JavaScript. The stated order holds for passthrough fields without array-index keys (`Carousel.AssembledKeyOrder`).

- The rendering by the `JsonLd` component, with `type`, `keyOverride` and `scriptKey` (src/jsonld/carousel.tsx:230-237). The renderer is not part of this model.
- The bodies of `setReviews`, `setAuthor`, `setNutrition`, `setAggregateRating`, `setVideo` and `setInstruction`. Their source files are not part of this model, so they are arbitrary functions here. Whether `nutrition` ends up omitted for absent `calories` depends on `setNutrition` and on JSON serialisation. The model only shows that the key is always defined with `setNutrition(calories)`.
- The fields of `CourseJsonLdProps` and `RecipeJsonLdProps`. Both are declared in `src/index`, which is not part of this model. The course fields that are read are kept as arbitrary values, and a recipe record is a general object.
- Runtime shape checking of `data`: the source casts `data: any` without checks, so `Shaped` is a precondition.
- Number formatting: positions are integers, and `${n}` is modelled for naturals only. A non-integer `custom` position is not modelled.
- `Carousel.CustomPosition`: `position` is `Option<int>`, so a `null` position is not modelled. The JavaScript `??` would also replace `null` with `index + 1`, as `Json.Coalesce` shows.
- JSON serialisation, including the dropping of `undefined`-valued properties. The model keeps such properties, with the value `Undefined`.
- Idempotence: the model is made of pure functions, so equal inputs always give equal outputs. No lemma states this.
