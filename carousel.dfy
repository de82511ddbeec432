/**
 * The list builder of the carousel JSON-LD component: `generateList`, which
 * turns the caller's records into the `itemListElement` entries of a
 * schema.org `ItemList`, one transform per value of `ofType`, and the object
 * assembly that wraps the entries together with the caller's passthrough
 * properties.
 */
module Carousel {
  import opened Wrappers
  import opened Json
  import Numerals

  // ---------------------------------------------------------------------------
  // The tag and the input records
  // ---------------------------------------------------------------------------

  /** The values of `ofType` that `generateList` has a `case` for. */
  datatype Kind = Default | Movie | Recipe | Course | Custom | Review

  /** The string literal of each `case`. */
  function KindName(k: Kind): string
  {
    match k
    case Default => "default"
    case Movie => "movie"
    case Recipe => "recipe"
    case Course => "course"
    case Custom => "custom"
    case Review => "review"
  }

  /** The `switch (ofType)`: the case a tag selects, or none for a tag that
      matches no `case` (the switch has no `default` arm). */
  function ParseKind(ofType: string): (k: Option<Kind>)
    ensures k.Some? ==> KindName(k.value) == ofType
    ensures k.None? ==> forall kind: Kind :: KindName(kind) != ofType
  {
    if ofType == "default" then Some(Default)
    else if ofType == "course" then Some(Course)
    else if ofType == "movie" then Some(Movie)
    else if ofType == "recipe" then Some(Recipe)
    else if ofType == "review" then Some(Review)
    else if ofType == "custom" then Some(Custom)
    else None
  }

  /** Each case's literal selects that case. */
  lemma ParseKindName(k: Kind)
    ensures ParseKind(KindName(k)) == Some(k)
  {
  }

  /** `Director`. */
  datatype Director = Director(name: string)

  /** `director?: Director | Director[]`: one director or an array of them. */
  datatype Directors = OneDirector(director: Director) | DirectorList(directors: seq<Director>)

  /** `DefaultDataProps`. */
  datatype DefaultRecord = DefaultRecord(url: string)

  /** The properties of `ExtendedCourseJsonLdProps` that the course case reads.
      The course props type is declared elsewhere, so the four course fields are
      kept as the values read from the record. */
  datatype CourseRecord = CourseRecord(
    url: string,
    courseName: Json,
    description: Json,
    providerName: Json,
    providerUrl: Json)

  /** `MovieJsonLdProps`; `review` and `aggregateRating` are of types declared
      elsewhere, kept as the values read (`undefined` when absent). */
  datatype MovieRecord = MovieRecord(
    name: string,
    url: string,
    image: string,
    dateCreated: Option<string>,
    director: Option<Directors>,
    review: Json,
    aggregateRating: Json)

  /** The `reviewRating` object of `ReviewJsonLdProps`. */
  datatype Rating = Rating(ratingValue: string, bestRating: Option<string>, worstRating: Option<string>)

  /** The `publisher` object of `ReviewJsonLdProps` (its `@type` is always "Organization"). */
  datatype Publisher = Publisher(name: string)

  /** `ReviewJsonLdProps`. */
  datatype ReviewRecord = ReviewRecord(
    reviewBody: string,
    authorName: string,
    authorType: Option<string>,
    reviewRating: Option<Rating>,
    itemReviewedType: Option<string>,
    itemReviewedName: string,
    datePublished: Option<string>,
    publisherName: Option<string>,
    publisher: Option<Publisher>)

  /** `CustomJsonLdProps`; `typeName` is the property `type`. */
  datatype CustomRecord = CustomRecord(position: Option<int>, name: string, typeName: string)

  /** `data`, in the shape of one case. A recipe record is the plain object it
      is, because the recipe case passes on every property it does not name. */
  datatype Data =
    | DefaultData(defaults: seq<DefaultRecord>)
    | CourseData(courses: seq<CourseRecord>)
    | MovieData(movies: seq<MovieRecord>)
    | RecipeData(recipes: seq<Object>)
    | ReviewData(reviews: seq<ReviewRecord>)
    | CustomData(customs: seq<CustomRecord>)

  function DataKind(data: Data): Kind
  {
    match data
    case DefaultData(_) => Default
    case CourseData(_) => Course
    case MovieData(_) => Movie
    case RecipeData(_) => Recipe
    case ReviewData(_) => Review
    case CustomData(_) => Custom
  }

  /** The number of records in `data`. */
  function Count(data: Data): nat
  {
    match data
    case DefaultData(s) => |s|
    case CourseData(s) => |s|
    case MovieData(s) => |s|
    case RecipeData(s) => |s|
    case ReviewData(s) => |s|
    case CustomData(s) => |s|
  }

  /** A recipe record is an object whose `instructions` is an array (the case
      calls `instructions.map`). */
  ghost predicate RecipeShaped(rec: Object)
  {
    rec.Valid() && rec.Get("instructions").Arr?
  }

  /** The caller's obligation: for a tag that selects a case, `data` has that
      case's shape. Nothing is checked at run time. */
  ghost predicate Shaped(data: Data, ofType: string)
  {
    match ParseKind(ofType)
    case None => true
    case Some(k) =>
      DataKind(data) == k
      && (data.RecipeData? ==>
            forall i :: 0 <= i < |data.recipes| ==> RecipeShaped(data.recipes[i]))
  }

  /** The field helpers imported from the schema utilities (`setReviews`,
      `setAuthor`, `setNutrition`, `setAggregateRating`, `setVideo`,
      `setInstruction`), whose definitions are not part of this model.
      `setInstruction` is the callback of `instructions.map`, so it receives the
      element, its index and the whole array. */
  datatype Collaborators = Collaborators(
    setReviews: Json -> Json,
    setAuthor: Json -> Json,
    setNutrition: Json -> Json,
    setAggregateRating: Json -> Json,
    setVideo: Json -> Json,
    setInstruction: (Json, nat, seq<Json>) -> Json)

  // ---------------------------------------------------------------------------
  // The entries of each case
  // ---------------------------------------------------------------------------

  const SchemaContext: Json := Str("https://schema.org")

  /** The position `${index + 1}` of the five cases other than `custom`: a
      canonical decimal string denoting the 1-based position. */
  function TextPosition(index: nat): (p: Json)
    ensures p.Str? && Numerals.IsCanonical(p.s) && Numerals.Value(p.s) == index + 1
  {
    Str(Numerals.Decimal(index + 1))
  }

  /** The entry `{ '@type': 'ListItem', position, item }`. */
  function ListItem(position: Json, item: Object): (r: Object)
    ensures r.keys == ["@type", "position", "item"]
    ensures r.Get("@type") == Str("ListItem")
    ensures r.Get("position") == position && r.Get("item") == Obj(item)
    ensures forall k :: r.Has(k) <==> k in r.keys
    ensures r.Has("item") && !r.Has("url")
  {
    Empty.Put("@type", Str("ListItem")).Put("position", position).Put("item", Obj(item))
  }

  /** The `default` entry: the record's `url` goes directly into the entry,
      which has no `item`. */
  function DefaultEntry(item: DefaultRecord, index: nat): (r: Object)
    ensures r.keys == ["@type", "position", "url"]
    ensures r.Get("@type") == Str("ListItem") && r.Get("position") == TextPosition(index)
    ensures r.Get("url") == Str(item.url)
    ensures forall k :: r.Has(k) <==> k in r.keys
    ensures r.Has("url") && !r.Has("item")
  {
    Empty.Put("@type", Str("ListItem")).Put("position", TextPosition(index)).Put("url", Str(item.url))
  }

  /** The `course` item: `courseName` becomes `name`, and the provider's name
      and URL become a nested Organization. */
  function CourseItem(item: CourseRecord): (r: Object)
    ensures r.keys == ["@context", "@type", "url", "name", "description", "provider"]
    ensures forall k :: r.Has(k) <==> k in r.keys
    ensures r.Get("@context") == SchemaContext && r.Get("@type") == Str("Course")
    ensures r.Get("url") == Str(item.url)
    ensures r.Get("name") == item.courseName && r.Get("description") == item.description
    ensures r.Get("provider").Obj? && r.Get("provider").obj.keys == ["@type", "name", "sameAs"]
    ensures forall k :: r.Get("provider").obj.Has(k) <==> k in r.Get("provider").obj.keys
    ensures Prop(r.Get("provider"), "@type") == Str("Organization")
    ensures Prop(r.Get("provider"), "name") == item.providerName
    ensures Prop(r.Get("provider"), "sameAs") == item.providerUrl
  {
    var provider := Object(["@type", "name", "sameAs"], map[
      "@type" := Str("Organization"),
      "name" := item.providerName,
      "sameAs" := item.providerUrl]);
    Object(["@context", "@type", "url", "name", "description", "provider"], map[
      "@context" := SchemaContext,
      "@type" := Str("Course"),
      "url" := Str(item.url),
      "name" := item.courseName,
      "description" := item.description,
      "provider" := Obj(provider)])
  }

  /** `{ '@type': 'Person', name }`. */
  function Person(name: string): (r: Object)
    ensures r.keys == ["@type", "name"]
    ensures forall k :: r.Has(k) <==> k in r.keys
    ensures r.Get("@type") == Str("Person") && r.Get("name") == Str(name)
  {
    Empty.Put("@type", Str("Person")).Put("name", Str(name))
  }

  /** The movie's `director`: an array of Persons for an array (same length and
      order), a single Person for a single director, `undefined` for none. Both
      a director object and an array are truthy, so only an absent director
      takes the `undefined` branch. */
  function DirectorValue(d: Option<Directors>): (r: Json)
    ensures d.None? <==> r == Undefined
    ensures d.Some? && d.value.OneDirector? ==> r == Obj(Person(d.value.director.name))
    ensures d.Some? && d.value.DirectorList? ==>
              r.Arr? && |r.elems| == |d.value.directors|
              && forall i :: 0 <= i < |r.elems| ==> r.elems[i] == Obj(Person(d.value.directors[i].name))
  {
    match d
    case None => Undefined
    case Some(OneDirector(one)) => Obj(Person(one.name))
    case Some(DirectorList(ds)) => Arr(seq(|ds|, i requires 0 <= i < |ds| => Obj(Person(ds[i].name))))
  }

  /** The `movie` item. The record's `aggregateRating` is not copied. */
  function MovieItem(item: MovieRecord, c: Collaborators): (r: Object)
    ensures r.keys == ["@context", "@type", "name", "url", "image", "dateCreated", "director", "review"]
    ensures forall k :: r.Has(k) <==> k in r.keys
    ensures r.Get("@context") == SchemaContext && r.Get("@type") == Str("Movie")
    ensures r.Get("name") == Str(item.name) && r.Get("url") == Str(item.url)
    ensures r.Get("image") == Str(item.image) && r.Get("dateCreated") == OptStr(item.dateCreated)
    ensures r.Get("director") == DirectorValue(item.director)
    ensures r.Get("review") == c.setReviews(item.review)
    ensures !r.Has("aggregateRating")
  {
    Object(["@context", "@type", "name", "url", "image", "dateCreated", "director", "review"], map[
      "@context" := SchemaContext,
      "@type" := Str("Movie"),
      "name" := Str(item.name),
      "url" := Str(item.url),
      "image" := Str(item.image),
      "dateCreated" := OptStr(item.dateCreated),
      "director" := DirectorValue(item.director),
      "review" := c.setReviews(item.review)])
  }

  /** The properties the recipe case takes out of the record by name. */
  const RecipeNamed: seq<string> :=
    ["authorName", "images", "yields", "category", "calories",
     "aggregateRating", "video", "ingredients", "instructions", "cuisine"]

  /** The properties the recipe case writes after spreading the rest of the record. */
  const RecipeWritten: seq<string> :=
    ["author", "image", "recipeYield", "recipeCategory", "recipeCuisine",
     "nutrition", "aggregateRating", "video", "recipeIngredient", "recipeInstructions"]

  /** The start of the `recipe` item: `{ '@context', '@type': 'Recipe',
      ...rest }`, where `rest` is every property of the record except the
      named ones; a passed-on `@context` or `@type` replaces the constant. */
  function RecipeBase(rec: Object): (r: Object)
    requires rec.Valid()
    ensures r.Valid()
    ensures forall k :: r.Get(k) ==
              if rec.Has(k) && k !in RecipeNamed then rec.Get(k)
              else if k == "@context" then SchemaContext
              else if k == "@type" then Str("Recipe")
              else Undefined
    ensures forall k :: r.Has(k) <==> k == "@context" || k == "@type" || (rec.Has(k) && k !in RecipeNamed)
    ensures |r.keys| >= 2 && r.keys[..2] == ["@context", "@type"]
  {
    var head := Empty.Put("@context", SchemaContext).Put("@type", Str("Recipe"));
    head.Spread(rec.Without(RecipeNamed))
  }

  /** Without array-index keys in the record, the start of the recipe item has
      none either, so `@context` and `@type` are also the first keys that
      JavaScript enumerates. */
  lemma RecipeBaseKeyOrder(rec: Object)
    requires rec.Valid() && NoArrayIndex(rec.keys)
    ensures NoArrayIndex(RecipeBase(rec).keys)
  {
    var r := RecipeBase(rec);
    NotArrayIndex("@context");
    NotArrayIndex("@type");
    forall k | k in r.keys ensures !IsArrayIndex(k) {
      assert r.Has(k);
      assert k == "@context" || k == "@type" || rec.Has(k);
    }
  }

  /** `xs.map(f)`: the element-wise image of `xs`, in order; the callback is
      given each element together with its index and the whole array. */
  function MapEach(xs: seq<Json>, f: (Json, nat, seq<Json>) -> Json): (r: seq<Json>)
    ensures |r| == |xs|
    ensures forall i :: 0 <= i < |xs| ==> r[i] == f(xs[i], i, xs)
  {
    seq(|xs|, i requires 0 <= i < |xs| => f(xs[i], i, xs))
  }

  /** The properties the recipe case writes after the spread, defined on top
      of `base`: they replace any property of `base` with the same name. */
  function RecipeFields(base: Object, rec: Object, c: Collaborators): (r: Object)
    requires rec.Get("instructions").Arr?
    ensures r.Get("author") == c.setAuthor(rec.Get("authorName"))
    ensures r.Get("image") == rec.Get("images")
    ensures r.Get("recipeYield") == rec.Get("yields")
    ensures r.Get("recipeCategory") == rec.Get("category")
    ensures r.Get("recipeCuisine") == rec.Get("cuisine")
    ensures r.Get("nutrition") == c.setNutrition(rec.Get("calories"))
    ensures r.Get("aggregateRating") == c.setAggregateRating(rec.Get("aggregateRating"))
    ensures r.Get("video") == c.setVideo(rec.Get("video"))
    ensures r.Get("recipeIngredient") == rec.Get("ingredients")
    ensures r.Get("recipeInstructions") == Arr(MapEach(rec.Get("instructions").elems, c.setInstruction))
  {
    base
      .Put("author", c.setAuthor(rec.Get("authorName")))
      .Put("image", rec.Get("images"))
      .Put("recipeYield", rec.Get("yields"))
      .Put("recipeCategory", rec.Get("category"))
      .Put("recipeCuisine", rec.Get("cuisine"))
      .Put("nutrition", c.setNutrition(rec.Get("calories")))
      .Put("aggregateRating", c.setAggregateRating(rec.Get("aggregateRating")))
      .Put("video", c.setVideo(rec.Get("video")))
      .Put("recipeIngredient", rec.Get("ingredients"))
      .Put("recipeInstructions", Arr(MapEach(rec.Get("instructions").elems, c.setInstruction)))
  }

  /** A property the recipe case does not write keeps its value from `base`. */
  lemma RecipeFieldsKeep(base: Object, rec: Object, c: Collaborators, k: string)
    requires rec.Get("instructions").Arr?
    ensures k !in RecipeWritten ==> RecipeFields(base, rec, c).Get(k) == base.Get(k)
    ensures RecipeFields(base, rec, c).Has(k) <==> k in RecipeWritten || base.Has(k)
  {
  }

  /** The `recipe` item: `{ '@context', '@type': 'Recipe', ...rest, author,
      image, ..., recipeInstructions }`. The ten written properties always hold
      the renamed or helper-shaped record values; every other property of the
      record is passed on, except the ten the case takes out by name. */
  function RecipeItem(rec: Object, c: Collaborators): (r: Object)
    requires RecipeShaped(rec)
    ensures r.Get("author") == c.setAuthor(rec.Get("authorName"))
    ensures r.Get("image") == rec.Get("images")
    ensures r.Get("recipeYield") == rec.Get("yields")
    ensures r.Get("recipeCategory") == rec.Get("category")
    ensures r.Get("recipeCuisine") == rec.Get("cuisine")
    ensures r.Get("nutrition") == c.setNutrition(rec.Get("calories"))
    ensures r.Get("aggregateRating") == c.setAggregateRating(rec.Get("aggregateRating"))
    ensures r.Get("video") == c.setVideo(rec.Get("video"))
    ensures r.Get("recipeIngredient") == rec.Get("ingredients")
    ensures r.Get("recipeInstructions") == Arr(MapEach(rec.Get("instructions").elems, c.setInstruction))
    ensures forall k :: k !in RecipeWritten ==>
              r.Get(k) == (if rec.Has(k) && k !in RecipeNamed then rec.Get(k)
                           else if k == "@context" then SchemaContext
                           else if k == "@type" then Str("Recipe")
                           else Undefined)
    ensures forall k :: r.Has(k) <==>
              k in RecipeWritten || k == "@context" || k == "@type" || (rec.Has(k) && k !in RecipeNamed)
  {
    var base := RecipeBase(rec);
    forall k ensures k !in RecipeWritten ==> RecipeFields(base, rec, c).Get(k) == base.Get(k)
      ensures RecipeFields(base, rec, c).Has(k) <==> k in RecipeWritten || base.Has(k)
    {
      RecipeFieldsKeep(base, rec, c, k);
    }
    RecipeFields(base, rec, c)
  }

  /** What `value || fallback` yields for an optional string property: the
      value when it is present and not empty, the fallback otherwise. */
  function Filled(value: Option<string>, fallback: string): string
  {
    if value.Some? && value.value != "" then value.value else fallback
  }

  /** `||` on an optional string property is `Filled`: an absent value and an
      empty string both get the fallback. */
  lemma OrIsFilled(value: Option<string>, fallback: string)
    requires fallback != ""
    ensures Or(OptStr(value), Str(fallback)) == Str(Filled(value, fallback))
    ensures Filled(value, fallback) != ""
  {
  }

  /** The review's `reviewRating`: `undefined` for an absent rating; otherwise
      a Rating whose `bestRating` and `worstRating` default to "5" and "1"
      whenever the given value is falsy. */
  function RatingValue(rating: Option<Rating>): (r: Json)
    ensures rating.None? <==> r == Undefined
    ensures rating.Some? ==>
              && r.Obj? && r.obj.keys == ["@type", "ratingValue", "bestRating", "worstRating"]
              && (forall k :: r.obj.Has(k) <==> k in r.obj.keys)
              && Prop(r, "@type") == Str("Rating")
              && Prop(r, "ratingValue") == Str(rating.value.ratingValue)
              && Prop(r, "bestRating") == Str(Filled(rating.value.bestRating, "5"))
              && Prop(r, "worstRating") == Str(Filled(rating.value.worstRating, "1"))
  {
    match rating
    case None => Undefined
    case Some(given) =>
      Obj(Empty
        .Put("@type", Str("Rating"))
        .Put("ratingValue", Str(given.ratingValue))
        .Put("bestRating", Or(OptStr(given.bestRating), Str("5")))
        .Put("worstRating", Or(OptStr(given.worstRating), Str("1"))))
  }

  /** `{ '@type': kind || fallback, name }`, the review's author and reviewed item. */
  function TypedName(kind: Option<string>, fallback: string, name: string): (r: Json)
    requires fallback != ""
    ensures r.Obj? && r.obj.keys == ["@type", "name"]
    ensures forall k :: r.obj.Has(k) <==> k in r.obj.keys
    ensures Prop(r, "@type") == Str(Filled(kind, fallback)) && Prop(r, "name") == Str(name)
  {
    Obj(Empty.Put("@type", Or(OptStr(kind), Str(fallback))).Put("name", Str(name)))
  }

  /** The review's `publisher`: present exactly when the record's `publisher`
      is (an object is always truthy), and then named by `publisherName`, not by
      the record's `publisher.name`. */
  function PublisherValue(item: ReviewRecord): (r: Json)
    ensures Truthy(r) <==> item.publisher.Some?
    ensures item.publisher.None? ==> r == Undefined
    ensures item.publisher.Some? ==>
              && r.Obj? && r.obj.keys == ["@type", "name"]
              && (forall k :: r.obj.Has(k) <==> k in r.obj.keys)
              && Prop(r, "@type") == Str("Organization")
              && Prop(r, "name") == OptStr(item.publisherName)
  {
    if item.publisher.Some? then
      Obj(Empty.Put("@type", Str("Organization")).Put("name", OptStr(item.publisherName)))
    else
      Undefined
  }

  /** The review item's object literal, given its values. */
  function ReviewLiteral(body: Json, author: Json, rating: Json, reviewed: Json,
                         published: Json, publisher: Json): (r: Object)
    ensures r.keys == ["@context", "@type", "reviewBody", "author", "reviewRating",
                       "itemReviewed", "datePublished", "publisher"]
    ensures forall k :: r.Has(k) <==> k in r.keys
    ensures r.Get("@context") == SchemaContext && r.Get("@type") == Str("Review")
    ensures r.Get("reviewBody") == body && r.Get("author") == author
    ensures r.Get("reviewRating") == rating && r.Get("itemReviewed") == reviewed
    ensures r.Get("datePublished") == published && r.Get("publisher") == publisher
  {
    Object(["@context", "@type", "reviewBody", "author", "reviewRating",
            "itemReviewed", "datePublished", "publisher"], map[
      "@context" := SchemaContext,
      "@type" := Str("Review"),
      "reviewBody" := body,
      "author" := author,
      "reviewRating" := rating,
      "itemReviewed" := reviewed,
      "datePublished" := published,
      "publisher" := publisher])
  }

  /** The `review` item. */
  function ReviewItem(item: ReviewRecord): (r: Object)
    ensures r.keys == ["@context", "@type", "reviewBody", "author", "reviewRating",
                       "itemReviewed", "datePublished", "publisher"]
    ensures forall k :: r.Has(k) <==> k in r.keys
    ensures r.Get("@context") == SchemaContext && r.Get("@type") == Str("Review")
    ensures r.Get("reviewBody") == Str(item.reviewBody)
    ensures r.Get("author") == TypedName(item.authorType, "Person", item.authorName)
    ensures r.Get("itemReviewed") == TypedName(item.itemReviewedType, "Organization", item.itemReviewedName)
    ensures Prop(r.Get("author"), "@type") == Str(Filled(item.authorType, "Person"))
    ensures Prop(r.Get("author"), "name") == Str(item.authorName)
    ensures r.Get("reviewRating") == RatingValue(item.reviewRating)
    ensures Prop(r.Get("itemReviewed"), "@type") == Str(Filled(item.itemReviewedType, "Organization"))
    ensures Prop(r.Get("itemReviewed"), "name") == Str(item.itemReviewedName)
    ensures r.Get("datePublished") == OptStr(item.datePublished)
    ensures r.Get("publisher") == PublisherValue(item)
  {
    ReviewLiteral(Str(item.reviewBody),
                  TypedName(item.authorType, "Person", item.authorName),
                  RatingValue(item.reviewRating),
                  TypedName(item.itemReviewedType, "Organization", item.itemReviewedName),
                  OptStr(item.datePublished),
                  PublisherValue(item))
  }

  /** The `custom` position `item.position ?? index + 1`: the given number
      whenever one is given, zero included, and the 1-based index otherwise. */
  function CustomPosition(item: CustomRecord, index: nat): (p: Json)
    ensures p.Num?
    ensures item.position.Some? ==> p == Num(item.position.value)
    ensures item.position.None? ==> p == Num(index + 1)
  {
    Coalesce(OptNum(item.position), Num(index + 1))
  }

  /** The `custom` item: exactly `{ '@type': item.type, name: item.name }`. */
  function CustomItem(item: CustomRecord): (r: Object)
    ensures r.keys == ["@type", "name"]
    ensures forall k :: r.Has(k) <==> k in r.keys
    ensures r.Get("@type") == Str(item.typeName) && r.Get("name") == Str(item.name)
  {
    Empty.Put("@type", Str(item.typeName)).Put("name", Str(item.name))
  }

  // ---------------------------------------------------------------------------
  // generateList and the assembled ItemList
  // ---------------------------------------------------------------------------

  /** The `item` that the case for `data`'s shape wraps for record `i`. */
  function EntryItem(data: Data, i: nat, c: Collaborators): (r: Object)
    requires i < Count(data) && !data.DefaultData?
    requires data.RecipeData? ==> RecipeShaped(data.recipes[i])
    ensures data.CourseData? ==> r == CourseItem(data.courses[i])
    ensures data.MovieData? ==> r == MovieItem(data.movies[i], c)
    ensures data.RecipeData? ==> r == RecipeItem(data.recipes[i], c)
    ensures data.ReviewData? ==> r == ReviewItem(data.reviews[i])
    ensures data.CustomData? ==> r == CustomItem(data.customs[i])
  {
    match data
    case CourseData(items) => CourseItem(items[i])
    case MovieData(items) => MovieItem(items[i], c)
    case RecipeData(items) => RecipeItem(items[i], c)
    case ReviewData(items) => ReviewItem(items[i])
    case CustomData(items) => CustomItem(items[i])
  }

  /** The entry that the case for `data`'s shape makes of record `i`: a
      ListItem at the 1-based position (as a string for every case but
      `custom`), wrapping an item for every case but `default`. */
  function Entry(data: Data, i: nat, c: Collaborators): (r: Object)
    requires i < Count(data)
    requires data.RecipeData? ==> RecipeShaped(data.recipes[i])
    ensures r.Get("@type") == Str("ListItem")
    ensures data.DefaultData? ==> r.keys == ["@type", "position", "url"]
    ensures !data.DefaultData? ==> r.keys == ["@type", "position", "item"]
    ensures forall k :: r.Has(k) <==> k in r.keys
    ensures !data.CustomData? ==> r.Get("position") == TextPosition(i)
    ensures data.CustomData? ==> r.Get("position") == CustomPosition(data.customs[i], i)
    ensures data.DefaultData? <==> !r.Has("item")
    ensures data.DefaultData? <==> r.Has("url")
    ensures data.DefaultData? ==> r.Get("url") == Str(data.defaults[i].url)
    ensures !data.DefaultData? ==> r.Get("item") == Obj(EntryItem(data, i, c))
  {
    if data.DefaultData? then DefaultEntry(data.defaults[i], i)
    else
      var position := if data.CustomData? then CustomPosition(data.customs[i], i) else TextPosition(i);
      ListItem(position, EntryItem(data, i, c))
  }

  /** `generateList(data, ofType)`: for a tag with a `case`, one entry per
      record, in order; for any other tag, no list at all. */
  function GenerateList(data: Data, ofType: string, c: Collaborators): (r: Option<seq<Object>>)
    requires Shaped(data, ofType)
    ensures r.None? <==> ParseKind(ofType).None?
    ensures r.Some? ==> |r.value| == Count(data)
    ensures r.Some? ==> forall i :: 0 <= i < |r.value| ==> r.value[i] == Entry(data, i, c)
  {
    match ParseKind(ofType)
    case None => None
    case Some(Default) =>
      var items := data.defaults;
      Some(seq(|items|, i requires 0 <= i < |items| => DefaultEntry(items[i], i)))
    case Some(Course) =>
      var items := data.courses;
      Some(seq(|items|, i requires 0 <= i < |items| => ListItem(TextPosition(i), CourseItem(items[i]))))
    case Some(Movie) =>
      var items := data.movies;
      Some(seq(|items|, i requires 0 <= i < |items| => ListItem(TextPosition(i), MovieItem(items[i], c))))
    case Some(Recipe) =>
      var items := data.recipes;
      Some(seq(|items|, i requires 0 <= i < |items| && RecipeShaped(items[i]) =>
        ListItem(TextPosition(i), RecipeItem(items[i], c))))
    case Some(Review) =>
      var items := data.reviews;
      Some(seq(|items|, i requires 0 <= i < |items| => ListItem(TextPosition(i), ReviewItem(items[i]))))
    case Some(Custom) =>
      var items := data.customs;
      Some(seq(|items|, i requires 0 <= i < |items| => ListItem(CustomPosition(items[i], i), CustomItem(items[i]))))
  }

  /** The key of the computed list in the assembled object. */
  const ListKey: string := "itemListElement"

  /** The value of `itemListElement`: the array of entries, or `undefined` when
      `generateList` returned nothing. */
  function ItemListElement(list: Option<seq<Object>>): (r: Json)
    ensures list.None? <==> r == Undefined
    ensures list.Some? ==>
              r.Arr? && |r.elems| == |list.value|
              && forall i :: 0 <= i < |list.value| ==> r.elems[i] == Obj(list.value[i])
  {
    match list
    case None => Undefined
    case Some(items) => Arr(seq(|items|, i requires 0 <= i < |items| => Obj(items[i])))
  }

  /** The assembly `{ '@type': 'ItemList', ...rest, itemListElement: list,
      ...rest }`. A passthrough property replaces both `@type` and the
      computed `itemListElement`; the keys come in the order `@type`, the
      passthrough keys, then `itemListElement` unless a passthrough property
      already holds that name. */
  function AssembleItemList(list: Json, rest: Object): (r: Object)
    requires rest.Valid()
    ensures r.Valid()
    ensures forall k :: r.Get(k) ==
              if rest.Has(k) then rest.Get(k)
              else if k == ListKey then list
              else if k == "@type" then Str("ItemList")
              else Undefined
    ensures forall k :: r.Has(k) <==> rest.Has(k) || k == ListKey || k == "@type"
    ensures r.keys == ["@type"] + Missing(rest.keys, ["@type"])
                      + (if rest.Has(ListKey) then [] else [ListKey])
  {
    var withList := ListAfterRest(list, rest);
    forall k | k in rest.keys ensures k in withList.keys {
      assert withList.Has(k);
    }
    MissingNone(rest.keys, withList.keys);
    var r := withList.Spread(rest);
    assert r.keys == withList.keys + [];
    r
  }

  /** The first three entries `{ '@type': 'ItemList', ...rest, itemListElement:
      list }` of the assembly, before the second spread of `rest`. */
  function ListAfterRest(list: Json, rest: Object): (r: Object)
    requires rest.Valid()
    ensures r.Valid()
    ensures forall k :: r.Get(k) ==
              if k == ListKey then list
              else if rest.Has(k) then rest.Get(k)
              else if k == "@type" then Str("ItemList")
              else Undefined
    ensures forall k :: r.Has(k) <==> rest.Has(k) || k == ListKey || k == "@type"
    ensures r.keys == ["@type"] + Missing(rest.keys, ["@type"])
                      + (if rest.Has(ListKey) then [] else [ListKey])
  {
    Empty.PutValid("@type", Str("ItemList"));
    var head := Empty.Put("@type", Str("ItemList"));
    var spread := head.Spread(rest);
    spread.PutValid(ListKey, list);
    assert head.keys == ["@type"];
    assert spread.Has(ListKey) <==> rest.Has(ListKey);
    spread.Put(ListKey, list)
  }

  /** Without array-index passthrough keys, the assembled object has none
      either, so the key order stated by `AssembleItemList` is the order in
      which JavaScript enumerates the object. */
  lemma AssembledKeyOrder(list: Json, rest: Object)
    requires rest.Valid() && NoArrayIndex(rest.keys)
    ensures NoArrayIndex(AssembleItemList(list, rest).keys)
  {
    var keys := AssembleItemList(list, rest).keys;
    var passed := Missing(rest.keys, ["@type"]);
    MissingMembers(rest.keys, ["@type"]);
    NotArrayIndex("@type");
    NotArrayIndex(ListKey);
    forall k | k in keys ensures !IsArrayIndex(k) {
      assert k == "@type" || k in passed || k == ListKey;
    }
  }

  /** `jsonLdData`: the ItemList object that the component hands to the
      renderer, for the caller's `data`, `ofType` and passthrough `rest`. */
  function JsonLdData(data: Data, ofType: string, rest: Object, c: Collaborators): (r: Object)
    requires Shaped(data, ofType) && rest.Valid()
    ensures r.Valid()
    ensures r.Get("@type") == if rest.Has("@type") then rest.Get("@type") else Str("ItemList")
    ensures rest.Has(ListKey) ==> r.Get(ListKey) == rest.Get(ListKey)
    ensures !rest.Has(ListKey) ==> r.Has(ListKey) && r.Get(ListKey) == ItemListElement(GenerateList(data, ofType, c))
    ensures !rest.Has(ListKey) && ParseKind(ofType).None? ==> r.Get(ListKey) == Undefined
    ensures !rest.Has(ListKey) && ParseKind(ofType).Some? ==>
              r.Get(ListKey).Arr? && |r.Get(ListKey).elems| == Count(data)
    ensures forall k :: k != "@type" && k != ListKey ==> r.Get(k) == rest.Get(k)
    ensures forall k :: r.Has(k) <==> rest.Has(k) || k == ListKey || k == "@type"
  {
    AssembleItemList(ItemListElement(GenerateList(data, ofType, c)), rest)
  }

  /** The component's named parameters; every other prop is the passthrough. */
  const NamedProps: seq<string> := ["type", "keyOverride", "ofType", "data"]

  /** The component: the props are destructured into `type`, `keyOverride`,
      `ofType`, `data` and the passthrough `rest`, and the ItemList is built from
      them. `type` and `keyOverride` only go to the renderer, so none of the
      four named props ever appears in the object; every other prop does, and
      wins over `@type` and the computed list. */
  function CarouselJsonLd(props: Object, data: Data, ofType: string, c: Collaborators): (r: Object)
    requires Shaped(data, ofType) && props.Valid()
    requires props.Get("ofType") == Str(ofType)
    ensures r.Valid()
    ensures forall k :: r.Has(k) <==> (props.Has(k) && k !in NamedProps) || k == ListKey || k == "@type"
    ensures forall k :: k in NamedProps ==> !r.Has(k)
    ensures forall k :: k !in NamedProps && k != "@type" && k != ListKey ==> r.Get(k) == props.Get(k)
    ensures r.Get("@type") == if props.Has("@type") then props.Get("@type") else Str("ItemList")
    ensures props.Has(ListKey) ==> r.Get(ListKey) == props.Get(ListKey)
    ensures !props.Has(ListKey) ==> r.Get(ListKey) == ItemListElement(GenerateList(data, ofType, c))
  {
    var rest := props.Without(NamedProps);
    assert forall k :: k in NamedProps ==> k != "@type" && k != ListKey;
    JsonLdData(data, ofType, rest, c)
  }

  // ---------------------------------------------------------------------------
  // Properties of the list and of the assembled object
  // ---------------------------------------------------------------------------

  /** For every case but `custom`, the entries count 1, 2, 3, ... in record
      order: entry `i` has the canonical decimal string of `i + 1` as its
      position, so positions strictly increase. */
  lemma TextPositionsCount(data: Data, ofType: string, c: Collaborators)
    requires Shaped(data, ofType) && ParseKind(ofType).Some? && !data.CustomData?
    ensures var r := GenerateList(data, ofType, c);
            r.Some? && |r.value| == Count(data)
            && (forall i :: 0 <= i < |r.value| ==>
                  var p := r.value[i].Get("position");
                  p.Str? && Numerals.IsCanonical(p.s) && Numerals.Value(p.s) == i + 1)
            && (forall i, j :: 0 <= i < j < |r.value| ==>
                  Numerals.Value(r.value[i].Get("position").s) < Numerals.Value(r.value[j].Get("position").s))
  {
  }

  /** For `custom`, entry `i` keeps the record's own position whenever it has
      one, zero included, and is otherwise numbered `i + 1`; its item is
      exactly `{ '@type': type, name }`. */
  lemma CustomEntries(items: seq<CustomRecord>, c: Collaborators)
    ensures var r := GenerateList(CustomData(items), "custom", c);
            r.Some? && |r.value| == |items|
            && forall i :: 0 <= i < |items| ==>
                 && r.value[i].Get("position")
                    == (if items[i].position.Some? then Num(items[i].position.value) else Num(i + 1))
                 && r.value[i].Get("item") == Obj(CustomItem(items[i]))
                 && CustomItem(items[i]).keys == ["@type", "name"]
                 && (forall k :: CustomItem(items[i]).Has(k) <==> k in CustomItem(items[i]).keys)
                 && CustomItem(items[i]).Get("@type") == Str(items[i].typeName)
                 && CustomItem(items[i]).Get("name") == Str(items[i].name)
  {
  }

  /** For `default`, entry `i` carries record `i`'s `url` and no `item`. */
  lemma DefaultEntries(items: seq<DefaultRecord>, c: Collaborators)
    ensures var r := GenerateList(DefaultData(items), "default", c);
            r.Some? && |r.value| == |items|
            && forall i :: 0 <= i < |items| ==>
                 r.value[i].Get("url") == Str(items[i].url) && !r.value[i].Has("item")
  {
  }

  /** For `movie`, the director keeps its shape: an array of Persons of the same
      length and order for an array, a single Person for a single director,
      `undefined` when there is none. */
  lemma MovieDirectors(items: seq<MovieRecord>, c: Collaborators)
    ensures var r := GenerateList(MovieData(items), "movie", c);
            r.Some? && |r.value| == |items|
            && forall i :: 0 <= i < |items| ==>
                 var d := Prop(r.value[i].Get("item"), "director");
                 && (items[i].director.None? ==> d == Undefined)
                 && (items[i].director.Some? && items[i].director.value.OneDirector? ==>
                       d == Obj(Person(items[i].director.value.director.name)))
                 && (items[i].director.Some? && items[i].director.value.DirectorList? ==>
                       var ds := items[i].director.value.directors;
                       d.Arr? && |d.elems| == |ds|
                       && forall j :: 0 <= j < |ds| ==> d.elems[j] == Obj(Person(ds[j].name)))
  {
    var r := GenerateList(MovieData(items), "movie", c);
    forall i | 0 <= i < |items|
      ensures Prop(r.value[i].Get("item"), "director") == DirectorValue(items[i].director)
    {
      assert r.value[i] == ListItem(TextPosition(i), MovieItem(items[i], c));
    }
  }

  /** The item of the `review` entry at `i` is that record's review item. */
  lemma ReviewEntryAt(items: seq<ReviewRecord>, c: Collaborators, i: nat)
    requires i < |items|
    ensures var r := GenerateList(ReviewData(items), "review", c);
            r.Some? && |r.value| == |items| && r.value[i].Get("item") == Obj(ReviewItem(items[i]))
  {
    var r := GenerateList(ReviewData(items), "review", c);
    assert r.value[i] == Entry(ReviewData(items), i, c);
  }

  /** For `review`, the author's type is `authorType` unless that is absent or
      empty, then "Person"; the reviewed item's type is `itemReviewedType`
      unless absent or empty, then "Organization". */
  lemma ReviewTypeDefaults(items: seq<ReviewRecord>, c: Collaborators)
    ensures var r := GenerateList(ReviewData(items), "review", c);
            r.Some? && |r.value| == |items|
            && forall i :: 0 <= i < |items| ==>
                 var item := r.value[i].Get("item");
                 && Prop(Prop(item, "author"), "@type")
                    == (if items[i].authorType.Some? && items[i].authorType.value != ""
                        then Str(items[i].authorType.value) else Str("Person"))
                 && Prop(Prop(item, "itemReviewed"), "@type")
                    == (if items[i].itemReviewedType.Some? && items[i].itemReviewedType.value != ""
                        then Str(items[i].itemReviewedType.value) else Str("Organization"))
  {
    var r := GenerateList(ReviewData(items), "review", c);
    forall i | 0 <= i < |items|
      ensures r.value[i].Get("item") == Obj(ReviewItem(items[i]))
    {
      ReviewEntryAt(items, c, i);
    }
  }

  /** For `review`, an absent rating stays `undefined`; a present one copies
      `ratingValue` and defaults `bestRating` to "5" and `worstRating` to "1"
      whenever the given value is absent or empty. */
  lemma ReviewRatingDefaults(items: seq<ReviewRecord>, c: Collaborators)
    ensures var r := GenerateList(ReviewData(items), "review", c);
            r.Some? && |r.value| == |items|
            && forall i :: 0 <= i < |items| ==>
                 var rating := Prop(r.value[i].Get("item"), "reviewRating");
                 var given := items[i].reviewRating;
                 && (given.None? ==> rating == Undefined)
                 && (given.Some? ==>
                       && Prop(rating, "ratingValue") == Str(given.value.ratingValue)
                       && Prop(rating, "bestRating")
                          == Str(if given.value.bestRating.Some? && given.value.bestRating.value != ""
                                 then given.value.bestRating.value else "5")
                       && Prop(rating, "worstRating")
                          == Str(if given.value.worstRating.Some? && given.value.worstRating.value != ""
                                 then given.value.worstRating.value else "1"))
  {
    var r := GenerateList(ReviewData(items), "review", c);
    forall i | 0 <= i < |items|
      ensures r.value[i].Get("item") == Obj(ReviewItem(items[i]))
    {
      ReviewEntryAt(items, c, i);
    }
  }

  /** For `review`, the publisher is present exactly when the record's
      `publisher` is, and is then named by `publisherName`: the record's
      `publisher.name` never reaches the output. */
  lemma ReviewPublisher(item: ReviewRecord, other: Publisher)
    ensures Truthy(ReviewItem(item).Get("publisher")) <==> item.publisher.Some?
    ensures item.publisher.Some? ==>
              Prop(ReviewItem(item).Get("publisher"), "name") == OptStr(item.publisherName)
    ensures item.publisher.Some? ==>
              ReviewItem(item.(publisher := Some(other))) == ReviewItem(item)
  {
  }

  /** What the recipe case makes of one record: `recipeInstructions` is the
      element-wise image of its `instructions`, and its property `k` is passed
      on when the case neither takes it out by name nor writes it. */
  predicate RecipeItemHolds(rec: Object, c: Collaborators, k: string, item: Json)
  {
    var ins := if rec.Get("instructions").Arr? then rec.Get("instructions").elems else [];
    var out := Prop(item, "recipeInstructions");
    && out.Arr? && |out.elems| == |ins|
    && (forall j :: 0 <= j < |ins| ==> out.elems[j] == c.setInstruction(ins[j], j, ins))
    && (k !in RecipeWritten && k !in RecipeNamed && rec.Has(k) ==> Prop(item, k) == rec.Get(k))
  }

  /** The recipe item of one record has the properties above. */
  lemma RecipeItemAt(rec: Object, c: Collaborators, k: string)
    requires RecipeShaped(rec)
    ensures RecipeItemHolds(rec, c, k, Obj(RecipeItem(rec, c)))
  {
    var item := RecipeItem(rec, c);
    assert Prop(Obj(item), "recipeInstructions") == item.Get("recipeInstructions");
    assert Prop(Obj(item), k) == item.Get(k);
  }

  /** Entry `i` of the recipe list wraps the recipe item of record `i`. */
  lemma RecipeEntryAt(items: seq<Object>, c: Collaborators, i: nat)
    requires forall j :: 0 <= j < |items| ==> RecipeShaped(items[j])
    requires i < |items|
    ensures var r := GenerateList(RecipeData(items), "recipe", c);
            r.Some? && |r.value| == |items| && r.value[i].Get("item") == Obj(RecipeItem(items[i], c))
  {
    var r := GenerateList(RecipeData(items), "recipe", c);
    assert r.value[i] == Entry(RecipeData(items), i, c);
  }

  /** For `recipe`, one entry per record; `recipeInstructions` is the
      element-wise image of `instructions` under the instruction helper, and a
      property of the record that the case does not name is passed on unless
      the case writes a property of that name afterwards. */
  lemma RecipeEntries(items: seq<Object>, c: Collaborators, k: string)
    requires forall i :: 0 <= i < |items| ==> RecipeShaped(items[i])
    ensures var r := GenerateList(RecipeData(items), "recipe", c);
            r.Some? && |r.value| == |items|
            && forall i :: 0 <= i < |items| ==> RecipeItemHolds(items[i], c, k, r.value[i].Get("item"))
  {
    var r := GenerateList(RecipeData(items), "recipe", c);
    forall i | 0 <= i < |items|
      ensures RecipeItemHolds(items[i], c, k, r.value[i].Get("item"))
    {
      RecipeEntryAt(items, c, i);
      RecipeItemAt(items[i], c, k);
      var item := r.value[i].Get("item");
      assert item == Obj(RecipeItem(items[i], c));
    }
  }
}
