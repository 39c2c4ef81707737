/** Application constants: page and upload sizes, rate-limit policies, seed categories. */
module Constants {

  const ITEMS_PER_PAGE: nat := 20
  const MAX_IMAGES: nat := 5
  const MAX_IMAGE_SIZE_MB: nat := 5
  const MAX_AVATAR_SIZE_MB: nat := 2

  /** At most `max` requests per client in each window of `windowMs` milliseconds. */
  datatype Policy = Policy(windowMs: nat, max: nat)

  /** The endpoint classes that have a rate-limit policy. */
  datatype PolicyClass = Auth | General | Items | Payments | Upload

  /** The `RATE_LIMIT` table. */
  function RateLimit(c: PolicyClass): (p: Policy)
    ensures p.windowMs == 60 * 1000
    ensures 5 <= p.max <= 60
    ensures p.max == 60 <==> c == General
  {
    match c
    case Auth => Policy(60 * 1000, 5)
    case General => Policy(60 * 1000, 60)
    case Items => Policy(60 * 1000, 30)
    case Payments => Policy(60 * 1000, 10)
    case Upload => Policy(60 * 1000, 10)
  }

  lemma RateLimitMaxima()
    ensures RateLimit(Auth).max == 5 && RateLimit(General).max == 60 && RateLimit(Items).max == 30
    ensures RateLimit(Payments).max == 10 && RateLimit(Upload).max == 10
  {
  }

  datatype Category = Category(name: string, slug: string, iconName: string)

  const SEED_CATEGORIES: seq<Category> := [
    Category("Textbooks", "textbooks", "book-open"),
    Category("Electronics", "electronics", "laptop"),
    Category("Furniture", "furniture", "armchair"),
    Category("Clothing", "clothing", "shirt"),
    Category("Sports & Fitness", "sports-fitness", "dumbbell"),
    Category("Stationery", "stationery", "pencil")
  ]

  /** Six seed categories, no two with the same slug (the slug is the categories' unique key). */
  lemma SeedCategoriesDistinct()
    ensures |SEED_CATEGORIES| == 6
    ensures forall i, j :: 0 <= i < j < |SEED_CATEGORIES| ==> SEED_CATEGORIES[i].slug != SEED_CATEGORIES[j].slug
  {
  }
}
