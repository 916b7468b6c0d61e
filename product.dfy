/**
 * The domain model of the catalog (Model/Product.swift): an immutable `Product`
 * and its `Rating`. Swift's `Double` and `Decimal` are modelled as `real`
 * (no NaN, no rounding).
 */
module ProductModel {
  import opened Wrappers

  /** Foundation's `Decimal`; the price carries two fractional digits by convention of its producer. */
  type Decimal = real

  /** Foundation's `URL`; how it is resolved belongs to Foundation, not to this model. */
  datatype Url = Url(absoluteString: string)

  /** `Rating.minRawValue` and `Rating.maxRawValue`. */
  const MinRawValue: real := 0.0
  const MaxRawValue: real := 5.0

  /** Swift's `max(x, y)` on `Double` (the second argument wins a tie). */
  function Max(x: real, y: real): real {
    if y >= x then y else x
  }

  /** Swift's `min(x, y)` on `Double` (the first argument wins a tie). */
  function Min(x: real, y: real): real {
    if y < x then y else x
  }

  /** The stored shape of a `Product.Rating`. */
  datatype Rating = Rating(rawValue: real)

  /**
   * A `Product.Rating` as the domain model holds it. Swift gives the struct no
   * memberwise initialiser, so every rating comes from `init(rawValue:)` or a
   * literal initialiser, and its raw value lies within `[MinRawValue, MaxRawValue]`.
   */
  type BoundedRating = r: Rating | MinRawValue <= r.rawValue <= MaxRawValue witness Rating(MinRawValue)

  /**
   * `Rating(rawValue:)` as written: the raw value is first raised to at least
   * `MaxRawValue`, then lowered to at most `MinRawValue`, so every input lands
   * on `MinRawValue`.
   */
  function MakeRating(rawValue: real): (r: BoundedRating)
    ensures r.rawValue == MinRawValue
    ensures MinRawValue <= r.rawValue <= MaxRawValue
  {
    var clamped := rawValue;
    var clamped := Max(clamped, MaxRawValue);
    var clamped := Min(MinRawValue, clamped);
    Rating(clamped)
  }

  /** `Rating(floatLiteral:)`, e.g. `let r: Rating = 4.5`. */
  function RatingFromFloatLiteral(floatLiteral: real): (r: BoundedRating)
    ensures r == MakeRating(floatLiteral)
    ensures r.rawValue == MinRawValue
  {
    MakeRating(floatLiteral)
  }

  /** `Rating(integerLiteral:)`, whose literal is declared as a `Double`. */
  function RatingFromIntegerLiteral(integerLiteral: real): (r: BoundedRating)
    ensures r == MakeRating(integerLiteral)
    ensures r.rawValue == MinRawValue
  {
    MakeRating(integerLiteral)
  }

  /** The rating's constructor ignores its input: two ratings built from any two values are equal. */
  lemma MakeRatingIgnoresInput(x: real, y: real)
    ensures MakeRating(x) == MakeRating(y) == Rating(MinRawValue)
  {
  }

  /** A value already inside the range is not kept, so the constructor does not act as a clamp. */
  lemma MakeRatingIsNotAClamp()
    ensures MinRawValue < 3.0 < MaxRawValue
    ensures MakeRating(3.0).rawValue != 3.0
  {
  }

  /** `Product`: every field is a `let`, set once by the initialiser. */
  datatype Product = Product(
    id: string,
    name: string,
    price: Decimal,
    detailedDescription: string,
    imageURL: Option<Url>,
    averageRating: Option<BoundedRating>,
    reviewCount: int,
    inStock: bool)

  /**
   * `Product.init?(id:name:price:detailedDescription:imageURL:averageRating:reviewCount:inStock:)`
   * with its default arguments. It is declared failable but has no path that
   * returns `nil`.
   */
  function MakeProduct(
    id: string,
    name: string := "",
    price: Decimal := 1.0,
    detailedDescription: string := "",
    imageURL: Option<Url> := None,
    averageRating: Option<BoundedRating> := None,
    reviewCount: int := 0,
    inStock: bool := false): (r: Option<Product>)
    ensures r.Some?
    ensures r.value.id == id && r.value.name == name && r.value.price == price
    ensures r.value.detailedDescription == detailedDescription && r.value.imageURL == imageURL
    ensures r.value.averageRating == averageRating
    ensures r.value.reviewCount == reviewCount && r.value.inStock == inStock
  {
    Some(Product(id, name, price, detailedDescription, imageURL, averageRating, reviewCount, inStock))
  }

  /** Whatever a product was built from, its rating, when present, lies within the rating range. */
  lemma ProductRatingInRange(p: Product)
    ensures p.averageRating.Some? ==> MinRawValue <= p.averageRating.value.rawValue <= MaxRawValue
  {
  }

  /** Omitted arguments take their declared defaults. */
  lemma MakeProductDefaults(id: string)
    ensures MakeProduct(id) == Some(Product(id, "", 1.0, "", None, None, 0, false))
  {
  }
}
