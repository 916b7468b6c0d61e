/**
 * The wire model of the catalog service and its conversion into the domain model
 * (Networking/SupercenterAPIClient.swift, "Network Models" and "Network Model =>
 * App Model Conversion"). Every field of a raw record is optional, and the raw
 * product array may hold nulls; conversion drops the nulls, then drops every
 * record that cannot become a `Product`, and keeps the order of the rest.
 */
module Conversion {
  import opened Wrappers
  import opened ProductModel

  /** `RawProduct`: one record exactly as decoded from the JSON body. */
  datatype RawProduct = RawProduct(
    productId: Option<string>,
    productName: Option<string>,
    shortDescription: Option<string>,
    price: Option<real>,
    productImage: Option<string>,
    reviewRating: Option<real>,
    reviewCount: Option<int>,
    inStock: Option<bool>)

  /** `RawProductsResponse`: the decoded body; only the two outer fields are required. */
  datatype RawProductsResponse = RawProductsResponse(products: seq<Option<RawProduct>>, totalProducts: int)

  /** `ProductCatalogService.ProductsResponse`: the page handed to the caller. */
  datatype ProductsResponse = ProductsResponse(totalCount: int, products: seq<Product>)

  /**
   * The two conversions the converter borrows from outside the model:
   * `Decimal(_:precision: 2)`, which may fail, and `URL(string:relativeTo:)`
   * against the configured image base, which may fail too.
   */
  datatype Collaborators = Collaborators(
    decimal: real -> Option<Decimal>,
    imageURL: string -> Option<Url>)

  /** Whether a raw record carries everything a `Product` needs. */
  predicate Convertible(raw: RawProduct, env: Collaborators) {
    && raw.productId.Some?
    && raw.productName.Some?
    && raw.price.Some?
    && env.decimal(raw.price.value).Some?
  }

  /** `product.price.flatMap({ Decimal($0, precision: 2) })` */
  function ConvertedPrice(raw: RawProduct, env: Collaborators): Option<Decimal> {
    match raw.price
    case None => None
    case Some(p) => env.decimal(p)
  }

  /** `product.productImage.flatMap({ URL(string: $0, relativeTo: ...) })` */
  function ResolvedImage(raw: RawProduct, env: Collaborators): Option<Url> {
    match raw.productImage
    case None => None
    case Some(path) => env.imageURL(path)
  }

  /** `product.reviewRating.map({ Rating(rawValue: $0) })` */
  function ConvertedRating(raw: RawProduct): Option<BoundedRating> {
    match raw.reviewRating
    case None => None
    case Some(v) => Some(MakeRating(v))
  }

  /**
   * `Product.init?(_: RawProduct)`: no product without an id, a name and a
   * convertible price; the other fields take their defaults when absent.
   */
  function ProductFromRaw(raw: RawProduct, env: Collaborators): (r: Option<Product>)
    ensures r.Some? <==> Convertible(raw, env)
    ensures r.Some? ==>
      && r.value.id == raw.productId.value
      && r.value.name == raw.productName.value
      && r.value.price == env.decimal(raw.price.value).value
    ensures r.Some? ==>
      && r.value.detailedDescription == (if raw.shortDescription.Some? then raw.shortDescription.value else "")
      && r.value.reviewCount == (if raw.reviewCount.Some? then raw.reviewCount.value else 0)
      && r.value.inStock == (raw.inStock == Some(true))
    ensures r.Some? ==>
      && r.value.averageRating.Some? == raw.reviewRating.Some?
      && (r.value.averageRating.Some? ==> r.value.averageRating.value.rawValue == MinRawValue)
    ensures r.Some? ==>
      r.value.imageURL == (if raw.productImage.Some? then env.imageURL(raw.productImage.value) else None)
  {
    if raw.productId.None? || raw.productName.None? || ConvertedPrice(raw, env).None? then
      None
    else
      MakeProduct(
        raw.productId.value,
        raw.productName.value,
        ConvertedPrice(raw, env).value,
        raw.shortDescription.GetOr(""),
        ResolvedImage(raw, env),
        ConvertedRating(raw),
        raw.reviewCount.GetOr(0),
        raw.inStock.GetOr(false))
  }

  /** `compactMap({ $0 })`: the present entries, in order. */
  function NonNull<T(==,!new)>(xs: seq<Option<T>>): (r: seq<T>)
    ensures |r| <= |xs|
    ensures forall x :: x in r <==> Some(x) in xs
  {
    if xs == [] then []
    else (if xs[0].Some? then [xs[0].value] else []) + NonNull(xs[1..])
  }

  /** `compactMap({ Product($0) })`: the records that convert, converted, in order. */
  function ConvertAll(raws: seq<RawProduct>, env: Collaborators): (r: seq<Product>)
    ensures |r| <= |raws|
    ensures forall raw :: raw in raws && Convertible(raw, env) ==> ProductFromRaw(raw, env).value in r
  {
    if raws == [] then []
    else
      (match ProductFromRaw(raws[0], env) case Some(p) => [p] case None => [])
      + ConvertAll(raws[1..], env)
  }

  /** Every product `compactMap({ Product($0) })` returns is the conversion of one of its records. */
  lemma {:induction false} ConvertAllSound(raws: seq<RawProduct>, env: Collaborators)
    ensures forall p :: p in ConvertAll(raws, env) ==> exists raw :: raw in raws && ProductFromRaw(raw, env) == Some(p)
    decreases |raws|
  {
    if raws != [] {
      ConvertAllSound(raws[1..], env);
      forall p | p in ConvertAll(raws, env)
        ensures exists raw :: raw in raws && ProductFromRaw(raw, env) == Some(p)
      {
        if ProductFromRaw(raws[0], env) != Some(p) {
          assert p in ConvertAll(raws[1..], env);
          var raw :| raw in raws[1..] && ProductFromRaw(raw, env) == Some(p);
          assert raw in raws;
        }
      }
    }
  }

  /** The products a raw page yields: nulls dropped, then unconvertible records dropped. */
  function Survivors(entries: seq<Option<RawProduct>>, env: Collaborators): (r: seq<Product>)
    ensures |r| <= |entries|
  {
    ConvertAll(NonNull(entries), env)
  }

  /** `ProductsResponse.init(_: RawProductsResponse)` */
  function ProductsResponseFromRaw(response: RawProductsResponse, env: Collaborators): (r: ProductsResponse)
    ensures r.totalCount == response.totalProducts
    ensures r.products == Survivors(response.products, env)
    ensures |r.products| <= |response.products|
  {
    ProductsResponse(response.totalProducts, Survivors(response.products, env))
  }

  /** Whether entry `i` of a raw page is present and convertible. */
  predicate SurvivesAt(entries: seq<Option<RawProduct>>, i: nat, env: Collaborators)
    requires i < |entries|
  {
    entries[i].Some? && Convertible(entries[i].value, env)
  }

  lemma {:induction false} NonNullAppend<T(!new)>(a: seq<Option<T>>, b: seq<Option<T>>)
    ensures NonNull(a + b) == NonNull(a) + NonNull(b)
    decreases |a|
  {
    if a == [] {
      assert a + b == b;
    } else {
      assert (a + b)[1..] == a[1..] + b;
      NonNullAppend(a[1..], b);
    }
  }

  lemma {:induction false} ConvertAllAppend(a: seq<RawProduct>, b: seq<RawProduct>, env: Collaborators)
    ensures ConvertAll(a + b, env) == ConvertAll(a, env) + ConvertAll(b, env)
    decreases |a|
  {
    if a == [] {
      assert a + b == b;
    } else {
      assert (a + b)[1..] == a[1..] + b;
      ConvertAllAppend(a[1..], b, env);
    }
  }

  /** Conversion distributes over concatenation of raw pages. */
  lemma SurvivorsAppend(a: seq<Option<RawProduct>>, b: seq<Option<RawProduct>>, env: Collaborators)
    ensures Survivors(a + b, env) == Survivors(a, env) + Survivors(b, env)
  {
    NonNullAppend(a, b);
    ConvertAllAppend(NonNull(a), NonNull(b), env);
  }

  /** A null entry, or a record without an id, a name or a convertible price, leaves the rest of the batch as it was. */
  lemma DroppedEntryLeavesBatch(before: seq<Option<RawProduct>>, entry: Option<RawProduct>,
                                after: seq<Option<RawProduct>>, env: Collaborators)
    requires entry.None? || !Convertible(entry.value, env)
    ensures Survivors(before + [entry] + after, env) == Survivors(before, env) + Survivors(after, env)
  {
    SurvivorsAppend(before + [entry], after, env);
    SurvivorsAppend(before, [entry], env);
    assert [entry][1..] == [];
    assert Survivors([entry], env) == [];
  }

  /** A single entry yields its converted product when it survives, and nothing otherwise. */
  lemma SurvivorsSingle(entry: Option<RawProduct>, env: Collaborators)
    ensures Survivors([entry], env)
         == if entry.Some? && Convertible(entry.value, env) then [ProductFromRaw(entry.value, env).value] else []
  {
  }

  /** The positions, in increasing order, of the entries of a raw page that survive conversion. */
  function SurvivingPositions(entries: seq<Option<RawProduct>>, env: Collaborators): (r: seq<nat>)
    ensures |r| <= |entries|
    decreases |entries|
  {
    if entries == [] then []
    else
      var n := |entries| - 1;
      SurvivingPositions(entries[..n], env) + (if SurvivesAt(entries, n, env) then [n] else [])
  }

  /** Every listed position is in range, holds a surviving entry, and the list is strictly increasing. */
  lemma {:induction false} SurvivingPositionsSound(entries: seq<Option<RawProduct>>, env: Collaborators)
    ensures forall k :: 0 <= k < |SurvivingPositions(entries, env)| ==>
      && SurvivingPositions(entries, env)[k] < |entries|
      && SurvivesAt(entries, SurvivingPositions(entries, env)[k], env)
    ensures forall k, l :: 0 <= k < l < |SurvivingPositions(entries, env)| ==>
      SurvivingPositions(entries, env)[k] < SurvivingPositions(entries, env)[l]
    decreases |entries|
  {
    if entries != [] {
      var n := |entries| - 1;
      var init := entries[..n];
      SurvivingPositionsSound(init, env);
      var front, positions := SurvivingPositions(init, env), SurvivingPositions(entries, env);
      forall k | 0 <= k < |front|
        ensures positions[k] == front[k] < n && SurvivesAt(entries, front[k], env)
      {
        assert entries[front[k]] == init[front[k]];
      }
    }
  }

  /** Every surviving entry's position is listed. */
  lemma {:induction false} SurvivingPositionsComplete(entries: seq<Option<RawProduct>>, env: Collaborators)
    ensures forall i :: 0 <= i < |entries| && SurvivesAt(entries, i, env) ==> i in SurvivingPositions(entries, env)
    decreases |entries|
  {
    if entries != [] {
      var n := |entries| - 1;
      var init := entries[..n];
      SurvivingPositionsComplete(init, env);
      forall i | 0 <= i < n && SurvivesAt(entries, i, env)
        ensures i in SurvivingPositions(entries, env)
      {
        assert entries[i] == init[i];
        assert SurvivesAt(init, i, env);
      }
    }
  }

  /**
   * Order preservation: the k-th product of a converted page is the conversion
   * of the entry at the k-th surviving position.
   */
  lemma {:induction false} SurvivorsFollowPositions(entries: seq<Option<RawProduct>>, env: Collaborators)
    ensures |Survivors(entries, env)| == |SurvivingPositions(entries, env)|
    ensures forall k :: 0 <= k < |SurvivingPositions(entries, env)| ==>
      SurvivingPositions(entries, env)[k] < |entries|
      && entries[SurvivingPositions(entries, env)[k]].Some?
      && ProductFromRaw(entries[SurvivingPositions(entries, env)[k]].value, env) == Some(Survivors(entries, env)[k])
    decreases |entries|
  {
    if entries != [] {
      var n := |entries| - 1;
      var init, last := entries[..n], entries[n];
      assert entries == init + [last];
      SurvivorsFollowPositions(init, env);
      SurvivingPositionsSound(init, env);
      SurvivorsAppend(init, [last], env);
      SurvivorsSingle(last, env);
      var front, positions := SurvivingPositions(init, env), SurvivingPositions(entries, env);
      var out, outInit := Survivors(entries, env), Survivors(init, env);
      forall k | 0 <= k < |front|
        ensures positions[k] < |entries| && entries[positions[k]].Some?
        ensures ProductFromRaw(entries[positions[k]].value, env) == Some(out[k])
      {
        assert positions[k] == front[k] && entries[front[k]] == init[front[k]];
        assert out[k] == outInit[k];
      }
    }
  }
}
