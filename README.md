# Supercenter catalog client: wire-to-domain conversion and outcome classification

This project models the core of the Supercenter app's catalog client in Dafny.

The client asks the catalog service for one page of products at
`products/{page}/{pageSize}`. The data task's callback turns what the
transport reports into exactly one `Result`. The checks run in a fixed order:

1. a cannot-connect-to-host error;
2. a missing HTTP response;
3. a status outside `200 ..< 300`;
4. a body the JSON decoder rejects;
5. a page that reports no products.

A page that passes every check is converted from the wire model to the domain
model:

- null entries are dropped;
- records without an id, a name or a convertible price are dropped;
- the rest become `Product` values, with defaults for the missing optional fields;
- order and the reported total are kept.

The domain model is `Product` with its `Rating`. As written, `Rating(rawValue:)`
first takes `max(v, 5.0)` and then `min(0.0, that)`. Every rating therefore
stores `0.0`. The model keeps that behaviour and proves it
(`ProductModel.MakeRating`, `ProductModel.MakeRatingIgnoresInput`,
`ProductModel.MakeRatingIsNotAClamp`).

Files:

- `wrappers.dfy` (module `Wrappers`): Swift optionals and `Result`.
- `product.dfy` (module `ProductModel`): `Rating`, `Product` and their initialisers.
- `conversion.dfy` (module `Conversion`): `RawProduct`, `RawProductsResponse`, `Product.init?(_: RawProduct)` and `ProductsResponse.init(_:)`, with the order-preservation lemmas.
- `interpolation.dfy` (module `Interpolation`): Swift's `"\(n)"` for an `Int`, and its inverse parser.
- `catalog_client.dfy` (module `CatalogClient`): the request path and the callback's classification.

Foreign code enters as parameters:

- `JSONDecoder().decode` is the `decode` parameter of `CatalogClient.CompletionResult`.
  "The body is not decoded" is stated as "any two decoders give the same result".
- `Decimal(_:precision:)` is the `decimal` field of `Conversion.Collaborators`.
- `URL(string:relativeTo:)` against the image base is the `imageURL` field of `Conversion.Collaborators`.
- The callback's `data`, `urlResponse` and `error` are parameters.

The model follows the code as written:

- A record is accepted with an empty `productId` or `productName`. The code only checks that they are present.
- Only an `NSURLErrorDomain` error with code `NSURLErrorCannotConnectToHost` (-1004) becomes `unableToConnect`. Any other transport error is passed on unchanged, and only when no HTTP response came with it.
- A decoding failure reaches the completion as the decoder's own error. The client does not wrap it.
- The rating is not clamped (see above).

## Model

| member | source | states |
|---|---|---|
| `ProductModel.MakeRating` | Supercenter-debugging-exercise_with_mock_server_with_issues/Supercenter/Model/Product.swift:29-35 | `Rating(rawValue:)` as written stores `minRawValue` (0.0) for every input, which lies within `[minRawValue, maxRawValue]` = `[0.0, 5.0]` |
| `ProductModel.RatingFromFloatLiteral` | Supercenter-debugging-exercise_with_mock_server_with_issues/Supercenter/Model/Product.swift:37-39 | the float-literal initialiser gives the same rating as `init(rawValue:)`, so it also stores `minRawValue` |
| `ProductModel.RatingFromIntegerLiteral` | Supercenter-debugging-exercise_with_mock_server_with_issues/Supercenter/Model/Product.swift:41-43 | the integer-literal initialiser gives the same rating as `init(rawValue:)`, so it also stores `minRawValue` |
| `ProductModel.MakeRatingIgnoresInput` | Supercenter-debugging-exercise_with_mock_server_with_issues/Supercenter/Model/Product.swift:24-35 | any two raw values give equal ratings, both `Rating(minRawValue)` |
| `ProductModel.MakeRatingIsNotAClamp` | Supercenter-debugging-exercise_with_mock_server_with_issues/Supercenter/Model/Product.swift:24-35 | 3.0 lies strictly inside `[0.0, 5.0]` and is still not kept, so the initialiser is not a clamp |
| `ProductModel.MakeProduct` | Supercenter-debugging-exercise_with_mock_server_with_issues/Supercenter/Model/Product.swift:46-63 | the failable `Product` initialiser always succeeds and stores each argument unchanged in the field of the same name |
| `ProductModel.ProductRatingInRange` | Supercenter-debugging-exercise_with_mock_server_with_issues/Supercenter/Model/Product.swift:19-35 | a product's rating, when present, lies within `[minRawValue, maxRawValue]`: the domain model holds only ratings of the type `BoundedRating`, because Swift's `Rating` can only be built through `init(rawValue:)` |
| `ProductModel.MakeProductDefaults` | Supercenter-debugging-exercise_with_mock_server_with_issues/Supercenter/Model/Product.swift:46-53 | omitted arguments default to name "", price 1, description "", no image URL, no rating, review count 0, not in stock |
| `Conversion.ProductFromRaw` | Supercenter-debugging-exercise_with_mock_server_with_issues/Supercenter/Networking/SupercenterAPIClient.swift:108-131 | a product exists exactly when `productId`, `productName` and a convertible `price` are present; id and name are copied; the price is the converted one; the description defaults to "", the review count to 0, and the stock flag to false; a rating is present exactly when `reviewRating` is, and it holds `minRawValue`; the image URL is the resolved `productImage`, or none |
| `Conversion.NonNull` | Supercenter-debugging-exercise_with_mock_server_with_issues/Supercenter/Networking/SupercenterAPIClient.swift:103 | `compactMap({ $0 })` keeps no more entries than it got, and a value is kept exactly when it was present |
| `Conversion.ConvertAll` | Supercenter-debugging-exercise_with_mock_server_with_issues/Supercenter/Networking/SupercenterAPIClient.swift:103 | `compactMap({ Product($0) })` returns no more products than records, and every convertible record's product is among them |
| `Conversion.Survivors` | Supercenter-debugging-exercise_with_mock_server_with_issues/Supercenter/Networking/SupercenterAPIClient.swift:103 | a converted page never holds more products than the raw page had entries |
| `Conversion.ProductsResponseFromRaw` | Supercenter-debugging-exercise_with_mock_server_with_issues/Supercenter/Networking/SupercenterAPIClient.swift:99-106 | `totalCount` is the raw `totalProducts`; `products` is the survivors of the raw entries (characterised in order by `Conversion.SurvivorsFollowPositions`), so there are no more products than raw entries |
| `Conversion.ConvertAllSound` | Supercenter-debugging-exercise_with_mock_server_with_issues/Supercenter/Networking/SupercenterAPIClient.swift:103 | every product `compactMap({ Product($0) })` returns is the conversion of one of its records, so records that do not convert contribute nothing |
| `Conversion.NonNullAppend` | Supercenter-debugging-exercise_with_mock_server_with_issues/Supercenter/Networking/SupercenterAPIClient.swift:103 | dropping nulls commutes with concatenation |
| `Conversion.ConvertAllAppend` | Supercenter-debugging-exercise_with_mock_server_with_issues/Supercenter/Networking/SupercenterAPIClient.swift:103 | converting records commutes with concatenation |
| `Conversion.SurvivorsAppend` | Supercenter-debugging-exercise_with_mock_server_with_issues/Supercenter/Networking/SupercenterAPIClient.swift:103 | converting a page commutes with concatenation |
| `Conversion.SurvivorsSingle` | Supercenter-debugging-exercise_with_mock_server_with_issues/Supercenter/Networking/SupercenterAPIClient.swift:103 | a single entry yields its product when it is present and convertible, and nothing otherwise |
| `Conversion.DroppedEntryLeavesBatch` | Supercenter-debugging-exercise_with_mock_server_with_issues/Supercenter/Networking/SupercenterAPIClient.swift:103-116 | a null entry, or a record without id, name or convertible price, is dropped and the rest of the batch converts as if it were absent |
| `Conversion.SurvivingPositions` | Supercenter-debugging-exercise_with_mock_server_with_issues/Supercenter/Networking/SupercenterAPIClient.swift:103 | the surviving entries' positions, in increasing order, are never more than the entries |
| `Conversion.SurvivingPositionsSound` | Supercenter-debugging-exercise_with_mock_server_with_issues/Supercenter/Networking/SupercenterAPIClient.swift:103 | each listed position is in range and holds a present, convertible entry, and the positions strictly increase |
| `Conversion.SurvivingPositionsComplete` | Supercenter-debugging-exercise_with_mock_server_with_issues/Supercenter/Networking/SupercenterAPIClient.swift:103 | every present, convertible entry's position is listed |
| `Conversion.SurvivorsFollowPositions` | Supercenter-debugging-exercise_with_mock_server_with_issues/Supercenter/Networking/SupercenterAPIClient.swift:99-105 | the k-th converted product is the conversion of the entry at the k-th surviving position, so the original relative order is kept |
| `Interpolation.NatString` | Supercenter-debugging-exercise_with_mock_server_with_issues/Supercenter/Networking/SupercenterAPIClient.swift:40 | interpolating a non-negative `Int` gives a non-empty string of decimal digits |
| `Interpolation.IntString` | Supercenter-debugging-exercise_with_mock_server_with_issues/Supercenter/Networking/SupercenterAPIClient.swift:40 | interpolating an `Int` gives a non-empty string of digits and '-' (so no '/') |
| `Interpolation.NatStringRoundTrip` | Supercenter-debugging-exercise_with_mock_server_with_issues/Supercenter/Networking/SupercenterAPIClient.swift:40 | the digits of a non-negative `Int` read back to the same value |
| `Interpolation.IntStringRoundTrip` | Supercenter-debugging-exercise_with_mock_server_with_issues/Supercenter/Networking/SupercenterAPIClient.swift:40 | an interpolated `Int` reads back to the same value |
| `CatalogClient.RequestPath` | Supercenter-debugging-exercise_with_mock_server_with_issues/Supercenter/Networking/SupercenterAPIClient.swift:40 | the request path starts with `products/` and continues past it |
| `CatalogClient.RequestPathRoundTrip` | Supercenter-debugging-exercise_with_mock_server_with_issues/Supercenter/Networking/SupercenterAPIClient.swift:40 | the path `products/{page}/{pageSize}` reads back to the request's page and page size |
| `CatalogClient.RequestPathInjective` | Supercenter-debugging-exercise_with_mock_server_with_issues/Supercenter/Networking/SupercenterAPIClient.swift:40 | two requests with the same path are the same request |
| `CatalogClient.CompletionResult` | Supercenter-debugging-exercise_with_mock_server_with_issues/Supercenter/Networking/SupercenterAPIClient.swift:43-69 | the completion receives exactly one result, and a success always reports a positive total |
| `CatalogClient.CannotConnectComesFirst` | Supercenter-debugging-exercise_with_mock_server_with_issues/Supercenter/Networking/SupercenterAPIClient.swift:46-49 | a cannot-connect-to-host error gives `unableToConnect` with that error, whatever the response, body or decoder |
| `CatalogClient.NoHTTPResponse` | Supercenter-debugging-exercise_with_mock_server_with_issues/Supercenter/Networking/SupercenterAPIClient.swift:51-53 | with no HTTP response the result is the transport error, or `unknown` if there is none, and the decoder plays no part |
| `CatalogClient.BadStatusNeverDecodes` | Supercenter-debugging-exercise_with_mock_server_with_issues/Supercenter/Networking/SupercenterAPIClient.swift:55-57 | a status outside `[200, 300)` gives `badResponseStatusCode` with that exact code, and the decoder plays no part |
| `CatalogClient.TransportErrorIgnoredWithResponse` | Supercenter-debugging-exercise_with_mock_server_with_issues/Supercenter/Networking/SupercenterAPIClient.swift:46-59 | a transport error other than cannot-connect changes nothing once a 2xx HTTP response is present |
| `CatalogClient.DecodeFailureReported` | Supercenter-debugging-exercise_with_mock_server_with_issues/Supercenter/Networking/SupercenterAPIClient.swift:59 | a body the decoder rejects gives the decoder's own error |
| `CatalogClient.MissingBodyIsEmptyBody` | Supercenter-debugging-exercise_with_mock_server_with_issues/Supercenter/Networking/SupercenterAPIClient.swift:59 | a missing body is treated exactly like an empty one |
| `CatalogClient.NoProductsWhateverTheArray` | Supercenter-debugging-exercise_with_mock_server_with_issues/Supercenter/Networking/SupercenterAPIClient.swift:61-63 | a decoded page with `totalProducts <= 0` gives `noProducts`, whatever its products array holds |
| `CatalogClient.SuccessExactlyWhenAllChecksPass` | Supercenter-debugging-exercise_with_mock_server_with_issues/Supercenter/Networking/SupercenterAPIClient.swift:43-69 | the result is a success exactly when every check passes (both directions); a success carries the raw `totalProducts` and the surviving products in order |

## Left out

- URLSession plumbing is not modelled: `dataTask`, `resume`, the returned `Cancellable`, cancellation, the `shared` singleton and its session configuration with the 5-second resource timeout. These are asynchronous I/O, not logic. That the completion is called once per callback is reflected only in `CatalogClient.CompletionResult` returning a single `Result`.
- `URL(string:relativeTo:)` and `Environment` are not modelled. The request URL is modelled only as its relative path. The force-unwrap of that URL and the API base URL are not modelled. Image URL resolution is an uninterpreted function.
- `Decimal(_:precision:)` is an uninterpreted partial function. Its rounding rule is not visible in this code, so only "an absent or unconvertible price drops the record" is stated.
- `JSONDecoder` is an uninterpreted function from bytes to a raw page or a decoding error. The JSON shape and the required outer fields are not modelled.
- `Double` is modelled as `real`: no NaN, no infinities, no rounding. Swift `Int` is modelled as unbounded `int`. The core does no arithmetic on it, so there is no overflow to model.
- `print(error)` in the callback is logging only and is not modelled.
- `ProductCatalogService` (which declares `ProductsRequest` and `ProductsResponse`) is not part of this model. Only the fields the client uses are modelled.
- `NetworkManager.doApi` in AASearch is not modelled. It is a thin generic wrapper over `URLSession.shared` and `JSONDecoder` with no logic of its own.
- `Conversion.Survivors`: its own contract bounds only the length. The full order-preserving characterisation is stated by `Conversion.SurvivorsFollowPositions`, `Conversion.SurvivingPositionsSound` and `Conversion.SurvivingPositionsComplete`.
- `Conversion.ConvertAll`: its own contract states completeness and a length bound. Soundness is stated by `Conversion.ConvertAllSound`. Order is stated for the whole page by `Conversion.SurvivorsFollowPositions`, `Conversion.SurvivingPositionsSound` and `Conversion.SurvivingPositionsComplete`.
