/**
 * `SupercenterAPIClient.getProducts` (Networking/SupercenterAPIClient.swift):
 * the request path it builds, and how the data task's callback turns the
 * transport's `(data, urlResponse, error)` into one `Result` for the
 * completion handler. URLSession is not modelled: the callback's three
 * arguments are parameters, and `JSONDecoder` is a function parameter, so
 * that "the body is not decoded" can be stated as "the decoder does not matter".
 */
module CatalogClient {
  import opened Wrappers
  import opened ProductModel
  import opened Conversion
  import opened Interpolation

  /** `ProductCatalogService.ProductsRequest`: the page to fetch. */
  datatype ProductsRequest = ProductsRequest(page: int, pageSize: int)

  /** The fixed start of every request path. */
  const ProductsPrefix: string := "products/"

  /** `"products/\(request.page)/\(request.pageSize)"`, resolved against the API base URL. */
  function RequestPath(request: ProductsRequest): (path: string)
    ensures |path| > |ProductsPrefix| && path[..|ProductsPrefix|] == ProductsPrefix
  {
    ProductsPrefix + IntString(request.page) + "/" + IntString(request.pageSize)
  }

  /** The position of the first `c` in `s`, or `|s|` when there is none. */
  function IndexOf(s: string, c: char): (j: nat)
    ensures j <= |s|
    ensures j < |s| ==> s[j] == c
    ensures forall i :: 0 <= i < j ==> s[i] != c
  {
    if s == [] || s[0] == c then 0 else 1 + IndexOf(s[1..], c)
  }

  /** Reads a request back from its path; the inverse of `RequestPath`. */
  function ParseRequestPath(path: string): Option<ProductsRequest> {
    if |path| < |ProductsPrefix| || path[..|ProductsPrefix|] != ProductsPrefix then None
    else
      var rest := path[|ProductsPrefix|..];
      var slash := IndexOf(rest, '/');
      if slash == |rest| then None
      else match (ParseInt(rest[..slash]), ParseInt(rest[slash + 1..]))
        case (Some(page), Some(pageSize)) => Some(ProductsRequest(page, pageSize))
        case _ => None
  }

  /** The path determines the page and the page size it was built from. */
  lemma RequestPathRoundTrip(request: ProductsRequest)
    ensures ParseRequestPath(RequestPath(request)) == Some(request)
  {
    var page, size := IntString(request.page), IntString(request.pageSize);
    var path := RequestPath(request);
    var rest := path[|ProductsPrefix|..];
    assert rest == page + "/" + size;
    assert rest[|page|] == '/';
    var slash := IndexOf(rest, '/');
    assert slash == |page|;
    assert rest[..slash] == page;
    assert rest[slash + 1..] == size;
    IntStringRoundTrip(request.page);
    IntStringRoundTrip(request.pageSize);
  }

  /** Two different requests never share a path. */
  lemma RequestPathInjective(a: ProductsRequest, b: ProductsRequest)
    requires RequestPath(a) == RequestPath(b)
    ensures a == b
  {
    RequestPathRoundTrip(a);
    RequestPathRoundTrip(b);
  }

  /** The `NSError` a data task reports: only its domain and code are inspected. */
  datatype NSError = NSError(domain: string, code: int)

  /** Foundation's `NSURLErrorDomain` and `NSURLErrorCannotConnectToHost`. */
  const NSURLErrorDomain: string := "NSURLErrorDomain"
  const NSURLErrorCannotConnectToHost: int := -1004

  /** The response a data task reports: an `HTTPURLResponse` or some other `URLResponse`. */
  datatype URLResponse = HTTPURLResponse(statusCode: int) | OtherURLResponse

  /** The error `JSONDecoder.decode` throws; its content is the decoder's business. */
  datatype DecodingError = DecodingError(description: string)

  /** `SupercenterAPIClient.ResponseError`. */
  datatype ResponseError =
    | BadResponseStatusCode(statusCode: int)
    | NoProducts
    | UnableToConnect(cause: NSError)
    | Unknown

  /** Every `Error` the completion can receive: the client's own, the transport's, or the decoder's. */
  datatype FetchError =
    | Response(responseError: ResponseError)
    | Transport(transportError: NSError)
    | Decoding(decodingError: DecodingError)

  type Bytes = seq<bv8>

  /** `JSONDecoder().decode(RawProductsResponse.self, from:)` */
  type Decoder = Bytes -> Result<RawProductsResponse, DecodingError>

  /** The special case for a mock server that is not running. */
  predicate CannotConnect(error: Option<NSError>) {
    error.Some? && error.value.domain == NSURLErrorDomain && error.value.code == NSURLErrorCannotConnectToHost
  }

  /** `(200 ..< 300).contains(statusCode)` */
  predicate IsSuccessStatus(statusCode: int) {
    200 <= statusCode < 300
  }

  /**
   * The `result` the data task's callback passes to `completion`: the checks run
   * in a fixed order, and the first that fails decides the error.
   */
  function CompletionResult(data: Option<Bytes>, urlResponse: Option<URLResponse>, error: Option<NSError>,
                            decode: Decoder, env: Collaborators): (r: Result<ProductsResponse, FetchError>)
    ensures r.Success? ==> r.value.totalCount > 0
  {
    if CannotConnect(error) then
      Failure(Response(UnableToConnect(error.value)))
    else if urlResponse.None? || !urlResponse.value.HTTPURLResponse? then
      Failure(if error.Some? then Transport(error.value) else Response(Unknown))
    else if !IsSuccessStatus(urlResponse.value.statusCode) then
      Failure(Response(BadResponseStatusCode(urlResponse.value.statusCode)))
    else
      match decode(data.GetOr([]))
      case Failure(e) => Failure(Decoding(e))
      case Success(response) =>
        if response.totalProducts <= 0 then Failure(Response(NoProducts))
        else Success(ProductsResponseFromRaw(response, env))
  }

  /** Whether the transport delivered an HTTP response with a 2xx status. */
  predicate DeliveredSuccessStatus(urlResponse: Option<URLResponse>) {
    urlResponse.Some? && urlResponse.value.HTTPURLResponse? && IsSuccessStatus(urlResponse.value.statusCode)
  }

  /** A cannot-connect error wins over whatever response, body and decoder came with it. */
  lemma CannotConnectComesFirst(data: Option<Bytes>, urlResponse: Option<URLResponse>, error: Option<NSError>,
                                decode: Decoder, env: Collaborators)
    requires CannotConnect(error)
    ensures CompletionResult(data, urlResponse, error, decode, env) == Failure(Response(UnableToConnect(error.value)))
  {
  }

  /** Without an HTTP response the transport's error is passed on, or `unknown` if there is none; the body is not decoded. */
  lemma NoHTTPResponse(data: Option<Bytes>, urlResponse: Option<URLResponse>, error: Option<NSError>,
                       decode: Decoder, otherDecode: Decoder, env: Collaborators)
    requires !CannotConnect(error)
    requires urlResponse.None? || urlResponse.value.OtherURLResponse?
    ensures CompletionResult(data, urlResponse, error, decode, env)
         == Failure(if error.Some? then Transport(error.value) else Response(Unknown))
    ensures CompletionResult(data, urlResponse, error, decode, env)
         == CompletionResult(data, urlResponse, error, otherDecode, env)
  {
  }

  /** A status outside `200 ..< 300` is reported with that exact code, and the body is not decoded. */
  lemma BadStatusNeverDecodes(data: Option<Bytes>, statusCode: int, error: Option<NSError>,
                              decode: Decoder, otherDecode: Decoder, env: Collaborators)
    requires !CannotConnect(error)
    requires !(200 <= statusCode < 300)
    ensures CompletionResult(data, Some(HTTPURLResponse(statusCode)), error, decode, env)
         == Failure(Response(BadResponseStatusCode(statusCode)))
    ensures CompletionResult(data, Some(HTTPURLResponse(statusCode)), error, decode, env)
         == CompletionResult(data, Some(HTTPURLResponse(statusCode)), error, otherDecode, env)
  {
  }

  /** A transport error other than cannot-connect is ignored once a 2xx HTTP response is present. */
  lemma TransportErrorIgnoredWithResponse(data: Option<Bytes>, urlResponse: Option<URLResponse>, error: NSError,
                                          decode: Decoder, env: Collaborators)
    requires !CannotConnect(Some(error))
    requires DeliveredSuccessStatus(urlResponse)
    ensures CompletionResult(data, urlResponse, Some(error), decode, env)
         == CompletionResult(data, urlResponse, None, decode, env)
  {
  }

  /** A body the decoder rejects is reported with the decoder's own error. */
  lemma DecodeFailureReported(data: Option<Bytes>, urlResponse: Option<URLResponse>, error: Option<NSError>,
                              decode: Decoder, env: Collaborators)
    requires !CannotConnect(error) && DeliveredSuccessStatus(urlResponse)
    requires decode(data.GetOr([])).Failure?
    ensures CompletionResult(data, urlResponse, error, decode, env)
         == Failure(Decoding(decode(data.GetOr([])).error))
  {
  }

  /** A missing body is decoded as an empty one. */
  lemma MissingBodyIsEmptyBody(urlResponse: Option<URLResponse>, error: Option<NSError>,
                               decode: Decoder, env: Collaborators)
    ensures CompletionResult(None, urlResponse, error, decode, env)
         == CompletionResult(Some([]), urlResponse, error, decode, env)
  {
  }

  /** A decoded page reporting no products is an error, whatever its `products` array holds. */
  lemma NoProductsWhateverTheArray(data: Option<Bytes>, urlResponse: Option<URLResponse>, error: Option<NSError>,
                                   decode: Decoder, env: Collaborators)
    requires !CannotConnect(error) && DeliveredSuccessStatus(urlResponse)
    requires decode(data.GetOr([])).Success? && decode(data.GetOr([])).value.totalProducts <= 0
    ensures CompletionResult(data, urlResponse, error, decode, env) == Failure(Response(NoProducts))
  {
  }

  /**
   * The completion receives success exactly when every check passes, and then
   * the page carries the reported total and the surviving products in order.
   */
  lemma SuccessExactlyWhenAllChecksPass(data: Option<Bytes>, urlResponse: Option<URLResponse>,
                                        error: Option<NSError>, decode: Decoder, env: Collaborators)
    ensures CompletionResult(data, urlResponse, error, decode, env).Success?
        <==> (&& !CannotConnect(error)
              && DeliveredSuccessStatus(urlResponse)
              && decode(data.GetOr([])).Success?
              && decode(data.GetOr([])).value.totalProducts > 0)
    ensures CompletionResult(data, urlResponse, error, decode, env).Success? ==>
      var raw := decode(data.GetOr([])).value;
      var page := CompletionResult(data, urlResponse, error, decode, env).value;
      && page.totalCount == raw.totalProducts
      && page.products == Survivors(raw.products, env)
  {
  }
}
