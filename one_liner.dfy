/**
 * The one-line rendering of a URL request used in request logs: method, URL,
 * headers and body, each present part followed by one space.
 *
 * Foundation's textual description of a header dictionary and its UTF-8
 * decoding of the body are parameters of the rendering.
 */
module RequestOneLiner {
  import opened Wrappers
  import opened Truncation

  newtype byte = x | 0 <= x < 256

  datatype URL = URL(absoluteString: string)

  /** The fields of a `URLRequest` that the rendering reads. */
  datatype URLRequest = URLRequest(
    httpMethod: Option<string>,
    url: Option<URL>,
    allHTTPHeaderFields: Option<map<string, string>>,
    httpBody: Option<seq<byte>>)

  /** The longest header value shown in full. */
  const HeaderValueLimit: int := 20

  /** A present part followed by one space; an absent part is empty. */
  function Spaced(part: Option<string>): string
  {
    match part
    case Some(text) => text + " "
    case None => ""
  }

  /** The header fields as rendered: every value tail-truncated to 20 characters plus "...". */
  function ShownHeaders(headers: map<string, string>): map<string, string>
  {
    TruncatedValues(headers, HeaderValueLimit, Tail, "...")
  }

  /** The method followed by one space, or empty when there is no method. */
  function MethodPart(request: URLRequest): string
  {
    Spaced(request.httpMethod)
  }

  /** The URL part, from the URL's absolute string. */
  function URLPart(request: URLRequest): string
  {
    Spaced(if request.url.Some? then Some(request.url.value.absoluteString) else None)
  }

  /** The headers part, from the description of the truncated header fields. */
  function HeadersPart(request: URLRequest, describeHeaders: map<string, string> -> string): string
  {
    Spaced(if request.allHTTPHeaderFields.Some?
           then Some(describeHeaders(ShownHeaders(request.allHTTPHeaderFields.value)))
           else None)
  }

  /** The body part: the body decoded as UTF-8, or empty text when that fails. */
  function BodyPart(request: URLRequest, decodeUTF8: seq<byte> -> Option<string>): string
  {
    Spaced(if request.httpBody.Some? then Some(decodeUTF8(request.httpBody.value).GetOr("")) else None)
  }

  /** `RequestOneLinerLogger.description`. */
  function Description(request: URLRequest, describeHeaders: map<string, string> -> string,
                       decodeUTF8: seq<byte> -> Option<string>): (r: string)
    ensures r == "" <==>
      request.httpMethod.None? && request.url.None? &&
      request.allHTTPHeaderFields.None? && request.httpBody.None?
    ensures r != "" ==> r[|r| - 1] == ' '
  {
    MethodPart(request) + URLPart(request) + HeadersPart(request, describeHeaders) + BodyPart(request, decodeUTF8)
  }

  /** A request with only a method. */
  function MethodOnly(request: URLRequest): URLRequest
  {
    URLRequest(request.httpMethod, None, None, None)
  }

  /** A request with only a URL. */
  function URLOnly(request: URLRequest): URLRequest
  {
    URLRequest(None, request.url, None, None)
  }

  /** A request with only header fields. */
  function HeadersOnly(request: URLRequest): URLRequest
  {
    URLRequest(None, None, request.allHTTPHeaderFields, None)
  }

  /** A request with only a body. */
  function BodyOnly(request: URLRequest): URLRequest
  {
    URLRequest(None, None, None, request.httpBody)
  }

  /** A request with a single field renders as that field's part alone. */
  lemma SingleFieldDescriptions(request: URLRequest, describeHeaders: map<string, string> -> string,
                                decodeUTF8: seq<byte> -> Option<string>)
    ensures Description(MethodOnly(request), describeHeaders, decodeUTF8) == MethodPart(request)
    ensures Description(URLOnly(request), describeHeaders, decodeUTF8) == URLPart(request)
    ensures Description(HeadersOnly(request), describeHeaders, decodeUTF8) == HeadersPart(request, describeHeaders)
    ensures Description(BodyOnly(request), describeHeaders, decodeUTF8) == BodyPart(request, decodeUTF8)
  {
    var m, u := MethodPart(request), URLPart(request);
    var h, b := HeadersPart(request, describeHeaders), BodyPart(request, decodeUTF8);
    assert Description(MethodOnly(request), describeHeaders, decodeUTF8) == m + [] + [] + [];
    assert m + [] + [] + [] == m;
    assert Description(URLOnly(request), describeHeaders, decodeUTF8) == [] + u + [] + [];
    assert [] + u + [] + [] == u;
    assert Description(HeadersOnly(request), describeHeaders, decodeUTF8) == [] + [] + h + [];
    assert [] + [] + h + [] == h;
    assert Description(BodyOnly(request), describeHeaders, decodeUTF8) == [] + [] + [] + b;
    assert [] + [] + [] + b == b;
  }

  /**
   * The parts are rendered independently of each other and concatenated in
   * the order method, URL, headers, body.
   */
  lemma DescriptionInOrder(request: URLRequest, describeHeaders: map<string, string> -> string,
                           decodeUTF8: seq<byte> -> Option<string>)
    ensures Description(request, describeHeaders, decodeUTF8)
         == Description(MethodOnly(request), describeHeaders, decodeUTF8)
          + Description(URLOnly(request), describeHeaders, decodeUTF8)
          + Description(HeadersOnly(request), describeHeaders, decodeUTF8)
          + Description(BodyOnly(request), describeHeaders, decodeUTF8)
  {
    SingleFieldDescriptions(request, describeHeaders, decodeUTF8);
  }

  /** Each present part is its text followed by exactly one space. */
  lemma DescriptionOfOnePart(request: URLRequest, describeHeaders: map<string, string> -> string,
                             decodeUTF8: seq<byte> -> Option<string>)
    ensures request.httpMethod.Some? ==>
      Description(MethodOnly(request), describeHeaders, decodeUTF8) == request.httpMethod.value + " "
    ensures request.url.Some? ==>
      Description(URLOnly(request), describeHeaders, decodeUTF8) == request.url.value.absoluteString + " "
    ensures request.allHTTPHeaderFields.Some? ==>
      Description(HeadersOnly(request), describeHeaders, decodeUTF8)
        == describeHeaders(ShownHeaders(request.allHTTPHeaderFields.value)) + " "
    ensures request.httpBody.Some? && decodeUTF8(request.httpBody.value).Some? ==>
      Description(BodyOnly(request), describeHeaders, decodeUTF8)
        == decodeUTF8(request.httpBody.value).value + " "
  {
    SingleFieldDescriptions(request, describeHeaders, decodeUTF8);
  }

  /** A body that is not valid UTF-8 still contributes a single space. */
  lemma UndecodableBodyIsOneSpace(request: URLRequest, describeHeaders: map<string, string> -> string,
                                  decodeUTF8: seq<byte> -> Option<string>)
    requires request.httpBody.Some? && decodeUTF8(request.httpBody.value).None?
    ensures Description(request, describeHeaders, decodeUTF8)
         == Description(request.(httpBody := None), describeHeaders, decodeUTF8) + " "
  {
  }

  /**
   * The headers handed to the dictionary description keep their keys; a value
   * of at most 20 characters is unchanged, a longer one becomes its first 20
   * characters followed by "...".
   */
  lemma ShownHeaderValues(headers: map<string, string>)
    ensures ShownHeaders(headers).Keys == headers.Keys
    ensures forall key :: key in headers ==>
      ShownHeaders(headers)[key]
        == if |headers[key]| <= 20 then headers[key] else headers[key][..20] + "..."
  {
  }

  /**
   * A POST with a URL, header fields and a body renders as
   * "POST <url> <headers> <body> ".
   */
  lemma PostExample(headers: map<string, string>, body: seq<byte>, bodyText: string,
                    describeHeaders: map<string, string> -> string, decodeUTF8: seq<byte> -> Option<string>)
    requires decodeUTF8(body) == Some(bodyText)
    ensures Description(URLRequest(Some("POST"), Some(URL("http://example.com")), Some(headers), Some(body)),
                        describeHeaders, decodeUTF8)
         == "POST http://example.com " + describeHeaders(ShownHeaders(headers)) + " " + bodyText + " "
  {
    var request := URLRequest(Some("POST"), Some(URL("http://example.com")), Some(headers), Some(body));
    var shown := describeHeaders(ShownHeaders(headers));
    assert MethodPart(request) + URLPart(request) == "POST http://example.com ";
    assert HeadersPart(request, describeHeaders) == shown + " ";
    assert BodyPart(request, decodeUTF8) == bodyText + " ";
  }
}
