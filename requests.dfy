/** Request descriptors (HttpRequest.java and its subclasses HttpGetRequest,
    HttpGet, HttpPostRequest, HttpPutRequest, HttpPut, HttpDeleteRequest,
    HttpDelete). Each constructor fills the fields once; a descriptor is a
    value. */
module Requests {
  import opened JavaLang
  import opened HttpMethods

  const URLENCODED: string := "application/x-www-form-urlencoded;charset=UTF-8"
  const MULTIPART: string := "multipart/form-data"

  /** A parameter map: name-value pairs in the order they were added. How it
      URL-encodes itself is not part of this model; the constructors take
      `urlEncode` and `urlEncodedBytes` as parameters. */
  datatype ParameterMap = ParameterMap(entries: seq<(string, string)>)

  /** The descriptor's fields; the getters are the field selectors. Every
      constructor sets the method, so it is never null; the other three stay
      null unless the constructor assigns them. */
  datatype HttpRequest = HttpRequest(
    path: Option<string>,
    httpMethod: HttpMethod,
    contentType: Option<string>,
    content: Option<Bytes>)

  /** `queryString`: null unless parameters are given, then their encoding. */
  function QueryString(params: Option<ParameterMap>, urlEncode: ParameterMap -> string): (q: Option<string>)
    ensures q.Some? <==> params.Some?
  {
    match params
    case None => None
    case Some(p) => Some(urlEncode(p))
  }

  /** `path + "?" + queryString` under Java's string concatenation. */
  function WithQuery(path: Option<string>, params: Option<ParameterMap>, urlEncode: ParameterMap -> string): string
  {
    Render(path) + "?" + Render(QueryString(params, urlEncode))
  }

  /** `new HttpGetRequest(path, params)`. */
  function HttpGetRequest(path: Option<string>, params: Option<ParameterMap>, urlEncode: ParameterMap -> string): (r: HttpRequest)
    ensures r.httpMethod == GET && r.contentType.None? && r.content.None?
    ensures r.path == Some(WithQuery(path, params, urlEncode))
  {
    HttpRequest(Some(WithQuery(path, params, urlEncode)), GET, None, None)
  }

  /** `new HttpGet(path, params)`: the same fields as HttpGetRequest. */
  function HttpGet(path: Option<string>, params: Option<ParameterMap>, urlEncode: ParameterMap -> string): (r: HttpRequest)
    ensures r.httpMethod == GET && r.contentType.None? && r.content.None?
    ensures r.path == Some(WithQuery(path, params, urlEncode))
  {
    HttpRequest(Some(WithQuery(path, params, urlEncode)), GET, None, None)
  }

  /** `new HttpPostRequest(path, params)`: form-encoded body. */
  function HttpPostRequestWithParams(path: Option<string>, params: Option<ParameterMap>, urlEncodedBytes: ParameterMap -> Bytes): (r: HttpRequest)
    ensures r.httpMethod == POST && r.path == path
    ensures r.contentType == Some(URLENCODED)
    ensures r.content.Some? <==> params.Some?
    ensures params.Some? ==> r.content.value == urlEncodedBytes(params.value)
  {
    HttpRequest(path, POST, Some(URLENCODED), if params.Some? then Some(urlEncodedBytes(params.value)) else None)
  }

  /** `new HttpPostRequest(path, contentType, data)`: arbitrary body. */
  function HttpPostRequestWithData(path: Option<string>, contentType: Option<string>, data: Option<Bytes>): (r: HttpRequest)
    ensures r.httpMethod == POST && r.path == path && r.contentType == contentType && r.content == data
  {
    HttpRequest(path, POST, contentType, data)
  }

  /** `new HttpPutRequest(path, contentType, data)`. */
  function HttpPutRequest(path: Option<string>, contentType: Option<string>, data: Option<Bytes>): (r: HttpRequest)
    ensures r.httpMethod == PUT && r.path == path && r.contentType == contentType && r.content == data
  {
    HttpRequest(path, PUT, contentType, data)
  }

  /** `new HttpPut(path, params, contentType, data)`: query appended to the path. */
  function HttpPut(path: Option<string>, params: Option<ParameterMap>, contentType: Option<string>, data: Option<Bytes>,
                   urlEncode: ParameterMap -> string): (r: HttpRequest)
    ensures r.httpMethod == PUT && r.contentType == contentType && r.content == data
    ensures r.path == Some(WithQuery(path, params, urlEncode))
  {
    HttpRequest(Some(WithQuery(path, params, urlEncode)), PUT, contentType, data)
  }

  /** `new HttpDeleteRequest(path, params)`. */
  function HttpDeleteRequest(path: Option<string>, params: Option<ParameterMap>, urlEncode: ParameterMap -> string): (r: HttpRequest)
    ensures r.httpMethod == DELETE && r.contentType.None? && r.content.None?
    ensures r.path == Some(WithQuery(path, params, urlEncode))
  {
    HttpRequest(Some(WithQuery(path, params, urlEncode)), DELETE, None, None)
  }

  /** `new HttpDelete(path, params)`. */
  function HttpDelete(path: Option<string>, params: Option<ParameterMap>, urlEncode: ParameterMap -> string): (r: HttpRequest)
    ensures r.httpMethod == DELETE && r.contentType.None? && r.content.None?
    ensures r.path == Some(WithQuery(path, params, urlEncode))
  {
    HttpRequest(Some(WithQuery(path, params, urlEncode)), DELETE, None, None)
  }

  /** Splits a URL path at its first '?': what precedes it, and what follows
      it if there is one. */
  function SplitAtQuery(s: string): (string, Option<string>)
  {
    if s == [] then ("", None)
    else if s[0] == '?' then ("", Some(s[1..]))
    else var (p, q) := SplitAtQuery(s[1..]); ([s[0]] + p, q)
  }

  /** The built path can be taken apart again: when the original path has no
      '?', splitting the result at its first '?' gives back the rendered path
      and the rendered query string. */
  lemma {:induction false} WithQueryRoundTrip(path: Option<string>, params: Option<ParameterMap>, urlEncode: ParameterMap -> string)
    requires '?' !in Render(path)
    ensures SplitAtQuery(WithQuery(path, params, urlEncode)) == (Render(path), Some(Render(QueryString(params, urlEncode))))
  {
    SplitPrefix(Render(path), Render(QueryString(params, urlEncode)));
  }

  lemma {:induction false} SplitPrefix(p: string, q: string)
    requires '?' !in p
    ensures SplitAtQuery(p + "?" + q) == (p, Some(q))
  {
    if p == [] {
      assert p + "?" + q == ['?'] + q;
    } else {
      assert (p + "?" + q)[1..] == p[1..] + "?" + q;
      assert p[0] in p;
      SplitPrefix(p[1..], q);
      assert [p[0]] + p[1..] == p;
    }
  }

  /** A null parameter map leaves the literal query "null" after the '?'. */
  lemma NullParamsGiveQueryNull(path: Option<string>, urlEncode: ParameterMap -> string)
    ensures var s := WithQuery(path, None, urlEncode);
            |s| >= 5 && s[|s| - 5..] == "?null" && s[..|s| - 5] == Render(path)
  {
  }

  /** A null path renders as the prefix "null". */
  lemma NullPathGivesPrefixNull(params: Option<ParameterMap>, urlEncode: ParameterMap -> string)
    ensures var s := WithQuery(None, params, urlEncode);
            |s| >= 5 && s[..5] == "null?"
  {
  }

  /** GET and DELETE descriptors never enter the write phase; POST and PUT
      do whenever they carry content. */
  lemma WritePhaseByDescriptor(path: Option<string>, params: Option<ParameterMap>, urlEncode: ParameterMap -> string,
                               urlEncodedBytes: ParameterMap -> Bytes, contentType: Option<string>, data: Option<Bytes>)
    ensures !DoOutput(HttpGetRequest(path, params, urlEncode).httpMethod)
    ensures !DoOutput(HttpGet(path, params, urlEncode).httpMethod)
    ensures !DoOutput(HttpDeleteRequest(path, params, urlEncode).httpMethod)
    ensures !DoOutput(HttpDelete(path, params, urlEncode).httpMethod)
    ensures DoOutput(HttpPostRequestWithParams(path, params, urlEncodedBytes).httpMethod)
    ensures DoOutput(HttpPostRequestWithData(path, contentType, data).httpMethod)
    ensures DoOutput(HttpPutRequest(path, contentType, data).httpMethod)
    ensures DoOutput(HttpPut(path, params, contentType, data, urlEncode).httpMethod)
  {
  }

  /** HttpDelete and HttpDeleteRequest build the same descriptor. */
  lemma HttpDeleteAgreesWithHttpDeleteRequest(path: Option<string>, params: Option<ParameterMap>, urlEncode: ParameterMap -> string)
    ensures HttpDelete(path, params, urlEncode) == HttpDeleteRequest(path, params, urlEncode)
  {
  }

  /** The parameters of HttpGetTest: param1=value1, then param2=value2. */
  const TestParams: ParameterMap := ParameterMap([("param1", "value1"), ("param2", "value2")])

  /** The query string HttpGetTest expects for TestParams. */
  const TestQuery: string := "param1=value1&param2=value2"

  /** The one encoding HttpGetTest fixes, for any encoder that agrees with it
      on those parameters. */
  lemma HttpGetTestWithParams(urlEncode: ParameterMap -> string)
    requires urlEncode(TestParams) == TestQuery
    ensures HttpGet(Some("/nowhere"), Some(TestParams), urlEncode).path == Some("/nowhere" + "?" + TestQuery)
    ensures MethodName(HttpGet(Some("/nowhere"), Some(TestParams), urlEncode).httpMethod) == "GET"
  {
  }

  /** As written, HttpGet with null parameters appends "?null", where
      HttpGetTest expects the path unchanged. */
  lemma HttpGetNullParamsAsWritten(urlEncode: ParameterMap -> string)
    ensures HttpGet(Some("/nowhere"), None, urlEncode).path == Some("/nowhere" + "?" + "null")
    ensures HttpGet(Some("/nowhere"), None, urlEncode).path != Some("/nowhere")
  {
    assert |"/nowhere" + "?" + "null"| != |"/nowhere"|;
  }

  /** As written, HttpGet with a null path starts with "null", where
      HttpGetTest expects no prefix; with both null it gives "null?null"
      where the test expects "". */
  lemma HttpGetNullPathAsWritten(urlEncode: ParameterMap -> string)
    requires urlEncode(TestParams) == TestQuery
    ensures HttpGet(None, Some(TestParams), urlEncode).path == Some("null" + "?" + TestQuery)
    ensures HttpGet(None, Some(TestParams), urlEncode).path != Some("?" + TestQuery)
    ensures HttpGet(None, None, urlEncode).path == Some("null" + "?" + "null")
    ensures HttpGet(None, None, urlEncode).path != Some("")
  {
    assert |"null" + "?" + TestQuery| != |"?" + TestQuery|;
    assert |"null" + "?" + "null"| != |""|;
  }

  /** The path HttpGetTest expects: a null path contributes nothing, and the
      '?' and query appear only when there are parameters. */
  function IntendedQueryPath(path: Option<string>, params: Option<ParameterMap>, urlEncode: ParameterMap -> string): string
  {
    (if path.Some? then path.value else "") + (if params.Some? then "?" + urlEncode(params.value) else "")
  }

  /** HttpGet as its tests expect it to behave. */
  function IntendedHttpGet(path: Option<string>, params: Option<ParameterMap>, urlEncode: ParameterMap -> string): (r: HttpRequest)
    ensures r.httpMethod == GET && r.contentType.None? && r.content.None?
    ensures params.None? ==> r.path == Some(if path.Some? then path.value else "")
  {
    assert params.None? && path.Some? ==> path.value + "" == path.value;
    assert "" + "" == "";
    HttpRequest(Some(IntendedQueryPath(path, params, urlEncode)), GET, None, None)
  }

  /** IntendedHttpGet meets all four HttpGetTest cases, and it differs from
      HttpGet exactly where a path or the parameters are null. */
  lemma IntendedHttpGetPassesTests(urlEncode: ParameterMap -> string)
    requires urlEncode(TestParams) == TestQuery
    ensures IntendedHttpGet(Some("/nowhere"), Some(TestParams), urlEncode).path == Some("/nowhere" + "?" + TestQuery)
    ensures IntendedHttpGet(None, Some(TestParams), urlEncode).path == Some("?" + TestQuery)
    ensures IntendedHttpGet(Some("/nowhere"), None, urlEncode).path == Some("/nowhere")
    ensures IntendedHttpGet(None, None, urlEncode).path == Some("")
  {
    assert "/nowhere" + ("?" + TestQuery) == "/nowhere" + "?" + TestQuery;
    assert "" + ("?" + TestQuery) == "?" + TestQuery;
  }

  /** Where neither the path nor the parameters are null, the corrected
      constructor agrees with the code as written. */
  lemma IntendedHttpGetAgreesWhenNonNull(path: string, params: ParameterMap, urlEncode: ParameterMap -> string)
    ensures IntendedHttpGet(Some(path), Some(params), urlEncode) == HttpGet(Some(path), Some(params), urlEncode)
  {
    assert path + ("?" + urlEncode(params)) == path + "?" + urlEncode(params);
  }
}
