/** The request methods the client supports (HttpMethod.java). */
module HttpMethods {
  import opened JavaLang

  datatype HttpMethod = GET | POST | PUT | DELETE

  /** `getDoOutput()`: whether the client performs the write phase. */
  predicate DoOutput(m: HttpMethod)
  {
    match m
    case GET => false
    case POST => true
    case PUT => true
    case DELETE => false
  }

  /** `getMethodName()`: the constant's name. */
  function MethodName(m: HttpMethod): (name: string)
    ensures |name| >= 3
  {
    match m
    case GET => "GET"
    case POST => "POST"
    case PUT => "PUT"
    case DELETE => "DELETE"
  }

  /** The method whose name is `name`, if any (the inverse of MethodName). */
  function MethodNamed(name: string): (r: Option<HttpMethod>)
    ensures r.Some? ==> MethodName(r.value) == name
  {
    if name == "GET" then Some(GET)
    else if name == "POST" then Some(POST)
    else if name == "PUT" then Some(PUT)
    else if name == "DELETE" then Some(DELETE)
    else None
  }

  /** Only POST and PUT write a request body. */
  lemma DoOutputExactlyPostAndPut(m: HttpMethod)
    ensures DoOutput(m) <==> m == POST || m == PUT
  {
  }

  /** A method's name identifies it: MethodNamed inverts MethodName. */
  lemma MethodNameRoundTrip(m: HttpMethod)
    ensures MethodNamed(MethodName(m)) == Some(m)
  {
  }

  /** Method names are pairwise distinct. */
  lemma MethodNameInjective(m: HttpMethod, n: HttpMethod)
    requires MethodName(m) == MethodName(n)
    ensures m == n
  {
    MethodNameRoundTrip(m);
    MethodNameRoundTrip(n);
  }
}
