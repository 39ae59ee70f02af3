/** lib/HttpRequestJson.php: prepares a JSON body and its headers, hands the
    request to the transport and decodes the answer.

    `json_encode` and `json_decode` are the parameters `encode` and `decode`.
    The transport is what CurlRequest returns for the one call: the output
    string, or the CurlException it threw; the request handed to it is
    returned as `sent`. */
module JsonRequest {
  import opened Php
  import opened Text
  import opened Headers

  datatype Verb = GET | POST | PUT | DELETE

  /** A request as handed to the transport: method, URL, body and headers. */
  datatype Call = Call(verb: Verb, url: string, body: Option<string>, headers: HeaderMap)

  const CONTENT_TYPE := "Content-type"
  const CONTENT_LENGTH := "Content-Length"
  const APPLICATION_JSON := "application/json"

  /** The `$dataArray = array()` that `get` and `delete` leave defaulted. */
  const NO_DATA := List([])

  /** The headers `prepareRequest` stores: the caller's headers, plus (only
      for a non-empty payload) the JSON content type and the body's length. */
  function PreparedHeaders(httpHeaders: HeaderMap, dataArray: Value, body: string): (h: HeaderMap)
    ensures IsEmpty(dataArray) ==> h == httpHeaders
    ensures !IsEmpty(dataArray) ==> Lookup(h, CONTENT_TYPE) == Some(APPLICATION_JSON)
    ensures !IsEmpty(dataArray) ==>
      && Lookup(h, CONTENT_LENGTH).Some?
      && (forall i :: 0 <= i < |Lookup(h, CONTENT_LENGTH).value| ==> IsDigit(Lookup(h, CONTENT_LENGTH).value[i]))
      && ParseNat(Lookup(h, CONTENT_LENGTH).value) == |body|
    ensures forall k :: k != CONTENT_TYPE && k != CONTENT_LENGTH ==> Lookup(h, k) == Lookup(httpHeaders, k)
    ensures |h| >= |httpHeaders|
    ensures forall i :: 0 <= i < |httpHeaders| && httpHeaders[i].0 != CONTENT_TYPE && httpHeaders[i].0 != CONTENT_LENGTH
              ==> h[i] == httpHeaders[i]
  {
    if IsEmpty(dataArray) then httpHeaders
    else
      ParseNatToString(|body|);
      Set(Set(httpHeaders, CONTENT_TYPE, APPLICATION_JSON), CONTENT_LENGTH, NatToString(|body|))
  }

  /** `processResponse` applied to what the transport returned; an exception
      from the transport passes through. */
  function Decoded(answer: Result<string>, decode: string -> Value): Result<Value> {
    match answer
    case Ok(output) => Ok(decode(output))
    case Err(f) => Err(f)
  }

  /** The class's static state: the prepared headers and JSON body. */
  class HttpRequestJson {
    var httpHeaders: HeaderMap
    var postDataJson: string

    constructor ()
      ensures httpHeaders == [] && postDataJson == ""
    {
      httpHeaders, postDataJson := [], "";
    }

    /** `prepareRequest`: the body is always the encoded data, even when the
        request will not send one. */
    method PrepareRequest(headers: HeaderMap, dataArray: Value, encode: Value -> string)
      modifies this
      ensures postDataJson == encode(dataArray)
      ensures httpHeaders == PreparedHeaders(headers, dataArray, postDataJson)
    {
      postDataJson := encode(dataArray);
      httpHeaders := headers;
      if !IsEmpty(dataArray) {
        httpHeaders := Set(httpHeaders, CONTENT_TYPE, APPLICATION_JSON);
        httpHeaders := Set(httpHeaders, CONTENT_LENGTH, NatToString(|postDataJson|));
      }
    }

    /** `get`: the caller's headers go out unchanged and without a body. */
    method Get(url: string, headers: HeaderMap, encode: Value -> string, decode: string -> Value,
               answer: Result<string>)
      returns (r: Result<Value>, sent: Call)
      modifies this
      ensures postDataJson == encode(NO_DATA) && httpHeaders == headers
      ensures sent == Call(GET, url, None, headers)
      ensures r == Decoded(answer, decode)
    {
      PrepareRequest(headers, NO_DATA, encode);
      sent := Call(GET, url, None, httpHeaders);
      r := Decoded(answer, decode);
    }

    /** `post`: sends exactly the encoded data with the prepared headers. */
    method Post(url: string, dataArray: Value, headers: HeaderMap, encode: Value -> string,
                decode: string -> Value, answer: Result<string>)
      returns (r: Result<Value>, sent: Call)
      modifies this
      ensures postDataJson == encode(dataArray)
      ensures httpHeaders == PreparedHeaders(headers, dataArray, encode(dataArray))
      ensures sent == Call(POST, url, Some(encode(dataArray)), httpHeaders)
      ensures r == Decoded(answer, decode)
    {
      PrepareRequest(headers, dataArray, encode);
      sent := Call(POST, url, Some(postDataJson), httpHeaders);
      r := Decoded(answer, decode);
    }

    /** `put`: as `post`, with method PUT. */
    method Put(url: string, dataArray: Value, headers: HeaderMap, encode: Value -> string,
               decode: string -> Value, answer: Result<string>)
      returns (r: Result<Value>, sent: Call)
      modifies this
      ensures postDataJson == encode(dataArray)
      ensures httpHeaders == PreparedHeaders(headers, dataArray, encode(dataArray))
      ensures sent == Call(PUT, url, Some(encode(dataArray)), httpHeaders)
      ensures r == Decoded(answer, decode)
    {
      PrepareRequest(headers, dataArray, encode);
      sent := Call(PUT, url, Some(postDataJson), httpHeaders);
      r := Decoded(answer, decode);
    }

    /** `delete`: the caller's headers go out unchanged and without a body. */
    method Delete(url: string, headers: HeaderMap, encode: Value -> string, decode: string -> Value,
                  answer: Result<string>)
      returns (r: Result<Value>, sent: Call)
      modifies this
      ensures postDataJson == encode(NO_DATA) && httpHeaders == headers
      ensures sent == Call(DELETE, url, None, headers)
      ensures r == Decoded(answer, decode)
    {
      PrepareRequest(headers, NO_DATA, encode);
      sent := Call(DELETE, url, None, httpHeaders);
      r := Decoded(answer, decode);
    }
  }
}
