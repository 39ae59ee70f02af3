/** lib/CurlRequest.php: GET/POST/PUT/DELETE over a curl handle, and the
    loop that re-executes a request while the server answers 429.

    The network is a script: the n-th `curl_exec` on a handle answers
    `transport(n)`, and `curl_getinfo`/`curl_errno`/`curl_error` report on that
    answer. Sleeping is a counter of `usleep(500000)` calls. The logger is
    only present or absent; what it receives about a response is returned as
    a `ResponseLog`. */
module Curl {
  import opened Php
  import opened Text
  import opened Headers

  /** What one `curl_exec` produces, with what `curl_getinfo` and
      `curl_errno`/`curl_error` then report about it. */
  datatype Exchange = Exchange(httpCode: int, output: string, headerSize: nat, errno: nat, error: string)

  /** The arguments of `$logger->logResponse(...)`. */
  datatype ResponseLog = ResponseLog(verb: string, url: string, httpCode: int, headers: seq<string>, body: string)

  /** The status curl is retried on ("Too Many Requests"). */
  const TOO_MANY_REQUESTS := 429
  /** The pause after every 429, in microseconds. */
  const RETRY_PAUSE_MICROS := 500000

  /** `"$key: $value"` */
  function HeaderLine(entry: (string, string)): string {
    entry.0 + ": " + entry.1
  }

  /** What `processRequest` logs about the answer `x` when a logger is
      present: the first `headerSize` bytes of the output split into lines,
      and the rest as the body. Nothing of the output is lost: the header
      lines joined again with CRLF, followed by the body, are the output
      itself. The body starts exactly `headerSize` bytes in, or is empty when
      the output is shorter. */
  function ResponseLogOf(verb: string, url: string, x: Exchange): (log: ResponseLog)
    ensures log.verb == verb && log.url == url && log.httpCode == x.httpCode
    ensures |log.headers| >= 1
    ensures JoinCrlf(log.headers) + log.body == x.output
    ensures |log.body| == if x.headerSize <= |x.output| then |x.output| - x.headerSize else 0
  {
    var parts := SplitAt(x.output, x.headerSize);
    JoinSplitCrlf(parts.0);
    ResponseLog(verb, url, x.httpCode, SplitCrlf(parts.0), parts.1)
  }

  /** The server eventually answers something other than 429; otherwise the
      source loops forever. */
  ghost predicate EventuallyAnswers(transport: nat -> Exchange) {
    exists k: nat :: transport(k).httpCode != TOO_MANY_REQUESTS
  }

  /** The options `init` sets on a handle: the URL, return-transfer and one
      header line per entry of the map, in the map's order. */
  ghost predicate Configured(ch: CurlHandle, url: string, httpHeaders: HeaderMap)
    reads ch
  {
    && ch.url == url
    && ch.returnTransfer
    && |ch.httpHeader| == |httpHeaders|
    && (forall i :: 0 <= i < |httpHeaders| ==> ch.httpHeader[i] == HeaderLine(httpHeaders[i]))
  }

  /** A curl handle: the options set on it, how often it was executed, and
      whether it was closed. */
  class CurlHandle {
    const transport: nat -> Exchange
    var url: string
    var returnTransfer: bool
    var httpHeader: seq<string>
    var customRequest: Option<string>
    var postFields: Option<string>
    var includeHeader: bool
    var execs: nat
    var closed: bool

    /** `curl_init()`: no options set yet. */
    constructor (transport: nat -> Exchange)
      ensures this.transport == transport
      ensures url == "" && !returnTransfer && httpHeader == []
      ensures customRequest == None && postFields == None && !includeHeader
      ensures execs == 0 && !closed
    {
      this.transport := transport;
      url, returnTransfer, httpHeader := "", false, [];
      customRequest, postFields, includeHeader := None, None, false;
      execs, closed := 0, false;
    }

    /** `curl_exec($ch)`: the next scripted answer. */
    method Exec() returns (x: Exchange)
      modifies this`execs
      ensures execs == old(execs) + 1
      ensures x == transport(old(execs))
    {
      x := transport(execs);
      execs := execs + 1;
    }

    /** `curl_close($ch)`. */
    method Close()
      modifies this`closed
      ensures closed
    {
      closed := true;
    }
  }

  /** The class's static state: the status of the last executed request and
      the number of pauses taken. `hasLogger` says whether a logger is
      injected. */
  class CurlRequest {
    var lastHttpCode: Option<int>
    var sleeps: nat
    const hasLogger: bool

    constructor (hasLogger: bool)
      ensures this.hasLogger == hasLogger && lastHttpCode == None && sleeps == 0
    {
      this.hasLogger := hasLogger;
      lastHttpCode, sleeps := None, 0;
    }

    /** The header lines built in `init`: one `"key: value"` line per entry,
        in the map's order. */
    static method HeaderLines(httpHeaders: HeaderMap) returns (lines: seq<string>)
      ensures |lines| == |httpHeaders|
      ensures forall i :: 0 <= i < |lines| ==> lines[i] == HeaderLine(httpHeaders[i])
    {
      lines := [];
      for n := 0 to |httpHeaders|
        invariant |lines| == n
        invariant forall i :: 0 <= i < n ==> lines[i] == HeaderLine(httpHeaders[i])
      {
        lines := lines + [HeaderLine(httpHeaders[n])];
      }
    }

    /** `init`: a fresh handle with the URL, return-transfer and the header
        lines set, and nothing else. */
    static method Init(url: string, httpHeaders: HeaderMap, transport: nat -> Exchange) returns (ch: CurlHandle)
      ensures fresh(ch) && Configured(ch, url, httpHeaders) && ch.transport == transport
      ensures ch.customRequest == None && ch.postFields == None && !ch.includeHeader
      ensures ch.execs == 0 && !ch.closed
    {
      ch := new CurlHandle(transport);
      ch.url := url;
      ch.returnTransfer := true;
      var lines := HeaderLines(httpHeaders);
      ch.httpHeader := lines;
    }

    /** The answer a finished `processRequest` stopped at. */
    static ghost function Final(ch: CurlHandle): Exchange
      reads ch
      requires ch.execs >= 1
    {
      ch.transport(ch.execs - 1)
    }

    /** What a finished `processRequest` on `ch` guarantees: it executed the
        request until the first non-429 answer, pausing once per 429; it
        recorded that answer's status; with a logger it cut the header block
        off the output (and logged it split into lines); on a curl error it
        threw before closing the handle, otherwise it closed the handle and
        returned the output. */
    ghost predicate Processed(verb: string, url: string, ch: CurlHandle, sleepsBefore: nat,
                              r: Result<string>, logged: Option<ResponseLog>)
      reads this, ch
    {
      && ch.execs >= 1
      && (forall i :: 0 <= i < ch.execs - 1 ==> ch.transport(i).httpCode == TOO_MANY_REQUESTS)
      && Final(ch).httpCode != TOO_MANY_REQUESTS
      && sleeps == sleepsBefore + (ch.execs - 1)
      && lastHttpCode == Some(Final(ch).httpCode)
      && var x := Final(ch);
         && logged == (if hasLogger then Some(ResponseLogOf(verb, url, x)) else None)
         && (x.errno != 0 ==> r == Err(CurlException(NatToString(x.errno) + " : " + x.error)) && !ch.closed)
         && (x.errno == 0 ==> r == Ok(if hasLogger then ResponseLogOf(verb, url, x).body else x.output) && ch.closed)
    }

    /** `processRequest`. */
    method ProcessRequest(verb: string, url: string, ch: CurlHandle) returns (r: Result<string>, logged: Option<ResponseLog>)
      requires ch.execs == 0 && !ch.closed
      requires EventuallyAnswers(ch.transport)
      modifies this, ch
      ensures ch.url == old(ch.url) && ch.returnTransfer == old(ch.returnTransfer)
      ensures ch.httpHeader == old(ch.httpHeader) && ch.customRequest == old(ch.customRequest)
      ensures ch.postFields == old(ch.postFields) && ch.includeHeader == old(ch.includeHeader)
      ensures Processed(verb, url, ch, old(sleeps), r, logged)
    {
      ghost var k: nat :| ch.transport(k).httpCode != TOO_MANY_REQUESTS;
      var output: string;
      var x: Exchange;
      while true
        invariant ch.execs <= k && !ch.closed
        invariant forall i :: 0 <= i < ch.execs ==> ch.transport(i).httpCode == TOO_MANY_REQUESTS
        invariant sleeps == old(sleeps) + ch.execs
        invariant ch.url == old(ch.url) && ch.returnTransfer == old(ch.returnTransfer)
        invariant ch.httpHeader == old(ch.httpHeader) && ch.customRequest == old(ch.customRequest)
        invariant ch.postFields == old(ch.postFields) && ch.includeHeader == old(ch.includeHeader)
        decreases k - ch.execs
      {
        x := ch.Exec();
        output := x.output;
        lastHttpCode := Some(x.httpCode);
        if x.httpCode != TOO_MANY_REQUESTS {
          break;
        }
        sleeps := sleeps + 1;
      }

      logged := None;
      if hasLogger {
        var parts := SplitAt(output, x.headerSize);
        output := parts.1;
        logged := Some(ResponseLog(verb, url, x.httpCode, SplitCrlf(parts.0), output));
      }

      if x.errno != 0 {
        r := Err(CurlException(NatToString(x.errno) + " : " + x.error));
        return;
      }

      ch.Close();
      r := Ok(output);
    }

    /** `get`: no custom method, no body. */
    method Get(url: string, httpHeaders: HeaderMap, transport: nat -> Exchange)
      returns (r: Result<string>, logged: Option<ResponseLog>, ch: CurlHandle)
      requires EventuallyAnswers(transport)
      modifies this
      ensures fresh(ch)
      ensures Configured(ch, url, httpHeaders) && ch.transport == transport
      ensures ch.customRequest == None && ch.postFields == None && ch.includeHeader == hasLogger
      ensures Processed("GET", url, ch, old(sleeps), r, logged)
    {
      ch := Init(url, httpHeaders, transport);
      if hasLogger {
        ch.includeHeader := true;
      }
      r, logged := ProcessRequest("GET", url, ch);
    }

    /** `post`: method POST, the data as the body. */
    method Post(url: string, data: string, httpHeaders: HeaderMap, transport: nat -> Exchange)
      returns (r: Result<string>, logged: Option<ResponseLog>, ch: CurlHandle)
      requires EventuallyAnswers(transport)
      modifies this
      ensures fresh(ch)
      ensures Configured(ch, url, httpHeaders) && ch.transport == transport
      ensures ch.customRequest == Some("POST") && ch.postFields == Some(data) && ch.includeHeader == hasLogger
      ensures Processed("POST", url, ch, old(sleeps), r, logged)
    {
      ch := Init(url, httpHeaders, transport);
      ch.customRequest := Some("POST");
      ch.postFields := Some(data);
      if hasLogger {
        ch.includeHeader := true;
      }
      r, logged := ProcessRequest("POST", url, ch);
    }

    /** `put`: method PUT, the data as the body. */
    method Put(url: string, data: string, httpHeaders: HeaderMap, transport: nat -> Exchange)
      returns (r: Result<string>, logged: Option<ResponseLog>, ch: CurlHandle)
      requires EventuallyAnswers(transport)
      modifies this
      ensures fresh(ch)
      ensures Configured(ch, url, httpHeaders) && ch.transport == transport
      ensures ch.customRequest == Some("PUT") && ch.postFields == Some(data) && ch.includeHeader == hasLogger
      ensures Processed("PUT", url, ch, old(sleeps), r, logged)
    {
      ch := Init(url, httpHeaders, transport);
      ch.customRequest := Some("PUT");
      ch.postFields := Some(data);
      if hasLogger {
        ch.includeHeader := true;
      }
      r, logged := ProcessRequest("PUT", url, ch);
    }

    /** `delete`: method DELETE, no body. */
    method Delete(url: string, httpHeaders: HeaderMap, transport: nat -> Exchange)
      returns (r: Result<string>, logged: Option<ResponseLog>, ch: CurlHandle)
      requires EventuallyAnswers(transport)
      modifies this
      ensures fresh(ch)
      ensures Configured(ch, url, httpHeaders) && ch.transport == transport
      ensures ch.customRequest == Some("DELETE") && ch.postFields == None && ch.includeHeader == hasLogger
      ensures Processed("DELETE", url, ch, old(sleeps), r, logged)
    {
      ch := Init(url, httpHeaders, transport);
      ch.customRequest := Some("DELETE");
      if hasLogger {
        ch.includeHeader := true;
      }
      r, logged := ProcessRequest("DELETE", url, ch);
    }
  }
}
