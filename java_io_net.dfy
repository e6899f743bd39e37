/** The parts of `java.io` streams the request handler uses. */
module JavaIo {
  import opened JavaLang

  /** An input stream over the bytes still to be delivered. */
  class InputStream {
    var remaining: Bytes

    constructor (content: Bytes)
      ensures remaining == content
    {
      remaining := content;
    }

    /** `read(b)`: 0 for an empty buffer, -1 at end of stream, otherwise the
        next 1 to `b.Length` bytes, copied to the front of `b`. How many bytes
        one call delivers is the stream's choice. */
    method Read(b: array<Byte>) returns (n: int)
      modifies this, b
      ensures b.Length == 0 ==> n == 0 && remaining == old(remaining)
      ensures b.Length > 0 && old(remaining) == [] ==> n == -1 && remaining == []
      ensures b.Length > 0 && old(remaining) != [] ==>
                1 <= n <= b.Length && n <= |old(remaining)| &&
                b[..n] == old(remaining)[..n] && remaining == old(remaining)[n..]
    {
      if b.Length == 0 {
        n := 0;
      } else if remaining == [] {
        n := -1;
      } else {
        var k :| 1 <= k <= b.Length && k <= |remaining|;
        forall j | 0 <= j < k {
          b[j] := remaining[j];
        }
        n := k;
        remaining := remaining[k..];
      }
    }
  }

  /** An output stream that keeps what was written to it. */
  class OutputStream {
    var written: Bytes

    constructor ()
      ensures written == []
    {
      written := [];
    }

    /** `write(b)`. */
    method Write(b: Bytes)
      modifies this
      ensures written == old(written) + b
    {
      written := written + b;
    }
  }

  /** `ByteArrayOutputStream`: a growing in-memory buffer. */
  class ByteArrayOutputStream {
    var bytes: Bytes

    constructor ()
      ensures bytes == []
    {
      bytes := [];
    }

    /** `write(b, off, len)`. */
    method Write(b: array<Byte>, off: nat, len: nat)
      requires off + len <= b.Length
      modifies this
      ensures bytes == old(bytes) + b[off..off + len]
    {
      bytes := bytes + b[off..off + len];
    }

    /** `toByteArray()`. */
    function ToByteArray(): Bytes
      reads this
    {
      bytes
    }
  }
}

/** `HttpURLConnection`, reduced to the settings the client makes on it. */
module JavaNet {
  import opened JavaLang
  import opened HeaderTable
  import opened Failures

  /** What can be observed of a connection before it connects. */
  datatype ConnectionState = ConnectionState(
    url: string,
    requestMethod: string,
    doOutput: bool,
    connectTimeout: int,
    readTimeout: int,
    propertyCalls: seq<Header>)

  class HttpURLConnection {
    const url: string
    var requestMethod: string
    var doOutput: bool
    var connectTimeout: int
    var readTimeout: int
    /** Every `setRequestProperty(name, value)` call, in order. */
    var propertyCalls: seq<Header>

    /** A fresh connection has Java's defaults: method GET, no output, no
        timeouts (0), no request properties. */
    constructor (url: string)
      ensures this.url == url && requestMethod == "GET" && !doOutput
      ensures connectTimeout == 0 && readTimeout == 0 && propertyCalls == []
    {
      this.url := url;
      requestMethod := "GET";
      doOutput := false;
      connectTimeout := 0;
      readTimeout := 0;
      propertyCalls := [];
    }

    function State(): ConnectionState
      reads this
    {
      ConnectionState(url, requestMethod, doOutput, connectTimeout, readTimeout, propertyCalls)
    }

    /** The request properties in force, keyed by folded name: a later call
        replaces every earlier one whose name equals it ignoring case. */
    function RequestProperties(): map<string, string>
      reads this
    {
      InForce(propertyCalls)
    }

    method SetRequestMethod(m: string)
      modifies this
      ensures requestMethod == m
      ensures doOutput == old(doOutput) && propertyCalls == old(propertyCalls)
      ensures connectTimeout == old(connectTimeout) && readTimeout == old(readTimeout)
    {
      requestMethod := m;
    }

    method SetDoOutput(b: bool)
      modifies this
      ensures doOutput == b
      ensures requestMethod == old(requestMethod) && propertyCalls == old(propertyCalls)
      ensures connectTimeout == old(connectTimeout) && readTimeout == old(readTimeout)
    {
      doOutput := b;
    }

    /** `setConnectTimeout(t)`: a negative timeout is refused with an
        IllegalArgumentException and changes nothing. */
    method SetConnectTimeout(t: int) returns (thrown: Option<Exc>)
      modifies this
      ensures thrown == if t < 0 then Some(NegativeTimeout()) else None
      ensures connectTimeout == if t < 0 then old(connectTimeout) else t
      ensures requestMethod == old(requestMethod) && doOutput == old(doOutput)
      ensures propertyCalls == old(propertyCalls) && readTimeout == old(readTimeout)
    {
      if t < 0 {
        return Some(NegativeTimeout());
      }
      connectTimeout := t;
      thrown := None;
    }

    /** `setReadTimeout(t)`: likewise. */
    method SetReadTimeout(t: int) returns (thrown: Option<Exc>)
      modifies this
      ensures thrown == if t < 0 then Some(NegativeTimeout()) else None
      ensures readTimeout == if t < 0 then old(readTimeout) else t
      ensures requestMethod == old(requestMethod) && doOutput == old(doOutput)
      ensures propertyCalls == old(propertyCalls) && connectTimeout == old(connectTimeout)
    {
      if t < 0 {
        return Some(NegativeTimeout());
      }
      readTimeout := t;
      thrown := None;
    }

    method SetRequestProperty(name: string, value: string)
      modifies this
      ensures propertyCalls == old(propertyCalls) + [(name, value)]
      ensures requestMethod == old(requestMethod) && doOutput == old(doOutput)
      ensures connectTimeout == old(connectTimeout) && readTimeout == old(readTimeout)
    {
      propertyCalls := propertyCalls + [(name, value)];
    }
  }
}
