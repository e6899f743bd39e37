/** The default request handler (AbstractRequestHandler.java): configuring a
    connection, writing the body, reading a stream into memory. */
module AbstractRequestHandler {
  import opened JavaLang
  import opened HttpMethods
  import opened HeaderTable
  import opened JavaIo
  import opened JavaNet

  /** `RequestHandler.UTF8`, the one character set the handler supports
      (RequestHandler.java, which declares it, is not part of this model). */
  const UTF8: string := "UTF-8"

  /** Size of the buffer `readStream` reads into. */
  const ChunkSize: nat := 16384

  /** The request properties `prepareConnection` sets, in order. */
  function PrepareProperties(contentType: Option<string>): (calls: seq<Header>)
    ensures |calls| == if contentType.Some? then 2 else 1
    ensures calls[|calls| - 1] == ("Accept-Charset", UTF8)
  {
    (if contentType.Some? then [("Content-Type", contentType.value)] else []) + [("Accept-Charset", UTF8)]
  }

  /** Content-Type is in force exactly when a content type is given, and
      then with it as value; Accept-Charset is always in force, as UTF-8.
      Property names are matched ignoring case. */
  lemma PreparePropertiesInForce(contentType: Option<string>)
    ensures FoldName("Content-Type") in InForce(PrepareProperties(contentType)) <==> contentType.Some?
    ensures contentType.Some? ==> InForce(PrepareProperties(contentType))[FoldName("Content-Type")] == contentType.value
    ensures FoldName("Accept-Charset") in InForce(PrepareProperties(contentType))
    ensures InForce(PrepareProperties(contentType))[FoldName("Accept-Charset")] == UTF8
  {
    var calls := PrepareProperties(contentType);
    var last: seq<Header> := [(FoldName("Accept-Charset"), UTF8)];
    assert |FoldName("Content-Type")| != |FoldName("Accept-Charset")|;
    assert AsMap(last) == map[FoldName("Accept-Charset") := UTF8] by {
      assert last[1..] == [];
    }
    if contentType.Some? {
      assert Folded(calls) == [(FoldName("Content-Type"), contentType.value)] + last;
      assert Folded(calls)[1..] == last;
      assert InForce(calls) == map[FoldName("Content-Type") := contentType.value] + AsMap(last);
    } else {
      assert Folded(calls) == last;
    }
  }

  /** `prepareConnection(urlConnection, httpMethod, contentType)`. */
  method PrepareConnection(uc: HttpURLConnection, httpMethod: HttpMethod, contentType: Option<string>)
    modifies uc
    ensures uc.requestMethod == MethodName(httpMethod)
    ensures uc.doOutput == DoOutput(httpMethod)
    ensures uc.propertyCalls == old(uc.propertyCalls) + PrepareProperties(contentType)
    ensures uc.connectTimeout == old(uc.connectTimeout) && uc.readTimeout == old(uc.readTimeout)
  {
    uc.SetRequestMethod(MethodName(httpMethod));
    uc.SetDoOutput(DoOutput(httpMethod));
    if contentType.Some? {
      uc.SetRequestProperty("Content-Type", contentType.value);
    }
    uc.SetRequestProperty("Accept-Charset", UTF8);
  }

  /** `writeStream(out, content)`: the content goes out unchanged. */
  method WriteStream(out: OutputStream, content: Bytes)
    modifies out
    ensures out.written == old(out.written) + content
  {
    out.Write(content);
  }

  function Flatten(chunks: seq<Bytes>): Bytes
  {
    if chunks == [] then [] else Flatten(chunks[..|chunks| - 1]) + chunks[|chunks| - 1]
  }

  /** `readStream(in)`: reads into a 16384-byte buffer until `read` returns
      -1, appending each chunk to an in-memory buffer. The result is the
      whole stream, in order, and it is the concatenation of chunks of 1 to
      16384 bytes each; an empty stream gives an empty result. */
  method ReadStream(input: InputStream) returns (body: Bytes, ghost chunks: seq<Bytes>)
    modifies input
    ensures body == old(input.remaining) && input.remaining == []
    ensures body == Flatten(chunks)
    ensures forall i :: 0 <= i < |chunks| ==> 1 <= |chunks[i]| <= ChunkSize
  {
    var data := new Byte[ChunkSize];
    var buffer := new ByteArrayOutputStream();
    chunks := [];
    var nRead := input.Read(data);
    while nRead != -1
      invariant fresh(data) && fresh(buffer) && data.Length == ChunkSize
      invariant nRead != -1 ==>
                  (1 <= nRead <= ChunkSize && buffer.bytes + data[..nRead] + input.remaining == old(input.remaining))
      invariant nRead == -1 ==> input.remaining == [] && buffer.bytes == old(input.remaining)
      invariant buffer.bytes == Flatten(chunks)
      invariant forall i :: 0 <= i < |chunks| ==> 1 <= |chunks[i]| <= ChunkSize
      decreases |input.remaining| + (if nRead == -1 then 0 else 1)
    {
      ghost var chunk := data[..nRead];
      ghost var rest := input.remaining;
      buffer.Write(data, 0, nRead);
      FlattenSnoc(chunks, chunk);
      chunks := chunks + [chunk];
      assert buffer.bytes + rest == old(input.remaining);
      nRead := input.Read(data);
      if nRead != -1 {
        assert rest == rest[..nRead] + rest[nRead..];
      }
    }
    body := buffer.ToByteArray();
  }

  /** Reading one more chunk extends the flattened stream by that chunk. */
  lemma FlattenSnoc(chunks: seq<Bytes>, chunk: Bytes)
    ensures Flatten(chunks + [chunk]) == Flatten(chunks) + chunk
  {
    assert (chunks + [chunk])[..|chunks|] == chunks;
  }
}
