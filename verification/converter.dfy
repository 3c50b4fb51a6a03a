/** Translation of an inbound request's body and headers into the form the
    outbound HTTP client takes. */
module Converter {
  import opened Results
  import opened Http
  import Strings

  /** One item of the inbound body stream: a piece of bytes, or the error that
      ended the stream. */
  datatype Chunk = Data(bytes: Bytes) | Broken(error: PayloadError)

  /** The converter's one error: the body stream broke off. */
  datatype ConverterError = Payload(error: PayloadError)

  /** Only the `host` header is dropped by name: the outbound client sets its
      own for the target. */
  predicate IsValidHeaderName(name: string) {
    name != "host"
  }

  /** Since stored names carry no upper-case letter, the exact comparison
      drops the header whatever case the client wrote `Host` in, and drops
      nothing else. */
  lemma HostDroppedInAnySpelling(name: HeaderName)
    ensures !IsValidHeaderName(name) <==> Strings.SameIgnoringAsciiCase(name, "host")
  {
    if Strings.SameIgnoringAsciiCase(name, "host") {
      forall i | 0 <= i < |name|
        ensures name[i] == "host"[i]
      {
        assert Strings.AsciiFold(name[i]) == Strings.AsciiFold("host"[i]);
      }
    }
  }

  /** A header is carried over when its name is not `host` and its value bytes
      form a valid outbound header value. */
  predicate Forwarded(h: Header, isValidValue: Bytes -> bool) {
    IsValidHeaderName(h.name) && isValidValue(h.value)
  }

  /** Translates the inbound headers in iteration order. `additional` only sizes
      the target map, so it does not affect the result; the conversion itself
      never fails. */
  function ConvertHeaders(headers: seq<Header>, additional: nat, isValidValue: Bytes -> bool): (r: Result<seq<Header>, ConverterError>)
    ensures r.Ok?
    ensures forall h :: h in r.value ==> h.name != "host" && isValidValue(h.value)
    ensures |r.value| <= |headers|
  {
    if |headers| == 0 then Ok([])
    else
      var rest := ConvertHeaders(headers[1..], additional, isValidValue).value;
      if Forwarded(headers[0], isValidValue) then Ok([headers[0]] + rest) else Ok(rest)
  }

  /** Every header that may be forwarded is kept as often as it occurs
      (repeated names included); no other header appears. */
  lemma {:induction false} ConvertHeadersKeepsForwarded(headers: seq<Header>, additional: nat, isValidValue: Bytes -> bool)
    ensures forall h :: multiset(ConvertHeaders(headers, additional, isValidValue).value)[h]
                     == if Forwarded(h, isValidValue) then multiset(headers)[h] else 0
  {
    if |headers| > 0 {
      ConvertHeadersKeepsForwarded(headers[1..], additional, isValidValue);
      assert headers == [headers[0]] + headers[1..];
    }
  }

  /** Translation works entry by entry: the headers of a concatenation are the
      concatenation of the translated parts, so relative order is kept. */
  lemma {:induction false} ConvertHeadersAppend(a: seq<Header>, b: seq<Header>, additional: nat, isValidValue: Bytes -> bool)
    ensures ConvertHeaders(a + b, additional, isValidValue).value
         == ConvertHeaders(a, additional, isValidValue).value + ConvertHeaders(b, additional, isValidValue).value
  {
    if |a| > 0 {
      assert (a + b)[1..] == a[1..] + b;
      ConvertHeadersAppend(a[1..], b, additional, isValidValue);
    } else {
      assert a + b == b;
    }
  }

  /** Headers that may all be forwarded come through unchanged, in order. */
  lemma {:induction false} ForwardableHeadersUnchanged(headers: seq<Header>, additional: nat, isValidValue: Bytes -> bool)
    requires forall i :: 0 <= i < |headers| ==> Forwarded(headers[i], isValidValue)
    ensures ConvertHeaders(headers, additional, isValidValue).value == headers
  {
    if |headers| > 0 {
      ForwardableHeadersUnchanged(headers[1..], additional, isValidValue);
    }
  }

  /** The stream never broke off. */
  ghost predicate AllData(chunks: seq<Chunk>) {
    forall i :: 0 <= i < |chunks| ==> chunks[i].Data?
  }

  /** `i` is the first broken item of the stream. */
  ghost predicate FirstBrokenAt(chunks: seq<Chunk>, i: int) {
    0 <= i < |chunks| && chunks[i].Broken? && AllData(chunks[..i])
  }

  /** The bytes of the data items, in stream order. */
  ghost function Concat(chunks: seq<Chunk>): Bytes {
    if |chunks| == 0 then []
    else (if chunks[0].Data? then chunks[0].bytes else []) + Concat(chunks[1..])
  }

  lemma ChunksCons(chunks: seq<Chunk>)
    requires |chunks| > 0
    ensures AllData(chunks) <==> chunks[0].Data? && AllData(chunks[1..])
    ensures forall i :: 0 < i <= |chunks| ==> chunks[..i][1..] == chunks[1..][..i - 1]
  {
    if chunks[0].Data? && AllData(chunks[1..]) {
      forall i | 0 <= i < |chunks|
        ensures chunks[i].Data?
      {
        if i > 0 {
          assert chunks[i] == chunks[1..][i - 1];
        }
      }
    }
  }

  /** The read loop: appends each data item to `acc`, stops at the first error. */
  function ReadFrom(acc: Bytes, chunks: seq<Chunk>): (r: Result<Bytes, ConverterError>)
    decreases |chunks|
    ensures r.Ok? <==> AllData(chunks)
    ensures r.Ok? ==> r.value == acc + Concat(chunks)
    ensures r.Err? ==> exists i :: FirstBrokenAt(chunks, i) && r.error == Payload(chunks[i].error)
  {
    if |chunks| == 0 then Ok(acc)
    else
      ChunksCons(chunks);
      match chunks[0]
      case Broken(e) =>
        assert FirstBrokenAt(chunks, 0);
        Err(Payload(e))
      case Data(bytes) =>
        var r := ReadFrom(acc + bytes, chunks[1..]);
        assert r.Err? ==> exists i :: FirstBrokenAt(chunks, i) && r.error == Payload(chunks[i].error) by {
          if r.Err? {
            var j :| FirstBrokenAt(chunks[1..], j) && r.error == Payload(chunks[1..][j].error);
            assert chunks[..j + 1] == [chunks[0]] + chunks[1..][..j];
            ChunksCons(chunks[..j + 1]);
            assert FirstBrokenAt(chunks, j + 1);
          }
        }
        r
  }

  /** Reads the whole inbound body: the concatenation of its pieces, or the
      error of the first piece that failed. */
  function ConvertBody(chunks: seq<Chunk>): (r: Result<Bytes, ConverterError>)
    ensures r.Ok? <==> AllData(chunks)
    ensures r.Ok? ==> r.value == Concat(chunks)
    ensures r.Err? ==> exists i :: FirstBrokenAt(chunks, i) && r.error == Payload(chunks[i].error)
  {
    ReadFrom([], chunks)
  }

  /** A body that arrives in two parts reads as the two parts joined. */
  lemma {:induction false} ConcatAppend(a: seq<Chunk>, b: seq<Chunk>)
    ensures Concat(a + b) == Concat(a) + Concat(b)
  {
    if |a| == 0 {
      assert a + b == b;
    } else {
      assert (a + b)[1..] == a[1..] + b;
      ConcatAppend(a[1..], b);
    }
  }

  /** A converter error becomes a 400 response carrying the payload error. */
  function ToErrorResponse(e: ConverterError): (r: ErrorResponse)
    ensures r.status == BadRequestStatus
    ensures r.cause.PayloadFailed? && r.cause.payload == e.error
  {
    BadRequest(PayloadFailed(e.error))
  }
}
