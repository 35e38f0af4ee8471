/**
 The aws-chunked encoding of a signed payload (AWS Signature Version 4, "Transferring Payload
 in Multiple Chunks"): what a reader makes of any input, and what a writer sends.
 */
module ChunkCodec {
  import opened Wrappers
  import opened KeyNames
  import opened Text
  import opened HexNumbers
  import opened Signing

  const MAX_CHUNK_SIZE := 0x1000_0000

  /** What a chunk's signature depends on besides the previous signature and the data. */
  datatype Context = Context(crypto: Crypto, secret: Bytes, scope: Scope, amzDate: Bytes) {
    /** The string to sign of a chunk: what does not change, the signature before it, two digests. */
    function ChunkText(prev: Bytes, data: Bytes): Bytes {
      var parts :=
        [ALGORITHM + "-PAYLOAD", amzDate, scope.ScopeString(), prev, crypto.HashHex(""), crypto.HashHex(data)];
      Join(parts, "\n")
    }

    function ChunkFront(): Bytes {
      ALGORITHM + "-PAYLOAD" + "\n" + amzDate + "\n" + scope.ScopeString() + "\n"
    }

    function ChunkSignature(prev: Bytes, data: Bytes): Bytes {
      Sign(crypto, secret, scope, ChunkText(prev, data))
    }
  }

  /** The string to sign of a chunk, letter by letter. */
  lemma ChunkTextIs(k: Context, prev: Bytes, data: Bytes)
    ensures k.ChunkText(prev, data)
         == "AWS4-HMAC-SHA256-PAYLOAD" + "\n" + (k.amzDate + "\n"
            + ((k.scope.date + "/" + k.scope.region + "/" + k.scope.service + "/aws4_request")
            + "\n" + prev + "\n" + k.crypto.HashHex("") + "\n" + k.crypto.HashHex(data)))
  {
    hide Text.Join;
    var z, e, d := k.scope.ScopeString(), k.crypto.HashHex(""), k.crypto.HashHex(data);
    var front := ALGORITHM + "-PAYLOAD";
    ScopeStringIs(k.scope);
    JoinFour(z, prev, e, d, "\n");
    JoinMore(k.amzDate, [z, prev, e, d], "\n");
    JoinMore(front, [k.amzDate, z, prev, e, d], "\n");
    assert [k.amzDate] + [z, prev, e, d] == [k.amzDate, z, prev, e, d];
    assert [front] + [k.amzDate, z, prev, e, d] == [front, k.amzDate, z, prev, e, d];
    assert front == "AWS4-HMAC-SHA256-PAYLOAD";
  }

  datatype ChunkError = NoHeader | BadSize | TooLarge | NoSignature | NoData | NoTrailer | Mismatch

  datatype Line = Line(text: Bytes, rest: Bytes)

  /** Reads up to and with the next newline, which must be there, and trims the line end. */
  function ReadLine(s: Bytes): (r: Option<Line>)
    ensures r.Some? ==> |r.value.rest| < |s| && r.value.rest == s[|s| - |r.value.rest|..]
  {
    var i := Index(s, '\n');
    if i == |s| then None else Some(Line(TrimRight(s[..i + 1], "\r\n"), s[i + 1..]))
  }

  /** The header line; one blank line before it is skipped. */
  function ReadHeader(s: Bytes): (r: Option<Line>)
    ensures r.Some? ==> |r.value.rest| < |s| && r.value.rest == s[|s| - |r.value.rest|..]
  {
    var first := ReadLine(s);
    if first.Some? && first.value.text == "" then ReadLine(first.value.rest) else first
  }

  const SIGNATURE_FIELD: Bytes := "chunk-signature"

  /** The signature named in the part of the header after the semicolon; "" if there is none. */
  function ClaimedSignature(after: Option<Bytes>): Bytes {
    if after.None? then ""
    else
      var kv := Cut(after.value, '=');
      if kv.after.Some? && kv.before == SIGNATURE_FIELD then kv.after.value else ""
  }

  datatype Chunk = Chunk(data: Bytes, sig: Bytes, rest: Bytes)

  datatype Head = Head(size: nat, sig: Bytes)

  /** Size and claimed signature of a header line. */
  function ParseHead(line: Bytes): Result<Head, ChunkError> {
    var head := Cut(line, ';');
    var size := ParseInt(head.before);
    if size.None? then Failure(BadSize)
    else if size.value < 0 || size.value > MAX_CHUNK_SIZE then Failure(TooLarge)
    else
      var sig := ClaimedSignature(head.after);
      if sig == "" then Failure(NoSignature) else Success(Head(size.value, sig))
  }

  /** A chunk's data, any two bytes for its trailer, and the check of its signature. */
  function TakeChunk(k: Context, body: Bytes, head: Head, prev: Bytes): Result<Chunk, ChunkError> {
    if |body| < head.size then Failure(NoData)
    else if |body| < head.size + 2 then Failure(NoTrailer)
    else if k.ChunkSignature(prev, body[..head.size]) != head.sig then Failure(Mismatch)
    else Success(Chunk(body[..head.size], head.sig, body[head.size + 2..]))
  }

  /** Reads and verifies one chunk. */
  function NextChunk(k: Context, s: Bytes, prev: Bytes): (r: Result<Chunk, ChunkError>)
    ensures r.Success? ==>
      && |r.value.rest| < |s|
      && r.value.rest == s[|s| - |r.value.rest|..]
      && r.value.sig == k.ChunkSignature(prev, r.value.data)
      && |r.value.data| <= MAX_CHUNK_SIZE
  {
    var line := ReadHeader(s);
    if line.None? then Failure(NoHeader)
    else
      match ParseHead(line.value.text)
      case Failure(e) => Failure(e)
      case Success(head) => TakeChunk(k, line.value.rest, head, prev)
  }

  datatype End = Clean | Bad(error: ChunkError)

  /** The data chunks a reader delivers and how the input ends; `unread` is what follows a clean end. */
  datatype Decoded = Decoded(chunks: seq<Bytes>, end: End, unread: Bytes) {
    function Payload(): Bytes {
      Flatten(chunks)
    }
  }

  function Flatten(parts: seq<Bytes>): Bytes {
    if parts == [] then [] else parts[0] + Flatten(parts[1..])
  }

  function Decode(k: Context, s: Bytes, prev: Bytes): Decoded
    decreases |s|
  {
    match NextChunk(k, s, prev)
    case Failure(e) => Decoded([], Bad(e), "")
    case Success(c) =>
      if c.data == "" then Decoded([], Clean, c.rest)
      else
        var d := Decode(k, c.rest, c.sig);
        Decoded([c.data] + d.chunks, d.end, d.unread)
  }

  // ---- The writer ----

  function WriteChunk(k: Context, data: Bytes, prev: Bytes): Bytes {
    HexNumeral(|data|) + ";" + SIGNATURE_FIELD + "=" + k.ChunkSignature(prev, data) + "\r\n" + data + "\r\n"
  }

  /** The chunks, each signed after the one before it, and the empty chunk that ends them. */
  function Encode(k: Context, chunks: seq<Bytes>, seed: Bytes): Bytes {
    if chunks == [] then WriteChunk(k, "", seed)
    else WriteChunk(k, chunks[0], seed) + Encode(k, chunks[1..], k.ChunkSignature(seed, chunks[0]))
  }

  predicate Sendable(chunks: seq<Bytes>) {
    forall c :: c in chunks ==> 0 < |c| <= MAX_CHUNK_SIZE
  }

  lemma FieldRoundTrip(sig: Bytes)
    ensures ClaimedSignature(Some(SIGNATURE_FIELD + "=" + sig)) == sig
  {
    assert SIGNATURE_FIELD + "=" + sig == Joined(SIGNATURE_FIELD, '=', sig);
    CutJoined(SIGNATURE_FIELD, '=', sig);
  }

  /** What the reader makes of a header line that the writer printed. */
  lemma HeadRoundTrip(n: nat, sig: Bytes)
    requires n <= MAX_CHUNK_SIZE && sig != ""
    ensures ParseHead(HexNumeral(n) + ";" + SIGNATURE_FIELD + "=" + sig) == Success(Head(n, sig))
  {
    var line := HexNumeral(n) + ";" + SIGNATURE_FIELD + "=" + sig;
    var field := SIGNATURE_FIELD + "=" + sig;
    NumeralDigits(n);
    SizeRoundTrip(n);
    assert line == Joined(HexNumeral(n), ';', field);
    CutJoined(HexNumeral(n), ';', field);
    FieldRoundTrip(sig);
  }

  /** What the reader makes of a header line with any size and any signature field. */
  lemma HeadVerdict(n: nat, sig: Bytes)
    ensures ParseHead(HexNumeral(n) + ";chunk-signature=" + sig) ==
      if n > 9_223_372_036_854_775_807 then Failure(BadSize)
      else if n > 268_435_456 then Failure(TooLarge)
      else if sig == "" then Failure(NoSignature)
      else Success(Head(n, sig))
  {
    var line := HexNumeral(n) + ";chunk-signature=" + sig;
    var field := SIGNATURE_FIELD + "=" + sig;
    assert SIGNATURE_FIELD + "=" == "chunk-signature=" && ";" + "chunk-signature=" == ";chunk-signature=";
    NumeralDigits(n);
    if n <= MAX_INT64 { SizeRoundTrip(n); }
    assert line == Joined(HexNumeral(n), ';', field);
    CutJoined(HexNumeral(n), ';', field);
    FieldRoundTrip(sig);
  }

  /** A chunk as it is sent, letter by letter. */
  lemma WrittenIs(k: Context, data: Bytes, prev: Bytes)
    ensures WriteChunk(k, data, prev)
         == HexNumeral(|data|) + ";chunk-signature=" + k.ChunkSignature(prev, data) + "\r\n" + data + "\r\n"
  {
    FieldStart(HexNumeral(|data|));
    hide SIGNATURE_FIELD;
  }

  lemma FieldStart(size: Bytes)
    ensures size + ";" + SIGNATURE_FIELD + "=" == size + ";chunk-signature="
  {
    assert ";" + SIGNATURE_FIELD + "=" == ";chunk-signature=";
    assert size + (";" + SIGNATURE_FIELD + "=") == size + ";" + SIGNATURE_FIELD + "=";
  }

  lemma LineRoundTrip(text: Bytes, tail: Bytes)
    requires text != "" && '\n' !in text && text[|text| - 1] != '\r'
    ensures ReadHeader(text + "\r\n" + tail) == Some(Line(text, tail))
  {
    var s := text + "\r\n" + tail;
    assert s == Joined(text + "\r", '\n', tail);
    IndexIs(text + "\r", '\n', tail);
    assert s[..|text| + 2] == text + "\r\n" && s[|text| + 2..] == tail;
    assert (text + "\r\n")[..|text| + 1] == text + "\r";
    assert (text + "\r")[..|text|] == text;
    assert TrimRight(text + "\r\n", "\r\n") == TrimRight(text + "\r", "\r\n") == TrimRight(text, "\r\n") == text;
  }

  lemma SignatureIsHex(k: Context, prev: Bytes, data: Bytes)
    requires k.crypto.Sized()
    ensures var sig := k.ChunkSignature(prev, data);
      |sig| == 64 && forall i :: 0 <= i < |sig| ==> IsLowerHex(sig[i])
  {
  }

  /** The reader takes back what the writer sent for one chunk, whatever comes after it. */
  lemma ChunkRoundTrip(k: Context, data: Bytes, prev: Bytes, tail: Bytes)
    requires k.crypto.Sized() && |data| <= MAX_CHUNK_SIZE
    ensures NextChunk(k, WriteChunk(k, data, prev) + tail, prev) ==
      Success(Chunk(data, k.ChunkSignature(prev, data), tail))
  {
    var sig := k.ChunkSignature(prev, data);
    SignatureIsHex(k, prev, data);
    var text := HexNumeral(|data|) + ";" + SIGNATURE_FIELD + "=" + sig;
    NumeralDigits(|data|);
    assert '\n' !in text by {
      assert '\n' !in HexNumeral(|data|) && '\n' !in sig && '\n' !in SIGNATURE_FIELD;
    }
    assert text[|text| - 1] == sig[63];
    var rest := data + "\r\n" + tail;
    assert WriteChunk(k, data, prev) + tail == text + "\r\n" + rest;
    LineRoundTrip(text, rest);
    HeadRoundTrip(|data|, sig);
    assert rest[..|data|] == data && rest[|data| + 2..] == tail;
  }

  lemma Associative(a: Bytes, b: Bytes, c: Bytes)
    ensures a + b + c == a + (b + c)
  {
  }

  lemma DecodeChunk(k: Context, data: Bytes, prev: Bytes, tail: Bytes)
    requires k.crypto.Sized() && |data| <= MAX_CHUNK_SIZE
    ensures var d := Decode(k, tail, k.ChunkSignature(prev, data));
      Decode(k, WriteChunk(k, data, prev) + tail, prev) ==
      if data == "" then Decoded([], Clean, tail) else Decoded([data] + d.chunks, d.end, d.unread)
  {
    ChunkRoundTrip(k, data, prev, tail);
  }

  /** Decoding the signed encoding of any chunks gives the chunks back and then a clean end. */
  lemma {:induction false} RoundTrip(k: Context, chunks: seq<Bytes>, seed: Bytes, tail: Bytes)
    requires k.crypto.Sized() && Sendable(chunks)
    ensures Decode(k, Encode(k, chunks, seed) + tail, seed) == Decoded(chunks, Clean, tail)
    decreases |chunks|
  {
    if chunks == [] {
      DecodeChunk(k, "", seed, tail);
    } else {
      var first, later := chunks[0], chunks[1..];
      assert chunks == [first] + later && first in chunks && forall c :: c in later ==> c in chunks;
      var sig := k.ChunkSignature(seed, first);
      var rest := Encode(k, later, sig);
      Associative(WriteChunk(k, first, seed), rest, tail);
      DecodeChunk(k, first, seed, rest + tail);
      RoundTrip(k, later, sig, tail);
    }
  }
}
