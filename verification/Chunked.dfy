/** The reader of internal/sigv4/chunked.go. */
module Chunked {
  import opened Wrappers
  import opened Text
  import opened HexNumbers
  import opened Signing
  import opened ChunkCodec

  datatype Status = More | Eof | Failed(error: ChunkError)

  class ChunkedReader {
    const ctx: Context
    var br: Bytes  // input not read yet
    var prevSignature: Bytes
    var current: Bytes
    var done: bool
    var err: Option<ChunkError>

    constructor (body: Bytes, ctx: Context, seedSignature: Bytes)
      ensures this.ctx == ctx
      ensures var d := Decode(ctx, body, seedSignature); Pending() == Stream(d.Payload(), d.end)
    {
      this.ctx := ctx;
      br, prevSignature := body, seedSignature;
      current, done, err := "", false, None;
    }

    /** What this reader has still to deliver and how it will end. */
    ghost function Pending(): Stream
      reads this
    {
      if err.Some? then Stream("", Bad(err.value))
      else if done then Stream(current, Clean)
      else
        var d := Decode(ctx, br, prevSignature);
        Stream(current + d.Payload(), d.end)
    }

    /** bufio's ReadString('\n'), trimmed; at the end of the input it fails. */
    method ReadTrimmed() returns (text: Option<Bytes>)
      modifies this`br
      ensures match ReadLine(old(br))
        case None => text == None
        case Some(line) => text == Some(line.text) && br == line.rest
    {
      var i := Index(br, '\n');
      if i == |br| {
        br := "";
        return None;
      }
      text := Some(TrimRight(br[..i + 1], "\r\n"));
      br := br[i + 1..];
    }

    /** io.ReadFull */
    method ReadFull(n: nat) returns (data: Option<Bytes>)
      modifies this`br
      ensures if |old(br)| < n then data == None else data == Some(old(br)[..n]) && br == old(br)[n..]
    {
      if |br| < n {
        br := "";
        return None;
      }
      data := Some(br[..n]);
      br := br[n..];
    }

    method ReadChunkHeader() returns (text: Option<Bytes>)
      modifies this`br
      ensures match ReadHeader(old(br))
        case None => text == None
        case Some(line) => text == Some(line.text) && br == line.rest
    {
      text := ReadTrimmed();
      if text == Some("") {
        text := ReadTrimmed();
      }
    }

    method ParseHeader(line: Bytes) returns (r: Result<Head, ChunkError>)
      ensures r == ParseHead(line)
    {
      var head := Cut(line, ';');
      var size := ParseInt(head.before);
      if size.None? { return Failure(BadSize); }
      if size.value < 0 || size.value > MAX_CHUNK_SIZE { return Failure(TooLarge); }
      var chunkSig := ClaimedSignature(head.after);
      if chunkSig == "" { return Failure(NoSignature); }
      return Success(Head(size.value, chunkSig));
    }

    /** The reader has taken one chunk, or failed with no effect but on the input. */
    ghost predicate Took(r: Result<Chunk, ChunkError>, was: Bytes, wasDone: bool, e: Option<ChunkError>)
      reads this
    {
      match r
      case Failure(error) => e == Some(error) && current == was && done == wasDone
      case Success(c) =>
        && e == None && br == c.rest && prevSignature == c.sig
        && current == (if c.data == "" then was else c.data)
        && done == (wasDone || c.data == "")
    }

    /** Reads and verifies one chunk; a chunk without data ends the stream. */
    method NextChunk() returns (e: Option<ChunkError>)
      modifies this`br, this`prevSignature, this`current, this`done
      ensures Took(ChunkCodec.NextChunk(ctx, old(br), old(prevSignature)), old(current), old(done), e)
    {
      var line := ReadChunkHeader();
      if line.None? { return Some(NoHeader); }
      var head := ParseHeader(line.value);
      if head.Failure? { return Some(head.error); }
      e := ReadBody(head.value);
    }

    method ReadBody(head: Head) returns (e: Option<ChunkError>)
      modifies this`br, this`prevSignature, this`current, this`done
      ensures Took(TakeChunk(ctx, old(br), head, old(prevSignature)), old(current), old(done), e)
    {
      var data := ReadFull(head.size);
      if data.None? { return Some(NoData); }
      var trailer := ReadFull(2);
      if trailer.None? { return Some(NoTrailer); }
      if ctx.ChunkSignature(prevSignature, data.value) != head.sig { return Some(Mismatch); }
      prevSignature := head.sig;
      if head.size == 0 {
        done := true;
        return None;
      }
      current := data.value;
      return None;
    }

    /** Reads chunks until there are bytes to deliver; otherwise tells why there are none. */
    method Fill() returns (stop: Option<Status>)
      requires err.None?
      modifies this
      ensures Pending() == old(Pending())
      ensures match stop
        case None => err.None? && current != ""
        case Some(Eof) => Pending() == Stream("", Clean)
        case Some(Failed(e)) => Pending() == Stream("", Bad(e))
        case Some(More) => false
    {
      while |current| == 0
        invariant err.None? && Pending() == old(Pending())
        decreases |br|, !done
      {
        if done { return Some(Eof); }
        var e := NextChunk();
        if e.Some? {
          err := e;
          return Some(Failed(e.value));
        }
      }
      return None;
    }

    /** The bytes pending after the current chunk. */
    ghost function Later(): Bytes
      reads this
    {
      if done then "" else Decode(ctx, br, prevSignature).Payload()
    }

    /** Copies as many of the current bytes as there is room for. */
    method Deliver(p: array<char>) returns (n: nat)
      requires err.None?
      modifies this`current, p
      ensures n == (if p.Length < |old(current)| then p.Length else |old(current)|)
      ensures p[n..] == old(p[n..])
      ensures old(current) == p[..n] + current
    {
      n := if p.Length < |current| then p.Length else |current|;
      forall i | 0 <= i < n {
        p[i] := current[i];
      }
      assert p[..n] == current[..n];
      assert current == current[..n] + current[n..];
      current := current[n..];
    }

    /**
     Delivers some of the pending bytes: at least one when there is room for one. At the end
     it reports a clean end or the error, and keeps reporting it.
     */
    method Read(p: array<char>) returns (n: nat, status: Status)
      modifies this, p
      ensures n <= p.Length && p[n..] == old(p[n..])
      ensures match status
        case More =>
          && old(Pending()) == Stream(p[..n] + Pending().bytes, Pending().end)
          && (p.Length > 0 ==> n > 0)
        case Eof => n == 0 && Pending() == old(Pending()) == Stream("", Clean)
        case Failed(e) => n == 0 && Pending() == old(Pending()) == Stream("", Bad(e))
      ensures old(err).Some? ==> status == Failed(old(err).value)
    {
      if err.Some? { return 0, Failed(err.value); }
      var stop := Fill();
      if stop.Some? { return 0, stop.value; }
      ghost var later, end := Later(), Pending().end;
      n := Deliver(p);
      Associative(p[..n], current, later);
      assert Pending() == Stream(current + later, end);
      status := More;
    }
  }

  datatype Stream = Stream(bytes: Bytes, end: End)

  /** Reads to the end with buffers of any sizes. */
  method ReadAll(r: ChunkedReader, sizes: nat -> nat) returns (all: Bytes, end: End)
    requires forall i :: sizes(i) > 0
    modifies r
    ensures Stream(all, end) == old(r.Pending())
  {
    all := "";
    var i := 0;
    while true
      invariant old(r.Pending()) == Stream(all + r.Pending().bytes, r.Pending().end)
      decreases |r.Pending().bytes|
    {
      var buffer := new char[sizes(i)];
      i := i + 1;
      var n, status := r.Read(buffer);
      match status {
        case More => all := all + buffer[..n];
        case Eof => return all, Clean;
        case Failed(e) => return all, Bad(e);
      }
    }
  }

  /** Whatever the buffer sizes, reading what the writer sent gives the chunks back and a clean end. */
  method SendAndReceive(ctx: Context, chunks: seq<Bytes>, seed: Bytes, sizes: nat -> nat)
    returns (all: Bytes, end: End)
    requires ctx.crypto.Sized() && Sendable(chunks) && forall i :: sizes(i) > 0
    ensures all == Flatten(chunks) && end == Clean
  {
    var body := Encode(ctx, chunks, seed);
    RoundTrip(ctx, chunks, seed, "");
    assert body + "" == body;
    var r := new ChunkedReader(body, ctx, seed);
    all, end := ReadAll(r, sizes);
  }
}
