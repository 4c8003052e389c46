/**
 * The socket HTTPClient talks to. The peer is given as a script: the chunks
 * it delivers, in order. An empty chunk, or the end of the script, is the
 * peer closing the connection, after which every read returns no bytes: a
 * read never moves past an empty chunk, so nothing scripted after it is
 * ever delivered.
 */
module Transport {

  import opened Wrappers

  newtype byte = x: int | 0 <= x < 256
  type Bytes = seq<byte>

  /** The buffer size `recvall` passes to `recv`. */
  const RecvSize: nat := 1024

  /** All the chunks, concatenated. */
  function Flatten(chunks: seq<Bytes>): Bytes
  {
    if chunks == [] then [] else chunks[0] + Flatten(chunks[1..])
  }

  /** The bytes a reader collects from `chunks` until the peer closes. */
  function ReadToEof(chunks: seq<Bytes>): Bytes
  {
    if chunks == [] || chunks[0] == [] then [] else chunks[0] + ReadToEof(chunks[1..])
  }

  /**
   * The stream as a reader leaves it once it has seen the end: from the first
   * empty chunk on, which stays in front so that the stream stays closed, or
   * nothing when the script ran out without one.
   */
  function AtEof(chunks: seq<Bytes>): seq<Bytes>
  {
    if chunks == [] then []
    else if chunks[0] == [] then chunks
    else AtEof(chunks[1..])
  }

  /** What remains to be read, counted so that every read lowers it. */
  function Pending(chunks: seq<Bytes>): nat
  {
    if chunks == [] then 0 else |chunks[0]| + 1 + Pending(chunks[1..])
  }

  /**
   * Reading to the end of the stream yields exactly the chunks before the
   * first empty one, concatenated, and stops at that empty chunk.
   */
  lemma {:induction false} ReadToEofStopsAtEmpty(before: seq<Bytes>, after: seq<Bytes>)
    requires forall k :: 0 <= k < |before| ==> before[k] != []
    ensures ReadToEof(before + [[]] + after) == Flatten(before)
    ensures AtEof(before + [[]] + after) == [[]] + after
  {
    var chunks := before + [[]] + after;
    if before == [] {
      assert chunks[0] == [] && chunks[1..] == after;
    } else {
      assert chunks[0] == before[0];
      assert chunks[1..] == before[1..] + [[]] + after;
      ReadToEofStopsAtEmpty(before[1..], after);
    }
  }

  /** A stream without an empty chunk is read whole and leaves nothing. */
  lemma {:induction false} ReadToEofWithoutEmpty(chunks: seq<Bytes>)
    requires forall k :: 0 <= k < |chunks| ==> chunks[k] != []
    ensures ReadToEof(chunks) == Flatten(chunks)
    ensures AtEof(chunks) == []
  {
    if chunks != [] {
      assert chunks[0] != [];
      ReadToEofWithoutEmpty(chunks[1..]);
    }
  }

  /**
   * One `recv(RecvSize)` on the stream `chunks`: the bytes it returns and the
   * chunks still to come. A chunk longer than RecvSize is handed out in
   * pieces.
   */
  function RecvStep(chunks: seq<Bytes>): (Bytes, seq<Bytes>)
  {
    if chunks == [] then ([], [])
    else if chunks[0] == [] then ([], chunks)
    else if |chunks[0]| <= RecvSize then (chunks[0], chunks[1..])
    else (chunks[0][..RecvSize], [chunks[0][RecvSize..]] + chunks[1..])
  }

  /**
   * A read returns at most RecvSize bytes. A non-empty read moves bytes from
   * the stream to the reader without losing or reordering any. An empty
   * read is the end of the stream and leaves the stream as it was, so every
   * later read is empty too.
   */
  lemma RecvStepKeepsStream(chunks: seq<Bytes>)
    ensures |RecvStep(chunks).0| <= RecvSize
    ensures RecvStep(chunks).0 != [] ==>
              ReadToEof(chunks) == RecvStep(chunks).0 + ReadToEof(RecvStep(chunks).1)
              && AtEof(chunks) == AtEof(RecvStep(chunks).1)
              && Pending(RecvStep(chunks).1) < Pending(chunks)
    ensures RecvStep(chunks).0 == [] ==>
              ReadToEof(chunks) == [] && RecvStep(chunks) == ([], chunks) && chunks == AtEof(chunks)
  {
    if chunks != [] && chunks[0] != [] && |chunks[0]| > RecvSize {
      var head := chunks[0];
      var rest := [head[RecvSize..]] + chunks[1..];
      assert rest[0] == head[RecvSize..] && rest[0] != [] && rest[1..] == chunks[1..];
      assert head == head[..RecvSize] + head[RecvSize..];
    }
  }

  class Socket {
    /** The address the socket was connected to. */
    const host: Option<string>
    const port: int
    /** Everything written with `sendall`, as text (before UTF-8 encoding). */
    var sent: string
    /** What the peer still has to deliver. */
    var incoming: seq<Bytes>

    /** A socket connected to (host, port) whose peer will deliver `peer`. */
    constructor (host: Option<string>, port: int, peer: seq<Bytes>)
      ensures this.host == host && this.port == port
      ensures sent == [] && incoming == peer
    {
      this.host := host;
      this.port := port;
      sent := [];
      incoming := peer;
    }

    /** `sendall(data)`: the whole of `data` is written, nothing is read. */
    method SendAll(data: string)
      modifies this
      ensures sent == old(sent) + data && incoming == old(incoming)
    {
      sent := sent + data;
    }

    /** `recv(RecvSize)`: the next piece of the stream, empty once the peer has closed. */
    method Recv() returns (part: Bytes)
      modifies this
      ensures (part, incoming) == RecvStep(old(incoming))
      ensures sent == old(sent)
    {
      part, incoming := RecvStep(incoming).0, RecvStep(incoming).1;
    }
  }
}
