/**
 * Host sniffing (httphost.go): what the parser of the request reads is kept
 * and replayed, so that the proxied stream is the original byte for byte.
 */
module Replay {
  import opened Text
  import opened Base32

  /** The error result of a read. */
  datatype Status = Fine | Eof | Failure

  /**
   * The incoming connection; how much a read returns, and when it reports the
   * end, is up to the network. `asked` counts the reads, `last` is what the
   * latest one reported.
   */
  class Source {
    var rest: seq<Byte>
    var asked: nat
    var last: Status

    constructor (data: seq<Byte>)
      ensures rest == data && asked == 0
    {
      rest, asked, last := data, 0, Fine;
    }

    method Read(size: nat) returns (chunk: seq<Byte>, status: Status)
      modifies this
      ensures chunk + rest == old(rest) && |chunk| <= size
      ensures status == Eof ==> rest == []
      ensures asked == old(asked) + 1 && last == status
    {
      var n: nat :| n <= size && n <= |rest|;
      chunk, rest := rest[..n], rest[n..];
      status := *;
      if status == Eof && rest != [] {
        status := Fine;
      }
      asked, last := asked + 1, status;
    }
  }

  /** bytes.Buffer */
  class Buffer {
    var unread: seq<Byte>

    constructor ()
      ensures unread == []
    {
      unread := [];
    }

    method Write(p: seq<Byte>)
      modifies this
      ensures unread == old(unread) + p
    {
      unread := unread + p;
    }

    method Read(size: nat) returns (chunk: seq<Byte>, status: Status)
      modifies this
      ensures chunk + unread == old(unread) && |chunk| <= size
      ensures status == if old(unread) == [] && size > 0 then Eof else Fine
      ensures |chunk| == if size <= |old(unread)| then size else |old(unread)|
    {
      if unread == [] {
        return [], if size == 0 then Fine else Eof;
      }
      var n := if size <= |unread| then size else |unread|;
      chunk, unread := unread[..n], unread[n..];
      status := Fine;
    }
  }

  /** io.TeeReader: everything read from the source is also written to the buffer. */
  class TeeReader {
    const source: Source
    const buffer: Buffer

    constructor (source: Source, buffer: Buffer)
      ensures this.source == source && this.buffer == buffer
    {
      this.source, this.buffer := source, buffer;
    }

    method Read(size: nat) returns (chunk: seq<Byte>, status: Status)
      modifies source, buffer
      ensures chunk + source.rest == old(source.rest)
      ensures buffer.unread == old(buffer.unread) + chunk && |chunk| <= size
      ensures source.asked == old(source.asked) + 1 && source.last == status
    {
      chunk, status := source.Read(size);
      if |chunk| > 0 {
        buffer.Write(chunk);
      }
    }
  }

  lemma Associative(a: seq<Byte>, b: seq<Byte>, c: seq<Byte>)
    ensures a + (b + c) == (a + b) + c
  {}

  /** io.MultiReader over the buffer and then the source; `left` counts the readers not yet exhausted. */
  class MultiReader {
    const buffer: Buffer
    const source: Source
    var left: nat

    ghost predicate Valid()
      reads this
    {
      left <= 2
    }

    /** The bytes still to come. */
    ghost function Pending(): seq<Byte>
      reads this, buffer, source
    {
      if left == 2 then buffer.unread + source.rest else if left == 1 then source.rest else []
    }

    constructor (buffer: Buffer, source: Source)
      ensures Valid() && this.buffer == buffer && this.source == source
      ensures Pending() == buffer.unread + source.rest
    {
      this.buffer, this.source := buffer, source;
      left := 2;
    }

    /** A read of the foremost reader that is left. */
    method ReadFront(size: nat) returns (chunk: seq<Byte>, status: Status)
      requires Valid() && left > 0
      modifies buffer, source
      ensures chunk + Pending() == old(Pending()) && |chunk| <= size
      ensures left == 2 ==> source.rest == old(source.rest) && source.asked == old(source.asked)
      ensures left == 2 && old(buffer.unread) == [] ==> status == if size > 0 then Eof else Fine
      ensures left == 1 ==> source.asked == old(source.asked) + 1 && source.last == status
      ensures left == 2 ==> |chunk| == (if size <= |old(buffer.unread)| then size else |old(buffer.unread)|)
      ensures left == 2 && old(buffer.unread) != [] ==> status == Fine
      ensures status == Eof ==> if left == 2 then Pending() == source.rest && chunk == [] else Pending() == []
    {
      if left == 2 {
        chunk, status := buffer.Read(size);
        Associative(chunk, buffer.unread, source.rest);
      } else {
        chunk, status := source.Read(size);
      }
    }

    /** Bytes are buffered, and have not been handed out. */
    predicate Buffered()
      reads this, buffer
    {
      left == 2 && buffer.unread != []
    }

    /**
     * While bytes are buffered they are handed out in full, without waiting for
     * the source. After that each read is one read of the source, with what that
     * reports, until the source has reported its end.
     */
    method Read(size: nat) returns (chunk: seq<Byte>, status: Status)
      requires Valid()
      modifies this, buffer, source
      ensures Valid()
      ensures chunk + Pending() == old(Pending()) && |chunk| <= size
      ensures status == Eof ==> Pending() == []
      ensures old(Buffered()) ==>
                && |chunk| == (if size <= |old(buffer.unread)| then size else |old(buffer.unread)|)
                && source.rest == old(source.rest) && source.asked == old(source.asked) && status == Fine
      ensures !old(Buffered()) && old(left) > 0 && size > 0 ==> source.asked == old(source.asked) + 1 && status == source.last
      ensures old(left) == 0 ==> source.asked == old(source.asked) && status == Eof
      ensures old(left) > 0 && left == 0 ==> status == Eof
    {
      while left > 0
        invariant Valid()
        invariant Pending() == old(Pending())
        invariant left == old(left) ==> buffer.unread == old(buffer.unread) && source.rest == old(source.rest)
        invariant left <= old(left) && (old(Buffered()) ==> left == 2)
        invariant left > 0 ==> source.asked == old(source.asked)
        invariant old(left) > 0 && left == 0 && size > 0 ==> source.asked == old(source.asked) + 1 && source.last == Eof
        invariant old(left) == 0 ==> source.asked == old(source.asked)
        decreases left
      {
        chunk, status := ReadFront(size);
        if status == Eof {
          left := left - 1;
        }
        if |chunk| > 0 || status != Eof {
          if status == Eof && left > 0 {
            status := Fine;
          }
          return;
        }
      }
      return [], Eof;
    }
  }

  /**
   * `peekHostHeader`: the parser reads through the tee as often and as much as
   * it likes (`sizes`), and finds a host or fails (`host`). The replay holds
   * the whole original stream, however far the parser read ahead.
   */
  method PeekHostHeader(r: Source, sizes: seq<nat>, host: Option<string>) returns (replay: Option<MultiReader>)
    modifies r
    ensures replay.Some? <==> host.Some?
    ensures replay.Some? ==> fresh(replay.value) && fresh(replay.value.buffer) && replay.value.source == r
    ensures replay.Some? ==> replay.value.Valid() && replay.value.Pending() == old(r.rest)
    ensures r.asked == old(r.asked) + |sizes|
  {
    var buf := new Buffer();
    var tee := new TeeReader(r, buf);
    for i := 0 to |sizes|
      invariant buf.unread + r.rest == old(r.rest) && r.asked == old(r.asked) + i
    {
      var _, _ := tee.Read(sizes[i]);
    }
    if host == None {
      return None;
    }
    var m := new MultiReader(buf, r);
    return Some(m);
  }

  /** `replayConn`: its reads are served by the replay; `asked` counts them. */
  class ReplayConn {
    const r: MultiReader
    var asked: nat

    constructor (r: MultiReader)
      ensures this.r == r && asked == 0
    {
      this.r, asked := r, 0;
    }

    method Read(size: nat) returns (chunk: seq<Byte>, status: Status)
      requires r.Valid()
      modifies this, r, r.buffer, r.source
      ensures r.Valid() && chunk + r.Pending() == old(r.Pending()) && |chunk| <= size
      ensures status == Eof ==> r.Pending() == []
      ensures old(r.Buffered()) ==>
                && |chunk| == (if size <= |old(r.buffer.unread)| then size else |old(r.buffer.unread)|)
                && r.source.rest == old(r.source.rest) && r.source.asked == old(r.source.asked) && status == Fine
      ensures !old(r.Buffered()) && old(r.left) > 0 && size > 0 ==>
                r.source.asked == old(r.source.asked) + 1 && status == r.source.last
      ensures asked == old(asked) + 1
    {
      chunk, status := r.Read(size);
      asked := asked + 1;
    }
  }

  /**
   * Transparency: sniff the host, then read the replay with any schedule of
   * sizes. At every point what came out, followed by what is still to come, is
   * the original stream: nothing is lost, repeated or reordered. It stops early
   * only at the end of the stream, when all of it is out.
   */
  method SniffAndForward(r: Source, parser: seq<nat>, host: Option<string>, sizes: seq<nat>)
    returns (out: seq<Byte>, conn: Option<ReplayConn>)
    modifies r
    ensures conn.Some? <==> host.Some?
    ensures conn.Some? ==> out + conn.value.r.Pending() == old(r.rest)
    ensures conn.Some? && conn.value.asked != |sizes| ==> out == old(r.rest)
    ensures conn == None ==> out == []
  {
    out := [];
    var replay := PeekHostHeader(r, parser, host);
    if replay == None {
      return out, None;
    }
    var c := new ReplayConn(replay.value);
    conn := Some(c);
    var ended := false;
    while c.asked < |sizes| && !ended
      invariant fresh(c) && c.r == replay.value && c.r.Valid() && fresh(c.r) && fresh(c.r.buffer) && c.r.source == r
      invariant conn == Some(c) && c.asked <= |sizes|
      invariant out + c.r.Pending() == old(r.rest)
      invariant ended ==> c.r.Pending() == []
      decreases |sizes| - c.asked
    {
      var chunk, status := c.Read(sizes[c.asked]);
      out := out + chunk;
      ended := status == Eof;
    }
  }
}
