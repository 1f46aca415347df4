/**
 Byte streams through the proxy: connections that replay bytes already read, the bounded read of
 a response body, and its replay to the client.

 A source delivers its bytes in pieces of any size, some of them empty, and then ends or breaks;
 the end may come with the last bytes or after them. Only finitely many pieces are empty.
 */
module Streams {

  newtype Byte = b: int | 0 <= b < 256

  datatype Err = NoError | EndOfStream | Broken

  class Source {
    var rest: seq<Byte>
    var patience: nat
    const end: Err

    constructor (bytes: seq<Byte>, patience: nat, end: Err)
      ensures rest == bytes && this.end == end
    {
      this.rest, this.patience, this.end := bytes, patience, end;
    }

    method Read(b: array<Byte>) returns (n: nat, err: Err)
      requires end != NoError
      modifies this, b
      ensures n <= b.Length && n <= |old(rest)|
      ensures Delivered(old(rest), rest, old(b[..]), b[..], n)
      ensures err != NoError ==> rest == [] && err == end
      ensures b.Length > 0 && err == NoError ==> |rest| + patience < old(|rest| + patience)
      ensures patience <= old(patience)
    {
      if b.Length == 0 {
        return 0, NoError;
      }
      if rest == [] {
        return 0, end;
      }
      var most := if b.Length < |rest| then b.Length else |rest|;
      var least := if patience > 0 then 0 else 1;
      n :| least <= n <= most;
      forall i | 0 <= i < n {
        b[i] := rest[i];
      }
      if n == 0 {
        patience := patience - 1;
      }
      rest := rest[n..];
      var together: bool := *;
      err := if rest == [] && together then end else NoError;
    }
  }

  /** A read of `n` bytes moved the front of the stream into the front of the buffer, and no more. */
  ghost predicate Delivered(before: seq<Byte>, after: seq<Byte>, bufBefore: seq<Byte>, bufAfter: seq<Byte>, n: nat) {
    && n <= |before| && n <= |bufAfter| == |bufBefore|
    && before == bufAfter[..n] + after
    && bufAfter[n..] == bufBefore[n..]
  }

  lemma DeliveryAdds(all: seq<Byte>, got: seq<Byte>, before: seq<Byte>, after: seq<Byte>, bufBefore: seq<Byte>, bufAfter: seq<Byte>, n: nat)
    requires all == got + before && Delivered(before, after, bufBefore, bufAfter, n)
    ensures all == got + bufAfter[..n] + after
  {
  }

  // --------------------------------------------------------- replaying bytes

  class PrependConn {
    const conn: Source
    const buf: seq<Byte>
    var offset: nat

    constructor (conn: Source, buf: seq<Byte>)
      ensures this.conn == conn && this.buf == buf && offset == 0
    {
      this.conn, this.buf, this.offset := conn, buf, 0;
    }

    ghost predicate Valid() reads this { offset <= |buf| && conn.end != NoError }

    /** What the reader is still owed. */
    ghost function Pending(): (s: seq<Byte>)
      requires Valid()
      reads this, conn
    {
      buf[offset..] + conn.rest
    }

    method Read(b: array<Byte>) returns (n: nat, err: Err)
      requires Valid()
      modifies this, conn, b
      ensures Valid() && n <= b.Length
      ensures Delivered(old(Pending()), Pending(), old(b[..]), b[..], n)
      ensures err != NoError ==> Pending() == [] && err == conn.end
      ensures b.Length > 0 && err == NoError ==> |Pending()| + conn.patience < old(|Pending()| + conn.patience)
      ensures conn.patience <= old(conn.patience)
    {
      if offset < |buf| {
        var left := buf[offset..];
        n := if b.Length < |left| then b.Length else |left|;
        forall i | 0 <= i < n {
          b[i] := left[i];
        }
        assert b[..n] == left[..n];
        assert left == left[..n] + left[n..];
        assert buf[offset + n..] == left[n..];
        offset := offset + n;
        return n, NoError;
      }
      n, err := conn.Read(b);
    }

    /** Any sequence of reads yields a front of the buffered bytes and the stream behind them. */
    method ReadSeveral(sizes: seq<nat>) returns (got: seq<Byte>)
      requires Valid()
      modifies this, conn
      ensures Valid() && got + Pending() == old(Pending())
    {
      got := [];
      for i := 0 to |sizes|
        invariant Valid() && got + Pending() == old(Pending())
      {
        var b := new Byte[sizes[i]];
        ghost var before, empty := Pending(), b[..];
        var n, err := Read(b);
        DeliveryAdds(old(Pending()), got, before, Pending(), empty, b[..], n);
        got := got + b[..n];
      }
    }

    /** Reading to the end yields all of it. */
    method ReadToEnd(size: nat) returns (got: seq<Byte>, err: Err)
      requires Valid() && size > 0
      modifies this, conn
      ensures Valid() && got == old(Pending()) && err == conn.end
    {
      got, err := [], NoError;
      while err == NoError
        invariant Valid() && got + Pending() == old(Pending())
        invariant err != NoError ==> Pending() == [] && err == conn.end
        decreases |Pending()| + conn.patience, err == NoError
      {
        var b := new Byte[size];
        ghost var before, empty := Pending(), b[..];
        var n;
        n, err := Read(b);
        DeliveryAdds(old(Pending()), got, before, Pending(), empty, b[..], n);
        got := got + b[..n];
      }
    }
  }

  class InsertingConn {
    const conn: Source
    var extraData: seq<Byte>

    constructor (conn: Source, extraData: seq<Byte>)
      ensures this.conn == conn && this.extraData == extraData
    {
      this.conn, this.extraData := conn, extraData;
    }

    ghost function Pending(): (s: seq<Byte>)
      reads this, conn
    {
      extraData + conn.rest
    }

    method Read(b: array<Byte>) returns (n: nat, err: Err)
      requires conn.end != NoError
      modifies this, conn, b
      ensures n <= b.Length
      ensures Delivered(old(Pending()), Pending(), old(b[..]), b[..], n)
      ensures err != NoError ==> Pending() == [] && err == conn.end
      ensures b.Length > 0 && err == NoError ==> |Pending()| + conn.patience < old(|Pending()| + conn.patience)
      ensures conn.patience <= old(conn.patience)
    {
      if |extraData| == 0 {
        n, err := conn.Read(b);
        return;
      }
      var left := extraData;
      n := if b.Length < |left| then b.Length else |left|;
      forall i | 0 <= i < n {
        b[i] := left[i];
      }
      assert b[..n] == left[..n];
      assert left == left[..n] + left[n..];
      extraData := left[n..];
      err := NoError;
    }

    method ReadSeveral(sizes: seq<nat>) returns (got: seq<Byte>)
      requires conn.end != NoError
      modifies this, conn
      ensures got + Pending() == old(Pending())
    {
      got := [];
      for i := 0 to |sizes|
        invariant got + Pending() == old(Pending())
      {
        var b := new Byte[sizes[i]];
        ghost var before, empty := Pending(), b[..];
        var n, err := Read(b);
        DeliveryAdds(old(Pending()), got, before, Pending(), empty, b[..], n);
        got := got + b[..n];
      }
    }

    method ReadToEnd(size: nat) returns (got: seq<Byte>, err: Err)
      requires conn.end != NoError && size > 0
      modifies this, conn
      ensures got == old(Pending()) && err == conn.end
    {
      got, err := [], NoError;
      while err == NoError
        invariant got + Pending() == old(Pending())
        invariant err != NoError ==> Pending() == [] && err == conn.end
        decreases |Pending()| + conn.patience, err == NoError
      {
        var b := new Byte[size];
        ghost var before, empty := Pending(), b[..];
        var n;
        n, err := Read(b);
        DeliveryAdds(old(Pending()), got, before, Pending(), empty, b[..], n);
        got := got + b[..n];
      }
    }
  }

  // ------------------------------------------------------------ bounded reads

  const MAX_INT64: int := 0x7FFF_FFFF_FFFF_FFFF

  /** Addition of one to a signed 64-bit number. */
  function Increment(n: int): int {
    if n == MAX_INT64 then -MAX_INT64 - 1 else n + 1
  }

  function Clamp(limit: int): int { if limit < 0 then 0 else limit }

  /** How many bytes the limited reader lets through. */
  function Budget(limit: int): nat {
    if Increment(Clamp(limit)) < 0 then 0 else Increment(Clamp(limit))
  }

  function Front(s: seq<Byte>, n: nat): seq<Byte> { if n < |s| then s[..n] else s }

  /** readBoundedBody: io.ReadAll over a reader limited to `limit + 1` bytes. */
  method ReadBounded(src: Source, limit: int) returns (data: seq<Byte>, overLimit: bool, err: Err)
    requires src.end != NoError && limit <= MAX_INT64
    modifies src
    ensures data == Front(old(src.rest), Budget(limit))
    ensures data + src.rest == old(src.rest)
    ensures overLimit == (|data| > if limit < 0 then 0 else limit)
    ensures err != EndOfStream && (err == Broken ==> src.end == Broken && src.rest == [])
    ensures err == NoError && |old(src.rest)| < Budget(limit) ==> src.end == EndOfStream
  {
    var left := Budget(limit);
    data, err := [], NoError;
    while left > 0 && err == NoError
      invariant left == Budget(limit) - |data|
      invariant data + src.rest == old(src.rest)
      invariant err != NoError ==> src.rest == [] && err == src.end
      decreases |src.rest| + src.patience, err == NoError
    {
      var size :| 1 <= size <= left;
      var b := new Byte[size];
      var n;
      n, err := src.Read(b);
      data := data + b[..n];
      left := left - n;
    }
    if err == EndOfStream {
      err := NoError;
    }
    overLimit := |data| > Clamp(limit);
  }

  /** overLimit says whether the body is longer than the limit, for every 64-bit limit and length. */
  lemma OverLimitIsExact(body: seq<Byte>, limit: int)
    requires limit <= MAX_INT64 && |body| <= MAX_INT64
    ensures var most := if limit < 0 then 0 else limit;
      |Front(body, Budget(limit))| > most <==> |body| > most
  {
  }

  /** A body within the limit is returned whole, except at the one limit whose successor overflows. */
  lemma WithinLimitIsWhole(body: seq<Byte>, limit: int)
    requires limit <= MAX_INT64 && |body| <= if limit < 0 then 0 else limit
    ensures Front(body, Budget(limit)) == body <==> limit != 0x7FFF_FFFF_FFFF_FFFF || body == []
  {
  }

  // ----------------------------------------------------------------- writing

  /** The client: a healthy one takes all it is given, any other may stop anywhere. */
  class Sink {
    var written: seq<Byte>
    const healthy: bool

    constructor (healthy: bool)
      ensures written == [] && this.healthy == healthy
    {
      this.written, this.healthy := [], healthy;
    }

    method Write(p: seq<Byte>) returns (n: nat, ok: bool)
      modifies this
      ensures n <= |p| && written == old(written) + p[..n]
      ensures ok ==> n == |p|
      ensures healthy ==> ok
    {
      n :| 0 <= n <= |p| && (healthy ==> n == |p|);
      written := written + p[..n];
      var fails: bool := *;
      ok := n == |p| && (healthy || !fails);
    }
  }

  datatype SizeReport = SizeReport(contentType: string, size: nat, user: string)

  function Total(reports: seq<SizeReport>): nat {
    if reports == [] then 0 else Total(reports[..|reports| - 1]) + reports[|reports| - 1].size
  }

  lemma ReportAdds(reports: seq<SizeReport>, r: SizeReport)
    ensures Total(reports + [r]) == Total(reports) + r.size
  {
  }

  class AccountingWriter {
    const writer: Sink
    const contentType: string
    const user: string
    /** Whether a content-size handler is installed. */
    const handled: bool
    var reports: seq<SizeReport>
    ghost const start: nat

    constructor (writer: Sink, contentType: string, user: string, handled: bool)
      ensures Valid() && this.writer == writer && this.handled == handled && start == |writer.written| && reports == []
      ensures this.contentType == contentType && this.user == user
    {
      this.writer, this.contentType, this.user, this.handled, this.reports := writer, contentType, user, handled, [];
      this.start := |writer.written|;
    }

    /** The reports add up to what has been written through this writer. */
    ghost predicate Valid()
      reads this, writer
    {
      && start <= |writer.written|
      && Total(reports) == (if handled then |writer.written| - start else 0)
      && forall r | r in reports :: r.size > 0 && r.contentType == contentType && r.user == user
    }

    method Write(p: seq<Byte>) returns (n: nat, ok: bool)
      requires Valid()
      modifies this, writer
      ensures Valid()
      ensures n <= |p| && writer.written == old(writer.written) + p[..n]
      ensures ok ==> n == |p|
      ensures writer.healthy ==> ok
    {
      n, ok := writer.Write(p);
      if n > 0 && handled {
        var report := SizeReport(contentType, n, user);
        ReportAdds(reports, report);
        reports := reports + [report];
      }
    }
  }

  /** io.Copy from a byte slice: one write, or none when there is nothing. */
  method CopyBytes(dest: AccountingWriter, bytes: seq<Byte>) returns (ok: bool)
    requires dest.Valid()
    modifies dest, dest.writer
    ensures dest.Valid()
    ensures Emitted(old(dest.writer.written), dest.writer.written, bytes, ok)
    ensures dest.writer.healthy ==> ok
  {
    if bytes == [] {
      return true;
    }
    var n;
    n, ok := dest.Write(bytes);
    assert dest.writer.written == old(dest.writer.written) + bytes[..n];
    assert ok ==> bytes[..n] == bytes;
  }

  /** The client got some front of `bytes` more than before, and all of it on success. */
  ghost predicate Emitted(before: seq<Byte>, after: seq<Byte>, bytes: seq<Byte>, ok: bool) {
    before <= after && after[|before|..] <= bytes && (ok ==> after == before + bytes)
  }

  /** io.Copy from a reader, through a buffer of `size` bytes. */
  method CopyStream(dest: AccountingWriter, src: Source, size: nat) returns (ok: bool)
    requires dest.Valid() && src.end != NoError && size > 0
    modifies dest, dest.writer, src
    ensures dest.Valid()
    ensures Emitted(old(dest.writer.written), dest.writer.written, old(src.rest), ok)
    ensures dest.writer.healthy ==> ok == (src.end == EndOfStream)
  {
    ghost var start, body := dest.writer.written, src.rest;
    ghost var sent := [];
    var err := NoError;
    while err == NoError
      invariant dest.Valid()
      invariant dest.writer.written == start + sent && sent + src.rest == body
      invariant err != NoError ==> src.rest == [] && err == src.end
      decreases |src.rest| + src.patience, err == NoError
    {
      var b := new Byte[size];
      ghost var before, empty, out := src.rest, b[..], dest.writer.written;
      var n;
      n, err := src.Read(b);
      var piece := b[..n];
      DeliveryAdds(body, sent, before, src.rest, empty, b[..], n);
      if n > 0 {
        var m, wrote := dest.Write(piece);
        if !wrote {
          FrontOf(start, sent, piece, m, src.rest, body);
          return false;
        }
        assert piece[..m] == piece;
      }
      assert dest.writer.written == out + piece;
      sent := sent + piece;
    }
    ok := err == EndOfStream;
  }

  lemma FrontOf(start: seq<Byte>, sent: seq<Byte>, piece: seq<Byte>, m: nat, rest: seq<Byte>, body: seq<Byte>)
    requires sent + piece + rest == body && m <= |piece|
    ensures Emitted(start, start + sent + piece[..m], body, false)
  {
  }

  /** writeResponseStream without compression: the bytes already read, then the rest. */
  method WriteResponseStream(dest: AccountingWriter, prefix: seq<Byte>, body: Source, size: nat) returns (ok: bool)
    requires dest.Valid() && body.end != NoError && size > 0
    modifies dest, dest.writer, body
    ensures dest.Valid()
    ensures Emitted(old(dest.writer.written), dest.writer.written, prefix + old(body.rest), ok)
    ensures dest.writer.healthy ==> ok == (body.end == EndOfStream)
  {
    ok := CopyBytes(dest, prefix);
    ghost var between := dest.writer.written;
    if ok {
      ok := CopyStream(dest, body, size);
    }
    EmittedTwice(old(dest.writer.written), between, dest.writer.written, prefix, old(body.rest), ok);
  }

  lemma EmittedTwice(a: seq<Byte>, b: seq<Byte>, c: seq<Byte>, x: seq<Byte>, y: seq<Byte>, ok: bool)
    requires (Emitted(a, b, x, true) && Emitted(b, c, y, ok)) || (Emitted(a, b, x, false) && b == c && !ok)
    ensures Emitted(a, c, x + y, ok)
  {
  }

  /**
   Reading a body for inspection and passing it on when no filter takes the response over. A body
   that breaks while it is read is answered with the error `page` instead, past the accounting.
   */
  method Forward(sink: Sink, contentType: string, user: string, handled: bool, page: seq<Byte>, body: Source, limit: int, size: nat)
    returns (ok: bool, failed: bool, reports: seq<SizeReport>)
    requires body.end != NoError && size > 0 && limit <= MAX_INT64
    modifies sink, body
    ensures Emitted(old(sink.written), sink.written, if failed then page else old(body.rest), false)
    ensures failed ==> !ok && body.end == Broken && |old(body.rest)| <= Budget(limit)
    ensures body.end == Broken && |old(body.rest)| < Budget(limit) ==> failed
    ensures limit != MAX_INT64 && ok ==> sink.written == old(sink.written) + old(body.rest)
    ensures body.end == EndOfStream && sink.healthy ==> ok
    ensures Total(reports) == if handled && !failed then |sink.written| - |old(sink.written)| else 0
  {
    ghost var before := sink.written;
    var data, over, err := ReadBounded(body, limit);
    if err != NoError {
      var n, wrote := sink.Write(page);
      FrontOf(before, [], page, n, [], page);
      return false, true, [];
    }
    var dest := new AccountingWriter(sink, contentType, user, handled);
    if over {
      ok := WriteResponseStream(dest, data, body, size);
    } else {
      ok := CopyBytes(dest, data);
    }
    return ok, false, dest.reports;
  }
}
