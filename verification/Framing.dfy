/**
  Length-prefixed frames over a socket: eight bytes of length, most significant first,
  and then the payload.
 */
module Framing {
  import opened Wrappers

  type Byte = b: int | 0 <= b < 256

  function Min(a: nat, b: nat): nat { if a < b then a else b }

  // ------------------------------------------------------------ lengths as bytes

  function Capacity(k: nat): nat { if k == 0 then 1 else 256 * Capacity(k - 1) }

  function ToBytes(n: nat, k: nat): (r: seq<Byte>)
    ensures |r| == k
  {
    if k == 0 then [] else ToBytes(n / 256, k - 1) + [n % 256]
  }
  function FromBytes(bs: seq<Byte>): nat {
    if bs == [] then 0 else 256 * FromBytes(bs[..|bs| - 1]) + bs[|bs| - 1]
  }

  lemma {:induction false} LengthRoundTrip(n: nat, k: nat)
    requires n < Capacity(k)
    ensures FromBytes(ToBytes(n, k)) == n
  {
    if k > 0 {
      LengthRoundTrip(n / 256, k - 1);
      assert ToBytes(n, k)[..k - 1] == ToBytes(n / 256, k - 1);
    }
  }

  // ------------------------------------------------------------ the socket

  /** A connected pair of sockets, seen as the bytes on their way. */
  class Socket {
    var stream: seq<Byte>

    constructor (stream: seq<Byte>)
      ensures this.stream == stream
    {
      this.stream := stream;
    }

    method SendAll(data: seq<Byte>)
      modifies this
      ensures stream == old(stream) + data
    {
      stream := stream + data;
    }

    /** Gives at least one byte unless there is none to give; `most` is what happens to arrive at once. */
    method Recv(n: nat, most: nat) returns (data: seq<Byte>)
      modifies this
      ensures var k := Min(n, Min(|old(stream)|, if most == 0 then 1 else most));
        data == old(stream)[..k] && stream == old(stream)[k..]
    {
      var k := Min(n, Min(|stream|, if most == 0 then 1 else most));
      data, stream := stream[..k], stream[k..];
    }
  }

  /** How many bytes the single read of the header takes. */
  function HeaderRead(available: nat, most: nat): nat { Min(HeaderSize, Min(available, if most == 0 then 1 else most)) }

  datatype SendError = LengthTooLarge

  const HeaderSize: nat := 8

  /** What a sender puts on the wire; a chunk size of zero sends the header only. */
  function Frame(data: seq<Byte>, chunk: Option<int>): seq<Byte> {
    ToBytes(|data|, HeaderSize) + if chunk == Some(0) then [] else data
  }

  method SendData(sock: Socket, data: seq<Byte>, chunkSize: Option<int>) returns (r: Result<nat, SendError>)
    modifies sock
    ensures r.Err? <==> |data| >= Capacity(HeaderSize)
    ensures r.Err? ==> sock.stream == old(sock.stream)
    ensures r.Ok? ==> sock.stream == old(sock.stream) + Frame(data, chunkSize)
    ensures r.Ok? ==> r.value == if chunkSize == Some(0) then 0 else |data|
  {
    if |data| >= Capacity(HeaderSize) { return Err(LengthTooLarge); }
    sock.SendAll(ToBytes(|data|, HeaderSize));
    if chunkSize.None? {
      sock.SendAll(data);
      return Ok(|data|);
    }
    var size := if chunkSize.value < 0 then -chunkSize.value else chunkSize.value;
    var sent := 0;
    ghost var header := sock.stream;
    assert data[..0] == [];
    while sent < |data|
      invariant 0 <= sent <= |data| && sock.stream == header + data[..sent]
      invariant size == 0 ==> sent == 0
    {
      var chunk := data[sent..sent + Min(size, |data| - sent)];
      if chunk == [] { break; }
      sock.SendAll(chunk);
      assert data[..sent] + chunk == data[..sent + |chunk|];
      sent := sent + |chunk|;
    }
    assert size > 0 ==> data[..sent] == data;
    return Ok(sent);
  }

  datatype ReceiveError = NegativeSize

  /**
    `arrivals` says how much arrives at each read: the header's first, then those of the
    body. A negative chunk size is refused by the first read of the body.
   */
  method ReceiveData(sock: Socket, chunkSize: int, arrivals: nat -> nat) returns (r: Result<seq<Byte>, ReceiveError>)
    modifies sock
    ensures var n := HeaderRead(|old(sock.stream)|, arrivals(0));
      var size, body := FromBytes(old(sock.stream)[..n]), old(sock.stream)[n..];
      var k := if chunkSize <= 0 then 0 else Min(size, |body|);
      r == (if chunkSize < 0 && size > 0 then Err(NegativeSize) else Ok(body[..k])) && sock.stream == body[k..]
  {
    var header := sock.Recv(HeaderSize, arrivals(0));
    var size := FromBytes(header);
    var data: seq<Byte> := [];
    ghost var body := sock.stream;
    var i := 1;
    while |data| < size
      invariant |data| <= size && |data| <= |body| && data == body[..|data|] && sock.stream == body[|data|..]
      invariant chunkSize <= 0 ==> data == []
      decreases size - |data|
    {
      if chunkSize < 0 { return Err(NegativeSize); }
      var want := Min(chunkSize, size - |data|);
      var chunk := sock.Recv(want, arrivals(i));
      i := i + 1;
      if chunk == [] { break; }
      assert body[..|data|] + chunk == body[..|data| + |chunk|];
      data := data + chunk;
    }
    return Ok(data);
  }

  /**
    Round trip: a frame followed by anything is received as its payload, with the receiver
    stopped at the end of the frame, exactly when the header arrives in one piece and
    the payload is empty or the sender's chunk size is not zero and the receiver's is
    positive, whatever the arrivals of the body.
   */
  method RoundTrip(data: seq<Byte>, rest: seq<Byte>, sendChunk: Option<int>, receiveChunk: int, arrivals: nat -> nat)
    returns (received: Result<seq<Byte>, ReceiveError>, left: seq<Byte>)
    requires |data| < Capacity(HeaderSize)
    ensures received == Ok(data) && left == rest <==>
      arrivals(0) >= HeaderSize && (data == [] || (sendChunk != Some(0) && receiveChunk > 0))
  {
    var sock := new Socket([]);
    var sent := SendData(sock, data, sendChunk);
    sock.SendAll(rest);
    ghost var wire := sock.stream;
    assert wire == Frame(data, sendChunk) + rest;
    ghost var n := HeaderRead(|wire|, arrivals(0));
    assert n == HeaderSize <==> arrivals(0) >= HeaderSize;
    received := ReceiveData(sock, receiveChunk, arrivals);
    left := sock.stream;
    if received.Ok? {
      Outcome(data, rest, sendChunk, wire, n, receiveChunk, received.value, left);
    } else {
      Refused(data, rest, sendChunk, wire, n);
    }
  }

  lemma FrameParts(data: seq<Byte>, rest: seq<Byte>, chunk: Option<int>, wire: seq<Byte>)
    requires |data| < Capacity(HeaderSize) && wire == Frame(data, chunk) + rest
    ensures |wire| >= HeaderSize && FromBytes(wire[..HeaderSize]) == |data|
    ensures wire[HeaderSize..] == (if chunk == Some(0) then [] else data) + rest
  {
    LengthRoundTrip(|data|, HeaderSize);
    assert wire[..HeaderSize] == ToBytes(|data|, HeaderSize);
  }

  /** The first bytes of a length that is not read whole stand for a much smaller one. */
  lemma {:induction false} ShortLength(n: nat, k: nat, i: nat)
    requires i < k
    ensures FromBytes(ToBytes(n, k)[..i]) <= n / 256
  {
    var front := ToBytes(n / 256, k - 1);
    assert ToBytes(n, k)[..i] == front[..i];
    if i == k - 1 {
      assert front[..i] == front;
      BytesAtMost(n / 256, k - 1);
    } else {
      ShortLength(n / 256, k - 1, i);
    }
  }
  lemma {:induction false} BytesAtMost(n: nat, k: nat)
    ensures FromBytes(ToBytes(n, k)) <= n
  {
    if k > 0 {
      BytesAtMost(n / 256, k - 1);
      assert ToBytes(n, k)[..k - 1] == ToBytes(n / 256, k - 1);
    }
  }

  /** A receiver is refused only if something was announced. */
  lemma Refused(data: seq<Byte>, rest: seq<Byte>, chunk: Option<int>, wire: seq<Byte>, n: nat)
    requires |data| < Capacity(HeaderSize) && wire == Frame(data, chunk) + rest && n <= HeaderSize
    requires FromBytes(wire[..n]) > 0
    ensures n == HeaderSize ==> data != []
  {
    FrameParts(data, rest, chunk, wire);
  }

  /** What a receiver has after reading `n` bytes as the header. */
  lemma Outcome(data: seq<Byte>, rest: seq<Byte>, chunk: Option<int>, wire: seq<Byte>, n: nat, receiveChunk: int,
                received: seq<Byte>, left: seq<Byte>)
    requires |data| < Capacity(HeaderSize) && wire == Frame(data, chunk) + rest && n <= HeaderSize
    requires var body := wire[n..]; var k := if receiveChunk <= 0 then 0 else Min(FromBytes(wire[..n]), |body|);
      received == body[..k] && left == body[k..]
    ensures received == data && left == rest <==>
      n == HeaderSize && (data == [] || (chunk != Some(0) && receiveChunk > 0))
  {
    FrameParts(data, rest, chunk, wire);
    assert |received| + |left| == |wire| - n;
    if n < HeaderSize {
      assert wire[..n] == ToBytes(|data|, HeaderSize)[..n];
      ShortLength(|data|, HeaderSize, n);
    } else if chunk != Some(0) {
      assert (data + rest)[..|data|] == data && (data + rest)[|data|..] == rest;
    } else {
      assert [] + rest == rest;
    }
  }
}
