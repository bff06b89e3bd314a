/** Messages on a socket: a 20-byte header with the body length in decimal, padded with NULs, then the body. */
module Wire {
  import opened Decimal

  const HEADER_LENGTH := 20
  const MAX_BODY_LENGTH := 1000

  /** The number a C string starts with: spaces, a sign, digits; 0 when there is none. */
  function Atoi(s: Bytes): int {
    var t := SkipSpace(s);
    if t == [] then 0 else
      var u := if t[0] == PLUS || t[0] == MINUS then t[1..] else t;
      var v := Value(u[..DigitRun(u)]);
      if t[0] == MINUS then -v else v
  }

  function Header(n: nat): Bytes
    requires n <= MAX_BODY_LENGTH
  {
    ShortLength(n);
    Digits(n) + seq(HEADER_LENGTH - |Digits(n)|, _ => 0)
  }

  lemma ShortLength(n: nat)
    requires n <= MAX_BODY_LENGTH
    ensures |Digits(n)| <= 4
  {
    assert |Digits(n / 1000)| == 1;
    assert n >= 10 ==> |Digits(n)| == |Digits(n / 10)| + 1;
    assert n >= 100 ==> |Digits(n / 10)| == |Digits(n / 10 / 10)| + 1;
    assert n >= 1000 ==> |Digits(n / 10 / 10)| == |Digits(n / 10 / 10 / 10)| + 1;
  }

  /** The number a text starts with, of either sign. */
  lemma AtoiText(n: int, rest: Bytes)
    requires rest != [] && !IsDigit(rest[0])
    ensures Atoi(IntText(n) + rest) == n
  {
    hide Digits;
    var ds, s := Digits(if n < 0 then -n else n), IntText(n) + rest;
    assert s[0] == IntText(n)[0] && SkipSpace(s) == s;
    assert (if n < 0 then s[1..] else s) == ds + rest;
    RunOfDigits(ds, rest);
    assert (ds + rest)[..|ds|] == ds;
    ValueOfDigits(if n < 0 then -n else n);
  }

  /** The header of a length is decoded to that length, whatever follows it in the buffer. */
  lemma AtoiHeader(n: nat, rest: Bytes)
    requires n <= MAX_BODY_LENGTH
    ensures |Header(n)| == HEADER_LENGTH == 20 && Atoi(Header(n) + rest) == n
    ensures forall i :: |Digits(n)| <= i < 20 ==> Header(n)[i] == 0
  {
    ShortLength(n);
    hide Digits, Atoi;
    var padding := seq(HEADER_LENGTH - |Digits(n)|, _ => 0);
    assert Header(n) + rest == IntText(n) + (padding + rest);
    AtoiText(n, padding + rest);
  }

  function Encode(body: Bytes): Bytes
    requires |body| <= MAX_BODY_LENGTH
  {
    Header(|body|) + body
  }

  ghost predicate AllFit(bodies: seq<Bytes>) {
    forall i :: 0 <= i < |bodies| ==> |bodies[i]| <= MAX_BODY_LENGTH
  }

  ghost function EncodeAll(bodies: seq<Bytes>): Bytes
    requires AllFit(bodies)
    decreases |bodies|
  {
    if bodies == [] then [] else Encode(bodies[0]) + EncodeAll(bodies[1..])
  }

  /** The bodies read so far, the bytes not consumed, and whether the last header decoded to a length the
      buffer can hold; reading past the buffer is undefined, so the reader stops there. */
  datatype Received = Received(bodies: seq<Bytes>, rest: Bytes, sound: bool)

  /** The header-then-body loop; `stale` is what the body part of the buffer still holds. */
  function ReceiveFrom(stream: Bytes, stale: Bytes, bodies: seq<Bytes>): Received
    requires |stale| == MAX_BODY_LENGTH
    decreases |stream|
  {
    if |stream| < HEADER_LENGTH then Received(bodies, stream, true) else
      var n := Atoi(stream[..HEADER_LENGTH] + stale);
      if n < 0 || n > MAX_BODY_LENGTH then Received(bodies, stream, false)
      else if |stream| < HEADER_LENGTH + n then Received(bodies, stream, true)
      else
        var body := stream[HEADER_LENGTH..HEADER_LENGTH + n];
        ReceiveFrom(stream[HEADER_LENGTH + n..], body + stale[n..], bodies + [body])
  }

  /** One turn of the loop. */
  lemma ReceiveStep(stream: Bytes, stale: Bytes, bodies: seq<Bytes>)
    requires |stale| == MAX_BODY_LENGTH
    ensures |stream| < HEADER_LENGTH ==> ReceiveFrom(stream, stale, bodies) == Received(bodies, stream, true)
    ensures |stream| >= HEADER_LENGTH ==>
              var n := Atoi(stream[..HEADER_LENGTH] + stale);
              ReceiveFrom(stream, stale, bodies) ==
              if n < 0 || n > MAX_BODY_LENGTH then Received(bodies, stream, false)
              else if |stream| < HEADER_LENGTH + n then Received(bodies, stream, true)
              else var body := stream[HEADER_LENGTH..HEADER_LENGTH + n];
                   ReceiveFrom(stream[HEADER_LENGTH + n..], body + stale[n..], bodies + [body])
  {
    hide Atoi;
  }

  lemma ReceiveOne(body: Bytes, rest: Bytes, stale: Bytes, bodies: seq<Bytes>)
    requires |body| <= MAX_BODY_LENGTH && |stale| == MAX_BODY_LENGTH
    ensures ReceiveFrom(Encode(body) + rest, stale, bodies) == ReceiveFrom(rest, body + stale[|body|..], bodies + [body])
  {
    var n := |body|;
    var stream := Encode(body) + rest;
    AtoiHeader(n, stale);
    assert stream[..HEADER_LENGTH] == Header(n);
    assert stream[HEADER_LENGTH..HEADER_LENGTH + n] == body;
    assert stream[HEADER_LENGTH + n..] == rest;
  }

  /** Bodies are taken one by one, whatever follows them. */
  lemma {:induction false} ReceiveAll(todo: seq<Bytes>, rest: Bytes, stale: Bytes, bodies: seq<Bytes>) returns (left: Bytes)
    requires AllFit(todo) && |stale| == MAX_BODY_LENGTH
    ensures |left| == MAX_BODY_LENGTH
    ensures ReceiveFrom(EncodeAll(todo) + rest, stale, bodies) == ReceiveFrom(rest, left, bodies + todo)
    decreases |todo|
  {
    if todo == [] {
      assert EncodeAll(todo) + rest == rest && bodies + todo == bodies;
      left := stale;
    } else {
      var b := todo[0];
      assert EncodeAll(todo) + rest == Encode(b) + (EncodeAll(todo[1..]) + rest);
      ReceiveOne(b, EncodeAll(todo[1..]) + rest, stale, bodies);
      left := ReceiveAll(todo[1..], rest, b + stale[|b|..], bodies + [b]);
      assert bodies + [b] + todo[1..] == bodies + todo;
    }
  }

  /** Any sequence of bodies of up to 1000 bytes is read back as it was written, with nothing left over, whatever
      the buffer held. */
  lemma WireRoundTrip(bodies: seq<Bytes>, stale: Bytes)
    requires (forall i :: 0 <= i < |bodies| ==> |bodies[i]| <= 1000) && |stale| == 1000
    ensures ReceiveFrom(EncodeAll(bodies), stale, []) == Received(bodies, [], true)
  {
    var left := ReceiveAll(bodies, [], stale, []);
    assert EncodeAll(bodies) + [] == EncodeAll(bodies) && [] + bodies == bodies;
  }

  /** A message that has not arrived in full is left, and what came before it is read. */
  lemma WirePartial(bodies: seq<Bytes>, body: Bytes, k: nat, stale: Bytes)
    requires AllFit(bodies) && |body| <= MAX_BODY_LENGTH && |stale| == MAX_BODY_LENGTH && k < |Encode(body)|
    ensures ReceiveFrom(EncodeAll(bodies) + Encode(body)[..k], stale, []) == Received(bodies, Encode(body)[..k], true)
  {
    var rest := Encode(body)[..k];
    var left := ReceiveAll(bodies, rest, stale, []);
    assert [] + bodies == bodies;
    AtoiHeader(|body|, left);
    if k >= HEADER_LENGTH {
      assert rest[..HEADER_LENGTH] == Header(|body|);
    }
  }

  /** A header that names a length no body may have stops the reader, after what came before it. */
  lemma WireStops(bodies: seq<Bytes>, n: int, padding: Bytes, rest: Bytes, stale: Bytes)
    requires AllFit(bodies) && |stale| == MAX_BODY_LENGTH && !(0 <= n <= MAX_BODY_LENGTH)
    requires |IntText(n)| + |padding| == HEADER_LENGTH && padding != [] && padding[0] == 0
    ensures var bad := IntText(n) + padding + rest;
            ReceiveFrom(EncodeAll(bodies) + bad, stale, []) == Received(bodies, bad, false)
  {
    hide ReceiveFrom, EncodeAll, Atoi, IntText;
    var bad := IntText(n) + padding + rest;
    var left := ReceiveAll(bodies, bad, stale, []);
    assert [] + bodies == bodies;
    assert bad[..HEADER_LENGTH] + left == IntText(n) + (padding + left);
    AtoiText(n, padding + left);
    ReceiveStep(bad, left, bodies);
  }

  /** The buffer of one message: header first, then room for the longest body. */
  class Message {
    var bodyLength: int
    const buffer: array<Byte>

    ghost predicate Valid()
      reads this
    {
      buffer.Length == HEADER_LENGTH + MAX_BODY_LENGTH
    }

    constructor ()
      ensures Valid() && fresh(buffer) && bodyLength == 0
      ensures forall i :: 0 <= i < buffer.Length ==> buffer[i] == 0
    {
      bodyLength := 0;
      buffer := new Byte[HEADER_LENGTH + MAX_BODY_LENGTH](_ => 0);
    }

    method SetBodyLength(length: int)
      requires Valid() && 0 <= length <= MAX_BODY_LENGTH
      modifies this`bodyLength, buffer
      ensures bodyLength == length
      ensures buffer[..HEADER_LENGTH] == Header(length)
      ensures buffer[HEADER_LENGTH..] == old(buffer[HEADER_LENGTH..])
    {
      ShortLength(length);
      bodyLength := length;
      var text := Digits(length);
      for i := 0 to HEADER_LENGTH
        invariant bodyLength == length
        invariant forall j :: 0 <= j < i ==> buffer[j] == 0
        invariant buffer[HEADER_LENGTH..] == old(buffer[HEADER_LENGTH..])
      {
        buffer[i] := 0;
      }
      for i := 0 to |text|
        invariant bodyLength == length
        invariant forall j :: 0 <= j < HEADER_LENGTH ==> buffer[j] == if j < i then text[j] else 0
        invariant buffer[HEADER_LENGTH..] == old(buffer[HEADER_LENGTH..])
      {
        buffer[i] := text[i];
      }
      assert buffer[..HEADER_LENGTH] == Header(length);
    }

    method DecodeLength()
      requires Valid()
      modifies this`bodyLength
      ensures bodyLength == Atoi(buffer[..])
    {
      bodyLength := Atoi(buffer[..]);
    }

    /** Copies bytes from the socket into the buffer. */
    method Fill(offset: nat, data: Bytes)
      requires Valid() && offset + |data| <= buffer.Length
      modifies buffer
      ensures buffer[..] == old(buffer[..offset]) + data + old(buffer[offset + |data|..])
    {
      for i := 0 to |data|
        invariant forall j :: 0 <= j < buffer.Length ==>
                                buffer[j] == if offset <= j < offset + i then data[j - offset] else old(buffer[j])
      {
        buffer[offset + i] := data[i];
      }
    }
  }

  /** The reading side of a session on the bytes it gets. */
  method ReadMessages(stream: Bytes, message: Message) returns (r: Received)
    requires message.Valid()
    modifies message`bodyLength, message.buffer
    ensures r == ReceiveFrom(stream, old(message.buffer[HEADER_LENGTH..]), [])
  {
    hide Atoi, ReceiveFrom;
    var rest, bodies := stream, [];
    while |rest| >= HEADER_LENGTH
      invariant ReceiveFrom(rest, message.buffer[HEADER_LENGTH..], bodies) ==
                ReceiveFrom(stream, old(message.buffer[HEADER_LENGTH..]), [])
      decreases |rest|
    {
      ghost var stale := message.buffer[HEADER_LENGTH..];
      ReceiveStep(rest, stale, bodies);
      message.Fill(0, rest[..HEADER_LENGTH]);
      assert message.buffer[..] == rest[..HEADER_LENGTH] + stale;
      message.DecodeLength();
      var n := message.bodyLength;
      if n < 0 || n > MAX_BODY_LENGTH {
        return Received(bodies, rest, false);
      }
      if |rest| < HEADER_LENGTH + n {
        return Received(bodies, rest, true);
      }
      var body := rest[HEADER_LENGTH..HEADER_LENGTH + n];
      message.Fill(HEADER_LENGTH, body);
      assert message.buffer[HEADER_LENGTH..] == body + stale[n..];
      rest, bodies := rest[HEADER_LENGTH + n..], bodies + [body];
    }
    ReceiveStep(rest, message.buffer[HEADER_LENGTH..], bodies);
    return Received(bodies, rest, true);
  }
}
