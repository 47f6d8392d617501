/**
 A self-delimiting frame format standing in for section 5.2 of RFC 6455: an opcode, the payload
 length in eight octets (most significant first), the payload. No masking, no fragments.
 */
module Framing {
  import opened Basics

  type byte = x: int | 0 <= x < 256

  datatype Kind = Text | Binary | Close | Ping | Pong

  datatype RawMessage = Message(kind: Kind, payload: seq<byte>)

  /** A number that fits into k octets. */
  predicate Fits(n: nat, k: nat) {
    if k == 0 then n == 0 else Fits(n / 256, k - 1)
  }

  /** Messages are as long as memory allows: the length fits into 64 bits. */
  type Message = m: RawMessage | Fits(|m.payload|, 8) witness Message(Text, [])

  function Opcode(k: Kind): byte {
    match k
    case Text => 1
    case Binary => 2
    case Close => 8
    case Ping => 9
    case Pong => 10
  }

  function KindOf(b: byte): Option<Kind> {
    if b == 1 then Some(Text)
    else if b == 2 then Some(Binary)
    else if b == 8 then Some(Close)
    else if b == 9 then Some(Ping)
    else if b == 10 then Some(Pong)
    else None
  }

  function ToOctets(n: nat, k: nat): (r: seq<byte>)
    requires Fits(n, k)
    ensures |r| == k
  {
    if k == 0 then [] else ToOctets(n / 256, k - 1) + [(n % 256) as byte]
  }

  function FromOctets(bs: seq<byte>): (r: nat)
    ensures Fits(r, |bs|)
  {
    if bs == [] then 0 else FromOctets(bs[..|bs| - 1]) * 256 + bs[|bs| - 1]
  }

  lemma {:induction false} FromToOctets(n: nat, k: nat)
    requires Fits(n, k)
    ensures FromOctets(ToOctets(n, k)) == n
  {
    if k != 0 {
      FromToOctets(n / 256, k - 1);
      var r := ToOctets(n, k);
      assert r[..|r| - 1] == ToOctets(n / 256, k - 1);
    }
  }

  lemma {:induction false} ToFromOctets(bs: seq<byte>)
    ensures ToOctets(FromOctets(bs), |bs|) == bs
  {
    if bs != [] {
      ToFromOctets(bs[..|bs| - 1]);
      assert bs == bs[..|bs| - 1] + [bs[|bs| - 1]];
    }
  }

  function Encode(m: Message): (r: seq<byte>)
    ensures |r| == 9 + |m.payload|
  {
    [Opcode(m.kind)] + ToOctets(|m.payload|, 8) + m.payload
  }

  function EncodeAll(ms: seq<Message>): seq<byte> {
    if ms == [] then [] else EncodeAll(ms[..|ms| - 1]) + Encode(ms[|ms| - 1])
  }

  /** The outcome of looking for one frame at the start of the bytes received so far. */
  datatype Parsed = Incomplete | Malformed | Frame(message: Message, length: nat)

  function Parse(b: seq<byte>): (r: Parsed)
    ensures r.Frame? ==> 9 <= r.length <= |b|
  {
    if b == [] then Incomplete
    else if KindOf(b[0]).None? then Malformed
    else if |b| < 9 then Incomplete
    else
      var len := FromOctets(b[1..9]);
      if |b| < 9 + len then Incomplete
      else Frame(Message(KindOf(b[0]).value, b[9..9 + len]), 9 + len)
  }

  /** All complete frames at the start of `b`: what a reader that is never interrupted gets from these bytes. */
  function DecodeAll(b: seq<byte>): seq<Message>
    decreases |b|
  {
    var p := Parse(b);
    if p.Frame? then [p.message] + DecodeAll(b[p.length..]) else []
  }

  lemma ParseEncoded(m: Message, rest: seq<byte>)
    ensures Parse(Encode(m) + rest) == Frame(m, |Encode(m)|)
  {
    var b := Encode(m) + rest;
    FromToOctets(|m.payload|, 8);
    assert b[1..9] == ToOctets(|m.payload|, 8);
    assert b[9..9 + |m.payload|] == m.payload;
  }

  /** A parsed frame is exactly the encoding of its message, and a partial frame is never taken for one. */
  lemma ParsedIsEncoded(b: seq<byte>)
    requires Parse(b).Frame?
    ensures b[..Parse(b).length] == Encode(Parse(b).message)
  {
    ToFromOctets(b[1..9]);
    var len := FromOctets(b[1..9]);
    assert b[..9 + len] == [b[0]] + b[1..9] + b[9..9 + len];
  }

  lemma Assoc<T>(x: seq<T>, y: seq<T>, z: seq<T>)
    ensures (x + y) + z == x + (y + z)
  {
  }

  lemma EncodeAllPush(a: seq<Message>, m: Message)
    ensures EncodeAll(a + [m]) == EncodeAll(a) + Encode(m)
  {
    assert (a + [m])[..|a|] == a;
  }

  lemma {:induction false} EncodeAllConcat(a: seq<Message>, b: seq<Message>)
    ensures EncodeAll(a + b) == EncodeAll(a) + EncodeAll(b)
  {
    if b == [] {
      assert a + b == a;
    } else {
      var p, m := b[..|b| - 1], b[|b| - 1];
      assert a + b == (a + p) + [m];
      EncodeAllPush(a + p, m);
      EncodeAllConcat(a, p);
      Assoc(EncodeAll(a), EncodeAll(p), Encode(m));
    }
  }

  lemma DecodeFirst(m: Message, rest: seq<byte>)
    ensures DecodeAll(Encode(m) + rest) == [m] + DecodeAll(rest)
  {
    ParseEncoded(m, rest);
    assert (Encode(m) + rest)[|Encode(m)|..] == rest;
  }

  /** Decoding undoes encoding, whatever follows. */
  lemma {:induction false} DecodeEncoded(ms: seq<Message>, rest: seq<byte>)
    ensures DecodeAll(EncodeAll(ms) + rest) == ms + DecodeAll(rest)
    decreases |ms|
  {
    if ms == [] {
      assert EncodeAll(ms) + rest == rest;
    } else {
      var p, m := ms[..|ms| - 1], ms[|ms| - 1];
      Assoc(EncodeAll(p), Encode(m), rest);
      DecodeEncoded(p, Encode(m) + rest);
      DecodeFirst(m, rest);
      Assoc(p, [m], DecodeAll(rest));
      assert p + [m] == ms;
    }
  }

  /**
   A reader that has delivered `ms` and still holds `part` has delivered a prefix of what any
   continuation of its bytes decodes to, and everything complete if `part` holds no whole frame.
   */
  lemma DeliveredIsPrefix(ms: seq<Message>, part: seq<byte>, rest: seq<byte>)
    ensures ms <= DecodeAll(EncodeAll(ms) + part + rest)
    ensures !Parse(part).Frame? ==> DecodeAll(EncodeAll(ms) + part) == ms
  {
    Assoc(EncodeAll(ms), part, rest);
    DecodeEncoded(ms, part + rest);
    DecodeEncoded(ms, part);
  }

  lemma DecodesBack(all: seq<Message>)
    ensures DecodeAll(EncodeAll(all)) == all
  {
    DecodeEncoded(all, []);
    assert EncodeAll(all) + [] == EncodeAll(all);
  }

  /** A reader holding a prefix of the encoding of `all` has delivered a prefix of `all`. */
  lemma ReceivedIsPrefix(ms: seq<Message>, part: seq<byte>, rest: seq<byte>, all: seq<Message>)
    requires EncodeAll(ms) + part + rest == EncodeAll(all)
    ensures ms <= all
  {
    DeliveredIsPrefix(ms, part, rest);
    DecodesBack(all);
  }
}
