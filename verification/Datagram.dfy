/** datagram.go's frame: a varint flow ID followed by the payload. PutUvarint and Uvarint are encoding/binary's loops. */
module Datagram {
  import opened Options
  import opened Numbers

  type Byte = b: int | 0 <= b < 256

  const TWO_32: nat := 0x1_0000_0000
  const MAX_PAYLOAD: nat := 65507
  const MAX_VARINT_LEN_32: nat := 5
  const MAX_VARINT_LEN_64: nat := 10

  // ----- varints

  /** The shortest encoding. */
  function Varint(x: nat): (s: seq<Byte>)
    ensures s != []
  {
    if x < 128 then [x] else [x % 128 + 128] + Varint(x / 128)
  }

  /** What base-128 digits denote, least significant first; the top bit of each byte is not part of it. */
  function Denotes(s: seq<Byte>): nat {
    if s == [] then 0 else s[0] % 128 + 128 * Denotes(s[1..])
  }

  /** A varint: only its last byte is below 128. */
  predicate IsVarint(s: seq<Byte>) {
    s != [] && s[|s| - 1] < 128 && forall i | 0 <= i < |s| - 1 :: s[i] >= 128
  }

  function Power(i: nat): (p: nat)
    ensures p > 0
  {
    if i == 0 then 1 else 128 * Power(i - 1)
  }

  lemma {:induction false} VarintIsShortest(s: seq<Byte>)
    requires IsVarint(s)
    ensures |Varint(Denotes(s))| <= |s|
    ensures Varint(Denotes(s)) == s <==> |s| == 1 || s[|s| - 1] != 0
  {
    if |s| > 1 {
      var rest := s[1..];
      VarintIsShortest(rest);
      assert s == [s[0]] + rest;
      if Denotes(rest) == 0 {
        ZeroOnlyIfPadded(rest);
      }
    }
  }

  lemma {:induction false} ZeroOnlyIfPadded(s: seq<Byte>)
    requires IsVarint(s) && Denotes(s) == 0
    ensures s[|s| - 1] == 0
  {
    if |s| > 1 {
      ZeroOnlyIfPadded(s[1..]);
    }
  }

  lemma {:induction false} VarintDenotes(x: nat)
    ensures IsVarint(Varint(x)) && Denotes(Varint(x)) == x
  {
    if x >= 128 {
      VarintDenotes(x / 128);
    }
  }

  lemma {:induction false} VarintLength(x: nat, k: nat)
    requires x < Power(k) && k > 0
    ensures |Varint(x)| <= k
  {
    if x >= 128 {
      VarintLength(x / 128, k - 1);
    }
  }

  lemma {:induction false} DenotesAppend(s: seq<Byte>, b: Byte)
    ensures Denotes(s + [b]) == Denotes(s) + b % 128 * Power(|s|)
  {
    if s == [] {
      assert Denotes([b][1..]) == 0;
    } else {
      DenotesAppend(s[1..], b);
      assert (s + [b])[1..] == s[1..] + [b];
      var d, p := b % 128, Power(|s| - 1);
      assert 128 * (d * p) == d * (128 * p);
    }
  }

  lemma {:induction false} DenotesBound(s: seq<Byte>)
    ensures Denotes(s) < Power(|s|)
  {
    if s != [] {
      DenotesBound(s[1..]);
    }
  }

  lemma Powers()
    ensures Power(5) == 0x8_0000_0000 && Power(9) == 0x8000_0000_0000_0000
  {
    assert Power(3) == 128 * 128 * 128;
    assert Power(6) == 128 * 128 * 128 * Power(3);
    assert Power(9) == 128 * 128 * 128 * Power(6);
  }

  /** A byte with its top bit set. */
  function Continued(b: Byte): Byte { if b >= 128 then b else b + 128 }

  method PutUvarint(buf: array<Byte>, x0: nat) returns (n: nat)
    requires x0 < TWO_64 && |Varint(x0)| <= buf.Length
    modifies buf
    ensures n == |Varint(x0)| && buf[..n] == Varint(x0)
  {
    var x, i := x0, 0;
    while x >= 0x80
      invariant i + |Varint(x)| == |Varint(x0)|
      invariant buf[..i] + Varint(x) == Varint(x0)
    {
      buf[i] := Continued(x % 256);
      assert Continued(x % 256) == x % 128 + 128;
      assert buf[..i + 1] + Varint(x / 128) == buf[..i] + Varint(x);
      x := x / 128;
      i := i + 1;
    }
    buf[i] := x;
    n := i + 1;
  }

  datatype Reading = TooShort | Overflow | Read(value: nat, length: nat)

  /** Where the first byte below 128 is, or the length. */
  function Terminator(data: seq<Byte>): (k: nat)
    ensures k <= |data|
    ensures forall i | 0 <= i < k :: data[i] >= 128
    ensures k < |data| ==> data[k] < 128
  {
    if data == [] || data[0] < 128 then 0 else 1 + Terminator(data[1..])
  }

  /** Eleven bytes, or a tenth byte that does not fit, overflow. */
  function Uvarint(data: seq<Byte>): Reading {
    var k := Terminator(data);
    if k >= MAX_VARINT_LEN_64 && |data| > MAX_VARINT_LEN_64 then Overflow
    else if k == |data| then TooShort
    else if k == MAX_VARINT_LEN_64 - 1 && data[k] > 1 then Overflow
    else Read(Denotes(data[..k + 1]), k + 1)
  }

  lemma TerminatorAt(data: seq<Byte>, i: nat)
    requires i <= |data| && forall j | 0 <= j < i :: data[j] >= 128
    ensures Terminator(data) >= i
    ensures i < |data| && data[i] < 128 ==> Terminator(data) == i
    ensures i == |data| ==> Terminator(data) == i
  {
  }

  /** One more byte, while it fits 64 bits. */
  lemma OneMoreByte(s: seq<Byte>, b: Byte)
    requires |s| < 9 || (|s| == 9 && b <= 1)
    ensures Denotes(s + [b]) == Denotes(s) + b % 128 * Power(|s|) < TWO_64
  {
    hide Denotes, Power;
    DenotesAppend(s, b);
    Powers();
    if |s| < 9 {
      DenotesBound(s + [b]);
      PowerGrows(|s| + 1, 9);
    } else {
      DenotesBound(s);
      if b == 0 {
        assert b % 128 * Power(9) == 0;
      } else {
        assert b % 128 * Power(9) == Power(9);
      }
    }
  }

  /** The loop works on uint64: the bits that a byte brings lie above those read before, so or-ing them in adds them,
      and what is shifted out at the top is lost. */
  method ReadUvarint(data: array<Byte>) returns (x: nat, n: int)
    ensures x < TWO_64
    ensures match Uvarint(data[..])
            case TooShort => x == 0 && n == 0
            case Overflow => x == 0 && n < 0
            case Read(value, length) => x == value && n == length
  {
    hide Denotes, Power, Terminator;
    x := 0;
    assert Denotes(data[..0]) == 0 by { NothingDenotesZero(); }
    for i := 0 to data.Length
      invariant forall j | 0 <= j < i :: data[j] >= 128
      invariant i <= MAX_VARINT_LEN_64 && x < TWO_64
      invariant i < MAX_VARINT_LEN_64 ==> x == Denotes(data[..i])
    {
      var b := data[i];
      TerminatorAt(data[..], i);
      if i == MAX_VARINT_LEN_64 {
        return 0, -(i + 1);
      }
      assert data[..i + 1] == data[..i] + [b];
      if i < 9 || b <= 1 {
        OneMoreByte(data[..i], b);
      }
      if b < 0x80 {
        assert data[..][..i + 1] == data[..i + 1];
        if i == MAX_VARINT_LEN_64 - 1 && b > 1 {
          return 0, -(i + 1);
        }
        return x + b % 128 * Power(i), i + 1;
      }
      x := (x + b % 128 * Power(i)) % TWO_64;
    }
    TerminatorAt(data[..], data.Length);
    return 0, 0;
  }

  lemma NothingDenotesZero()
    ensures Denotes([]) == 0
  {
  }

  lemma {:induction false} PowerGrows(i: nat, j: nat)
    requires i <= j
    ensures Power(i) <= Power(j)
  {
    if i < j {
      PowerGrows(i, j - 1);
    }
  }

  // ----- frames

  datatype Frame = Frame(flowId: nat, payload: seq<Byte>)

  function Encode(f: Frame): Option<seq<Byte>> {
    if |f.payload| > MAX_PAYLOAD then None else Some(Varint(f.flowId) + f.payload)
  }

  function Decode(data: seq<Byte>): Option<Frame> {
    var id := Uvarint(data);
    if !id.Read? || id.value >= TWO_32 then None
    else if |data| - id.length > MAX_PAYLOAD then None
    else Some(Frame(id.value, data[id.length..]))
  }

  method EncodeDatagram(flowId: nat, payload: array<Byte>) returns (encoded: array?<Byte>)
    requires flowId < TWO_32
    ensures encoded == null <==> Encode(Frame(flowId, payload[..])).None?
    ensures encoded != null ==> fresh(encoded) && Encode(Frame(flowId, payload[..])) == Some(encoded[..])
  {
    if payload.Length > MAX_PAYLOAD {
      return null;
    }
    FlowIdFits(flowId);
    var prefix := new Byte[MAX_VARINT_LEN_32](_ => 0);
    var n := PutUvarint(prefix, flowId);
    encoded := new Byte[n + payload.Length](i requires 0 <= i < n + payload.Length reads prefix, payload =>
                                              if i < n then prefix[i] else payload[i - n]);
    assert encoded[..] == prefix[..n] + payload[..];
  }

  /** The payload is a copy: the caller may reuse its buffer. */
  method DecodeDatagram(data: array<Byte>) returns (ok: bool, flowId: nat, payload: array<Byte>)
    ensures fresh(payload)
    ensures ok <==> Decode(data[..]).Some?
    ensures ok ==> Decode(data[..]) == Some(Frame(flowId, payload[..])) && flowId < TWO_32
  {
    var id, n := ReadUvarint(data);
    if n <= 0 || id > TWO_32 - 1 {
      payload := new Byte[0];
      return false, 0, payload;
    }
    if data.Length - n > MAX_PAYLOAD {
      payload := new Byte[0];
      return false, 0, payload;
    }
    payload := new Byte[data.Length - n](i requires 0 <= i < data.Length - n reads data => data[i + n]);
    assert payload[..] == data[..][n..];
    return true, id, payload;
  }

  // ----- main results

  /** The prefix of a 32-bit flow ID fits the five bytes reserved for it. */
  lemma FlowIdFits(flowId: nat)
    requires flowId < TWO_32
    ensures |Varint(flowId)| <= 5
  {
    Powers();
    VarintLength(flowId, 5);
  }

  /** Reading a varint that is followed by anything. */
  lemma ReadsVarint(s: seq<Byte>, rest: seq<Byte>)
    requires IsVarint(s)
    ensures Uvarint(s + rest) == if |s| < 10 || (|s| == 10 && s[9] <= 1) then Read(Denotes(s), |s|) else Overflow
  {
    var data := s + rest;
    var k := Terminator(data);
    assert data[|s| - 1] < 128 && forall i | 0 <= i < |s| - 1 :: data[i] >= 128;
    assert k == |s| - 1;
    assert data[..k + 1] == s;
  }

  /** Decoding an encoded frame gives it back, for every 32-bit flow ID and every payload that may be sent. */
  lemma RoundTrip(f: Frame)
    requires f.flowId < 0x1_0000_0000
    ensures |f.payload| <= 65507 ==> Encode(f).Some? && Decode(Encode(f).value) == Some(f)
    ensures |f.payload| > 65507 ==> Encode(f).None?
  {
    FlowIdFits(f.flowId);
    VarintDenotes(f.flowId);
    var prefix := Varint(f.flowId);
    ReadsVarint(prefix, f.payload);
    assert (prefix + f.payload)[|prefix|..] == f.payload;
  }

  /** Whatever varint and payload a frame consists of, it is accepted exactly when the flow ID fits 32 bits, however it
      is spelled in at most ten bytes, and the payload is not too long. */
  lemma AcceptsExactly32Bits(prefix: seq<Byte>, payload: seq<Byte>)
    requires IsVarint(prefix)
    ensures Decode(prefix + payload).Some?
            <==> Denotes(prefix) < 0x1_0000_0000 && |prefix| <= 10 && |payload| <= 65507
  {
    ReadsVarint(prefix, payload);
    if |prefix| == 10 && prefix[9] > 1 {
      Powers();
      DenotesAppend(prefix[..9], prefix[9]);
      assert prefix == prefix[..9] + [prefix[9]];
      TopDigit(prefix[9], Power(9));
    }
  }

  lemma TopDigit(b: Byte, p: nat)
    requires 1 < b < 128
    ensures b % 128 * p >= p
  {
  }

  /** Re-encoding a decoded frame is never longer than the input and decodes to the same frame. It gives the input back
      exactly when the flow ID was spelled without padding: longer spellings are accepted too. */
  lemma Reencoding(data: seq<Byte>)
    requires Decode(data).Some?
    ensures var again := Encode(Decode(data).value);
            && again.Some? && |again.value| <= |data| && Decode(again.value) == Decode(data)
            && (again.value == data <==> Terminator(data) == 0 || data[Terminator(data)] != 0)
  {
    var f := Decode(data).value;
    var k := Terminator(data);
    var prefix := data[..k + 1];
    assert IsVarint(prefix) && data == prefix + f.payload;
    VarintIsShortest(prefix);
    RoundTrip(f);
    var again := Varint(f.flowId) + f.payload;
    if again == data {
      assert |Varint(f.flowId)| == |prefix|;
      assert again[..|prefix|] == Varint(f.flowId) && data[..|prefix|] == prefix;
    }
  }

  /** Two frames with the same encoding are the same frame. */
  lemma EncodingIsInjective(f: Frame, g: Frame)
    requires f.flowId < TWO_32 && g.flowId < TWO_32 && Encode(f).Some? && Encode(f) == Encode(g)
    ensures f == g
  {
    RoundTrip(f);
    RoundTrip(g);
  }
}
