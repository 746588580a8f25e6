// The wire format of lib/sockets/sockets.c: little-endian ints, length-prefixed values
// inside a length-prefixed packet, on a stream that also carries bare operation codes.
module Codec {
  import opened Lists

  type Byte = b: int | 0 <= b < 256
  type Bytes = seq<Byte>

  const INT_MAX: int := 0x7fff_ffff
  const INT_MIN: int := -0x8000_0000

  predicate IsInt(v: int) {
    INT_MIN <= v <= INT_MAX
  }

  /** The four bytes of a C int in memory. */
  function EncodeInt(v: int): (r: Bytes)
    requires IsInt(v)
    ensures |r| == 4
  {
    var u := if v < 0 then v + 0x1_0000_0000 else v;
    [u % 0x100, u / 0x100 % 0x100, u / 0x1_0000 % 0x100, u / 0x100_0000 % 0x100]
  }

  function Unsigned(b0: int, b1: int, b2: int, b3: int): int {
    b0 + 0x100 * b1 + 0x1_0000 * b2 + 0x100_0000 * b3
  }

  function DecodeInt(b: Bytes): (v: int)
    requires |b| == 4
    ensures IsInt(v)
  {
    var u := Unsigned(b[0], b[1], b[2], b[3]);
    if u > INT_MAX then u - 0x1_0000_0000 else u
  }

  lemma IntRoundTrip(v: int)
    requires IsInt(v)
    ensures DecodeInt(EncodeInt(v)) == v
  {
    var u := if v < 0 then v + 0x1_0000_0000 else v;
    FourBytes(u);
  }

  lemma FourBytes(u: int)
    requires 0 <= u < 0x1_0000_0000
    ensures Unsigned(u % 0x100, u / 0x100 % 0x100, u / 0x1_0000 % 0x100, u / 0x100_0000 % 0x100) == u
  {
    var a, b, c := u / 0x100, u / 0x1_0000, u / 0x100_0000;
    assert u == 0x100 * a + u % 0x100 && a == 0x100 * b + a % 0x100 && b == 0x100 * c + b % 0x100;
    assert 0 <= c < 0x100;
  }

  /** The number a list of bytes makes with its lowest byte first. */
  function LowFirst(b: Bytes): nat {
    if b == [] then 0 else b[0] + 0x100 * LowFirst(b[1..])
  }

  /** An int travels lowest byte first, a negative one as its two's complement. */
  lemma IntIsLittleEndian(v: int)
    requires IsInt(v)
    ensures LowFirst(EncodeInt(v)) == if v < 0 then v + 0x1_0000_0000 else v
  {
    var u := if v < 0 then v + 0x1_0000_0000 else v;
    FourBytes(u);
    var b := EncodeInt(v);
    assert LowFirst(b[1..][1..][1..][1..]) == 0;
    var b1: int, b2: int, b3: int := b[1], b[2], b[3];
    assert LowFirst(b[1..][1..][1..]) == b3;
    assert LowFirst(b[1..][1..]) == b2 + 0x100 * b3;
    assert LowFirst(b[1..]) == b1 + 0x100 * (b2 + 0x100 * b3);
  }

  lemma LowByte(high: int, low: int)
    requires 0 <= low < 0x100
    ensures (0x100 * high + low) / 0x100 == high && (0x100 * high + low) % 0x100 == low
  {
  }

  lemma DivTwice(u: int)
    ensures u / 0x1_0000 == u / 0x100 / 0x100 && u / 0x100_0000 == u / 0x100 / 0x100 / 0x100
  {
  }

  lemma IntCanonical(b: Bytes)
    requires |b| == 4
    ensures EncodeInt(DecodeInt(b)) == b
  {
    var b0: int, b1: int, b2: int, b3: int := b[0], b[1], b[2], b[3];
    var u := Unsigned(b0, b1, b2, b3);
    var a := b1 + 0x100 * b2 + 0x1_0000 * b3;
    var c := b2 + 0x100 * b3;
    assert u == 0x100 * a + b0 && a == 0x100 * c + b1;
    LowByte(a, b0);
    LowByte(c, b1);
    LowByte(b3, b2);
    LowByte(0, b3);
    DivTwice(u);
  }

  /** One `agregar_a_paquete`. */
  function EncodeValue(v: Bytes): (r: Bytes)
    requires |v| <= INT_MAX
    ensures |r| == 4 + |v|
  {
    EncodeInt(|v|) + v
  }

  predicate Fits(vs: seq<Bytes>) {
    forall i :: 0 <= i < |vs| ==> |vs[i]| <= INT_MAX
  }

  function EncodeValues(vs: seq<Bytes>): Bytes
    requires Fits(vs)
  {
    if vs == [] then [] else EncodeValues(vs[..|vs| - 1]) + EncodeValue(vs[|vs| - 1])
  }

  /** `recibir_paquete`'s cut of a buffer into values; None when a length points outside the buffer. */
  function ParseValues(b: Bytes): Option<seq<Bytes>>
    decreases |b|
  {
    if b == [] then Some([])
    else if |b| < 4 then None
    else
      var n := DecodeInt(b[..4]);
      if n < 0 || 4 + n > |b| then None
      else
        match ParseValues(b[4 + n..])
        case None => None
        case Some(rest) => Some([b[4..4 + n]] + rest)
  }

  lemma {:induction false} EncodeFront(vs: seq<Bytes>)
    requires Fits(vs) && vs != []
    ensures Fits(vs[1..]) && EncodeValues(vs) == EncodeValue(vs[0]) + EncodeValues(vs[1..])
  {
    var n := |vs| - 1;
    if n > 0 {
      EncodeFront(vs[..n]);
      assert vs[..n][1..] == vs[1..][..n - 1];
      assert vs[1..][|vs[1..]| - 1] == vs[n];
      assert EncodeValue(vs[0]) + EncodeValues(vs[1..][..n - 1]) + EncodeValue(vs[n])
          == EncodeValue(vs[0]) + (EncodeValues(vs[1..][..n - 1]) + EncodeValue(vs[n]));
    }
  }

  /** A value in front of anything is cut off exactly. */
  lemma FrontCut(v: Bytes, tail: Bytes)
    requires |v| <= INT_MAX
    ensures var b := EncodeValue(v) + tail;
      |b| >= 4 && DecodeInt(b[..4]) == |v| && 4 + |v| <= |b| && b[4..4 + |v|] == v && b[4 + |v|..] == tail
  {
    hide EncodeInt, DecodeInt;
    IntRoundTrip(|v|);
    var b := EncodeValue(v) + tail;
    assert b[..4] == EncodeInt(|v|);
  }

  lemma ParseInFront(v: Bytes, tail: Bytes)
    requires |v| <= INT_MAX
    ensures ParseValues(EncodeValue(v) + tail) ==
      match ParseValues(tail) case None => None case Some(rest) => Some([v] + rest)
  {
    hide DecodeInt, EncodeValue;
    FrontCut(v, tail);
  }

  lemma NothingLeft()
    ensures ParseValues([]) == Some([])
  {}

  lemma {:induction false} ValuesRoundTrip(vs: seq<Bytes>)
    requires Fits(vs)
    ensures ParseValues(EncodeValues(vs)) == Some(vs)
    decreases |vs|
  {
    hide EncodeValue, ParseValues;
    if vs == [] {
      NothingLeft();
    } else {
      EncodeFront(vs);
      hide EncodeValues;
      ValuesRoundTrip(vs[1..]);
      ParseInFront(vs[0], EncodeValues(vs[1..]));
      assert vs == [vs[0]] + vs[1..];
    }
  }

  lemma CutValue(b: Bytes)
    requires 4 <= |b| && 0 <= DecodeInt(b[..4]) <= |b| - 4
    ensures var n := DecodeInt(b[..4]); b == EncodeValue(b[4..4 + n]) + b[4 + n..]
  {
    IntCanonical(b[..4]);
  }

  /** Nothing else parses: a buffer that yields these values is their encoding. */
  lemma {:induction false} ValuesCanonical(b: Bytes, vs: seq<Bytes>)
    requires ParseValues(b) == Some(vs) && |b| <= INT_MAX
    ensures Fits(vs) && EncodeValues(vs) == b
    decreases |b|
  {
    if b != [] {
      var n := DecodeInt(b[..4]);
      var v, rest := b[4..4 + n], vs[1..];
      assert vs == [v] + rest;
      ValuesCanonical(b[4 + n..], rest);
      assert forall i :: 0 < i < |vs| ==> vs[i] == rest[i - 1];
      EncodeFront(vs);
      CutValue(b);
    }
  }

  /** What `serializar_paquete` writes. */
  function Packet(op: int, payload: Bytes): Bytes
    requires IsInt(op) && |payload| <= INT_MAX
  {
    EncodeInt(op) + EncodeInt(|payload|) + payload
  }

  /** `memcpy` into an allocated block. */
  method Memcpy(dst: array<Byte>, at: nat, src: Bytes)
    requires at + |src| <= dst.Length
    modifies dst
    ensures dst[..] == old(dst[..at]) + src + old(dst[at + |src|..])
  {
    forall i | 0 <= i < |src| {
      dst[at + i] := src[i];
    }
  }

  /** `t_paquete` with its `t_buffer`. */
  class Paquete {
    var op: int
    var size: int
    var stream: Bytes

    ghost predicate Valid()
      reads this
    {
      IsInt(op) && size == |stream| <= INT_MAX
    }

    /** `crear_paquete`. */
    constructor (op: int)
      requires IsInt(op)
      ensures Valid() && this.op == op && stream == []
    {
      this.op, size, stream := op, 0, [];
    }

    /** `agregar_a_paquete`: `memory` is what lies at the pointer; exactly `length` bytes of it are taken. */
    method AgregarAPaquete(memory: Bytes, length: nat)
      requires Valid() && length <= |memory| && size + length + 4 <= INT_MAX
      modifies this`size, this`stream
      ensures Valid() && stream == old(stream) + EncodeValue(memory[..length])
    {
      stream := stream + EncodeInt(length) + memory[..length];
      size := size + length + 4;
    }

    /** `serializar_paquete`. */
    method SerializarPaquete(bytes: nat) returns (magic: array<Byte>)
      requires Valid() && bytes == size + 8 <= INT_MAX
      ensures fresh(magic) && magic[..] == Packet(op, stream)
    {
      magic := new Byte[bytes](_ => 0);
      var desplazamiento := 0;
      Memcpy(magic, desplazamiento, EncodeInt(op));
      desplazamiento := desplazamiento + 4;
      Memcpy(magic, desplazamiento, EncodeInt(size));
      desplazamiento := desplazamiento + 4;
      Memcpy(magic, desplazamiento, stream);
      assert magic[..] == Packet(op, stream);
    }
  }

  lemma ParseFront(b: Bytes)
    requires ParseValues(b).Some? && b != []
    ensures |b| >= 4
    ensures var n := DecodeInt(b[..4]);
      && 0 <= n && 4 + n <= |b| && ParseValues(b[4 + n..]).Some?
      && ParseValues(b).value == [b[4..4 + n]] + ParseValues(b[4 + n..]).value
  {
    hide DecodeInt;
  }

  /** The next value of a buffer that parses from `at` on. */
  lemma CutNext(buffer: Bytes, at: nat)
    requires at < |buffer| && ParseValues(buffer[at..]).Some?
    ensures at + 4 <= |buffer|
    ensures var n := DecodeInt(buffer[at..at + 4]);
      && 0 <= n && at + 4 + n <= |buffer| && ParseValues(buffer[at + 4 + n..]).Some?
      && ParseValues(buffer[at..]).value == [buffer[at + 4..at + 4 + n]] + ParseValues(buffer[at + 4 + n..]).value
  {
    hide ParseValues, DecodeInt;
    var tail := buffer[at..];
    ParseFront(tail);
    var n := DecodeInt(tail[..4]);
    assert tail[..4] == buffer[at..at + 4];
    assert tail[4 + n..] == buffer[at + 4 + n..] && tail[4..4 + n] == buffer[at + 4..at + 4 + n];
  }

  /** One direction of a connected socket: the bytes sent and not yet received. */
  class Stream {
    var data: Bytes

    constructor ()
      ensures data == []
    {
      data := [];
    }

    /** `send`. */
    method Send(bytes: Bytes)
      modifies this
      ensures data == old(data) + bytes
    {
      data := data + bytes;
    }

    /** `recv` with MSG_WAITALL: fewer bytes only when the peer has closed. */
    method Recv(n: nat) returns (got: Bytes)
      modifies this
      ensures got == old(data)[..if n <= |old(data)| then n else |old(data)|]
      ensures data == old(data)[|got|..]
    {
      var k := if n <= |data| then n else |data|;
      got := data[..k];
      data := data[k..];
    }

    method EnviarOperacion(op: int)
      requires IsInt(op)
      modifies this
      ensures data == old(data) + EncodeInt(op)
    {
      Send(EncodeInt(op));
    }

    method EnviarPaquete(p: Paquete)
      requires p.Valid() && p.size + 8 <= INT_MAX && p as object != this
      modifies this
      ensures data == old(data) + Packet(p.op, p.stream)
    {
      var magic := p.SerializarPaquete(p.size + 8);
      Send(magic[..]);
    }

    /** `recibir_operacion`: -1 on a closed peer; a code cut short by the close has indeterminate high bytes. */
    method RecibirOperacion() returns (op: int)
      modifies this
      ensures |old(data)| >= 4 ==> op == DecodeInt(old(data)[..4]) && data == old(data)[4..]
      ensures |old(data)| < 4 ==> data == []
      ensures old(data) == [] ==> op == -1
    {
      var got := Recv(4);
      if |got| == 0 {
        return -1;
      }
      var memory: Bytes :| |memory| == 4 && memory[..|got|] == got by {
        var filled: Bytes := got + seq(4 - |got|, _ => 0);
        assert filled[..|got|] == got;
      }
      assert |got| == 4 ==> memory == got;
      op := DecodeInt(memory);
    }

    /** `recibir_paquete` on a packet body: the values, in order; the stream is left at the next message. */
    method RecibirPaquete() returns (values: seq<Bytes>)
      requires Framed(data)
      modifies this
      ensures ParseValues(Payload(old(data))) == Some(values)
      ensures data == old(data)[4 + |Payload(old(data))|..]
    {
      hide ParseValues, DecodeInt;
      ghost var payload := Payload(data);
      var head := Recv(4);
      var size := DecodeInt(head);
      var buffer := Recv(size);
      assert buffer == payload;
      values := [];
      var desplazamiento := 0;
      assert buffer[0..] == buffer && [] + ParseValues(payload).value == ParseValues(payload).value;
      while desplazamiento < size
        invariant 0 <= desplazamiento <= size == |buffer|
        invariant ParseValues(buffer[desplazamiento..]).Some?
        invariant ParseValues(payload) == Some(values + ParseValues(buffer[desplazamiento..]).value)
        invariant data == old(data)[4 + |payload|..]
        decreases size - desplazamiento
      {
        CutNext(buffer, desplazamiento);
        var length := DecodeInt(buffer[desplazamiento..desplazamiento + 4]);
        desplazamiento := desplazamiento + 4;
        var value := buffer[desplazamiento..desplazamiento + length];
        desplazamiento := desplazamiento + length;
        assert values + ([value] + ParseValues(buffer[desplazamiento..]).value)
            == (values + [value]) + ParseValues(buffer[desplazamiento..]).value;
        values := values + [value];
      }
      assert buffer[desplazamiento..] == [];
      NothingLeft();
      assert values + [] == values;
    }
  }

  /** A length and that many bytes that cut into values. */
  ghost predicate Framed(b: Bytes) {
    |b| >= 4 && var n := DecodeInt(b[..4]); 0 <= n <= |b| - 4 && ParseValues(b[4..4 + n]).Some?
  }

  ghost function Payload(b: Bytes): Bytes
    requires Framed(b)
  {
    b[4..4 + DecodeInt(b[..4])]
  }

  /** A packet body followed by anything is framed, and its payload is exactly what was put in. */
  lemma PacketIsFramed(vs: seq<Bytes>, rest: Bytes)
    requires Fits(vs) && |EncodeValues(vs)| <= INT_MAX
    ensures var payload := EncodeValues(vs); var b := EncodeInt(|payload|) + payload + rest;
      Framed(b) && Payload(b) == payload && b[4 + |payload|..] == rest && ParseValues(payload) == Some(vs)
  {
    hide EncodeValues, ParseValues, EncodeInt, DecodeInt, Fits;
    var payload := EncodeValues(vs);
    var b := EncodeInt(|payload|) + payload + rest;
    IntRoundTrip(|payload|);
    ValuesRoundTrip(vs);
    assert b[..4] == EncodeInt(|payload|);
    assert b[4..4 + |payload|] == payload;
  }
}
