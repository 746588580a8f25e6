// A client session: the hilolay stubs write calls onto the socket, the short-term scheduler
// of SUSE reads them back by operation code.
module Session {
  import opened Lists
  import opened Codec

  // lib/sockets/codigos.h
  const SUSE_CREATE := 2
  const SUSE_SCHEDULE_NEXT := 3
  const SUSE_SCHEDULE_NEXT_RETURN := 4
  const SUSE_WAIT := 5
  const SUSE_SIGNAL := 6
  const SUSE_JOIN := 7
  const SUSE_CLOSE := 8

  datatype Call =
    | Create(tid: int)
    | ScheduleNext
    | Join(tid: int)
    | Close(tid: int)
    | Wait(tid: int, name: Bytes)
    | Signal(tid: int, name: Bytes)

  // ---- decimal numbers as C strings ----

  function Digits(n: nat): (r: Bytes)
    ensures |r| >= 1 && forall i :: 0 <= i < |r| ==> 48 <= r[i] <= 57
    ensures (|r| == 1 <==> n < 10) && (|r| <= 2 <==> n < 100) && (|r| <= 3 <==> n < 1000)
  {
    if n < 10 then [48 + n] else Digits(n / 10) + [48 + n % 10]
  }

  /** `string_itoa`, without its terminating NUL. */
  function Itoa(v: int): (r: Bytes)
    ensures |r| <= 3 <==> -99 <= v <= 999
  {
    if v < 0 then [45] + Digits(-v) else Digits(v)
  }

  /** The four bytes a stub sends for a thread number: the string, its NUL and whatever follows on the heap. */
  function TidCell(tid: int, heap: Bytes): (r: Bytes)
    requires |heap| >= 3
    ensures |r| == 4
  {
    (Itoa(tid) + [0] + heap)[..4]
  }

  predicate IsDigit(c: Byte) {
    48 <= c <= 57
  }

  predicate IsSpace(c: Byte) {
    c == 32 || 9 <= c <= 13
  }

  /** The digit loop of `atoi` on a block of memory; None when it runs off the block. */
  function AtoiDigits(b: Bytes, acc: int): Option<int> {
    if b == [] then None
    else if IsDigit(b[0]) then AtoiDigits(b[1..], 10 * acc + b[0] - 48)
    else Some(acc)
  }

  function Atoi(b: Bytes): Option<int> {
    if b == [] then None
    else if IsSpace(b[0]) then Atoi(b[1..])
    else if b[0] == 45 then
      match AtoiDigits(b[1..], 0) { case None => None case Some(v) => Some(-v) }
    else if b[0] == 43 then AtoiDigits(b[1..], 0)
    else AtoiDigits(b, 0)
  }

  /** A C string in a block of memory; None when the block has no NUL. */
  function CString(b: Bytes): Option<Bytes> {
    if b == [] then None
    else if b[0] == 0 then Some([])
    else match CString(b[1..]) { case None => None case Some(s) => Some([b[0]] + s) }
  }

  predicate NulFree(s: Bytes) {
    0 !in s
  }

  lemma {:induction false} NameRoundTrip(s: Bytes)
    requires NulFree(s)
    ensures CString(s + [0]) == Some(s)
  {
    if s != [] {
      assert s[0] in s;
      NameRoundTrip(s[1..]);
      assert (s + [0])[1..] == s[1..] + [0];
      assert s == [s[0]] + s[1..];
    } else {
      assert s + [0] == [0];
    }
  }

  lemma {:induction false} DigitsRunOff(b: Bytes, acc: int)
    requires forall i :: 0 <= i < |b| ==> IsDigit(b[i])
    ensures AtoiDigits(b, acc) == None
  {
    if b != [] {
      DigitsRunOff(b[1..], 10 * acc + b[0] - 48);
    }
  }

  lemma {:induction false} DigitsRead(n: nat, rest: Bytes)
    requires rest != [] && !IsDigit(rest[0])
    ensures AtoiDigits(Digits(n) + rest, 0) == Some(n)
  {
    DigitsReadFrom(n, rest, 0);
  }

  function Shift(n: nat, acc: int): int {
    if n < 10 then 10 * acc + n else 10 * Shift(n / 10, acc) + n % 10
  }

  lemma {:induction false} DigitsReadFrom(n: nat, rest: Bytes, acc: int)
    requires rest != []
    ensures AtoiDigits(Digits(n) + rest, acc) == AtoiDigits(rest, Shift(n, acc))
    ensures acc == 0 ==> Shift(n, acc) == n
  {
    if n < 10 {
      assert (Digits(n) + rest)[1..] == rest;
    } else {
      var last: Bytes := [48 + n % 10];
      assert Digits(n) + rest == Digits(n / 10) + (last + rest);
      DigitsReadFrom(n / 10, last + rest, acc);
      assert (last + rest)[1..] == rest;
    }
  }

  /** A thread number survives the four-byte cell exactly when it has at most three characters. */
  lemma TidRoundTripIff(tid: int, heap: Bytes)
    requires |heap| >= 3
    ensures Atoi(TidCell(tid, heap)) == Some(tid) <==> -99 <= tid <= 999
  {
    if -99 <= tid <= 999 {
      ShortTidRead(tid, heap);
    } else {
      LongTidLost(tid, heap);
    }
  }

  lemma ShortTidRead(tid: int, heap: Bytes)
    requires |heap| >= 3 && -99 <= tid <= 999
    ensures Atoi(TidCell(tid, heap)) == Some(tid)
  {
    var word := Itoa(tid);
    var digits := if tid < 0 then Digits(-tid) else Digits(tid);
    var rest: Bytes := [0] + heap[..3 - |word|];
    var cell := TidCell(tid, heap);
    assert cell == word + rest;
    DigitsRead(if tid < 0 then -tid else tid, rest);
    if tid < 0 {
      assert cell[0] == 45 && cell[1..] == digits + rest;
    } else {
      assert cell[0] == digits[0] && IsDigit(digits[0]);
    }
  }

  lemma LongTidLost(tid: int, heap: Bytes)
    requires |heap| >= 3 && !(-99 <= tid <= 999)
    ensures Atoi(TidCell(tid, heap)) == None
  {
    var word := Itoa(tid);
    var cell := TidCell(tid, heap);
    assert cell == word[..4];
    if tid < 0 {
      var digits := Digits(-tid);
      assert word == [45] + digits && |digits| >= 3;
      assert cell[0] == 45 && cell[1..] == digits[..3];
      DigitsRunOff(digits[..3], 0);
    } else {
      var digits := Digits(tid);
      assert word == digits && cell == digits[..4] && IsDigit(digits[0]);
      DigitsRunOff(digits[..4], 0);
    }
  }

  // ---- client ----

  function OpCode(c: Call): int {
    match c
    case Create(_) => SUSE_CREATE
    case ScheduleNext => SUSE_SCHEDULE_NEXT
    case Join(_) => SUSE_JOIN
    case Close(_) => SUSE_CLOSE
    case Wait(_, _) => SUSE_WAIT
    case Signal(_, _) => SUSE_SIGNAL
  }

  /** The values of the call's packet; the name goes with its NUL. */
  function Values(c: Call, heap: Bytes): seq<Bytes>
    requires |heap| >= 3
  {
    match c
    case ScheduleNext => []
    case Create(tid) => [TidCell(tid, heap)]
    case Join(tid) => [TidCell(tid, heap)]
    case Close(tid) => [TidCell(tid, heap)]
    case Wait(tid, name) => [TidCell(tid, heap), name + [0]]
    case Signal(tid, name) => [TidCell(tid, heap), name + [0]]
  }

  /** The packet with its code and size fits the int its length is computed in. */
  predicate SizeOk(c: Call) {
    c.Wait? || c.Signal? ==> |c.name| <= INT_MAX - 21
  }

  lemma EncodeOne(v: Bytes)
    requires |v| <= INT_MAX
    ensures EncodeValues([v]) == EncodeValue(v)
  {
    assert EncodeValues([v][..0]) == [];
  }

  lemma EncodeTwo(v: Bytes, w: Bytes)
    requires |v| <= INT_MAX && |w| <= INT_MAX
    ensures EncodeValues([v, w]) == EncodeValue(v) + EncodeValue(w)
  {
    EncodeOne(v);
    assert [v, w][..1] == [v];
  }

  lemma ValuesFit(c: Call, heap: Bytes)
    requires |heap| >= 3 && SizeOk(c)
    ensures Fits(Values(c, heap)) && |EncodeValues(Values(c, heap))| + 8 <= INT_MAX
  {
    var vs := Values(c, heap);
    if |vs| == 2 {
      EncodeTwo(vs[0], vs[1]);
    } else if |vs| == 1 {
      EncodeOne(vs[0]);
    }
  }

  /** The bytes one stub call puts on the socket. */
  function EncodeCall(c: Call, heap: Bytes): Bytes
    requires |heap| >= 3 && SizeOk(c)
  {
    ValuesFit(c, heap);
    if c.ScheduleNext? then EncodeInt(SUSE_SCHEDULE_NEXT)
    else Packet(OpCode(c), EncodeValues(Values(c, heap)))
  }

  predicate Sendable(c: Call) {
    && SizeOk(c)
    && (c.Wait? || c.Signal? ==> NulFree(c.name))
  }

  predicate ShortTid(c: Call) {
    c.ScheduleNext? || -99 <= c.tid <= 999
  }

  // ---- the bytes themselves ----

  /** The cell of a short thread number, character by character. */
  lemma TidBytes(tid: int, heap: Bytes)
    requires |heap| >= 3
    ensures 0 <= tid <= 9 ==> TidCell(tid, heap) == [48 + tid, 0] + heap[..2]
    ensures 10 <= tid <= 99 ==> TidCell(tid, heap) == [48 + tid / 10, 48 + tid % 10, 0] + heap[..1]
    ensures 100 <= tid <= 999 ==> TidCell(tid, heap) == [48 + tid / 100, 48 + tid / 10 % 10, 48 + tid % 10, 0]
    ensures -9 <= tid <= -1 ==> TidCell(tid, heap) == [45, 48 - tid, 0] + heap[..1]
    ensures -99 <= tid <= -10 ==> TidCell(tid, heap) == [45, 48 + -tid / 10, 48 + -tid % 10, 0]
  {
    if 0 <= tid <= 999 {
      ShortDigits(tid);
    } else if -99 <= tid < 0 {
      ShortDigits(-tid);
    }
  }

  lemma ShortDigits(n: nat)
    ensures n <= 9 ==> Digits(n) == [48 + n]
    ensures 10 <= n <= 99 ==> Digits(n) == [48 + n / 10, 48 + n % 10]
    ensures 100 <= n <= 999 ==> Digits(n) == [48 + n / 100, 48 + n / 10 % 10, 48 + n % 10]
  {
    if 100 <= n <= 999 {
      assert Digits(n / 10) == [48 + n / 10 / 10, 48 + n / 10 % 10];
      assert n / 10 / 10 == n / 100;
    }
  }

  lemma SmallInts()
    ensures forall v :: 0 <= v < 256 ==> EncodeInt(v) == [v, 0, 0, 0]
  {}

  /** The part of a wait or a signal behind its code. */
  function SemBytes(tid: int, name: Bytes, heap: Bytes): Bytes
    requires |heap| >= 3 && |name| <= INT_MAX - 21
  {
    EncodeInt(|name| + 13) + [4, 0, 0, 0] + TidCell(tid, heap) + EncodeInt(|name| + 1) + name + [0]
  }

  lemma TidPacket(op: Byte, tid: int, heap: Bytes)
    requires |heap| >= 3
    ensures var vs := [TidCell(tid, heap)];
      && Fits(vs) && |EncodeValues(vs)| <= INT_MAX
      && Packet(op, EncodeValues(vs)) == [op, 0, 0, 0, 8, 0, 0, 0, 4, 0, 0, 0] + TidCell(tid, heap)
  {
    hide EncodeInt, TidCell;
    SmallInts();
    EncodeOne(TidCell(tid, heap));
  }

  lemma SemPacket(op: Byte, tid: int, name: Bytes, heap: Bytes)
    requires |heap| >= 3 && |name| <= INT_MAX - 21
    ensures var vs := [TidCell(tid, heap), name + [0]];
      && Fits(vs) && |EncodeValues(vs)| <= INT_MAX
      && Packet(op, EncodeValues(vs)) == [op, 0, 0, 0] + SemBytes(tid, name, heap)
  {
    hide EncodeInt, TidCell;
    SmallInts();
    var cell, word := TidCell(tid, heap), name + [0];
    EncodeTwo(cell, word);
    assert EncodeValue(cell) == [4, 0, 0, 0] + cell;
    assert EncodeValue(word) == EncodeInt(|name| + 1) + word;
    var payload := EncodeValues([cell, word]);
    assert |payload| == |name| + 13;
    assert payload == ([4, 0, 0, 0] + cell) + (EncodeInt(|name| + 1) + word);
  }

  /** What every stub puts on the socket, byte by byte: the operation's code, the length of what follows, and the
      thread number and the name, each behind its length. */
  lemma CallBytes(c: Call, heap: Bytes)
    requires |heap| >= 3 && SizeOk(c)
    ensures c.ScheduleNext? ==> EncodeCall(c, heap) == [3, 0, 0, 0]
    ensures c.Create? ==> EncodeCall(c, heap) == [2, 0, 0, 0, 8, 0, 0, 0, 4, 0, 0, 0] + TidCell(c.tid, heap)
    ensures c.Join? ==> EncodeCall(c, heap) == [7, 0, 0, 0, 8, 0, 0, 0, 4, 0, 0, 0] + TidCell(c.tid, heap)
    ensures c.Close? ==> EncodeCall(c, heap) == [8, 0, 0, 0, 8, 0, 0, 0, 4, 0, 0, 0] + TidCell(c.tid, heap)
    ensures c.Wait? ==> EncodeCall(c, heap) == [5, 0, 0, 0] + SemBytes(c.tid, c.name, heap)
    ensures c.Signal? ==> EncodeCall(c, heap) == [6, 0, 0, 0] + SemBytes(c.tid, c.name, heap)
  {
    hide EncodeInt, TidCell, EncodeValues, Packet, SemBytes;
    match c
    case ScheduleNext => SmallInts();
    case Create(tid) => TidPacket(2, tid, heap);
    case Join(tid) => TidPacket(7, tid, heap);
    case Close(tid) => TidPacket(8, tid, heap);
    case Wait(tid, name) => SemPacket(5, tid, name, heap);
    case Signal(tid, name) => SemPacket(6, tid, name, heap);
  }

  // ---- server ----

  /** What the switch of `schedule_short_term` makes of the packet's values; None where it would read outside them. */
  function DecodeCall(op: int, vs: seq<Bytes>): Option<Call>
    requires op in {SUSE_CREATE, SUSE_WAIT, SUSE_SIGNAL, SUSE_JOIN, SUSE_CLOSE}
  {
    if |vs| == 0 then None
    else
      match Atoi(vs[0])
      case None => None
      case Some(tid) =>
        if op == SUSE_CREATE then Some(Create(tid))
        else if op == SUSE_JOIN then Some(Join(tid))
        else if op == SUSE_CLOSE then Some(Close(tid))
        else if |vs| < 2 then None
        else
          match CString(vs[1])
          case None => None
          case Some(name) => if op == SUSE_WAIT then Some(Wait(tid, name)) else Some(Signal(tid, name))
  }

  datatype Reading = Request(call: Call, rest: Bytes) | Unknown(op: int, rest: Bytes) | Disconnected | Broken

  /** One round of the server's loop on the bytes received so far. */
  ghost function ReadOne(b: Bytes): (r: Reading)
    ensures r.Request? || r.Unknown? ==> |r.rest| < |b|
  {
    if b == [] then Disconnected
    else if |b| < 4 then Broken
    else
      var op := DecodeInt(b[..4]);
      var body := b[4..];
      if op == -1 then Disconnected
      else if op == SUSE_SCHEDULE_NEXT then Request(ScheduleNext, body)
      else if op in {SUSE_CREATE, SUSE_WAIT, SUSE_SIGNAL, SUSE_JOIN, SUSE_CLOSE} then
        if !Framed(body) then Broken
        else
          match DecodeCall(op, ParseValues(Payload(body)).value)
          case None => Broken
          case Some(c) => Request(c, body[4 + |Payload(body)|..])
      else Unknown(op, body)
  }

  /** All requests up to the disconnection; unknown codes are skipped. None when some read is undefined. */
  ghost function ReadSession(b: Bytes): Option<seq<Call>>
    decreases |b|
  {
    match ReadOne(b)
    case Disconnected => Some([])
    case Broken => None
    case Unknown(_, rest) => ReadSession(rest)
    case Request(c, rest) =>
      match ReadSession(rest)
      case None => None
      case Some(cs) => Some([c] + cs)
  }

  ghost function EncodeSession(calls: seq<Call>, heaps: seq<Bytes>): Bytes
    requires |heaps| == |calls|
    requires forall i :: 0 <= i < |calls| ==> Sendable(calls[i]) && |heaps[i]| >= 3
  {
    if calls == [] then []
    else
      assert Sendable(calls[0]);
      EncodeCall(calls[0], heaps[0]) + EncodeSession(calls[1..], heaps[1..])
  }

  lemma DecodeIff(c: Call, heap: Bytes)
    requires |heap| >= 3 && Sendable(c) && !c.ScheduleNext?
    ensures DecodeCall(OpCode(c), Values(c, heap)) == Some(c) <==> ShortTid(c)
  {
    TidRoundTripIff(c.tid, heap);
    if c.Wait? || c.Signal? {
      NameRoundTrip(c.name);
    }
  }

  /** A packet is read as what its values decode to, and reading stops at its end. */
  lemma ReadPacket(op: int, vs: seq<Bytes>, rest: Bytes)
    requires op in {SUSE_CREATE, SUSE_WAIT, SUSE_SIGNAL, SUSE_JOIN, SUSE_CLOSE}
    requires Fits(vs) && |EncodeValues(vs)| <= INT_MAX
    ensures ReadOne(Packet(op, EncodeValues(vs)) + rest) ==
            match DecodeCall(op, vs) case None => Broken case Some(c) => Request(c, rest)
  {
    hide ParseValues, EncodeValues, EncodeInt, DecodeInt;
    var payload := EncodeValues(vs);
    var b := Packet(op, payload) + rest;
    IntRoundTrip(op);
    assert b[..4] == EncodeInt(op);
    PacketIsFramed(vs, rest);
    assert b[4..] == EncodeInt(|payload|) + payload + rest;
  }

  /** The server reads a call back, with the rest of the stream intact, exactly when its thread number is short. */
  lemma CallRoundTripIff(c: Call, heap: Bytes, rest: Bytes)
    requires |heap| >= 3 && Sendable(c)
    ensures ReadOne(EncodeCall(c, heap) + rest) == Request(c, rest) <==> ShortTid(c)
  {
    if c.ScheduleNext? {
      var b := EncodeCall(c, heap) + rest;
      IntRoundTrip(SUSE_SCHEDULE_NEXT);
      assert b[..4] == EncodeInt(SUSE_SCHEDULE_NEXT) && b[4..] == rest;
    } else {
      ValuesFit(c, heap);
      ReadPacket(OpCode(c), Values(c, heap), rest);
      DecodeIff(c, heap);
    }
  }

  /** A call with a longer thread number is a read outside its packet. */
  lemma LongCallBroken(c: Call, heap: Bytes, rest: Bytes)
    requires |heap| >= 3 && Sendable(c) && !ShortTid(c)
    ensures ReadOne(EncodeCall(c, heap) + rest) == Broken
  {
    ValuesFit(c, heap);
    ReadPacket(OpCode(c), Values(c, heap), rest);
    LongTidLost(c.tid, heap);
  }

  lemma SessionStep(c: Call, heap: Bytes, rest: Bytes)
    requires |heap| >= 3 && Sendable(c)
    ensures ReadSession(EncodeCall(c, heap) + rest) ==
      if !ShortTid(c) || ReadSession(rest).None? then None else Some([c] + ReadSession(rest).value)
  {
    hide EncodeCall, ReadOne;
    if ShortTid(c) {
      CallRoundTripIff(c, heap, rest);
    } else {
      LongCallBroken(c, heap, rest);
    }
  }

  /** Whole sessions: a sequence of calls, back to back on one stream, is recovered exactly when all its thread numbers
      are short enough. */
  lemma {:induction false} SessionRoundTripIff(calls: seq<Call>, heaps: seq<Bytes>)
    requires |heaps| == |calls|
    requires forall i :: 0 <= i < |calls| ==> Sendable(calls[i]) && |heaps[i]| >= 3
    ensures ReadSession(EncodeSession(calls, heaps)) == Some(calls) <==>
      forall i :: 0 <= i < |calls| ==> ShortTid(calls[i])
    decreases |calls|
  {
    hide EncodeCall, ReadSession, ShortTid, Sendable;
    if calls == [] {
      NoCalls();
    } else {
      var rest := EncodeSession(calls[1..], heaps[1..]);
      SessionRoundTripIff(calls[1..], heaps[1..]);
      SessionStep(calls[0], heaps[0], rest);
      SameCalls(calls, ReadSession(rest));
      assert forall i :: 0 < i < |calls| ==> calls[i] == calls[1..][i - 1];
    }
  }

  lemma NoCalls()
    ensures ReadSession([]) == Some([])
  {}

  lemma SameCalls(calls: seq<Call>, read: Option<seq<Call>>)
    requires calls != []
    ensures read.Some? ==> ([calls[0]] + read.value == calls <==> read == Some(calls[1..]))
  {
    if read.Some? && [calls[0]] + read.value == calls {
      assert ([calls[0]] + read.value)[1..] == read.value;
    }
  }

  /** The reply of `notify_program`, as `suse_schedule_next` reads it. */
  lemma ReplyRoundTripIff(tid: int, heap: Bytes)
    requires |heap| >= 3
    ensures var vs := [TidCell(tid, heap)];
      && Fits(vs) && |EncodeValues(vs)| <= INT_MAX
      && var b := Packet(SUSE_SCHEDULE_NEXT_RETURN, EncodeValues(vs));
      && b == [4, 0, 0, 0, 8, 0, 0, 0, 4, 0, 0, 0] + TidCell(tid, heap)
      && DecodeInt(b[..4]) == SUSE_SCHEDULE_NEXT_RETURN && Framed(b[4..])
      && ParseValues(Payload(b[4..])) == Some(vs)
      && (Atoi(ParseValues(Payload(b[4..])).value[0]) == Some(tid) <==> -99 <= tid <= 999)
  {
    hide EncodeInt, DecodeInt, EncodeValues, ParseValues, TidCell, Itoa, Atoi, Fits, Framed, Payload;
    ValuesFit(Create(tid), heap);
    var vs := [TidCell(tid, heap)];
    var payload := EncodeValues(vs);
    var b := Packet(SUSE_SCHEDULE_NEXT_RETURN, payload);
    IntRoundTrip(SUSE_SCHEDULE_NEXT_RETURN);
    assert b[..4] == EncodeInt(SUSE_SCHEDULE_NEXT_RETURN);
    PacketIsFramed(vs, []);
    assert b[4..] == EncodeInt(|payload|) + payload + [];
    TidRoundTripIff(tid, heap);
    TidPacket(4, tid, heap);
  }

  // ---- the stubs and the server loop as they run ----

  /** The common body of `suse_create`, `suse_join` and `suse_close`. */
  method SendTid(op: int, tid: int, s: Stream, heap: Bytes)
    requires |heap| >= 3 && op in {SUSE_CREATE, SUSE_JOIN, SUSE_CLOSE}
    modifies s
    ensures var vs := [TidCell(tid, heap)];
      Fits(vs) && |EncodeValues(vs)| <= INT_MAX && s.data == old(s.data) + Packet(op, EncodeValues(vs))
  {
    ValuesFit(Create(tid), heap);
    var threadid := Itoa(tid) + [0] + heap;
    var paquete := new Paquete(op);
    paquete.AgregarAPaquete(threadid, 4);
    EncodeOne(TidCell(tid, heap));
    assert [] + EncodeValue(threadid[..4]) == EncodeValue(threadid[..4]);
    s.EnviarPaquete(paquete);
  }

  method SuseCreate(tid: int, s: Stream, heap: Bytes)
    requires |heap| >= 3
    modifies s
    ensures s.data == old(s.data) + EncodeCall(Create(tid), heap)
    ensures s.data == old(s.data) + ([2, 0, 0, 0, 8, 0, 0, 0, 4, 0, 0, 0] + TidCell(tid, heap))
  {
    CallBytes(Create(tid), heap);
    SendTid(SUSE_CREATE, tid, s, heap);
  }

  method SuseJoin(tid: int, s: Stream, heap: Bytes)
    requires |heap| >= 3
    modifies s
    ensures s.data == old(s.data) + EncodeCall(Join(tid), heap)
    ensures s.data == old(s.data) + ([7, 0, 0, 0, 8, 0, 0, 0, 4, 0, 0, 0] + TidCell(tid, heap))
  {
    CallBytes(Join(tid), heap);
    SendTid(SUSE_JOIN, tid, s, heap);
  }

  method SuseClose(tid: int, s: Stream, heap: Bytes)
    requires |heap| >= 3
    modifies s
    ensures s.data == old(s.data) + EncodeCall(Close(tid), heap)
    ensures s.data == old(s.data) + ([8, 0, 0, 0, 8, 0, 0, 0, 4, 0, 0, 0] + TidCell(tid, heap))
  {
    CallBytes(Close(tid), heap);
    SendTid(SUSE_CLOSE, tid, s, heap);
  }

  /** The request half of `suse_schedule_next`. */
  method SuseScheduleNext(s: Stream)
    modifies s
    ensures forall heap: Bytes :: |heap| >= 3 ==> s.data == old(s.data) + EncodeCall(ScheduleNext, heap)
    ensures s.data == old(s.data) + [3, 0, 0, 0]
  {
    SmallInts();
    s.EnviarOperacion(SUSE_SCHEDULE_NEXT);
  }

  /** What the two `agregar_a_paquete` of a wait or a signal append. */
  lemma SemStream(tid: int, name: Bytes, heap: Bytes)
    requires |heap| >= 3 && |name| <= INT_MAX - 21
    ensures |Itoa(tid) + [0] + heap| >= 4
    ensures var vs := [TidCell(tid, heap), name + [0]];
      && Fits(vs) && |EncodeValues(vs)| + 8 <= INT_MAX
      && [] + EncodeValue((Itoa(tid) + [0] + heap)[..4]) + EncodeValue((name + [0])[..|name| + 1]) == EncodeValues(vs)
  {
    hide EncodeInt, EncodeValues, Itoa;
    ValuesFit(Wait(tid, name), heap);
    EncodeTwo(TidCell(tid, heap), name + [0]);
    assert (name + [0])[..|name| + 1] == name + [0];
    var first := EncodeValue(TidCell(tid, heap));
    assert [] + first == first;
  }

  /** The common body of `suse_wait` and `suse_signal`. */
  method SendSem(op: int, tid: int, name: Bytes, s: Stream, heap: Bytes)
    requires |heap| >= 3 && op in {SUSE_WAIT, SUSE_SIGNAL} && |name| <= INT_MAX - 21
    modifies s
    ensures var vs := [TidCell(tid, heap), name + [0]];
      Fits(vs) && |EncodeValues(vs)| <= INT_MAX && s.data == old(s.data) + Packet(op, EncodeValues(vs))
  {
    hide EncodeInt, EncodeValue, EncodeValues, TidCell, Itoa, Fits, Packet;
    SemStream(tid, name, heap);
    var threadid := Itoa(tid) + [0] + heap;
    var paquete := new Paquete(op);
    paquete.AgregarAPaquete(threadid, 4);
    paquete.AgregarAPaquete(name + [0], |name| + 1);
    s.EnviarPaquete(paquete);
  }

  method SuseWait(tid: int, name: Bytes, s: Stream, heap: Bytes)
    requires |heap| >= 3 && SizeOk(Wait(tid, name))
    modifies s
    ensures s.data == old(s.data) + EncodeCall(Wait(tid, name), heap)
    ensures s.data == old(s.data) + ([5, 0, 0, 0] + SemBytes(tid, name, heap))
  {
    CallBytes(Wait(tid, name), heap);
    SendSem(SUSE_WAIT, tid, name, s, heap);
  }

  method SuseSignal(tid: int, name: Bytes, s: Stream, heap: Bytes)
    requires |heap| >= 3 && SizeOk(Signal(tid, name))
    modifies s
    ensures s.data == old(s.data) + EncodeCall(Signal(tid, name), heap)
    ensures s.data == old(s.data) + ([6, 0, 0, 0] + SemBytes(tid, name, heap))
  {
    CallBytes(Signal(tid, name), heap);
    SendSem(SUSE_SIGNAL, tid, name, s, heap);
  }

  /** One round of the switch in `schedule_short_term`: -1 when the client is gone. */
  method ReceiveOne(s: Stream) returns (codigo: int, call: Option<Call>)
    requires !ReadOne(s.data).Broken?
    modifies s
    ensures var r := ReadOne(old(s.data));
      && (codigo == -1 <==> r.Disconnected?)
      && (r.Request? ==> call == Some(r.call) && s.data == r.rest)
      && (r.Unknown? ==> call == None && s.data == r.rest)
  {
    codigo := s.RecibirOperacion();
    call := None;
    if codigo == SUSE_SCHEDULE_NEXT {
      call := Some(ScheduleNext);
    } else if codigo in {SUSE_CREATE, SUSE_WAIT, SUSE_SIGNAL, SUSE_JOIN, SUSE_CLOSE} {
      var parametros := s.RecibirPaquete();
      call := DecodeCall(codigo, parametros);
    }
  }

  /** A session that can be read goes on with its first message. */
  lemma SessionGoesOn(b: Bytes)
    requires ReadSession(b).Some?
    ensures var r := ReadOne(b);
      && !r.Broken?
      && (r.Disconnected? ==> ReadSession(b) == Some([]))
      && (r.Unknown? ==> ReadSession(r.rest) == ReadSession(b))
      && (r.Request? ==> ReadSession(r.rest).Some? && ReadSession(b) == Some([r.call] + ReadSession(r.rest).value))
  {
    hide ReadOne;
  }

  /** The receive loop of `schedule_short_term`, on a stream every read of which is defined. */
  method ScheduleShortTerm(s: Stream) returns (calls: seq<Call>)
    requires ReadSession(s.data).Some?
    modifies s
    ensures ReadSession(old(s.data)) == Some(calls)
  {
    hide ReadSession, ReadOne;
    calls := [];
    var close := false;
    ghost var all := ReadSession(s.data).value;
    assert [] + all == all;
    while !close
      invariant !close ==> ReadSession(s.data).Some? && all == calls + ReadSession(s.data).value
      invariant close ==> all == calls
      decreases !close, |s.data|
    {
      SessionGoesOn(s.data);
      var codigo, call := ReceiveOne(s);
      if codigo == -1 {
        close := true;
        assert calls + [] == calls;
      } else if call.Some? {
        assert (calls + [call.value]) + ReadSession(s.data).value == calls + ([call.value] + ReadSession(s.data).value);
        calls := calls + [call.value];
      }
    }
  }
}
