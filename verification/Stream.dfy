/**
  Client script data (src/bindings/stream.{hpp,cpp}): values are appended to a byte vector and
  read back from a position.  Bytes as they are, numbers and floats as 4 bytes little-endian,
  strings as a big-endian 16-bit length and the bytes.
 */
module Stream {
  import opened Wrappers

  const MAX_SIZE := 4096
  const WORD := 0x1_0000_0000   // 2^32

  newtype byte = b: int | 0 <= b < 256

  datatype Kind = AByte | ANumber | AFloat | AString

  /** What a script writes or reads; a float is its 32 bits. */
  datatype Value = Byte(b: int) | Number(n: int) | Float(bits: nat) | Str(s: seq<byte>)

  function KindOf(v: Value): Kind {
    match v case Byte(_) => AByte case Number(_) => ANumber case Float(_) => AFloat case Str(_) => AString
  }

  /** The values the write members accept. */
  predicate Writable(v: Value) {
    match v
    case Byte(b) => -128 <= b <= 255
    case Number(n) => -0x8000_0000 <= n < WORD
    case Float(bits) => bits < WORD
    case Str(s) => |s| <= 0xFFFF
  }

  /** What is read back for a written value: the low 8 bits, the signed 32-bit number, the rest as is. */
  function ReadBack(v: Value): Value {
    match v
    case Byte(b) => Byte(b % 256)
    case Number(n) => Number(Signed(n % WORD))
    case _ => v
  }

  function Signed(bits: nat): int {
    if bits < 0x8000_0000 then bits else bits - WORD
  }

  /** Lowest byte first. */
  function Word(bits: nat): seq<byte>
    requires bits < WORD
  {
    var a := bits / 256;
    var b := a / 256;
    [(bits % 256) as byte, (a % 256) as byte, (b % 256) as byte, (b / 256) as byte]
  }

  function Bits(s: seq<byte>): (bits: nat)
    requires |s| >= 4
    ensures bits < WORD
  {
    s[0] as int + 256 * (s[1] as int + 256 * (s[2] as int + 256 * s[3] as int))
  }

  function Encode(v: Value): seq<byte>
    requires Writable(v)
  {
    match v
    case Byte(b) => [(b % 256) as byte]
    case Number(n) => Word(n % WORD)
    case Float(bits) => Word(bits)
    case Str(s) => [(|s| / 256) as byte, (|s| % 256) as byte] + s
  }

  /** A value of that kind at the front of `s` and how many bytes it takes; None if there are too few. */
  function Decode(kind: Kind, s: seq<byte>): (r: Option<(Value, nat)>)
    ensures r.Some? ==> 0 < r.value.1 <= |s| && KindOf(r.value.0) == kind
  {
    match kind
    case AByte => if |s| < 1 then None else Some((Byte(s[0] as int), 1))
    case ANumber => if |s| < 4 then None else Some((Number(Signed(Bits(s))), 4))
    case AFloat => if |s| < 4 then None else Some((Float(Bits(s)), 4))
    case AString =>
      if |s| < 2 then None
      else
        var length := s[0] as int * 256 + s[1] as int;
        if |s| - 2 < length then None else Some((Str(s[2..2 + length]), 2 + length))
  }

  lemma {:induction false} WordBits(bits: nat, rest: seq<byte>)
    requires bits < WORD
    ensures Bits(Word(bits) + rest) == bits
  {
  }

  /** Whatever follows, a written value is read back. */
  lemma {:induction false} DecodeEncoded(v: Value, rest: seq<byte>)
    requires Writable(v)
    ensures Decode(KindOf(v), Encode(v) + rest) == Some((ReadBack(v), |Encode(v)|))
  {
    match v
    case Byte(b) =>
    case Number(n) => WordBits(n % WORD, rest);
    case Float(bits) => WordBits(bits, rest);
    case Str(s) =>
      var all := Encode(v) + rest;
      assert all[2..2 + |s|] == s;
  }

  /** What is read back is the number with the same low 32 bits in the signed range: a signed number itself. */
  lemma NumberReadBack(n: int)
    requires Writable(Number(n))
    ensures var m := ReadBack(Number(n)).n;
            && -0x8000_0000 <= m < 0x8000_0000 && (m - n) % WORD == 0
            && (-0x8000_0000 <= n < 0x8000_0000 <==> m == n)
  {
  }

  /** The byte with the same low 8 bits. */
  lemma ByteReadBack(b: int)
    ensures var c := ReadBack(Byte(b)).b; 0 <= c < 256 && (c - b) % 256 == 0
  {
  }

  // ---------------------------------------------------------------- any interleaving

  datatype Op = Write(v: Value) | Read(kind: Kind) | Clear

  datatype State = State(bytes: seq<byte>, read: nat)

  /** One member of a stream; a refused call returns None and changes nothing. */
  function Apply(st: State, op: Op): (r: (State, Option<Value>))
    requires st.read <= |st.bytes|
    ensures r.0.read <= |r.0.bytes|
  {
    match op
    case Clear => (State([], 0), None)
    case Write(v) =>
      if Writable(v) && |st.bytes| + |Encode(v)| <= MAX_SIZE
      then (State(st.bytes + Encode(v), st.read), Some(v)) else (st, None)
    case Read(kind) =>
      match Decode(kind, st.bytes[st.read..])
      case None => (st, None)
      case Some((v, n)) => (State(st.bytes, st.read + n), Some(v))
  }

  function Run(st: State, ops: seq<Op>): seq<Option<Value>>
    requires st.read <= |st.bytes|
    decreases |ops|
  {
    if ops == [] then [] else var r := Apply(st, ops[0]); [r.1] + Run(r.0, ops[1..])
  }

  /** The same as a queue of values, with the number of bytes written since it was last cleared. */
  datatype Queue = Queue(values: seq<Value>, used: nat)

  function ApplyQueue(q: Queue, op: Op): (Queue, Option<Value>) {
    match op
    case Clear => (Queue([], 0), None)
    case Write(v) =>
      if Writable(v) && q.used + |Encode(v)| <= MAX_SIZE
      then (Queue(q.values + [v], q.used + |Encode(v)|), Some(v)) else (q, None)
    case Read(_) =>
      if q.values == [] then (q, None) else (q.(values := q.values[1..]), Some(ReadBack(q.values[0])))
  }

  function RunQueue(q: Queue, ops: seq<Op>): seq<Option<Value>>
    decreases |ops|
  {
    if ops == [] then [] else var r := ApplyQueue(q, ops[0]); [r.1] + RunQueue(r.0, ops[1..])
  }

  /** Each read asks for the kind of the value that is next, if there is one. */
  predicate Matching(q: Queue, ops: seq<Op>)
    decreases |ops|
  {
    ops == [] ||
    ((ops[0].Read? && q.values != [] ==> KindOf(q.values[0]) == ops[0].kind)
     && Matching(ApplyQueue(q, ops[0]).0, ops[1..]))
  }

  predicate AllWritable(values: seq<Value>) {
    forall i :: 0 <= i < |values| ==> Writable(values[i])
  }

  function EncodeAll(values: seq<Value>): seq<byte>
    requires AllWritable(values)
  {
    if values == [] then [] else Encode(values[0]) + EncodeAll(values[1..])
  }

  predicate Holds(st: State, q: Queue) {
    && st.read <= |st.bytes| == q.used
    && AllWritable(q.values)
    && st.bytes[st.read..] == EncodeAll(q.values)
  }

  lemma {:induction false} EncodeAllAppend(values: seq<Value>, v: Value)
    requires AllWritable(values) && Writable(v)
    ensures AllWritable(values + [v]) && EncodeAll(values + [v]) == EncodeAll(values) + Encode(v)
  {
    if values == [] {
      assert values + [v] == [v] && [v][1..] == [];
    } else {
      var tail := values[1..];
      EncodeAllAppend(tail, v);
      assert (values + [v])[1..] == tail + [v];
      ConcatAssociative(Encode(values[0]), EncodeAll(tail), Encode(v));
    }
  }

  lemma {:induction false} ApplyHolds(st: State, q: Queue, op: Op)
    requires Holds(st, q) && (op.Read? && q.values != [] ==> KindOf(q.values[0]) == op.kind)
    ensures Holds(Apply(st, op).0, ApplyQueue(q, op).0) && Apply(st, op).1 == ApplyQueue(q, op).1
  {
    if op.Write? && Writable(op.v) && q.used + |Encode(op.v)| <= MAX_SIZE {
      WriteHolds(st, q, op.v);
    } else if op.Read? && q.values != [] {
      ReadHolds(st, q);
    }
  }

  lemma {:induction false} WriteHolds(st: State, q: Queue, v: Value)
    requires Holds(st, q) && Writable(v)
    ensures Holds(State(st.bytes + Encode(v), st.read), Queue(q.values + [v], q.used + |Encode(v)|))
  {
    EncodeAllAppend(q.values, v);
    TailOf(st.bytes, Encode(v), st.read);
  }

  lemma TailOf(a: seq<byte>, b: seq<byte>, k: nat)
    requires k <= |a|
    ensures (a + b)[k..] == a[k..] + b
  {
  }

  lemma {:induction false} ReadHolds(st: State, q: Queue)
    requires Holds(st, q) && q.values != []
    ensures var v := q.values[0];
            && Decode(KindOf(v), st.bytes[st.read..]) == Some((ReadBack(v), |Encode(v)|))
            && Holds(State(st.bytes, st.read + |Encode(v)|), Queue(q.values[1..], q.used))
  {
    var v, left := q.values[0], st.bytes[st.read..];
    DecodeEncoded(v, EncodeAll(q.values[1..]));
    assert left == Encode(v) + EncodeAll(q.values[1..]);
    assert st.bytes[st.read + |Encode(v)|..] == left[|Encode(v)|..];
  }

  /**
    A stream is a first-in first-out queue: for any interleaving of writes, clears and reads of
    the right kind, every call answers as the queue does.
   */
  lemma {:induction false} StreamIsQueue(st: State, q: Queue, ops: seq<Op>)
    requires Holds(st, q) && Matching(q, ops)
    ensures Run(st, ops) == RunQueue(q, ops)
    decreases |ops|
  {
    if ops != [] {
      ApplyHolds(st, q, ops[0]);
      StreamIsQueue(Apply(st, ops[0]).0, ApplyQueue(q, ops[0]).0, ops[1..]);
    }
  }

  // ---------------------------------------------------------------- the members

  /** The number after `i` bytes have been shifted out. */
  function Shifted(value: nat, i: nat): nat {
    if i == 0 then value else Shifted(value, i - 1) / 256
  }

  /** The number that four bytes are, lowest first. */
  function Little(s: seq<byte>): nat
    requires |s| == 4
  {
    s[0] as int + s[1] as int * 0x100 + s[2] as int * 0x1_0000 + s[3] as int * 0x100_0000
  }

  lemma {:induction false} ShiftedByte(value: nat, i: nat)
    requires value < WORD && i < 4
    ensures Word(value)[i] as int == Shifted(value, i) % 256
  {
    assert Shifted(value, 0) == value;
    assert Shifted(value, 1) == value / 256;
    assert Shifted(value, 2) == Shifted(value, 1) / 256;
    assert Shifted(value, 3) == Shifted(value, 2) / 256 < 256;
  }

  class Stream {
    var bytes: seq<byte>
    var read: nat

    ghost predicate Valid()
      reads this
    {
      read <= |bytes|
    }

    ghost function Now(): State
      reads this
    {
      State(bytes, read)
    }

    constructor (received: seq<byte>)
      ensures Valid() && Now() == State(received, 0)
    {
      bytes, read := received, 0;
    }

    predicate Need(size: nat)
      requires read <= |bytes|
      reads this
    {
      |bytes| - read >= size
    }

    /** A received stream may be larger than MAX_SIZE. */
    predicate Room(size: nat)
      reads this
    {
      |bytes| <= MAX_SIZE && MAX_SIZE - |bytes| >= size
    }

    method WriteByte(value: int) returns (ok: bool)
      requires Valid()
      modifies this`bytes
      ensures Valid() && Now() == Apply(old(Now()), Write(Byte(value))).0
      ensures ok <==> Apply(old(Now()), Write(Byte(value))).1.Some?
      ensures ok <==> -128 <= value <= 255 && |old(bytes)| < 4096
      ensures ok ==> bytes == old(bytes) + [bytes[|old(bytes)|]] && (bytes[|old(bytes)|] as int - value) % 256 == 0
    {
      if !(-128 <= value <= 255) || !Room(1) {
        return false;
      }
      bytes := bytes + [(value % 256) as byte];
      return true;
    }

    method WriteU32(value: nat) returns (ok: bool)
      requires Valid() && value < WORD
      modifies this`bytes
      ensures Valid() && ok == old(Room(4)) && bytes == old(bytes) + if ok then Word(value) else []
      ensures ok <==> |old(bytes)| <= 4092
      ensures ok ==> value == Little(bytes[|old(bytes)|..])
    {
      if !Room(4) {
        return false;
      }
      var left := value;
      ghost var word := Word(value);
      for i := 0 to 4
        invariant bytes == old(bytes) + word[..i]
        invariant left == Shifted(value, i)
      {
        bytes := bytes + [(left % 256) as byte];
        ShiftedByte(value, i);
        assert word[..i + 1] == word[..i] + [word[i]];
        left := left / 256;
      }
      assert word[..4] == word && bytes[|old(bytes)|..] == word;
      return true;
    }

    method WriteNumber(value: int) returns (ok: bool)
      requires Valid()
      modifies this`bytes
      ensures Valid() && Now() == Apply(old(Now()), Write(Number(value))).0
      ensures ok <==> Apply(old(Now()), Write(Number(value))).1.Some?
      ensures ok <==> -0x8000_0000 <= value <= 0xFFFF_FFFF && |old(bytes)| <= 4092
      ensures ok ==> |bytes| == |old(bytes)| + 4 && (Little(bytes[|old(bytes)|..]) - value) % WORD == 0
    {
      if !(-0x8000_0000 <= value < WORD) {
        return false;
      }
      ok := WriteU32(value % WORD);
    }

    method WriteFloat(bits: nat) returns (ok: bool)
      requires Valid() && bits < WORD
      modifies this`bytes
      ensures Valid() && Now() == Apply(old(Now()), Write(Float(bits))).0
      ensures ok <==> Apply(old(Now()), Write(Float(bits))).1.Some?
      ensures ok <==> |old(bytes)| <= 4092
      ensures ok ==> |bytes| == |old(bytes)| + 4 && Little(bytes[|old(bytes)|..]) == bits
    {
      ok := WriteU32(bits);
    }

    method WriteString(text: seq<byte>) returns (ok: bool)
      requires Valid()
      modifies this`bytes
      ensures Valid() && Now() == Apply(old(Now()), Write(Str(text))).0
      ensures ok <==> Apply(old(Now()), Write(Str(text))).1.Some?
      ensures ok <==> |text| <= 0xFFFF && |old(bytes)| + 2 + |text| <= 4096
      ensures ok ==> |bytes| == |old(bytes)| + 2 + |text| && bytes[|old(bytes)| + 2..] == text
                     && bytes[|old(bytes)|] as int * 256 + bytes[|old(bytes)| + 1] as int == |text|
    {
      if |text| > 0xFFFF || !Room(2 + |text|) {
        return false;
      }
      bytes := bytes + [(|text| / 256) as byte];
      bytes := bytes + [(|text| % 256) as byte];
      bytes := bytes + text;
      assert bytes == old(bytes) + Encode(Str(text));
      return true;
    }

    method ReadByte() returns (r: Option<int>)
      requires Valid()
      modifies this`read
      ensures Valid() && Now() == Apply(old(Now()), Read(AByte)).0
      ensures Apply(old(Now()), Read(AByte)).1 == (if r.None? then None else Some(Byte(r.value)))
      ensures r == if old(read) < |bytes| then Some(bytes[old(read)] as int) else None
    {
      if !Need(1) {
        return None;
      }
      read := read + 1;
      return Some(bytes[read - 1] as int);
    }

    method ReadU32() returns (r: Option<nat>)
      requires Valid()
      modifies this`read
      ensures Valid() && (r.Some? <==> |old(bytes)[old(read)..]| >= 4)
      ensures r.Some? ==> r.value == Bits(old(bytes)[old(read)..]) && read == old(read) + 4
      ensures r == if old(read) + 4 <= |bytes| then Some(Little(bytes[old(read)..old(read) + 4])) else None
      ensures r.None? ==> read == old(read)
    {
      if !Need(4) {
        return None;
      }
      r := Some(bytes[read] as int + bytes[read + 1] as int * 0x100 + bytes[read + 2] as int * 0x1_0000
                + bytes[read + 3] as int * 0x100_0000);
      read := read + 4;
    }

    method ReadNumber() returns (r: Option<int>)
      requires Valid()
      modifies this`read
      ensures Valid() && Now() == Apply(old(Now()), Read(ANumber)).0
      ensures Apply(old(Now()), Read(ANumber)).1 == (if r.None? then None else Some(Number(r.value)))
      ensures r.Some? <==> old(read) + 4 <= |bytes|
      ensures r.Some? ==> -0x8000_0000 <= r.value < 0x8000_0000
                          && (r.value - Little(bytes[old(read)..old(read) + 4])) % WORD == 0
    {
      var bits := ReadU32();
      r := if bits.None? then None else Some(Signed(bits.value));
    }

    method ReadFloat() returns (r: Option<nat>)
      requires Valid()
      modifies this`read
      ensures Valid() && Now() == Apply(old(Now()), Read(AFloat)).0
      ensures Apply(old(Now()), Read(AFloat)).1 == (if r.None? then None else Some(Float(r.value)))
      ensures r == if old(read) + 4 <= |bytes| then Some(Little(bytes[old(read)..old(read) + 4])) else None
    {
      r := ReadU32();
    }

    method ReadString() returns (r: Option<seq<byte>>)
      requires Valid()
      modifies this`read
      ensures Valid() && Now() == Apply(old(Now()), Read(AString)).0
      ensures Apply(old(Now()), Read(AString)).1 == (if r.None? then None else Some(Str(r.value)))
      ensures r.None? ==> read == old(read)
      ensures r.Some? <==> old(read) + 2 <= |bytes|
                           && old(read) + 2 + bytes[old(read)] as int * 256 + bytes[old(read) + 1] as int <= |bytes|
      ensures r.Some? ==> bytes[old(read) + 2..read] == r.value && read == old(read) + 2 + |r.value|
                          && bytes[old(read)] as int * 256 + bytes[old(read) + 1] as int == |r.value|
    {
      if !Need(2) {
        return None;
      }
      var length := bytes[read] as int * 256 + bytes[read + 1] as int;
      if |bytes| - read - 2 < length {
        return None;
      }
      assert bytes[read..][2..2 + length] == bytes[read + 2..read + 2 + length];
      read := read + 2;
      r := Some(bytes[read..read + length]);
      read := read + length;
    }

    method Clear()
      modifies this
      ensures Valid() && Now() == State([], 0)
    {
      bytes, read := [], 0;
    }
  }
}
