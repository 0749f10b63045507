/** Types shared by every layer of the protocol engine: bytes, 32-bit words,
    the engine's error enum and the failure-compatible result wrappers. */
module Common {

  /** One octet of the wire format. */
  type Byte = x: int | 0 <= x < 0x100

  /** An unsigned 32-bit word (`u32` in the engine). */
  type U32 = x: int | 0 <= x < 0x1_0000_0000

  const U32_MODULUS: int := 0x1_0000_0000

  datatype Option<+T> = None | Some(value: T)

  /** The engine's error kinds. The wire-level `WireError` variants that the
      model needs (`RanOut`, `PacketWrong`, `UnknownPacket`) are folded in. */
  datatype Error =
    | Bug                          // Error::bug(): an internal invariant failed
    | SSHProtoError
    | BadDecrypt
    | NoRoom
    | PacketWrong
    | RanOut
    | BadKex
    | BadSignature
    | SignatureMismatch(key: string, sig: string)
    | AlgoNoMatch(algo: string)
    | UnknownPacket(number: Byte)
    | UnknownMethod(kind: string)
    | BehaviourError(msg: string)
    | Custom(msg: string)

  datatype Result<+T> = Ok(value: T) | Err(error: Error) {
    predicate IsFailure() { Err? }

    function PropagateFailure<U>(): Result<U>
    {
      match this
      case Err(e) => Err(e)
      case Ok(_) => Err(Bug)
    }

    function Extract(): T
      requires Ok?
    {
      value
    }
  }

  /** `Result<()>` of the engine. */
  datatype Outcome = Pass | Fail(error: Error) {
    predicate IsFailure() { Fail? }

    function PropagateFailure<U>(): Result<U>
    {
      match this
      case Fail(e) => Err(e)
      case Pass => Err(Bug)
    }
  }

  /** Increment of a `Wrapping<u32>` counter. */
  function WrapIncrement(x: U32): (r: U32)
    ensures x < U32_MODULUS - 1 ==> r == x + 1
    ensures x == U32_MODULUS - 1 ==> r == 0
  {
    (x + 1) % U32_MODULUS
  }

  /** `u32::to_be_bytes`. */
  function BE32(v: U32): (r: seq<Byte>)
    ensures |r| == 4
  {
    [v / 0x100_0000, (v / 0x1_0000) % 0x100, (v / 0x100) % 0x100, v % 0x100]
  }

  /** `u32::from_be_bytes` of the first four bytes. */
  function ReadBE32(s: seq<Byte>): (v: U32)
    requires |s| >= 4
  {
    (s[0] as int) * 0x100_0000 + (s[1] as int) * 0x1_0000 + (s[2] as int) * 0x100 + s[3] as int
  }

  /** Reading back the big-endian encoding of a word gives the word. */
  lemma BE32RoundTrip(v: U32, rest: seq<Byte>)
    ensures ReadBE32(BE32(v) + rest) == v
  {
    var b := BE32(v) + rest;
    var x1, x2, x3 := v / 0x100, v / 0x1_0000, v / 0x100_0000;
    assert x2 == x1 / 0x100 && x3 == x2 / 0x100;
    assert v == x1 * 0x100 + v % 0x100;
    assert x1 == x2 * 0x100 + x1 % 0x100;
    assert x2 == x3 * 0x100 + x2 % 0x100;
    assert b[..4] == [x3, x2 % 0x100, x1 % 0x100, v % 0x100];
  }
}
