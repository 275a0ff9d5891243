/**
 * Abstract MessagePack values, as the two decoders hand them to the RPC layer.
 * The byte codec itself is not modelled: a value keeps only what the RPC code
 * inspects (nil, the integer kind the decoder chose, strings, arrays).
 */
module MsgPack {
  import opened Wrappers

  type byte = b: int | 0 <= b < 0x100
  type uint16 = n: int | 0 <= n < 0x1_0000
  type uint32 = n: int | 0 <= n < 0x1_0000_0000

  /** The integer kinds the Go decoder can produce (`int` is Go's 64-bit `int`). */
  datatype IntKind = I8 | I16 | I32 | I64 | U8 | U16 | U32 | U64 | GoInt

  function MinOf(k: IntKind): int
  {
    match k
    case I8 => -0x80
    case I16 => -0x8000
    case I32 => -0x8000_0000
    case I64 => -0x8000_0000_0000_0000
    case GoInt => -0x8000_0000_0000_0000
    case _ => 0
  }

  function MaxOf(k: IntKind): int
  {
    match k
    case I8 => 0x7f
    case I16 => 0x7fff
    case I32 => 0x7fff_ffff
    case I64 => 0x7fff_ffff_ffff_ffff
    case GoInt => 0x7fff_ffff_ffff_ffff
    case U8 => 0xff
    case U16 => 0xffff
    case U32 => 0xffff_ffff
    case U64 => 0xffff_ffff_ffff_ffff
  }

  /** A value of kind `k` can hold `n`. */
  predicate InRange(k: IntKind, n: int)
  {
    MinOf(k) <= n <= MaxOf(k)
  }

  /** A decoded msgpack value; `Other` stands for floats, binaries, maps and extensions. */
  datatype Value =
    | Nil
    | Bool(b: bool)
    | Int(kind: IntKind, n: int)
    | Str(s: string)
    | Arr(elems: seq<Value>)
    | Other(code: nat)

  /** First byte of the fixarray format family: 0x90 | n for arrays of up to 15 elements. */
  const FixArrayBase := 0x90

  /** The fixarray header byte announcing an array of `n` elements. */
  function FixArrayHeader(n: nat): (b: byte)
    requires n < 16
    ensures FixArrayArity(b) == Some(n)
  {
    FixArrayBase + n
  }

  /** The arity a fixarray header byte announces, if the byte is one. */
  function FixArrayArity(b: byte): (r: Option<nat>)
    ensures r.Some? <==> 0x90 <= b <= 0x9f
    ensures r.Some? ==> r.value < 16 && FixArrayBase + r.value == b
  {
    if FixArrayBase <= b < FixArrayBase + 16 then Some(b - FixArrayBase) else None
  }

  /** One envelope as written to the wire: a header byte followed by the encoded elements. */
  datatype Frame = Frame(header: byte, elems: seq<Value>) {
    /** The header announces exactly as many elements as follow it. */
    predicate Framed()
    {
      FixArrayArity(header) == Some(|elems|)
    }

    /** The array value a peer decodes from this frame. */
    function AsValue(): Value
    {
      Arr(elems)
    }
  }
}
