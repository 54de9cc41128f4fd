/** Failure-compatible results and optional values shared by every module. */
module Wrappers {
  datatype Option<+T> = None | Some(value: T) {
    function GetOr(default: T): T {
      match this
      case Some(v) => v
      case None => default
    }
  }

  datatype Result<+T, +E> = Success(value: T) | Failure(error: E) {
    predicate IsFailure() { Failure? }
    function PropagateFailure<U>(): Result<U, E>
      requires Failure?
    {
      Failure(error)
    }
    function Extract(): T
      requires Success?
    {
      value
    }
  }
}

/** Numbers written in decimal digits. */
module Decimals {
  predicate AllDigits(s: string) {
    forall i | 0 <= i < |s| :: '0' <= s[i] <= '9'
  }

  function DigitsValue(s: string): nat
    requires AllDigits(s)
  {
    if s == "" then 0 else DigitsValue(s[..|s| - 1]) * 10 + (s[|s| - 1] as int - '0' as int)
  }
}

/** JSON documents as the relay sees them: objects are unordered maps. */
module Json {
  import opened Wrappers

  datatype Value =
    | Null
    | Bool(b: bool)
    | Number(n: int)
    | Fraction(text: string)
    | String(s: string)
    | Array(items: seq<Value>)
    | Object(fields: map<string, Value>)

  const U64_MAX := 0xFFFF_FFFF_FFFF_FFFF
  const I64_MAX := 0x7FFF_FFFF_FFFF_FFFF

  /** The member of an object, `None` for an absent member or another kind of value. */
  function Get(v: Value, name: string): Option<Value> {
    if v.Object? && name in v.fields then Some(v.fields[name]) else None
  }

  /** Indexing by name: an absent member reads as null. */
  function At(v: Value, name: string): Value {
    Get(v, name).GetOr(Null)
  }

  function AsString(v: Value): Option<string> {
    if v.String? then Some(v.s) else None
  }

  /** Integers that fit an unsigned 64-bit number. */
  function AsU64(v: Value): Option<nat> {
    if v.Number? && 0 <= v.n <= U64_MAX then Some(v.n) else None
  }

  /** Integers that fit a signed 64-bit number. */
  function AsI64(v: Value): Option<int> {
    if v.Number? && -I64_MAX - 1 <= v.n <= I64_MAX then Some(v.n) else None
  }

  function GetString(v: Value, name: string): Option<string> {
    AsString(At(v, name))
  }

  /** The integers that fit 64 bits, unsigned and signed; nothing else is one. */
  lemma IntegersThatFit(v: Value)
    ensures AsU64(v).Some? <==> v.Number? && 0 <= v.n < 18446744073709551616
    ensures AsI64(v).Some? <==> v.Number? && -9223372036854775808 <= v.n < 9223372036854775808
    ensures AsU64(v).Some? ==> AsU64(v).value == v.n
    ensures AsI64(v).Some? ==> AsI64(v).value == v.n
  {
  }
}
