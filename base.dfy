/**
 * Shared vocabulary of the model: bytes, Go-style error results, optional
 * values, and what it means for a sequence to list the members of a set once
 * each (the shape of a directory listing or of a map iteration in Go).
 */
module Base {

  /** A byte of a Go `[]byte`. */
  type byte = x: int | 0 <= x < 256

  type Bytes = seq<byte>

  datatype Option<+T> = None | Some(value: T)

  /**
   * A Go `(T, error)` pair: either a value or the text of the error
   * (every error in the modelled code is an `fmt.Errorf` string).
   */
  datatype Result<+T> = Ok(value: T) | Err(error: string) {
    predicate IsFailure() { Err? }

    function PropagateFailure<U>(): Result<U>
      requires Err?
    {
      Err(error)
    }

    function Extract(): T
      requires Ok?
    {
      value
    }
  }

  /** A point in time; `Zero` is Go's zero `time.Time` (`IsZero()` holds). */
  datatype Time = Zero | Instant(nanos: int)

  /** `names` lists every member of `keys` exactly once, in some order. */
  ghost predicate Enumerates<K>(names: seq<K>, keys: set<K>)
  {
    && (forall i | 0 <= i < |names| :: names[i] in keys)
    && (forall k | k in keys :: k in names)
    && (forall i, j | 0 <= i < j < |names| :: names[i] != names[j])
  }

  /** Go's `string(b)`: a string holds one character per byte. */
  function BytesToString(b: Bytes): (s: string)
    ensures |s| == |b|
    ensures forall i | 0 <= i < |b| :: s[i] as int == b[i]
  {
    seq(|b|, i requires 0 <= i < |b| => b[i] as char)
  }

  predicate IsByteString(s: string)
  {
    forall i | 0 <= i < |s| :: s[i] as int < 256
  }

  /** Go's `[]byte(s)` for a string whose characters are single bytes. */
  function StringToBytes(s: string): (b: Bytes)
    requires IsByteString(s)
    ensures |b| == |s|
    ensures forall i | 0 <= i < |s| :: b[i] == s[i] as int
  {
    seq(|s|, i requires 0 <= i < |s| => s[i] as int)
  }

  lemma StringBytesRoundTrip(s: string)
    requires IsByteString(s)
    ensures BytesToString(StringToBytes(s)) == s
  {
    var t := BytesToString(StringToBytes(s));
    assert |t| == |s|;
    forall i | 0 <= i < |s| ensures t[i] == s[i] {
      assert t[i] as int == s[i] as int;
    }
  }
}
