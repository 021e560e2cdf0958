/** Values shared by every part of the model: Go's error values, dynamically
    typed parameter values, optional and failing results, and the small pieces
    of Go arithmetic (truncating division and float-to-int conversion) that the
    core relies on. */
module Common {

  type Bytes = seq<bv8>

  datatype Option<+T> = None | Some(value: T)

  /** A Go error value: either a leaf message, or a context string wrapping
      another error with `%w`. The wrapped error may be nil, as happens when
      Go code wraps a variable that a later assignment reset to nil. */
  datatype Error = Leaf(msg: string) | Wrap(context: string, cause: Option<Error>)

  /** A `(T, error)` pair where exactly one half is meaningful. */
  datatype Result<+T> = Success(value: T) | Failure(error: Error)

  /** What `err.Error()` prints; `fmt.Errorf("%w", nil)` prints `%!w(<nil>)`. */
  function Text(e: Error): string
  {
    match e
    case Leaf(m) => m
    case Wrap(c, None) => c + ": %!w(<nil>)"
    case Wrap(c, Some(inner)) => c + ": " + Text(inner)
  }

  /** A value stored in a `map[string]interface{}`: the dynamic type is the
      constructor. JSON decoding produces Float64, Bool and Str; values built
      in Go code may carry the other numeric types. */
  datatype Value =
    | Float64(f: real)
    | Float32(f: real)
    | Int(i: int)
    | Int64(i: int)
    | Bool(b: bool)
    | Str(s: string)
    | Other

  type Params = map<string, Value>

  /** Reading a nil Go map behaves like reading an empty one. */
  function Entries(p: Option<Params>): (m: Params)
    ensures p.None? ==> m == map[]
    ensures p.Some? ==> m == p.value
  {
    if p.Some? then p.value else map[]
  }

  /** Go's `a / b` on integers, which truncates toward zero. */
  function Quot(a: int, b: int): (q: int)
    requires b > 0
    ensures a >= 0 ==> 0 <= a - b * q < b
    ensures a < 0 ==> -b < a - b * q <= 0
  {
    if a >= 0 then a / b else -((-a) / b)
  }

  /** Go's `int(f)` for a float64 f: the fractional part is dropped. */
  function Trunc(f: real): (n: int)
    ensures f >= 0.0 ==> n as real <= f < n as real + 1.0
    ensures f < 0.0 ==> n as real - 1.0 < f <= n as real
  {
    if f >= 0.0 then f.Floor else -((-f).Floor)
  }

  /** Number of bytes of the UTF-8 encoding, which is what Go's `len` of a
      string counts. */
  function Utf8Length(s: string): (n: nat)
    ensures |s| <= n <= 4 * |s|
  {
    if s == [] then 0
    else
      var c := s[0] as int;
      (if c < 0x80 then 1 else if c < 0x800 then 2 else if c < 0x10000 then 3 else 4)
        + Utf8Length(s[1..])
  }

  /** Go's `[]byte(s)`: the UTF-8 encoding of a string, one to four bytes
      per character, as many as `Utf8Length` counts. */
  function Utf8Bytes(s: string): (b: Bytes)
    ensures |b| == Utf8Length(s)
  {
    if s == [] then []
    else Utf8Char(s[0] as int) + Utf8Bytes(s[1..])
  }

  /** The encoding of one code point: a lead byte carrying the high bits
      and continuation bytes `10xxxxxx` carrying six bits each. */
  function Utf8Char(c: int): (b: Bytes)
    requires 0 <= c < 0x110000
    ensures |b| == if c < 0x80 then 1 else if c < 0x800 then 2 else if c < 0x10000 then 3 else 4
    ensures c < 0x80 ==> b == [c as bv8]
  {
    if c < 0x80 then [c as bv8]
    else if c < 0x800 then [(0xC0 + c / 0x40) as bv8, (0x80 + c % 0x40) as bv8]
    else if c < 0x10000 then
      [(0xE0 + c / 0x1000) as bv8, (0x80 + c / 0x40 % 0x40) as bv8, (0x80 + c % 0x40) as bv8]
    else
      [(0xF0 + c / 0x40000) as bv8, (0x80 + c / 0x1000 % 0x40) as bv8,
       (0x80 + c / 0x40 % 0x40) as bv8, (0x80 + c % 0x40) as bv8]
  }

  /** The elements of a sequence. */
  function Elements<T>(s: seq<T>): set<T>
  {
    set x | x in s
  }

  ghost predicate Distinct<T>(s: seq<T>)
  {
    forall i, j :: 0 <= i < j < |s| ==> s[i] != s[j]
  }

  /** `order` lists every element of `s` exactly once: one possible iteration
      order of a Go map whose key set is `s`. */
  ghost predicate IsEnumeration<T>(order: seq<T>, s: set<T>)
  {
    Elements(order) == s && Distinct(order)
  }

  /** A sequence without repeats is as long as its set of elements. */
  lemma {:induction false} DistinctLength<T>(s: seq<T>)
    requires Distinct(s)
    ensures |Elements(s)| == |s|
  {
    if s != [] {
      var t := s[1..];
      assert Distinct(t) by {
        forall i, j | 0 <= i < j < |t| ensures t[i] != t[j] {
          assert t[i] == s[i + 1] && t[j] == s[j + 1];
        }
      }
      DistinctLength(t);
      assert Elements(s) == {s[0]} + Elements(t);
      assert s[0] !in Elements(t) by {
        forall k | 0 <= k < |t| ensures t[k] != s[0] {
          assert t[k] == s[k + 1];
        }
      }
    }
  }

  /** Concatenation regrouped, for proofs about appended logs. */
  lemma Assoc<T>(a: seq<T>, b: seq<T>, c: seq<T>)
    ensures (a + b) + c == a + (b + c)
  {
  }
}
