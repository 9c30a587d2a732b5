/** Values shared by the whole model: optional fields, results, store status
    groups, the fixed-width integer conversions C++ performs implicitly, and
    duplicate-freedom of sequences. */
module Common {

  /** A field that may be absent, as `std::optional` in the records. */
  datatype Option<+T> = None | Some(value: T) {
    /** `value_or` */
    function GetOr(default: T): T {
      match this
      case Some(v) => v
      case None => default
    }
  }

  /** A value or the error that a failed future carries. */
  datatype Result<+T, +E> = Ok(value: T) | Err(error: E)

  /** The store's status codes, in the three groups callers branch on. */
  datatype Status = Status2xx | Status404 | StatusOther {
    predicate Is2xxOK() { Status2xx? }
  }

  const TWO_TO_16: int := 0x1_0000
  const TWO_TO_32: int := 0x1_0000_0000
  const TWO_TO_64: int := 0x1_0000_0000_0000_0000

  predicate InInt16(x: int) { -0x8000 <= x < 0x8000 }
  predicate InInt32(x: int) { -0x8000_0000 <= x < 0x8000_0000 }
  predicate InInt64(x: int) { -0x8000_0000_0000_0000 <= x < 0x8000_0000_0000_0000 }
  predicate InUint32(x: int) { 0 <= x < TWO_TO_32 }

  /** Conversion of an integer to `int16_t`: the value congruent to x modulo
      2^16 in the int16 range. */
  function ToInt16(x: int): (r: int)
    ensures InInt16(r)
    ensures (x - r) % TWO_TO_16 == 0
    ensures InInt16(x) ==> r == x
  {
    var m := x % TWO_TO_16;
    if m < 0x8000 then m else m - TWO_TO_16
  }

  /** Conversion of an integer to `int32_t`. */
  function ToInt32(x: int): (r: int)
    ensures InInt32(r)
    ensures (x - r) % TWO_TO_32 == 0
    ensures InInt32(x) ==> r == x
  {
    var m := x % TWO_TO_32;
    if m < 0x8000_0000 then m else m - TWO_TO_32
  }

  /** Conversion of an integer to `uint32_t`. */
  function ToUint32(x: int): (r: int)
    ensures InUint32(r)
    ensures (x - r) % TWO_TO_32 == 0
    ensures InUint32(x) ==> r == x
  {
    x % TWO_TO_32
  }

  /** Conversion of an integer to `unsigned long long`. */
  function ToUint64(x: int): (r: int)
    ensures 0 <= r < TWO_TO_64
    ensures (x - r) % TWO_TO_64 == 0
  {
    x % TWO_TO_64
  }

  /** `uint32_t(int32_t(u))` gives back every uint32 u. */
  lemma Int32RoundTrip(u: int)
    requires InUint32(u)
    ensures ToUint32(ToInt32(u)) == u
  {
  }

  /** No element occurs twice. */
  predicate Distinct<T(==)>(s: seq<T>) {
    forall i, j | 0 <= i < j < |s| :: s[i] != s[j]
  }

  /** Duplicate-freedom of a concatenation. */
  lemma DistinctConcat<T>(a: seq<T>, b: seq<T>)
    ensures Distinct(a + b) <==> Distinct(a) && Distinct(b) && (forall x | x in a :: x !in b)
  {
    if Distinct(a + b) {
      forall i, j | 0 <= i < j < |a| ensures a[i] != a[j] {
        assert (a + b)[i] == a[i] && (a + b)[j] == a[j];
      }
      forall i, j | 0 <= i < j < |b| ensures b[i] != b[j] {
        assert (a + b)[|a| + i] == b[i] && (a + b)[|a| + j] == b[j];
      }
      forall i, j | 0 <= i < |a| && 0 <= j < |b| ensures a[i] != b[j] {
        assert (a + b)[i] == a[i] && (a + b)[|a| + j] == b[j];
      }
    }
    if Distinct(a) && Distinct(b) && (forall x | x in a :: x !in b) {
      forall i, j | 0 <= i < j < |a + b| ensures (a + b)[i] != (a + b)[j] {
        if j < |a| {
        } else if i >= |a| {
          assert (a + b)[i] == b[i - |a|] && (a + b)[j] == b[j - |a|];
        } else {
          assert (a + b)[i] == a[i] && (a + b)[j] == b[j - |a|];
          assert a[i] in a;
        }
      }
    }
  }
}
