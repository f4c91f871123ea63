/** Shared value types: optional values, identities, machine-sized numbers, and counting in sequences. */
module Prelude {

  datatype Option<+T> = None | Some(value: T)

  const ID_LIMIT: nat := 0x1_00000000_00000000_00000000_00000000

  /** A 128-bit identity, read as one big-endian number: numeric order is the byte order of the program. */
  type Id = n: nat | n < ID_LIMIT

  /** The identity whose sixteen bytes are all zero. */
  const NIL: Id := 0

  type U32 = n: nat | n < 0x1_00000000
  type U64 = n: nat | n < 0x1_00000000_00000000
  type I64 = n: int | -0x80000000_00000000 <= n < 0x80000000_00000000

  /** How many of the first n elements of s equal x. */
  function CountIn<T(==)>(s: seq<T>, n: nat, x: T): (c: nat)
    requires n <= |s|
    ensures c <= n
  {
    if n == 0 then 0 else CountIn(s, n - 1, x) + (if s[n - 1] == x then 1 else 0)
  }

  /** The first position of x in s, or |s| when x does not occur. */
  function IndexOf<T(==)>(s: seq<T>, x: T): (i: nat)
    ensures i <= |s|
    ensures i < |s| ==> s[i] == x
  {
    if s == [] then 0 else if s[0] == x then 0 else 1 + IndexOf(s[1..], x)
  }

  /** IndexOf finds the first occurrence, and finds one exactly when there is one. */
  lemma {:induction false} IndexOfFirst<T>(s: seq<T>, x: T)
    ensures IndexOf(s, x) < |s| <==> x in s
    ensures forall j :: 0 <= j < IndexOf(s, x) ==> s[j] != x
  {
    if s != [] && s[0] != x {
      IndexOfFirst(s[1..], x);
      forall j | 0 <= j < IndexOf(s, x) ensures s[j] != x {
        if j > 0 { assert s[j] == s[1..][j - 1]; }
      }
    }
  }

  /** A position holding x with no earlier x is the one IndexOf finds. */
  lemma IndexOfAt<T>(s: seq<T>, x: T, i: nat)
    requires i <= |s| && (i < |s| ==> s[i] == x) && forall j :: 0 <= j < i ==> s[j] != x
    ensures IndexOf(s, x) == i
  {
    IndexOfFirst(s, x);
  }

  ghost predicate Distinct<T>(s: seq<T>) {
    forall i, j :: 0 <= i < j < |s| ==> s[i] != s[j]
  }

  lemma CountMonotone<T>(s: seq<T>, a: nat, b: nat, x: T)
    requires a <= b <= |s|
    ensures CountIn(s, a, x) <= CountIn(s, b, x) <= CountIn(s, a, x) + (b - a)
    decreases b
  {
    if a < b { CountMonotone(s, a, b - 1, x); }
  }
}
