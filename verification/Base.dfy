/** Shared vocabulary: options, u64 quantities and small facts about sequences. */
module Base {
  const U64_MAX: nat := 0xFFFF_FFFF_FFFF_FFFF
  const I64_MAX: nat := 0x7FFF_FFFF_FFFF_FFFF

  /** An account field or instruction argument of Rust type u64. */
  type u64 = n: nat | n <= U64_MAX

  datatype Option<+T> = None | Some(value: T)

  function Min(a: nat, b: nat): nat {
    if a <= b then a else b
  }

  /** The link a doubly linked list stores towards its head, and towards its tail. */
  function Before<T>(s: seq<T>, i: nat): Option<T>
    requires i < |s|
  {
    if i == 0 then None else Some(s[i - 1])
  }

  function After<T>(s: seq<T>, i: nat): Option<T>
    requires i < |s|
  {
    if i + 1 == |s| then None else Some(s[i + 1])
  }

  ghost predicate Distinct<T>(s: seq<T>) {
    forall i, j :: 0 <= i < j < |s| ==> s[i] != s[j]
  }

  function DropAt<T>(s: seq<T>, i: nat): seq<T>
    requires i < |s|
  {
    s[..i] + s[i + 1..]
  }

  function InsertAt<T>(s: seq<T>, i: nat, x: T): seq<T>
    requires i <= |s|
  {
    s[..i] + [x] + s[i..]
  }

  function IndexOf<T(==)>(s: seq<T>, x: T): (i: nat)
    requires x in s
    ensures i < |s| && s[i] == x
  {
    if s[0] == x then 0 else 1 + IndexOf(s[1..], x)
  }

  lemma IndexOfAt<T>(s: seq<T>, i: nat)
    requires Distinct(s) && i < |s|
    ensures IndexOf(s, s[i]) == i
  {
  }

  /** Removes one occurrence of x. */
  function Without<T(==)>(s: seq<T>, x: T): seq<T>
    requires x in s
  {
    DropAt(s, IndexOf(s, x))
  }
}
