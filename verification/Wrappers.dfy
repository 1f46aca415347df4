/** Vocabulary shared by the other modules. */
module Wrappers {
  /** The absent value: a nil value, a missing key or a refused operation. */
  datatype Option<T> = None | Some(value: T)

  /** The position of the first `id`, or -1: where the loops over stored records stop. */
  function FirstIndex(ids: seq<string>, id: string): (i: int)
    ensures -1 <= i < |ids|
    ensures i >= 0 ==> ids[i] == id
    ensures forall j | 0 <= j < (if i < 0 then |ids| else i) :: ids[j] != id
  {
    if ids == [] then -1
    else if ids[0] == id then 0
    else var i := FirstIndex(ids[1..], id); if i < 0 then -1 else i + 1
  }

  /** The IDs of stored records, in order. */
  function Ids<T>(records: seq<T>, id: T -> string): (ids: seq<string>)
    ensures |ids| == |records| && forall i | 0 <= i < |records| :: ids[i] == id(records[i])
  {
    seq(|records|, i requires 0 <= i < |records| => id(records[i]))
  }

  predicate IsDigit(c: char) { '0' <= c <= '9' }

  predicate AllDigits(s: string) {
    forall i | 0 <= i < |s| :: IsDigit(s[i])
  }

  /** The number a digit string denotes, most significant digit first. */
  function Decimal(s: string): nat
    requires AllDigits(s)
  {
    if s == "" then 0 else 10 * Decimal(s[..|s| - 1]) + (s[|s| - 1] as int - '0' as int)
  }
}
