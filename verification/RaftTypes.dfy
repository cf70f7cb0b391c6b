/** Names shared by the protocol modules. Terms and indices are unbounded. */
module RaftTypes {

  type NodeId = nat

  /** A log or send position; `next_index_` never drops below 1. */
  type Position = x: nat | 1 <= x witness 1

  datatype Option<+T> = None | Some(value: T)

  datatype Role = Follower | Candidate | Leader

  /** `RaftLogEntry` without its legacy fields. */
  datatype Entry = Entry(index: nat, term: nat, data: string)

  function Min(a: nat, b: nat): nat { if a <= b then a else b }

  function Max(a: nat, b: nat): nat { if a <= b then b else a }

  /** The list with every occurrence of `x` erased. */
  function Without(list: seq<nat>, x: nat): (r: seq<nat>)
    ensures forall y :: y in r <==> y in list && y != x
    ensures |r| <= |list| && (x !in list ==> r == list) && (x in list ==> |r| < |list|)
  {
    if list == [] then []
    else if list[0] == x then Without(list[1..], x)
    else [list[0]] + Without(list[1..], x)
  }
}
