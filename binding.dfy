/** Facts about sequences of `connect_port` calls, shared by the three plugins. */
module Binding {

  /** A sequence of `connect_port(port, data)` calls, oldest first. */
  type Calls<P> = seq<(nat, P)>

  /** The data of the last call whose port is in `ports`, or `dflt` when there is none. */
  function LastData<P>(bs: Calls<P>, ports: set<nat>, dflt: P): P
    decreases |bs|
  {
    if bs == [] then dflt
    else if bs[|bs| - 1].0 in ports then bs[|bs| - 1].1
    else LastData(bs[..|bs| - 1], ports, dflt)
  }

  /** Each call names a higher port than the calls before it. */
  predicate Ascending<P>(bs: Calls<P>)
  {
    forall i, j :: 0 <= i < j < |bs| ==> bs[i].0 < bs[j].0
  }

  /** A call with no later call in the same group decides that group's data. */
  lemma {:induction false} LastDataAt<P>(bs: Calls<P>, ports: set<nat>, dflt: P, j: nat)
    requires j < |bs| && bs[j].0 in ports
    requires forall i :: j < i < |bs| ==> bs[i].0 !in ports
    ensures LastData(bs, ports, dflt) == bs[j].1
    decreases |bs|
  {
    if j < |bs| - 1 {
      LastDataAt(bs[..|bs| - 1], ports, dflt, j);
    }
  }
}
