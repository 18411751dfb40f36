/** A row that one holder at a time may work on, named by a token that is never given out twice. */
module Leases {
  import opened Common

  /** Tokens 0 .. next - 1 were given out. */
  datatype Lease = Lease(owner: Option<nat>, closed: bool, next: nat)

  /** Sweep closes the row without a token. */
  datatype Act = Take | Yield(token: nat) | Close(token: nat) | Sweep | Idle

  predicate Holds(s: Lease, t: nat) { !s.closed && s.owner == Some(t) }

  function Apply(s: Lease, act: Act): Lease {
    match act
    case Take => if s.closed then s else s.(owner := Some(s.next), next := s.next + 1)
    case Yield(t) => if Holds(s, t) then s.(owner := None) else s
    case Close(t) => if Holds(s, t) then s.(owner := None, closed := true) else s
    case Sweep => if s.closed then s else s.(owner := None, closed := true)
    case Idle => s
  }

  function Run(s: Lease, acts: seq<Act>): Lease
    decreases |acts|
  {
    if acts == [] then s else Run(Apply(s, acts[0]), acts[1..])
  }

  predicate Valid(s: Lease) {
    (s.owner.Some? ==> s.owner.value < s.next) && (s.closed ==> s.owner.None?)
  }

  lemma {:induction false} ClosedStaysClosed(s: Lease, acts: seq<Act>)
    requires s.closed
    ensures Run(s, acts) == s
    decreases |acts|
  {
    if acts != [] { ClosedStaysClosed(s, acts[1..]); }
  }

  /** A token that has lost its row never gets it back: whatever follows, yielding or closing with it
      changes nothing. */
  lemma {:induction false} LostTokensStayLost(s: Lease, acts: seq<Act>, t: nat)
    requires Valid(s) && t < s.next && s.owner != Some(t)
    ensures var later := Run(s, acts);
      && Valid(later) && t < later.next && later.owner != Some(t)
      && Apply(later, Yield(t)) == later && Apply(later, Close(t)) == later
    decreases |acts|
  {
    if acts != [] { LostTokensStayLost(Apply(s, acts[0]), acts[1..], t); }
  }
}
