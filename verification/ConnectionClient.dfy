/** Service networking connections (pkg/clients/connection/connection.go:57-90). */
module ConnectionClient {
  import opened Gcp
  import opened Sorting

  /** A list of reserved ranges; None is a nil slice. */
  type Ranges = Option<seq<string>>

  /** cmp.Equal with SortSlices: nil equals only nil, and two lists are compared in
      ascending order. */
  predicate SameRanges(a: Ranges, b: Ranges) {
    if a.None? || b.None? then a == b
    else Sort(Self, false, a.value) == Sort(Self, false, b.value)
  }

  /** Exactly: both nil, or both lists with each range equally often. */
  lemma SameRangesIff(a: Ranges, b: Ranges)
    ensures SameRanges(a, b) <==>
            (a.Some? <==> b.Some?) && multiset(OrZero(a, [])) == multiset(OrZero(b, []))
  {
    if a.Some? && b.Some? {
      SortedStringsAgree(false, a.value, b.value);
    }
  }

  datatype PeeringState = Active | Inactive | Other(text: string)
  datatype Peering = Peering(name: string, state: PeeringState)
  datatype Condition = Available | Unavailable

  /** The ready condition is None until it is first set. */
  datatype Status = Status(peering: string, service: string, ready: Option<Condition>)

  /** The peering decides: it has the connection's name and a known state. */
  predicate Decides(p: Peering, name: string) {
    p.name == name && !p.state.Other?
  }

  predicate LastDeciding(ps: seq<Peering>, name: string, i: int) {
    0 <= i < |ps| && Decides(ps[i], name) && forall j :: i < j < |ps| ==> !Decides(ps[j], name)
  }

  /** No peerings at all: unavailable. Otherwise the last peering of that name in a
      known state decides, and with none the condition stays as it was. */
  method UpdateStatus(s: Pointer<Status>, peering: string, service: string, peerings: seq<Peering>)
    modifies s
    ensures s.it.peering == peering && s.it.service == service
    ensures peerings == [] ==> s.it.ready == Some(Unavailable)
    ensures forall i :: LastDeciding(peerings, peering, i) ==>
              s.it.ready == Some(if peerings[i].state.Active? then Available else Unavailable)
    ensures peerings != [] && (forall i :: 0 <= i < |peerings| ==> !Decides(peerings[i], peering)) ==>
              s.it.ready == old(s.it.ready)
  {
    s.it := s.it.(peering := peering);
    s.it := s.it.(service := service);
    if |peerings| == 0 {
      s.it := s.it.(ready := Some(Unavailable));
      return;
    }
    var before := s.it.ready;
    for i := 0 to |peerings|
      invariant s.it.peering == peering && s.it.service == service
      invariant forall k :: LastDeciding(peerings[..i], peering, k) ==>
                  s.it.ready == Some(if peerings[k].state.Active? then Available else Unavailable)
      invariant (forall k :: 0 <= k < i ==> !Decides(peerings[k], peering)) ==> s.it.ready == before
    {
      var p := peerings[i];
      if p.name == peering {
        match p.state {
          case Active => s.it := s.it.(ready := Some(Available));
          case Inactive => s.it := s.it.(ready := Some(Unavailable));
          case Other(_) =>
        }
      }
      forall k | LastDeciding(peerings[..i + 1], peering, k)
        ensures s.it.ready == Some(if peerings[k].state.Active? then Available else Unavailable)
      {
        if k < i {
          assert !Decides(peerings[..i + 1][i], peering);
          assert forall j :: k < j < i ==> peerings[..i][j] == peerings[..i + 1][j];
          assert LastDeciding(peerings[..i], peering, k);
        }
      }
    }
    assert peerings[..|peerings|] == peerings;
  }

  /** One of the two cases always applies: there is a last deciding peering, or none. */
  lemma {:induction false} LastDecidingExists(ps: seq<Peering>, name: string)
    ensures (exists i :: LastDeciding(ps, name, i)) <==>
            exists i :: 0 <= i < |ps| && Decides(ps[i], name)
  {
    if ps != [] {
      var n := |ps| - 1;
      if Decides(ps[n], name) {
        assert LastDeciding(ps, name, n);
      } else {
        LastDecidingExists(ps[..n], name);
        if i :| 0 <= i < |ps| && Decides(ps[i], name) {
          assert Decides(ps[..n][i], name);
          var k :| LastDeciding(ps[..n], name, k);
          assert forall j :: k < j < n ==> ps[..n][j] == ps[j];
          assert LastDeciding(ps, name, k);
        }
      }
    }
  }
}
