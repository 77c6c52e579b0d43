/**
 Mixture of experts on one rank, and split over two ranks by the parity of the expert number. When
 every routed expert is loaded on its rank, both outputs are the one-rank result, with the shared
 expert counted once.
 */
module EpMoe {
  import opened Results
  import opened RealSum
  import opened Fp4
  import TpAttention

  type Vec = seq<real>

  /** What the router gives for a token: six expert numbers, -1 for none, and their weights. */
  datatype Routing = Routing(ids: seq<int>, weights: seq<real>)

  /** A gate, which may refuse an input. */
  class Router {
    const route: Vec -> Option<Routing>

    constructor (route: Vec -> Option<Routing>)
    {
      this.route := route;
    }
  }

  predicate SixEach(r: Routing) {
    |r.ids| == |r.weights| == 6
  }

  ghost predicate Routes(g: Router) {
    forall x :: g.route(x).Some? ==> SixEach(g.route(x).value)
  }

  /** A set of experts by number, and the parts of the shared expert. */
  datatype Bank = Bank(gate: seq<Option<Tensor>>, up: seq<Option<Tensor>>, down: seq<Option<Tensor>>,
                       sg: Option<Tensor>, su: Option<Tensor>, sd: Option<Tensor>)

  predicate Even(b: Bank) {
    |b.gate| == |b.up| == |b.down|
  }

  predicate Loaded(b: Bank, e: int)
    requires Even(b)
  {
    0 <= e < |b.gate| && b.gate[e].Some? && b.up[e].Some? && b.down[e].Some?
  }

  function ExpertAt(b: Bank, e: int): Expert
    requires Even(b) && Loaded(b, e)
  {
    Expert(b.gate[e].value, b.up[e].value, b.down[e].value)
  }

  function Shared(b: Bank): Option<Expert> {
    if b.sg.Some? && b.su.Some? && b.sd.Some? then Some(Expert(b.sg.value, b.su.value, b.sd.value)) else None
  }

  predicate FitsHidden(e: Expert, hidden: nat) {
    e.gate.o > 0 && Fits(e, hidden, e.gate.o)
  }

  /** All experts of the bank are for this hidden size. */
  ghost predicate Usable(b: Bank, hidden: nat) {
    && Even(b) && hidden > 0
    && (forall e: int :: Loaded(b, e) ==> FitsHidden(ExpertAt(b, e), hidden))
    && (Shared(b).Some? ==> FitsHidden(Shared(b).value, hidden))
  }

  // ---------------------------------------------------------------------------------------------
  // Sums of weighted expert outputs
  // ---------------------------------------------------------------------------------------------

  /** An expert chosen for the token, with its weight. */
  datatype Pick = Pick(expert: Expert, weight: real)

  function PickTerms(c: Codec, picks: seq<Pick>, x: nat -> real, o: nat): nat -> real {
    (k: nat) => if k < |picks| then picks[k].weight * Output(c, picks[k].expert, x, o) else 0.0
  }

  function GroupSum(c: Codec, picks: seq<Pick>, x: nat -> real, o: nat): real {
    Sum(|picks|, PickTerms(c, picks, x, o))
  }

  function SharedSum(c: Codec, s: Option<Expert>, x: nat -> real, o: nat): real {
    if s.Some? then Output(c, s.value, x, o) else 0.0
  }

  /** Where the expert is in a bank, for a rank of this parity, or any rank when it is negative. */
  function MapEp(b: Bank, id: int, parity: int): int {
    if id < 0 then -1
    else if parity >= 0 && id % 2 != parity then -1
    else if id < |b.gate| && b.gate[id].Some? then id
    else if parity >= 0 && id / 2 < |b.gate| && b.gate[id / 2].Some? then id / 2
    else -1
  }

  predicate Takes(b: Bank, id: int, parity: int)
    requires Even(b)
  {
    Loaded(b, MapEp(b, id, parity))
  }

  /** The experts a rank picks for the first k entries of the routing, in order. */
  function Picks(b: Bank, r: Routing, parity: int, k: nat): seq<Pick>
    requires Even(b) && SixEach(r) && k <= 6
  {
    if k == 0 then []
    else
      var rest := Picks(b, r, parity, k - 1);
      if Takes(b, r.ids[k - 1], parity)
      then rest + [Pick(ExpertAt(b, MapEp(b, r.ids[k - 1], parity)), r.weights[k - 1])]
      else rest
  }

  /** The same sum by routing entry: an entry that is not picked adds nothing. */
  function EntryTerms(c: Codec, b: Bank, r: Routing, parity: int, x: nat -> real, o: nat): nat -> real
    requires Even(b) && SixEach(r)
  {
    (k: nat) => if k < 6 && Takes(b, r.ids[k], parity)
                then r.weights[k] * Output(c, ExpertAt(b, MapEp(b, r.ids[k], parity)), x, o) else 0.0
  }

  lemma {:induction false} PicksByEntry(c: Codec, b: Bank, r: Routing, parity: int, k: nat, x: nat -> real, o: nat)
    requires Even(b) && SixEach(r) && k <= 6
    ensures GroupSum(c, Picks(b, r, parity, k), x, o) == Sum(k, EntryTerms(c, b, r, parity, x, o))
  {
    hide Output, MapEp, Loaded, GroupSum, EntryTerms;
    if k == 0 {
      NoPicks(c, x, o);
      SumNone(EntryTerms(c, b, r, parity, x, o));
    } else {
      PicksByEntry(c, b, r, parity, k - 1, x, o);
      var rest, id := Picks(b, r, parity, k - 1), r.ids[k - 1];
      EntryIs(c, b, r, parity, x, o, k - 1);
      SumMore(k, EntryTerms(c, b, r, parity, x, o));
      if Takes(b, id, parity) {
        OnePickMore(c, rest, Pick(ExpertAt(b, MapEp(b, id, parity)), r.weights[k - 1]), x, o);
      }
    }
  }

  lemma NoPicks(c: Codec, x: nat -> real, o: nat)
    ensures GroupSum(c, [], x, o) == 0.0
  {}

  lemma SumMore(n: nat, f: nat -> real)
    requires n > 0
    ensures Sum(n, f) == Sum(n - 1, f) + f(n - 1)
  {}

  lemma EntryIs(c: Codec, b: Bank, r: Routing, parity: int, x: nat -> real, o: nat, k: nat)
    requires Even(b) && SixEach(r) && k < 6
    ensures EntryTerms(c, b, r, parity, x, o)(k) ==
            if Takes(b, r.ids[k], parity)
            then r.weights[k] * Output(c, ExpertAt(b, MapEp(b, r.ids[k], parity)), x, o) else 0.0
  {
    hide Output, MapEp, Loaded;
  }

  lemma OnePickMore(c: Codec, picks: seq<Pick>, p: Pick, x: nat -> real, o: nat)
    ensures GroupSum(c, picks + [p], x, o) == GroupSum(c, picks, x, o) + p.weight * Output(c, p.expert, x, o)
  {
    hide Output;
    var all := picks + [p];
    SumEqual(|picks|, PickTerms(c, all, x, o), PickTerms(c, picks, x, o));
    SumMore(|all|, PickTerms(c, all, x, o));
  }

  /** Every routed expert is in the full bank, and on its rank under the same number. */
  predicate Placed(full: Bank, local: Bank, peer: Bank, r: Routing)
    requires Even(full) && Even(local) && Even(peer) && SixEach(r)
  {
    forall k :: 0 <= k < 6 && r.ids[k] >= 0 ==>
      var rank := if r.ids[k] % 2 == 0 then local else peer;
      Loaded(full, r.ids[k]) && Loaded(rank, r.ids[k]) && ExpertAt(rank, r.ids[k]) == ExpertAt(full, r.ids[k])
  }

  /** The two ranks' sums add up to the sum over all six entries. */
  lemma RanksAdd(c: Codec, full: Bank, local: Bank, peer: Bank, r: Routing, x: nat -> real, o: nat)
    requires Even(full) && Even(local) && Even(peer) && SixEach(r) && Placed(full, local, peer, r)
    ensures GroupSum(c, Picks(local, r, 0, 6), x, o) + GroupSum(c, Picks(peer, r, 1, 6), x, o) ==
            GroupSum(c, Picks(full, r, -1, 6), x, o)
  {
    hide Output, GroupSum, Picks, Placed, EntryTerms, Sum;
    PicksByEntry(c, local, r, 0, 6, x, o);
    PicksByEntry(c, peer, r, 1, 6, x, o);
    PicksByEntry(c, full, r, -1, 6, x, o);
    var a, b, s := EntryTerms(c, local, r, 0, x, o), EntryTerms(c, peer, r, 1, x, o), EntryTerms(c, full, r, -1, x, o);
    forall k: nat | k < 6
      ensures s(k) == a(k) + b(k)
    {
      EntryAdds(c, full, local, peer, r, x, o, k);
    }
    SumAdd(6, a, b, s);
  }

  /** An entry is taken by the rank of its parity and by no other, at its own number. */
  lemma TakenOnce(full: Bank, local: Bank, peer: Bank, r: Routing, k: nat)
    requires Even(full) && Even(local) && Even(peer) && SixEach(r) && Placed(full, local, peer, r) && k < 6
    ensures var id := r.ids[k];
            if id < 0 then !Takes(full, id, -1) && !Takes(local, id, 0) && !Takes(peer, id, 1)
            else
              && Takes(full, id, -1) && MapEp(full, id, -1) == id
              && Takes(local, id, 0) == (id % 2 == 0) && Takes(peer, id, 1) == (id % 2 == 1)
              && (if id % 2 == 0 then MapEp(local, id, 0) else MapEp(peer, id, 1)) == id
              && ExpertAt(if id % 2 == 0 then local else peer, id) == ExpertAt(full, id)
  {}

  lemma EntryAdds(c: Codec, full: Bank, local: Bank, peer: Bank, r: Routing, x: nat -> real, o: nat, k: nat)
    requires Even(full) && Even(local) && Even(peer) && SixEach(r) && Placed(full, local, peer, r) && k < 6
    ensures EntryTerms(c, full, r, -1, x, o)(k) == EntryTerms(c, local, r, 0, x, o)(k) + EntryTerms(c, peer, r, 1, x, o)(k)
  {
    hide Output, Placed, MapEp, ExpertAt, Loaded;
    TakenOnce(full, local, peer, r, k);
  }

  /**
   A rank of n experts that are loaded by packed index, number 2 * i + parity at index i: the expert that
   is found for a number of the rank is the right one exactly when it is the first or its number is past
   the bank, since the number itself is tried as an index first.
   */
  lemma PackedWhen(b: Bank, id: nat, parity: nat)
    requires Even(b) && parity < 2 && id % 2 == parity && id < 2 * |b.gate|
    requires forall i :: 0 <= i < |b.gate| ==> b.gate[i].Some?
    ensures 2 * MapEp(b, id, parity) + parity == id <==> id == 0 || id >= |b.gate|
  {}

  // ---------------------------------------------------------------------------------------------
  // The code
  // ---------------------------------------------------------------------------------------------

  /** All picked experts are for this hidden size. */
  predicate PicksFit(picks: seq<Pick>, hidden: nat) {
    forall k :: 0 <= k < |picks| ==> FitsHidden(picks[k].expert, hidden)
  }

  /** expert_group: starts from zero and adds one expert after the other. */
  method ExpertGroup(c: Codec, picks: seq<Pick>, x: Vec) returns (ok: bool, y: Vec)
    requires PicksFit(picks, |x|) && |x| > 0
    ensures ok <==> picks != []
    ensures |y| == |x| && (ok ==> forall o: nat :: o < |x| ==> y[o] == GroupSum(c, picks, Vector(x), o))
  {
    hide Output, Sized;
    y := seq(|x|, i => 0.0);
    if picks == [] {
      return false, y;
    }
    ok := true;
    var e := 0;
    forall o: nat | o < |x|
      ensures y[o] == Sum(0, PickTerms(c, picks, Vector(x), o))
    {
      SumNone(PickTerms(c, picks, Vector(x), o));
    }
    while e < |picks|
      invariant 0 <= e <= |picks| && |y| == |x| && ok
      invariant forall o: nat :: o < |x| ==> y[o] == Sum(e, PickTerms(c, picks, Vector(x), o))
    {
      assert FitsHidden(picks[e].expert, |x|);
      ok, y := OneExpert(c, picks[e].expert, picks[e].weight, y, x, |x|, picks[e].expert.gate.o);
      if !ok {
        return;
      }
      e := e + 1;
    }
  }

  /** moe: the group, and the shared expert on top when it is complete. */
  method Moe(c: Codec, picks: seq<Pick>, shared: Option<Expert>, x: Vec) returns (ok: bool, y: Vec)
    requires PicksFit(picks, |x|) && |x| > 0 && (shared.Some? ==> FitsHidden(shared.value, |x|))
    ensures ok <==> picks != []
    ensures |y| == |x|
    ensures ok ==> forall o: nat :: o < |x| ==> y[o] == GroupSum(c, picks, Vector(x), o) + SharedSum(c, shared, Vector(x), o)
  {
    hide Output, GroupSum, Sized;
    ok, y := ExpertGroup(c, picks, x);
    if !ok || shared.None? {
      return;
    }
    var sh;
    ok, sh := OneExpert(c, shared.value, 1.0, seq(|x|, i => 0.0), x, |x|, shared.value.gate.o);
    var i := 0;
    while i < |x|
      invariant 0 <= i <= |x| && |y| == |x| && ok
      invariant forall o: nat :: o < |x| ==>
        y[o] == GroupSum(c, picks, Vector(x), o) + if o < i then Output(c, shared.value, Vector(x), o) else 0.0
    {
      y := y[i := y[i] + sh[i]];
      i := i + 1;
    }
  }

  /** The experts a rank has for the routing. */
  method Gather(b: Bank, r: Routing, parity: int, ghost hidden: nat) returns (picks: seq<Pick>)
    requires Usable(b, hidden) && SixEach(r)
    ensures picks == Picks(b, r, parity, 6) && PicksFit(picks, hidden)
  {
    hide FitsHidden, MapEp;
    picks := [];
    var k := 0;
    while k < 6
      invariant 0 <= k <= 6 && picks == Picks(b, r, parity, k) && PicksFit(picks, hidden)
    {
      var at := MapEp(b, r.ids[k], parity);
      if Loaded(b, at) {
        picks := picks + [Pick(ExpertAt(b, at), r.weights[k])];
      }
      k := k + 1;
    }
  }

  /** moe_routed_parity: one rank's share, with the shared expert if this rank is to add it. */
  method RoutedParity(c: Codec, x: Vec, b: Bank, r: Routing, parity: nat, withShared: bool) returns (out: Vec)
    requires Usable(b, |x|) && SixEach(r)
    ensures |out| == |x|
    ensures forall o: nat :: o < |x| ==>
      out[o] == GroupSum(c, Picks(b, r, parity, 6), Vector(x), o) +
                SharedSum(c, if withShared then Shared(b) else None, Vector(x), o)
  {
    hide Output, GroupSum, Sized, FitsHidden;
    var picks := Gather(b, r, parity, |x|);
    var shared := if withShared then Shared(b) else None;
    if picks != [] {
      var ok;
      ok, out := Moe(c, picks, shared, x);
      return;
    }
    forall o: nat | o < |x|
      ensures GroupSum(c, [], Vector(x), o) == 0.0
    {
      EmptyGroup(c, Vector(x), o);
    }
    out := seq(|x|, i => 0.0);
    if shared.Some? {
      HasUnits(shared.value, |x|);
      var ok;
      ok, out := OneExpert(c, shared.value, 1.0, out, x, |x|, shared.value.gate.o);
    }
  }

  lemma EmptyGroup(c: Codec, x: nat -> real, o: nat)
    ensures GroupSum(c, [], x, o) == 0.0
  {}

  lemma HasUnits(e: Expert, hidden: nat)
    requires FitsHidden(e, hidden)
    ensures e.gate.o > 0 && Fits(e, hidden, e.gate.o)
  {}

  /** route_moe: one rank with all experts. */
  method RouteMoe(c: Codec, x: Vec, gate: Option<Router>, b: Bank) returns (ok: bool, out: Vec)
    requires Usable(b, |x|) && (gate.Some? ==> Routes(gate.value))
    requires forall e: int :: 0 <= e < |b.gate| && b.gate[e].Some? ==> Loaded(b, e)
    ensures ok <==> gate.Some? && gate.value.route(x).Some? && Picks(b, gate.value.route(x).value, -1, 6) != []
    ensures ok ==> |out| == |x| && forall o: nat :: o < |x| ==>
              out[o] == GroupSum(c, Picks(b, gate.value.route(x).value, -1, 6), Vector(x), o) +
                        SharedSum(c, Shared(b), Vector(x), o)
  {
    hide Output, GroupSum, Sized, FitsHidden, Picks;
    ok, out := false, [];
    if gate.None? || gate.value.route(x).None? {
      return;
    }
    var r := gate.value.route(x).value;
    var picks := Gather(b, r, -1, |x|);
    ok, out := Moe(c, picks, Shared(b), x);
  }

  // ---------------------------------------------------------------------------------------------
  // Two ranks
  // ---------------------------------------------------------------------------------------------

  function NoBank(): Bank {
    Bank([], [], [], None, None, None)
  }

  function BankOr(b: Option<Bank>): Bank {
    if b.Some? then b.value else NoBank()
  }

  function NoRouting(): Routing {
    Routing([-1, -1, -1, -1, -1, -1], [0.0, 0.0, 0.0, 0.0, 0.0, 0.0])
  }

  /** What the first rank routes by: nothing when its gate refuses. */
  function LocalRouting(gate: Option<Router>, x: Vec): Routing {
    if gate.Some? && gate.value.route(x).Some? then gate.value.route(x).value else NoRouting()
  }

  /** What the second rank routes by: its own gate, or else the first rank's routing. */
  function PeerRouting(gate: Option<Router>, peerGate: Option<Router>, x: Vec, peerX: Vec): Routing {
    var g := if peerGate.Some? then peerGate else gate;
    if g.Some? && g.value.route(peerX).Some? then g.value.route(peerX).value else LocalRouting(gate, x)
  }

  ghost predicate GateOk(g: Option<Router>) {
    g.Some? ==> Routes(g.value)
  }

  /** The shared expert that is added: the first rank's when it has one, else the second's. */
  function SharedOnce(local: Bank, peer: Bank): Option<Expert> {
    if Shared(local).Some? then Shared(local) else Shared(peer)
  }

  /**
   route_moe_ep2. Both outputs are the two ranks' sums plus the shared expert once. With one gate and
   one input, and every routed expert placed on its rank, that is what one rank with all experts gives.
   */
  method RouteMoeEp2(c: Codec, x: Vec, peerX: Vec, gate: Option<Router>, peerGate: Option<Router>, local: Option<Bank>,
                     peer: Option<Bank>, ghost full: Bank) returns (ok: bool, out: Vec, peerOut: Vec)
    requires |x| == |peerX| > 0 && Usable(BankOr(local), |x|) && Usable(BankOr(peer), |x|) && Even(full)
    requires GateOk(gate) && GateOk(peerGate)
    ensures local.None? && peer.None? ==> !ok
    ensures ok ==> |out| == |x| && out == peerOut
    ensures ok && x == peerX ==>
              forall o: nat :: o < |x| ==>
                out[o] == GroupSum(c, Picks(BankOr(local), LocalRouting(gate, x), 0, 6), Vector(x), o) +
                          GroupSum(c, Picks(BankOr(peer), PeerRouting(gate, peerGate, x, peerX), 1, 6), Vector(x), o) +
                          SharedSum(c, SharedOnce(BankOr(local), BankOr(peer)), Vector(x), o)
    ensures x == peerX && gate.Some? && (peerGate.None? || peerGate == gate) && gate.value.route(x).Some? &&
            (local.Some? || peer.Some?) && Placed(full, BankOr(local), BankOr(peer), gate.value.route(x).value) &&
            Shared(full) == SharedOnce(BankOr(local), BankOr(peer)) ==>
              ok && |out| == |x| && forall o: nat :: o < |x| ==>
                out[o] == GroupSum(c, Picks(full, gate.value.route(x).value, -1, 6), Vector(x), o) +
                          SharedSum(c, Shared(full), Vector(x), o)
  {
    hide Output, GroupSum, Picks, Placed, SharedSum;
    ok, out, peerOut := false, [], [];
    if local.None? && peer.None? {
      return;
    }
    var pgate := if peerGate.Some? then peerGate else gate;
    var r, rPeer := NoRouting(), NoRouting();
    var routed := false;
    if gate.Some? && gate.value.route(x).Some? {
      r := gate.value.route(x).value;
      routed := true;
    }
    if pgate.Some? && pgate.value.route(peerX).Some? {
      rPeer := pgate.value.route(peerX).value;
      routed := true;
    } else {
      rPeer := r;
    }
    if !routed {
      // Each rank would route once more, by the same gate, and fail again.
      return;
    }
    var here, there := BankOr(local), BankOr(peer);
    var haveShared := Shared(here).Some?;
    out := RoutedParity(c, x, here, r, 0, haveShared);
    peerOut := RoutedParity(c, peerX, there, rPeer, 1, !haveShared);
    out, peerOut := TpAttention.AllreducePair(out, peerOut);
    ok := true;
    NoShared(c, Vector(x));
    if x == peerX && gate.Some? && (peerGate.None? || peerGate == gate) && gate.value.route(x).Some? &&
       Placed(full, here, there, r) {
      forall o: nat | o < |x|
        ensures GroupSum(c, Picks(here, r, 0, 6), Vector(x), o) + GroupSum(c, Picks(there, r, 1, 6), Vector(x), o) ==
                GroupSum(c, Picks(full, r, -1, 6), Vector(x), o)
      {
        RanksAdd(c, full, here, there, r, Vector(x), o);
      }
    }
  }

  lemma NoShared(c: Codec, x: nat -> real)
    ensures forall o: nat :: SharedSum(c, None, x, o) == 0.0
  {}
}
