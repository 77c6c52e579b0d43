/**
 The routed experts of a token as a textbook has them, and what one rank or two ranks compute from the
 packed experts.
 */
module RoutedMeaning {
  import opened Results
  import opened RealSum
  import opened Fp4
  import opened EpMoe
  import opened ExpertMeaning

  /** The experts by number, some of them missing, all for one hidden size. */
  predicate AreMlps(ms: seq<Option<Mlp>>, hidden: nat) {
    forall e :: 0 <= e < |ms| ==> MaybeMlp(ms[e], hidden)
  }

  predicate MaybeMlp(m: Option<Mlp>, hidden: nat) {
    m.Some? ==> IsMlp(m.value, hidden)
  }

  predicate Has(ms: seq<Option<Mlp>>, id: int) {
    0 <= id < |ms| && ms[id].Some?
  }

  // ---------------------------------------------------------------------------------------------
  // The textbook
  // ---------------------------------------------------------------------------------------------

  /** Element o of what entry k of the routing adds: an expert that is there, with the weight of its entry. */
  function Entry(c: Codec, ms: seq<Option<Mlp>>, r: Routing, x: Vec, o: nat): nat -> real
    requires AreMlps(ms, |x|) && SixEach(r) && o < |x|
  {
    (k: nat) => if k < 6 && Has(ms, r.ids[k]) then r.weights[k] * MlpOf(c, ms[r.ids[k]].value, x)[o] else 0.0
  }

  /** Element o of the output: the six entries, and the shared expert. */
  function Mixture(c: Codec, ms: seq<Option<Mlp>>, shared: Option<Mlp>, r: Routing, x: Vec, o: nat): real
    requires AreMlps(ms, |x|) && MaybeMlp(shared, |x|) && SixEach(r) && o < |x|
  {
    Sum(6, Entry(c, ms, r, x, o)) + if shared.Some? then MlpOf(c, shared.value, x)[o] else 0.0
  }

  // ---------------------------------------------------------------------------------------------
  // The experts as tensors
  // ---------------------------------------------------------------------------------------------

  function Tensors(ms: seq<Option<Mlp>>, of: Mlp -> Tensor): seq<Option<Tensor>> {
    seq(|ms|, e requires 0 <= e < |ms| => MaybeTensor(ms[e], of))
  }

  function MaybeTensor(m: Option<Mlp>, of: Mlp -> Tensor): Option<Tensor> {
    if m.Some? then Some(of(m.value)) else None
  }

  function BankOf(ms: seq<Option<Mlp>>, shared: Option<Mlp>, hidden: nat): Bank {
    var gate, up, down := (m: Mlp) => TensorOf(m.gate, hidden), (m: Mlp) => TensorOf(m.up, hidden),
                          (m: Mlp) => TensorOf(m.down, Width(m));
    Bank(Tensors(ms, gate), Tensors(ms, up), Tensors(ms, down),
         MaybeTensor(shared, gate), MaybeTensor(shared, up), MaybeTensor(shared, down))
  }

  /** The bank has what is there, each expert under its number. */
  lemma BankIs(ms: seq<Option<Mlp>>, shared: Option<Mlp>, hidden: nat, id: int)
    ensures var b := BankOf(ms, shared, hidden);
            && Even(b) && |b.gate| == |ms| && (Loaded(b, id) <==> Has(ms, id))
            && (0 <= id < |ms| ==> (b.gate[id].Some? <==> ms[id].Some?) && (b.gate[id].Some? <==> Loaded(b, id)))
            && (Has(ms, id) ==> ExpertAt(b, id) == ExpertOf(ms[id].value, hidden))
            && Shared(b) == if shared.Some? then Some(ExpertOf(shared.value, hidden)) else None
  {
    hide TensorOf;
  }

  lemma BankUsable(ms: seq<Option<Mlp>>, shared: Option<Mlp>, hidden: nat)
    requires AreMlps(ms, hidden) && MaybeMlp(shared, hidden) && hidden > 0
    ensures Usable(BankOf(ms, shared, hidden), hidden)
  {
    hide BankOf, IsMlp, Fits, ExpertOf, ExpertAt, Loaded;
    var b := BankOf(ms, shared, hidden);
    BankIs(ms, shared, hidden, 0);
    forall e: int | Loaded(b, e)
      ensures FitsHidden(ExpertAt(b, e), hidden)
    {
      BankIs(ms, shared, hidden, e);
      ExpertFits(ms[e].value, hidden);
      HasWidth(ms[e].value, hidden);
    }
    if shared.Some? {
      ExpertFits(shared.value, hidden);
      HasWidth(shared.value, hidden);
    }
  }

  lemma HasWidth(e: Mlp, hidden: nat)
    requires IsMlp(e, hidden)
    ensures Width(e) > 0
  {}

  // ---------------------------------------------------------------------------------------------
  // One rank
  // ---------------------------------------------------------------------------------------------

  lemma OneRankMap(b: Bank, id: int)
    requires Even(b)
    ensures MapEp(b, id, -1) == if 0 <= id < |b.gate| && b.gate[id].Some? then id else -1
  {}

  lemma TakesIs(ms: seq<Option<Mlp>>, shared: Option<Mlp>, hidden: nat, id: int)
    ensures var b := BankOf(ms, shared, hidden);
            Even(b) && (Takes(b, id, -1) <==> Has(ms, id)) && (Has(ms, id) ==> MapEp(b, id, -1) == id)
  {
    hide BankOf, MapEp;
    var b := BankOf(ms, shared, hidden);
    BankIs(ms, shared, hidden, id);
    OneRankMap(b, id);
    BankIs(ms, shared, hidden, MapEp(b, id, -1));
  }

  /** The sum that one rank adds up is the sum over the entries of the routing. */
  lemma SumMeaning(c: Codec, ms: seq<Option<Mlp>>, shared: Option<Mlp>, r: Routing, x: Vec, o: nat)
    requires AreMlps(ms, |x|) && MaybeMlp(shared, |x|) && SixEach(r) && o < |x|
    ensures var b := BankOf(ms, shared, |x|);
            Even(b) && GroupSum(c, Picks(b, r, -1, 6), Vector(x), o) + SharedSum(c, Shared(b), Vector(x), o) ==
                       Mixture(c, ms, shared, r, x, o)
  {
    hide BankOf, EntryTerms, Entry, Sum, GroupSum, Output, IsMlp, MlpOf, Takes, MapEp, ExpertAt, ExpertOf;
    var b := BankOf(ms, shared, |x|);
    BankIs(ms, shared, |x|, 0);
    PicksByEntry(c, b, r, -1, 6, Vector(x), o);
    forall k: nat | k < 6
      ensures EntryTerms(c, b, r, -1, Vector(x), o)(k) == Entry(c, ms, r, x, o)(k)
    {
      EntryMeaning(c, ms, shared, r, x, o, k);
    }
    SumEqual(6, EntryTerms(c, b, r, -1, Vector(x), o), Entry(c, ms, r, x, o));
    if shared.Some? {
      OutputMeaning(c, shared.value, x, o);
    }
  }

  lemma EntryMeaning(c: Codec, ms: seq<Option<Mlp>>, shared: Option<Mlp>, r: Routing, x: Vec, o: nat, k: nat)
    requires AreMlps(ms, |x|) && SixEach(r) && o < |x| && k < 6
    ensures var b := BankOf(ms, shared, |x|);
            Even(b) && EntryTerms(c, b, r, -1, Vector(x), o)(k) == Entry(c, ms, r, x, o)(k)
  {
    hide BankOf, Output, IsMlp, MlpOf, Takes, MapEp, ExpertAt, ExpertOf;
    var b, id := BankOf(ms, shared, |x|), r.ids[k];
    BankIs(ms, shared, |x|, id);
    TakesIs(ms, shared, |x|, id);
    EntryIs(c, b, r, -1, Vector(x), o, k);
    if Has(ms, id) {
      OutputMeaning(c, ms[id].value, x, o);
    }
  }

  lemma {:induction false} SomePick(b: Bank, r: Routing, parity: int, k: nat)
    requires Even(b) && SixEach(r) && k <= 6
    ensures Picks(b, r, parity, k) != [] <==> exists j :: 0 <= j < k && Takes(b, r.ids[j], parity)
  {
    hide Takes;
    if k > 0 {
      SomePick(b, r, parity, k - 1);
    }
  }

  lemma SomeExpert(ms: seq<Option<Mlp>>, shared: Option<Mlp>, hidden: nat, r: Routing)
    requires SixEach(r)
    ensures var b := BankOf(ms, shared, hidden);
            Even(b) && (Picks(b, r, -1, 6) != [] <==> exists k :: 0 <= k < 6 && Has(ms, r.ids[k]))
  {
    hide BankOf, Takes, Picks, Has;
    var b := BankOf(ms, shared, hidden);
    BankIs(ms, shared, hidden, 0);
    SomePick(b, r, -1, 6);
    forall k | 0 <= k < 6
      ensures Takes(b, r.ids[k], -1) <==> Has(ms, r.ids[k])
    {
      TakesIs(ms, shared, hidden, r.ids[k]);
    }
  }

  /** One rank puts out the mixture, and fails exactly when the gate refuses or no routed expert is there. */
  method Route(c: Codec, x: Vec, gate: Option<Router>, ms: seq<Option<Mlp>>, shared: Option<Mlp>)
    returns (ok: bool, out: Vec)
    requires AreMlps(ms, |x|) && MaybeMlp(shared, |x|) && |x| > 0 && GateOk(gate)
    ensures ok <==> gate.Some? && gate.value.route(x).Some? && exists k :: 0 <= k < 6 && Has(ms, gate.value.route(x).value.ids[k])
    ensures ok ==> |out| == |x| && forall o: nat :: o < |x| ==> out[o] == Mixture(c, ms, shared, gate.value.route(x).value, x, o)
  {
    hide BankOf, Usable, GroupSum, SharedSum, Picks, Mixture, Has;
    var b := BankOf(ms, shared, |x|);
    BankUsable(ms, shared, |x|);
    forall e: int
      ensures Even(b) && (0 <= e < |b.gate| && b.gate[e].Some? ==> Loaded(b, e))
    {
      BankIs(ms, shared, |x|, e);
    }
    ok, out := RouteMoe(c, x, gate, b);
    if gate.Some? && gate.value.route(x).Some? {
      var r := gate.value.route(x).value;
      SomeExpert(ms, shared, |x|, r);
      forall o: nat | o < |x|
        ensures GroupSum(c, Picks(b, r, -1, 6), Vector(x), o) + SharedSum(c, Shared(b), Vector(x), o) ==
                Mixture(c, ms, shared, r, x, o)
      {
        SumMeaning(c, ms, shared, r, x, o);
      }
    }
  }

  // ---------------------------------------------------------------------------------------------
  // Two ranks
  // ---------------------------------------------------------------------------------------------

  /** The experts of a rank: those whose number has its parity. */
  function OfRank(ms: seq<Option<Mlp>>, rank: nat): seq<Option<Mlp>> {
    seq(|ms|, e requires 0 <= e < |ms| => if e % 2 == rank then ms[e] else None)
  }

  lemma AllPlaced(ms: seq<Option<Mlp>>, shared: Option<Mlp>, hidden: nat, r: Routing)
    requires SixEach(r) && forall k :: 0 <= k < 6 && r.ids[k] >= 0 ==> Has(ms, r.ids[k])
    ensures var full, local, peer := BankOf(ms, shared, hidden), BankOf(OfRank(ms, 0), shared, hidden),
                                     BankOf(OfRank(ms, 1), None, hidden);
            Even(full) && Even(local) && Even(peer) && Placed(full, local, peer, r)
  {
    hide BankOf, Loaded, ExpertAt, ExpertOf;
    BankIs(ms, shared, hidden, 0);
    BankIs(OfRank(ms, 0), shared, hidden, 0);
    BankIs(OfRank(ms, 1), None, hidden, 0);
    forall k | 0 <= k < 6 && r.ids[k] >= 0
      ensures OnRank(ms, shared, hidden, r.ids[k])
    {
      IsOnRank(ms, shared, hidden, r.ids[k]);
    }
  }

  ghost predicate OnRank(ms: seq<Option<Mlp>>, shared: Option<Mlp>, hidden: nat, id: int) {
    var full, rank := BankOf(ms, shared, hidden),
                      if id % 2 == 0 then BankOf(OfRank(ms, 0), shared, hidden) else BankOf(OfRank(ms, 1), None, hidden);
    Even(full) && Even(rank) && Loaded(full, id) && Loaded(rank, id) && ExpertAt(rank, id) == ExpertAt(full, id)
  }

  lemma IsOnRank(ms: seq<Option<Mlp>>, shared: Option<Mlp>, hidden: nat, id: int)
    requires Has(ms, id)
    ensures OnRank(ms, shared, hidden, id)
  {
    hide BankOf, Loaded, ExpertAt, ExpertOf;
    BankIs(ms, shared, hidden, id);
    BankIs(OfRank(ms, 0), shared, hidden, id);
    BankIs(OfRank(ms, 1), None, hidden, id);
  }

  /** Two ranks, the first with the even experts and the shared one, the second with the odd experts, both put out
      the mixture when every routed expert is there. */
  method RouteEp2(c: Codec, x: Vec, gate: Router, ms: seq<Option<Mlp>>, shared: Option<Mlp>)
    returns (ok: bool, out: Vec, peerOut: Vec)
    requires AreMlps(ms, |x|) && MaybeMlp(shared, |x|) && |x| > 0 && Routes(gate)
    requires gate.route(x).Some?
    requires forall k :: 0 <= k < 6 && gate.route(x).value.ids[k] >= 0 ==> Has(ms, gate.route(x).value.ids[k])
    ensures ok && |out| == |x| && out == peerOut
    ensures forall o: nat :: o < |x| ==> out[o] == Mixture(c, ms, shared, gate.route(x).value, x, o)
  {
    hide BankOf, Usable, GroupSum, SharedSum, Picks, Mixture, Has, Placed, Shared;
    var r := gate.route(x).value;
    var local, peer := BankOf(OfRank(ms, 0), shared, |x|), BankOf(OfRank(ms, 1), None, |x|);
    BankUsable(OfRank(ms, 0), shared, |x|);
    BankUsable(OfRank(ms, 1), None, |x|);
    AllPlaced(ms, shared, |x|, r);
    BankIs(ms, shared, |x|, 0);
    BankIs(OfRank(ms, 0), shared, |x|, 0);
    BankIs(OfRank(ms, 1), None, |x|, 0);
    ok, out, peerOut := RouteMoeEp2(c, x, x, Some(gate), None, Some(local), Some(peer), BankOf(ms, shared, |x|));
    forall o: nat | o < |x|
      ensures out[o] == Mixture(c, ms, shared, r, x, o)
    {
      SumMeaning(c, ms, shared, r, x, o);
    }
  }
}
