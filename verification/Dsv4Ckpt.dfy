/**
 Prefix checkpoints in the engine: the cache updated in place, snapshots of slots, and the prefill
 that consults it. The main result is that the cache is invisible: whatever it holds, hits, stores
 or evicts, the slot ends in the state of a cold prefill of the whole prompt.
 */
module Dsv4Ckpt {
  import opened Results
  import opened Dsv4Net
  import opened Dsv4Slot
  import opened CkptPolicy

  /** The settings the source reads from its environment; they do not change while it runs. */
  datatype CkptConfig = CkptConfig(enabled: bool, diskOn: bool, minLen: nat, slots: nat, chunk: nat, width: nat)

  predicate ValidConfig(cfg: CkptConfig) {
    cfg.minLen > 0 && cfg.slots > 0 && cfg.chunk > 0
  }

  /** Every stream vector the kernels produce has the slot's stream width. */
  ghost predicate Shaped(net: Net, width: nat) {
    && |net.zeroStreams| == width
    && (forall id :: |net.embed(id)| == width)
    && (forall st, y, mix :: |net.mhcPost(st, y, mix)| == width)
    && (forall l: nat, st :: |net.mhcMix(l, st)| == width)
    && (forall st, y :: |net.addHead(st, y)| == |st|)
  }

  /** The entry holds exactly what a cold prefill of its ids leaves. */
  predicate Sound(net: Net, c: PrefixCkpt) {
    var f := Cold(net, c.ids);
    f.ok && c.ids != [] && c.pos == |c.ids| && c.rows == f.s.rows && c.streams == f.s.streams
  }

  predicate AllSound(net: Net, cs: seq<PrefixCkpt>) {
    forall i :: 0 <= i < |cs| ==> Sound(net, cs[i])
  }

  function CommonPrefix(a: seq<int>, b: seq<int>): (n: nat)
    ensures n <= |a| && n <= |b| && a[..n] == b[..n]
    ensures n < |a| && n < |b| ==> a[n] != b[n]
  {
    if a != [] && b != [] && a[0] == b[0] then 1 + CommonPrefix(a[1..], b[1..]) else 0
  }

  function Min(a: int, b: int): int {
    if a < b then a else b
  }

  function GatewayPrefix(prompt: seq<int>, gp: GenParams): int {
    if gp.prefixReuse > 0 then Min(gp.prefixReuse, |prompt|)
    else if gp.prefixBytes > 0 then Min(gp.prefixBytes, |prompt|)
    else 0
  }

  predicate Shares(a: seq<int>, b: seq<int>, n: nat) {
    n <= |a| && n <= |b| && a[..n] == b[..n]
  }

  lemma NotShared(a: seq<int>, b: seq<int>, k: nat, n: nat)
    requires k < n && (k < |a| && k < |b| ==> a[k] != b[k])
    ensures !Shares(a, b, n)
  {
    if n <= |a| && n <= |b| {
      assert a[..n][k] == a[k] && b[..n][k] == b[k];
    }
  }

  /** A declared prefix of the minimum length, cut to the prompt; or else the most that the prompt shares with the last
      fresh one, when that is the minimum length; or else nothing. */
  lemma CaptureMeaning(cfg: CkptConfig, prompt: seq<int>, gp: GenParams, lastFresh: seq<int>)
    requires cfg.minLen > 0
    ensures var snap := CaptureAt(cfg, prompt, gp, lastFresh);
            var declared := if gp.prefixReuse > 0 then gp.prefixReuse else gp.prefixBytes;
            if declared >= cfg.minLen && |prompt| >= cfg.minLen then snap == if declared <= |prompt| then declared else |prompt|
            else if exists n: nat :: cfg.minLen <= n && Shares(lastFresh, prompt, n) then
              snap >= cfg.minLen && Shares(lastFresh, prompt, snap) && !Shares(lastFresh, prompt, snap + 1)
            else snap == 0
  {
    var shared := CommonPrefix(lastFresh, prompt);
    forall n: nat | n > shared
      ensures !Shares(lastFresh, prompt, n)
    {
      NotShared(lastFresh, prompt, shared, n);
    }
    assert forall n: nat :: n <= shared ==> lastFresh[..n] == lastFresh[..shared][..n] == prompt[..shared][..n];
    assert Shares(lastFresh, prompt, shared);
  }

  /** What a prefill should store besides the whole prompt: the declared prefix, or else what this prompt shares with the
      last fresh one, if it is long enough; 0 for nothing. */
  function CaptureAt(cfg: CkptConfig, prompt: seq<int>, gp: GenParams, lastFresh: seq<int>): (snap: int)
    ensures snap <= |prompt|
  {
    var declared, shared := GatewayPrefix(prompt, gp), CommonPrefix(lastFresh, prompt);
    if declared >= cfg.minLen then declared
    else if lastFresh != [] && shared >= cfg.minLen then shared
    else 0
  }

  /** The checkpoint of a slot for the ids it holds. */
  function Snapshot(ids: seq<int>, kv: seq<seq<Row>>, streams: Vec, promptEnd: bool): PrefixCkpt {
    PrefixCkpt(ids, Below(kv, |ids|), streams, |ids|, promptEnd, 0)
  }

  /** The cache after the entries of a directory were inserted in order. */
  function AfterLoad(c: Cache, disk: seq<PrefixCkpt>, cap: nat): Cache
    requires cap > 0
  {
    if disk == [] then c else AfterInsert(AfterLoad(c, disk[..|disk| - 1], cap), disk[|disk| - 1], cap)
  }

  /** The entries of a directory are inserted by the first prefill that may read it. */
  function Loaded(c: Cache, done: bool, cfg: CkptConfig, disk: seq<PrefixCkpt>): Cache
    requires cfg.slots > 0
  {
    if done || !cfg.enabled || !cfg.diskOn then c else AfterLoad(c, disk, cfg.slots)
  }

  /** The reuse is the slot's own or the longest stored prefix of the prompt, whichever is longer. */
  predicate UsesLongest(entries: seq<PrefixCkpt>, prompt: seq<int>, minLen: nat, own: nat, reuse: nat) {
    && own <= reuse
    && (forall i :: 0 <= i < |entries| && Matches(entries[i], prompt, minLen) ==> |entries[i].ids| <= reuse)
    && (reuse == own || exists i :: 0 <= i < |entries| && Matches(entries[i], prompt, minLen) && |entries[i].ids| == reuse)
  }

  function Own(kvReuse: int): nat {
    if kvReuse > 0 then kvReuse else 0
  }

  lemma LoadedOff(c: Cache, done: bool, cfg: CkptConfig, disk: seq<PrefixCkpt>)
    requires cfg.slots > 0
    ensures !cfg.enabled ==> Loaded(c, done, cfg, disk) == c
  {}

  lemma CaptureOff(net: Net, c: Cache, cfg: CkptConfig, prompt: seq<int>, gp: GenParams, lastFresh: seq<int>, reuse: nat)
    requires cfg.slots > 0
    ensures !cfg.enabled ==> AfterCapture(net, c, cfg, prompt, gp, lastFresh, reuse) == c
  {}

  /** The entry that holds what a cold prefill of the ids leaves. */
  function ColdEntry(net: Net, ids: seq<int>, promptEnd: bool): PrefixCkpt {
    var s := Cold(net, ids).s;
    PrefixCkpt(ids, s.rows, s.streams, |ids|, promptEnd, 0)
  }

  /** The cache after the part of the prompt up to the capture point was stored, unless the slot was past it. */
  function AfterCapture(net: Net, c: Cache, cfg: CkptConfig, prompt: seq<int>, gp: GenParams, lastFresh: seq<int>, reuse: nat)
    : Cache
    requires cfg.slots > 0
  {
    var snap := CaptureAt(cfg, prompt, gp, lastFresh);
    if cfg.enabled && snap >= cfg.minLen && snap >= reuse
    then AfterInsert(c, ColdEntry(net, prompt[..snap], false), cfg.slots) else c
  }

  /** The cache after a whole prompt was prefilled: the hit refreshed, the captured part and the prompt stored. */
  function AfterPrefill(net: Net, c: Cache, cfg: CkptConfig, prompt: seq<int>, gp: GenParams, lastFresh: seq<int>, reuse: nat)
    : Cache
    requires cfg.slots > 0
  {
    if !cfg.enabled then c
    else
      var c1 := AfterCapture(net, AfterLookup(c, prompt, cfg.minLen), cfg, prompt, gp, lastFresh, reuse);
      if |prompt| >= cfg.minLen then AfterInsert(c1, ColdEntry(net, prompt, true), cfg.slots) else c1
  }

  // ---------------------------------------------------------------------------------------------
  // Soundness of the cache value is kept by every operation
  // ---------------------------------------------------------------------------------------------

  lemma TouchKeepsSound(net: Net, c: Cache, prompt: seq<int>, minLen: nat)
    requires AllSound(net, c.entries)
    ensures AllSound(net, AfterLookup(c, prompt, minLen).entries)
  {
    hide Cold;
    var d := AfterLookup(c, prompt, minLen);
    forall i | 0 <= i < |d.entries|
      ensures Sound(net, d.entries[i])
    {
      assert Sound(net, c.entries[i]);
    }
  }

  lemma {:induction false} MakeRoomKeepsSound(net: Net, cs: seq<PrefixCkpt>, cap: nat)
    requires cap > 0 && AllSound(net, cs)
    ensures AllSound(net, MakeRoom(cs, cap))
    decreases |cs|
  {
    hide Sound;
    if |cs| >= cap {
      MakeRoomKeepsSound(net, Without(cs, Victim(cs)), cap);
    }
  }

  lemma InsertKeepsSound(net: Net, c: Cache, ck: PrefixCkpt, cap: nat)
    requires cap > 0 && AllSound(net, c.entries) && (Insertable(ck) ==> Sound(net, ck))
    ensures AllSound(net, AfterInsert(c, ck, cap).entries)
  {
    hide Cold, MakeRoom;
    if Insertable(ck) {
      MakeRoomKeepsSound(net, c.entries, cap);
    }
  }

  /** Loading keeps the cache sound when every entry that is inserted is sound. */
  lemma {:induction false} LoadKeepsSound(net: Net, c: Cache, disk: seq<PrefixCkpt>, cap: nat)
    requires cap > 0 && AllSound(net, c.entries)
    requires forall i :: 0 <= i < |disk| && Insertable(disk[i]) ==> Sound(net, disk[i])
    ensures AllSound(net, AfterLoad(c, disk, cap).entries)
  {
    hide Sound, AfterInsert;
    if disk != [] {
      LoadKeepsSound(net, c, disk[..|disk| - 1], cap);
      InsertKeepsSound(net, AfterLoad(c, disk[..|disk| - 1], cap), disk[|disk| - 1], cap);
    }
  }

  lemma EmbedWidth(net: Net, width: nat, id: int)
    requires Shaped(net, width)
    ensures |net.embed(id)| == width
  {}

  lemma {:induction false} FeedWidth(net: Net, width: nat, s: KvState, ids: seq<int>)
    requires Shaped(net, width) && |s.streams| == width
    ensures |Feed(net, s, ids).s.streams| == width
    decreases |ids|
  {
    if ids != [] {
      EmbedWidth(net, width, ids[0]);
      LayersWidth(net, width, 0, s.rows, net.embed(ids[0]));
      FeedWidth(net, width, Step(net, s, ids[0]).s, ids[1..]);
    }
  }

  lemma {:induction false} LayersWidth(net: Net, width: nat, l: nat, rows: seq<seq<Row>>, st: Vec)
    requires Shaped(net, width) && |st| == width
    ensures |Layers(net, l, rows, st).st| == width
    decreases |rows|
  {
    if rows != [] {
      LayersWidth(net, width, l + 1, rows[1..], Layer(net, l, rows[0], st).st);
    }
  }

  /** A cold state has one row per position in every layer, and streams of the right width. */
  lemma ColdShape(net: Net, width: nat, ids: seq<int>)
    requires Shaped(net, width)
    ensures var s := Cold(net, ids).s;
            s.pos == |ids| && Rectangle(s.rows, net.layers, |ids|) && |s.streams| == width
  {
    hide Shaped;
    FeedGrows(net, Empty(net), ids);
    assert |Empty(net).streams| == width by {
      ZeroWidth(net, width);
    }
    FeedWidth(net, width, Empty(net), ids);
  }

  lemma ZeroWidth(net: Net, width: nat)
    requires Shaped(net, width)
    ensures |net.zeroStreams| == width
  {}

  // ---------------------------------------------------------------------------------------------
  // Snapshots
  // ---------------------------------------------------------------------------------------------

  /** The first n rows of every layer; a layer with a shorter buffer stays empty, as in the source. */
  method CloneRows(kv: seq<seq<Row>>, layers: nat, n: nat) returns (rows: seq<seq<Row>>)
    ensures |rows| == layers
    ensures HasRoom(kv, layers, n) ==> rows == Below(kv, n)
  {
    rows := [];
    var l := 0;
    while l < layers
      invariant 0 <= l <= layers && |rows| == l
      invariant HasRoom(kv, layers, n) ==> forall j :: 0 <= j < l ==> rows[j] == First(kv[j], n)
    {
      rows := rows + [if l < |kv| && n <= |kv[l]| then kv[l][..n] else []];
      l := l + 1;
    }
  }

  predicate Rectangle(rows: seq<seq<Row>>, layers: nat, n: nat) {
    |rows| == layers && forall l :: 0 <= l < layers ==> |rows[l]| == n
  }

  /** Copies n saved rows over the beginning of every buffer. */
  method CopyRows(kv0: seq<seq<Row>>, saved: seq<seq<Row>>, layers: nat, n: nat) returns (kv: seq<seq<Row>>)
    requires layers <= |kv0|
    ensures |kv| == |kv0| && forall l :: 0 <= l < |kv| ==> |kv[l]| == |kv0[l]|
    ensures HasRoom(kv0, layers, n) && Rectangle(saved, layers, n) ==> Below(kv, n) == saved
  {
    kv := kv0;
    var l := 0;
    while l < layers
      invariant 0 <= l <= layers && |kv| == |kv0|
      invariant forall j :: 0 <= j < |kv| ==> |kv[j]| == |kv0[j]|
      invariant HasRoom(kv0, layers, n) && Rectangle(saved, layers, n) ==>
                  forall j :: 0 <= j < l ==> First(kv[j], n) == saved[j]
    {
      if l < |saved| && n <= |saved[l]| && n <= |kv[l]| && n > 0 {
        kv := kv[l := saved[l][..n] + kv[l][n..]];
      }
      l := l + 1;
    }
  }

  class Engine {
    var ckpts: seq<PrefixCkpt>
    var tick: nat
    var hits: nat
    var lastFresh: seq<int>
    var diskLoaded: bool

    constructor ()
      ensures ckpts == [] && tick == 1 && lastFresh == [] && !diskLoaded
    {
      ckpts, tick, hits, lastFresh, diskLoaded := [], 1, 0, [], false;
    }

    function Contents(): Cache
      reads this
    {
      Cache(ckpts, tick)
    }

    method Lookup(prompt: seq<int>, minLen: nat) returns (hit: Option<PrefixCkpt>)
      modifies this`ckpts, this`tick, this`hits
      ensures Contents() == AfterLookup(old(Contents()), prompt, minLen)
      ensures var i := Longest(old(ckpts), prompt, minLen, |old(ckpts)|);
              if i < 0 then hit == None && hits == old(hits) else hit == Some(ckpts[i]) && hits == old(hits) + 1
    {
      var best := -1;
      var i := 0;
      while i < |ckpts|
        invariant 0 <= i <= |ckpts| && best == Longest(ckpts, prompt, minLen, i)
      {
        var c := ckpts[i];
        if minLen <= |c.ids| <= |prompt| && c.ids == prompt[..|c.ids|] {
          if best < 0 || |c.ids| > |ckpts[best].ids| {
            best := i;
          }
        }
        i := i + 1;
      }
      if best < 0 {
        return None;
      }
      tick := tick + 1;
      ckpts := ckpts[best := ckpts[best].(tick := tick)];
      hits := hits + 1;
      return Some(ckpts[best]);
    }

    /** The two scans of an eviction. */
    method PickVictim() returns (evict: nat)
      requires ckpts != []
      ensures evict == Victim(ckpts)
    {
      var pe := -1;
      var i := 0;
      while i < |ckpts|
        invariant 0 <= i <= |ckpts| && pe == Oldest(ckpts, true, i)
      {
        if ckpts[i].promptEnd && (pe < 0 || ckpts[i].tick < ckpts[pe].tick) {
          pe := i;
        }
        i := i + 1;
      }
      if pe >= 0 {
        return pe;
      }
      var any := -1;
      i := 0;
      while i < |ckpts|
        invariant 0 <= i <= |ckpts| && any == Oldest(ckpts, false, i)
      {
        if any < 0 || ckpts[i].tick < ckpts[any].tick {
          any := i;
        }
        i := i + 1;
      }
      return any;
    }

    method Insert(ck: PrefixCkpt, cap: nat)
      requires cap > 0
      modifies this`ckpts, this`tick
      ensures Contents() == AfterInsert(old(Contents()), ck, cap)
    {
      hide Victim, Oldest;
      if ck.ids == [] || ck.pos <= 0 {
        return;
      }
      var i := 0;
      while i < |ckpts|
        invariant 0 <= i <= |ckpts| && ckpts == old(ckpts) && tick == old(tick)
        invariant IndexOf(ckpts, ck.ids, 0) == IndexOf(ckpts, ck.ids, i)
      {
        if ckpts[i].ids == ck.ids {
          var ex := ckpts[i];
          var keepPrefix := !ex.promptEnd || !ck.promptEnd;
          tick := tick + 1;
          ckpts := ckpts[i := PrefixCkpt(ex.ids, ck.rows, ck.streams, ck.pos,
                                         if keepPrefix then false else ck.promptEnd, tick)];
          return;
        }
        i := i + 1;
      }
      ghost var was := ckpts;
      while |ckpts| >= cap && ckpts != []
        invariant MakeRoom(ckpts, cap) == MakeRoom(was, cap) && tick == old(tick)
        decreases |ckpts|
      {
        var evict := PickVictim();
        ckpts := ckpts[..evict] + ckpts[evict + 1..];
      }
      tick := tick + 1;
      ckpts := ckpts + [ck.(tick := tick)];
    }

    // -------------------------------------------------------------------------------------------
    // Store, load, apply
    // -------------------------------------------------------------------------------------------

    /** The cache stays sound when the slot holds the cold state of the ids. */
    method Store(net: Net, cfg: CkptConfig, ids: seq<int>, slot: Slot, promptEnd: bool)
      requires ValidConfig(cfg) && slot.Room(net, slot.pos)
      modifies this`ckpts, this`tick
      ensures AllSound(net, old(ckpts)) && (|ids| > slot.pos || HoldsAll(net, slot, ids)) ==> AllSound(net, ckpts)
      ensures Contents() == if cfg.enabled && cfg.minLen <= |ids| <= slot.pos
                            then AfterInsert(old(Contents()), Snapshot(ids, slot.kv, slot.streams, promptEnd), cfg.slots)
                            else old(Contents())
    {
      hide Cold, AfterInsert;
      if !cfg.enabled {
        return;
      }
      var n := |ids|;
      if n < cfg.minLen || slot.pos < n {
        return;
      }
      var rows := CloneRows(slot.kv, net.layers, n);
      var ck := PrefixCkpt(ids, rows, slot.streams, n, promptEnd, 0);
      if AllSound(net, ckpts) && HoldsAll(net, slot, ids) {
        InsertKeepsSound(net, Contents(), ck, cfg.slots);
      }
      Insert(ck, cfg.slots);
    }

    /** Entries read from disk are inserted once, in directory order; the cache stays sound when they are. */
    method LoadDisk(ghost net: Net, cfg: CkptConfig, disk: seq<PrefixCkpt>)
      requires ValidConfig(cfg)
      modifies this`ckpts, this`tick, this`diskLoaded
      ensures diskLoaded
      ensures Contents() == Loaded(old(Contents()), old(diskLoaded), cfg, disk)
      ensures AllSound(net, old(ckpts)) && (forall i :: 0 <= i < |disk| && Insertable(disk[i]) ==> Sound(net, disk[i])) ==>
                AllSound(net, ckpts)
    {
      hide Sound, AfterInsert;
      if diskLoaded {
        return;
      }
      diskLoaded := true;
      if !cfg.enabled || !cfg.diskOn {
        return;
      }
      ghost var was := Contents();
      var i := 0;
      while i < |disk|
        invariant 0 <= i <= |disk| && diskLoaded && Contents() == AfterLoad(was, disk[..i], cfg.slots)
      {
        assert disk[..i + 1][..i] == disk[..i];
        Insert(disk[i], cfg.slots);
        i := i + 1;
      }
      assert disk[..i] == disk;
      if AllSound(net, was.entries) && forall i :: 0 <= i < |disk| && Insertable(disk[i]) ==> Sound(net, disk[i]) {
        LoadKeepsSound(net, was, disk, cfg.slots);
      }
    }

    /** Makes a slot hold the state of a checkpoint. */
    method ApplyTo(net: Net, cfg: CkptConfig, s: Slot, ck: PrefixCkpt, tMax: int)
      requires Sound(net, ck) && Shaped(net, cfg.width) && |s.streams| == cfg.width && |s.kv| <= net.layers
      modifies s
      ensures s.State() == Cold(net, ck.ids).s && s.Room(net, AtLeastOne(if tMax > ck.pos then tMax else ck.pos))
      ensures s.pos == ck.pos && s.history == ck.ids && s.have && s.lastH == net.pool(s.streams)
      ensures s.gp == old(s.gp) && s.rng == old(s.rng)
    {
      hide Shaped, Cold;
      ColdShape(net, cfg.width, ck.ids);
      var n := ck.pos;
      s.EnsureT(net, if tMax > n then tMax else n);
      if ck.streams != [] {
        var sc := Min(|s.streams|, |ck.streams|);
        s.streams := ck.streams[..sc] + s.streams[sc..];
      }
      s.kv := CopyRows(s.kv, ck.rows, net.layers, n);
      s.history := ck.ids;  // pos == |ids| in a sound entry, so there is nothing to cut off
      s.pos := n;
      s.have := n > 0;
      s.SnapH(net);
    }

    method CapturePoint(cfg: CkptConfig, prompt: seq<int>, gp: GenParams) returns (snap: int)
      ensures snap == CaptureAt(cfg, prompt, gp, lastFresh)
      ensures snap <= |prompt|
      ensures snap == 0 || snap >= cfg.minLen
    {
      var p := GatewayPrefix(prompt, gp);
      if p >= cfg.minLen {
        return p;
      }
      if lastFresh != [] {
        var lcp := CommonPrefix(lastFresh, prompt);
        if lcp >= cfg.minLen {
          return lcp;
        }
      }
      return 0;
    }

    /** Brings a slot to the longest known prefix of the prompt: what it holds itself, an entry's, or the empty one. */
    method Restore(net: Net, cfg: CkptConfig, s: Slot, prompt: seq<int>, kvReuse: int, tMax: int,
                   disk: seq<PrefixCkpt>) returns (reuse: nat)
      requires ValidConfig(cfg) && Shaped(net, cfg.width) && AllSound(net, ckpts) && |prompt| <= tMax
      requires forall i :: 0 <= i < |disk| && Insertable(disk[i]) ==> Sound(net, disk[i])
      requires |s.kv| <= net.layers && (kvReuse > 0 ==> Holds(net, s, prompt, kvReuse))
      modifies this`ckpts, this`tick, this`hits, this`diskLoaded, s
      ensures AllSound(net, ckpts) && lastFresh == old(lastFresh)
      ensures kvReuse <= reuse <= |prompt| && Holds(net, s, prompt, reuse) && s.Room(net, AtLeastOne(tMax))
      ensures Restored(reuse, kvReuse, old(s.have), old(s.history), prompt, s.have, s.history)
      ensures 0 < reuse == kvReuse ==> s.State() == old(s.State())
      ensures var cache := Loaded(old(Contents()), old(diskLoaded), cfg, disk);
              if cfg.enabled then Contents() == AfterLookup(cache, prompt, cfg.minLen) &&
                                  UsesLongest(cache.entries, prompt, cfg.minLen, Own(kvReuse), reuse)
              else Contents() == cache && reuse == Own(kvReuse)
      ensures diskLoaded == (old(diskLoaded) || cfg.enabled)
      ensures s.gp == old(s.gp) && s.rng == old(s.rng)
    {
      hide Shaped, Cold, Longest, Loaded;
      LoadedOff(Contents(), diskLoaded, cfg, disk);
      reuse := if kvReuse > 0 then kvReuse else 0;
      if cfg.enabled {
        LoadDisk(net, cfg, disk);
        var hit := FindHit(net, cfg, prompt);
        if hit.Some? && hit.value.pos > reuse && hit.value.pos <= |prompt| {
          StreamsHaveWidth(net, cfg.width, s, prompt, kvReuse);
          if reuse == 0 {
            AllocWide(net, cfg, s, tMax);
          }
          assert hit.value.ids == prompt[..hit.value.pos];
          ApplyTo(net, cfg, s, hit.value, tMax);
          reuse := hit.value.pos;
        }
      }
      if reuse == 0 {
        s.Alloc(net, tMax);
        ColdNothing(net);
        assert prompt[..0] == [];
      } else {
        ghost var was, p := s.kv, s.pos;
        s.EnsureT(net, tMax);
        ExtendsBelow(was, s.kv, net.layers, p);
      }
    }

    method AllocWide(net: Net, cfg: CkptConfig, s: Slot, tMax: int)
      requires Shaped(net, cfg.width)
      modifies s
      ensures |s.streams| == cfg.width && |s.kv| == net.layers
      ensures s.gp == old(s.gp) && s.rng == old(s.rng)
    {
      s.Alloc(net, tMax);
    }

    /** A lookup result is a sound entry for the longest stored prefix of the prompt, and there is one when any is stored. */
    method FindHit(net: Net, cfg: CkptConfig, prompt: seq<int>) returns (hit: Option<PrefixCkpt>)
      requires AllSound(net, ckpts)
      modifies this`ckpts, this`tick, this`hits
      ensures AllSound(net, ckpts) && Contents() == AfterLookup(old(Contents()), prompt, cfg.minLen)
      ensures hit.Some? ==> Sound(net, hit.value) && hit.value.ids <= prompt
      ensures UsesLongest(old(ckpts), prompt, cfg.minLen, 0, if hit.Some? then |hit.value.ids| else 0)
    {
      hide Cold, Longest;
      ghost var was := Contents();
      TouchKeepsSound(net, was, prompt, cfg.minLen);
      LongestIsLongest(was.entries, prompt, cfg.minLen, |was.entries|);
      hit := Lookup(prompt, cfg.minLen);
    }

    /** The checkpointed prefill. */
    method RunPrefill(net: Net, cfg: CkptConfig, s: Slot, prompt: seq<int>, gp: GenParams, kvReuse: int, tMax: int,
                      disk: seq<PrefixCkpt>) returns (ok: bool, reuse: nat)
      requires ValidConfig(cfg) && Shaped(net, cfg.width) && AllSound(net, ckpts) && prompt != [] && |prompt| <= tMax
      requires forall i :: 0 <= i < |disk| && Insertable(disk[i]) ==> Sound(net, disk[i])
      requires |s.kv| <= net.layers && (kvReuse > 0 ==> Holds(net, s, prompt, kvReuse))
      modifies this, s
      ensures AllSound(net, ckpts)
      ensures kvReuse <= reuse <= |prompt|
      ensures ok == Cold(net, prompt).ok
      ensures Restored(reuse, kvReuse, old(s.have), old(s.history), prompt, s.have, s.history)
      ensures if cfg.enabled then UsesLongest(Loaded(old(Contents()), old(diskLoaded), cfg, disk).entries, prompt, cfg.minLen,
                                              Own(kvReuse), reuse)
              else reuse == Own(kvReuse)
      ensures ok ==> Contents() == AfterPrefill(net, Loaded(old(Contents()), old(diskLoaded), cfg, disk), cfg, prompt, gp,
                                                old(lastFresh), reuse)
      ensures lastFresh == if ok && cfg.enabled && kvReuse == 0 then prompt else old(lastFresh)
      ensures diskLoaded == (old(diskLoaded) || cfg.enabled)
      ensures |s.kv| == net.layers && s.pos >= reuse && Below(s.kv, reuse) == Cold(net, prompt[..reuse]).s.rows
      ensures !ok && !cfg.enabled && kvReuse > 0 ==>
                Stop(s.pos, s.streams) == PrefillStop(net, old(s.State()), prompt[kvReuse..], cfg.chunk)
      ensures ok ==> s.State() == Cold(net, prompt).s && s.lastH == net.pool(s.streams) && s.Room(net, AtLeastOne(tMax))
      ensures s.gp == old(s.gp) && s.rng == old(s.rng)
    {
      hide Shaped, Cold, Feed, PrefillStop, Slot.State, Restored, SameShape, Below, First;
      hide Loaded, AfterLookup, AfterInsert, AfterCapture, UsesLongest, ColdEntry, CaptureAt;
      reuse := Restore(net, cfg, s, prompt, kvReuse, tMax, disk);
      ghost var kv0 := s.kv;
      HoldsParts(net, s, prompt, reuse);
      CaptureOff(net, Contents(), cfg, prompt, gp, lastFresh, reuse);
      ok := Capture(net, cfg, s, prompt, gp, reuse);
      SameLayers(s.kv, kv0);
      if !ok {
        return;
      }
      assert prompt[..|prompt|] == prompt;
      ghost var kv1, pos1 := s.kv, s.pos;
      RoomAfter(net, kv0, kv1, AtLeastOne(tMax));
      ok := Advance(net, cfg, s, prompt, s.pos, |prompt|);
      SameLayers(s.kv, kv1);
      BelowLess(s.kv, kv1, pos1, reuse);
      if !ok {
        return;
      }
      RoomAfter(net, kv1, s.kv, AtLeastOne(tMax));
      SnapshotIsCold(net, s, prompt, true);
      if cfg.enabled && |prompt| >= cfg.minLen {
        Store(net, cfg, prompt, s, true);
      }
      if cfg.enabled && kvReuse == 0 {
        lastFresh := prompt;
      }
    }

    /**
     Two prompts, the second an extension of the first, on any two slots that hold nothing. Once the first
     is prefilled and long enough to be stored, the second takes all of it from the cache.
     */
    method PrefillExtension(net: Net, cfg: CkptConfig, s: Slot, t: Slot, prompt: seq<int>, more: seq<int>, gp: GenParams,
                            tMax: int, disk: seq<PrefixCkpt>) returns (ok: bool, reuse: nat)
      requires ValidConfig(cfg) && Shaped(net, cfg.width) && AllSound(net, ckpts) && cfg.enabled && s != t
      requires cfg.minLen <= |prompt| && |prompt| + |more| <= tMax && |s.kv| <= net.layers && |t.kv| <= net.layers
      requires forall i :: 0 <= i < |disk| && Insertable(disk[i]) ==> Sound(net, disk[i])
      modifies this, s, t
      ensures ok == Cold(net, prompt + more).ok
      ensures ok ==> reuse >= |prompt| && t.State() == Cold(net, prompt + more).s
    {
      hide Shaped, Cold, Sound, Loaded, AfterLookup, AfterInsert, AfterCapture, ColdEntry;
      hide Slot.State, PrefillStop, Restored, Below;
      var first;
      first, reuse := RunPrefill(net, cfg, s, prompt, gp, 0, tMax, disk);
      PrefixFails(net, prompt, more);
      if !first {
        return false, 0;
      }
      ghost var before, inserted :| Contents() == AfterInsert(before, inserted, cfg.slots) &&
                                    inserted == ColdEntry(net, prompt, true);
      ColdEntryOf(net, prompt, true);
      InsertedSurvives(before, inserted, cfg.slots);
      LoadedDone(Contents(), cfg, disk);
      ok, reuse := RunPrefill(net, cfg, t, prompt + more, gp, 0, tMax, disk);
    }

    /** Prefills to the capture point, if there is one ahead, and stores what the slot holds there. */
    method Capture(net: Net, cfg: CkptConfig, s: Slot, prompt: seq<int>, gp: GenParams, ghost reuse: nat) returns (ok: bool)
      requires ValidConfig(cfg) && AllSound(net, ckpts) && s.Room(net, |prompt|)
      requires s.pos == reuse && Holds(net, s, prompt, reuse)
      modifies this`ckpts, this`tick, s`kv, s`streams, s`pos, s`lastH
      ensures AllSound(net, ckpts) && SameShape(s.kv, old(s.kv))
      ensures s.pos >= reuse && Below(s.kv, reuse) == Below(old(s.kv), reuse)
      ensures if ok then Holds(net, s, prompt, s.pos) else !Cold(net, prompt).ok
      ensures !cfg.enabled ==> ok && s.State() == old(s.State()) && s.pos == old(s.pos)
      ensures Contents() == if ok then AfterCapture(net, old(Contents()), cfg, prompt, gp, lastFresh, reuse) else old(Contents())
    {
      hide Cold, Feed, PrefillStop, SameShape, Slot.State, AfterInsert, CaptureAt;
      ok := true;
      ShapeKept(s.kv);
      var snap := 0;
      if cfg.enabled {
        snap := CapturePoint(cfg, prompt, gp);
      }
      if snap >= cfg.minLen && snap <= |prompt| {
        ghost var kv0 := s.kv;
        if s.pos < snap {
          ok := Advance(net, cfg, s, prompt, s.pos, snap);
          if !ok {
            return;
          }
        }
        if s.pos == snap {
          HoldsPrefix(net, s, prompt, snap);
          SnapshotIsCold(net, s, prompt[..snap], false);
          Store(net, cfg, prompt[..snap], s, false);
        }
      }
    }

    /** Prefills prompt[from..to] in a slot that holds prompt[..from]. */
    method Advance(net: Net, cfg: CkptConfig, s: Slot, prompt: seq<int>, from: nat, to: nat) returns (ok: bool)
      requires ValidConfig(cfg) && from <= to <= |prompt| && s.Room(net, to) && Holds(net, s, prompt, from)
      modifies s`kv, s`streams, s`pos, s`lastH
      ensures SameShape(s.kv, old(s.kv))
      ensures ok ==> Holds(net, s, prompt, to) && s.lastH == net.pool(s.streams)
      ensures !ok ==> !Cold(net, prompt).ok
      ensures s.pos >= from && Below(s.kv, from) == Below(old(s.kv), from)
      ensures !ok ==> Stop(s.pos, s.streams) == PrefillStop(net, old(s.State()), prompt[..to][from..], cfg.chunk)
    {
      hide Feed, PrefillStop;
      ColdStep(net, prompt, from, to);
      ok := s.Prefill(net, prompt[..to], from, cfg.chunk);
    }
  }

  /** The slot holds the cold state of the first n tokens of the prompt. */
  predicate Holds(net: Net, s: Slot, prompt: seq<int>, n: nat)
    reads s
  {
    n <= |prompt| && s.pos == n && s.Room(net, n) && Cold(net, prompt[..n]) == Fed(true, s.State())
  }

  /** Whether a slot counts as holding something, and what, before the rest of a prompt is prefilled. */
  predicate Restored(reuse: nat, kvReuse: int, have0: bool, history0: seq<int>, prompt: seq<int>, have: bool, history: seq<int>) {
    if reuse == 0 then !have && history == []
    else if reuse == kvReuse then have == have0 && history == history0
    else have && reuse <= |prompt| && history == prompt[..reuse]
  }

  /** The slot holds the cold state of these ids. */
  predicate HoldsAll(net: Net, s: Slot, ids: seq<int>)
    reads s
  {
    s.pos == |ids| && Cold(net, ids) == Fed(true, s.State())
  }

  lemma HoldsParts(net: Net, s: Slot, prompt: seq<int>, n: nat)
    requires Holds(net, s, prompt, n)
    ensures n <= |prompt| && s.pos == n && |s.kv| == net.layers && Below(s.kv, n) == Cold(net, prompt[..n]).s.rows
  {}

  /** A cold prefill of an extension fails when that of the prompt does. */
  lemma PrefixFails(net: Net, prompt: seq<int>, more: seq<int>)
    ensures Cold(net, prompt + more).ok ==> Cold(net, prompt).ok
  {
    ColdPrefix(net, prompt + more, |prompt|);
    assert (prompt + more)[..|prompt|] == prompt;
  }

  lemma ColdEntryOf(net: Net, ids: seq<int>, promptEnd: bool)
    ensures ColdEntry(net, ids, promptEnd).ids == ids && (ids != [] ==> Insertable(ColdEntry(net, ids, promptEnd)))
  {
    hide Cold;
  }

  lemma LoadedDone(c: Cache, cfg: CkptConfig, disk: seq<PrefixCkpt>)
    requires cfg.slots > 0
    ensures Loaded(c, true, cfg, disk) == c
  {}

  lemma SnapshotIsCold(net: Net, s: Slot, ids: seq<int>, promptEnd: bool)
    requires HoldsAll(net, s, ids)
    ensures Snapshot(ids, s.kv, s.streams, promptEnd) == ColdEntry(net, ids, promptEnd)
  {
    hide Cold;
  }

  lemma HoldsPrefix(net: Net, s: Slot, prompt: seq<int>, n: nat)
    requires Holds(net, s, prompt, n)
    ensures HoldsAll(net, s, prompt[..n])
  {}

  lemma ShapeKept(kv: seq<seq<Row>>)
    ensures SameShape(kv, kv)
  {}

  lemma RoomAfter(net: Net, a: seq<seq<Row>>, b: seq<seq<Row>>, n: nat)
    requires SameShape(b, a) && HasRoom(a, net.layers, n)
    ensures forall m: nat :: m <= n ==> HasRoom(b, net.layers, m)
  {}

  lemma SameLayers(a: seq<seq<Row>>, b: seq<seq<Row>>)
    requires SameShape(a, b)
    ensures |a| == |b|
  {}

  lemma StreamsHaveWidth(net: Net, width: nat, s: Slot, prompt: seq<int>, n: int)
    requires Shaped(net, width) && (n > 0 ==> Holds(net, s, prompt, n))
    ensures n > 0 ==> |s.streams| == width
  {
    if n > 0 {
      ColdShape(net, width, prompt[..n]);
    }
  }

  lemma ColdNothing(net: Net)
    ensures Cold(net, []) == Fed(true, Empty(net))
  {}

  lemma ExtendsBelow(a: seq<seq<Row>>, b: seq<seq<Row>>, layers: nat, n: nat)
    requires Extends(a, b) && HasRoom(a, layers, n) && |b| == layers
    ensures Below(a, n) == Below(b, n)
  {
    assert forall l :: 0 <= l < layers ==> a[l][..n] == b[l][..n];
  }

  lemma ColdStep(net: Net, prompt: seq<int>, from: nat, to: nat)
    requires from <= to <= |prompt|
    ensures Cold(net, prompt[..to]) == FeedThen(net, Empty(net), prompt[..from], prompt[..to][from..])
    ensures Cold(net, prompt[..to]).s.pos == to
    ensures !Cold(net, prompt[..to]).ok ==> !Cold(net, prompt).ok
  {
    ColdPrefix(net, prompt, to);
    ColdPrefix(net, prompt[..to], from);
    assert prompt[..to][..from] == prompt[..from];
  }
}
