/**
 The prefix-checkpoint cache as a value: lookup of the longest stored prefix, insertion with a
 two-class least-recently-used eviction, and what holds over every run of the two.
 */
module CkptPolicy {
  import opened Dsv4Net

  datatype PrefixCkpt = PrefixCkpt(
    ids: seq<int>,
    rows: seq<seq<Row>>,
    streams: Vec,
    pos: int,
    promptEnd: bool,
    tick: nat
  )

  datatype Cache = Cache(entries: seq<PrefixCkpt>, tick: nat)

  // ---------------------------------------------------------------------------------------------
  // Lookup
  // ---------------------------------------------------------------------------------------------

  predicate Matches(c: PrefixCkpt, prompt: seq<int>, minLen: nat) {
    minLen <= |c.ids| && c.ids <= prompt
  }

  /** The index of the first longest match among the first n entries, or -1. */
  function Longest(cs: seq<PrefixCkpt>, prompt: seq<int>, minLen: nat, n: nat): (i: int)
    requires n <= |cs|
    ensures -1 <= i < n
  {
    if n == 0 then -1
    else
      var b := Longest(cs, prompt, minLen, n - 1);
      if Matches(cs[n - 1], prompt, minLen) && (b < 0 || |cs[n - 1].ids| > |cs[b].ids|) then n - 1 else b
  }

  function Touch(c: Cache, i: nat): Cache
    requires i < |c.entries|
  {
    Cache(c.entries[i := c.entries[i].(tick := c.tick + 1)], c.tick + 1)
  }

  function AfterLookup(c: Cache, prompt: seq<int>, minLen: nat): Cache {
    var i := Longest(c.entries, prompt, minLen, |c.entries|);
    if i < 0 then c else Touch(c, i)
  }

  /** A lookup fails only when nothing matches, and otherwise finds a longest match. */
  lemma {:induction false} LongestIsLongest(cs: seq<PrefixCkpt>, prompt: seq<int>, minLen: nat, n: nat)
    requires n <= |cs|
    ensures var i := Longest(cs, prompt, minLen, n);
            if i < 0 then forall j :: 0 <= j < n ==> !Matches(cs[j], prompt, minLen)
            else Matches(cs[i], prompt, minLen) &&
                 forall j :: 0 <= j < n && Matches(cs[j], prompt, minLen) ==> |cs[j].ids| <= |cs[i].ids|
  {
    if n > 0 {
      LongestIsLongest(cs, prompt, minLen, n - 1);
    }
  }

  // ---------------------------------------------------------------------------------------------
  // Insertion and eviction
  // ---------------------------------------------------------------------------------------------

  predicate Eligible(c: PrefixCkpt, onlyPromptEnd: bool) {
    onlyPromptEnd ==> c.promptEnd
  }

  /** The first entry with the smallest tick among the eligible ones of the first n, or -1. */
  function Oldest(cs: seq<PrefixCkpt>, onlyPromptEnd: bool, n: nat): (i: int)
    requires n <= |cs|
    ensures -1 <= i < n
  {
    if n == 0 then -1
    else
      var b := Oldest(cs, onlyPromptEnd, n - 1);
      if Eligible(cs[n - 1], onlyPromptEnd) && (b < 0 || cs[n - 1].tick < cs[b].tick) then n - 1 else b
  }

  lemma {:induction false} OldestIsOldest(cs: seq<PrefixCkpt>, onlyPromptEnd: bool, n: nat)
    requires n <= |cs|
    ensures var i := Oldest(cs, onlyPromptEnd, n);
            if i < 0 then forall j :: 0 <= j < n ==> !Eligible(cs[j], onlyPromptEnd)
            else Eligible(cs[i], onlyPromptEnd) &&
                 forall j :: 0 <= j < n && Eligible(cs[j], onlyPromptEnd) ==> cs[i].tick <= cs[j].tick
  {
    if n > 0 {
      OldestIsOldest(cs, onlyPromptEnd, n - 1);
    }
  }

  /** The eviction order of a cache: prompt-end entries first, the smallest tick within a class. */
  lemma VictimIsOldest(cs: seq<PrefixCkpt>)
    requires cs != []
    ensures var v := cs[Victim(cs)];
            (!v.promptEnd ==> forall j :: 0 <= j < |cs| ==> !cs[j].promptEnd) &&
            forall j :: 0 <= j < |cs| && cs[j].promptEnd == v.promptEnd ==> v.tick <= cs[j].tick
  {
    OldestIsOldest(cs, true, |cs|);
    OldestIsOldest(cs, false, |cs|);
  }

  /** Prompt-end entries go first; prefixes only when there is no prompt-end entry. */
  function Victim(cs: seq<PrefixCkpt>): (i: nat)
    requires cs != []
    ensures i < |cs|
  {
    OldestIsOldest(cs, false, |cs|);
    assert Eligible(cs[0], false);
    var e := Oldest(cs, true, |cs|);
    if e >= 0 then e else Oldest(cs, false, |cs|)
  }

  function Without(cs: seq<PrefixCkpt>, i: nat): seq<PrefixCkpt>
    requires i < |cs|
  {
    cs[..i] + cs[i + 1..]
  }

  /** Evicts until fewer than cap entries are left. */
  function MakeRoom(cs: seq<PrefixCkpt>, cap: nat): (r: seq<PrefixCkpt>)
    requires cap > 0
    ensures |r| < cap && |r| <= |cs|
    decreases |cs|
  {
    if |cs| < cap then cs else MakeRoom(Without(cs, Victim(cs)), cap)
  }

  predicate Insertable(ck: PrefixCkpt) {
    ck.ids != [] && ck.pos > 0
  }

  /** The index of the first of the entries from n on with these ids, or -1. */
  function IndexOf(cs: seq<PrefixCkpt>, ids: seq<int>, n: nat): (i: int)
    requires n <= |cs|
    ensures i == -1 || n <= i < |cs|
    ensures i >= 0 ==> cs[i].ids == ids
    ensures i < 0 ==> forall j :: n <= j < |cs| ==> cs[j].ids != ids
    decreases |cs| - n
  {
    if n == |cs| then -1
    else if cs[n].ids == ids then n
    else IndexOf(cs, ids, n + 1)
  }

  /** A stored entry takes the new contents; once a prefix, it stays a prefix. */
  function Refreshed(ex: PrefixCkpt, ck: PrefixCkpt, tick: nat): PrefixCkpt {
    PrefixCkpt(ex.ids, ck.rows, ck.streams, ck.pos, ex.promptEnd && ck.promptEnd, tick)
  }

  function AfterInsert(c: Cache, ck: PrefixCkpt, cap: nat): Cache
    requires cap > 0
  {
    if !Insertable(ck) then c
    else
      var i := IndexOf(c.entries, ck.ids, 0);
      if i >= 0 then Cache(c.entries[i := Refreshed(c.entries[i], ck, c.tick + 1)], c.tick + 1)
      else Cache(MakeRoom(c.entries, cap) + [ck.(tick := c.tick + 1)], c.tick + 1)
  }

  // ---------------------------------------------------------------------------------------------
  // Runs
  // ---------------------------------------------------------------------------------------------

  datatype Op = Look(prompt: seq<int>) | Put(ck: PrefixCkpt)

  function Apply(c: Cache, op: Op, minLen: nat, cap: nat): Cache
    requires cap > 0
  {
    match op
    case Look(prompt) => AfterLookup(c, prompt, minLen)
    case Put(ck) => AfterInsert(c, ck, cap)
  }

  /** The ids an operation uses: the hit of a lookup, or the stored ids. */
  function Used(c: Cache, op: Op, minLen: nat): seq<seq<int>> {
    match op
    case Look(prompt) =>
      var i := Longest(c.entries, prompt, minLen, |c.entries|);
      if i < 0 then [] else [c.entries[i].ids]
    case Put(ck) => if Insertable(ck) then [ck.ids] else []
  }

  function Run(c: Cache, ops: seq<Op>, minLen: nat, cap: nat): Cache
    requires cap > 0
    decreases |ops|
  {
    if ops == [] then c
    else Apply(Run(c, ops[..|ops| - 1], minLen, cap), ops[|ops| - 1], minLen, cap)
  }

  /** Everything used in a run, in order. */
  function Uses(c: Cache, ops: seq<Op>, minLen: nat, cap: nat): seq<seq<int>>
    requires cap > 0
    decreases |ops|
  {
    if ops == [] then []
    else
      var before := ops[..|ops| - 1];
      Uses(c, before, minLen, cap) + Used(Run(c, before, minLen, cap), ops[|ops| - 1], minLen)
  }

  predicate UniqueIds(cs: seq<PrefixCkpt>) {
    forall i, j :: 0 <= i < j < |cs| ==> cs[i].ids != cs[j].ids
  }

  predicate DistinctTicks(cs: seq<PrefixCkpt>) {
    forall i, j :: 0 <= i < j < |cs| ==> cs[i].tick != cs[j].tick
  }

  /** k is the last index at which ids occurs in uses. */
  predicate LastUse(uses: seq<seq<int>>, ids: seq<int>, k: int) {
    0 <= k < |uses| && uses[k] == ids && forall m :: k < m < |uses| ==> uses[m] != ids
  }

  /** The tick of an entry is the time of its last use, counted from t0. */
  predicate TellsRecency(cs: seq<PrefixCkpt>, t0: nat, uses: seq<seq<int>>) {
    forall i :: 0 <= i < |cs| ==> LastUse(uses, cs[i].ids, cs[i].tick - t0 - 1)
  }

  ghost predicate Healthy(c: Cache, t0: nat, uses: seq<seq<int>>, cap: nat) {
    && |c.entries| <= cap
    && UniqueIds(c.entries)
    && c.tick == t0 + |uses|
    && TellsRecency(c.entries, t0, uses)
  }

  lemma TicksAreDistinct(c: Cache, t0: nat, uses: seq<seq<int>>, cap: nat)
    requires Healthy(c, t0, uses, cap)
    ensures DistinctTicks(c.entries) && forall i :: 0 <= i < |c.entries| ==> t0 < c.entries[i].tick <= c.tick
  {
    forall i, j | 0 <= i < j < |c.entries|
      ensures c.entries[i].tick != c.entries[j].tick
    {
      assert LastUse(uses, c.entries[i].ids, c.entries[i].tick - t0 - 1);
      assert LastUse(uses, c.entries[j].ids, c.entries[j].tick - t0 - 1);
    }
    forall i | 0 <= i < |c.entries|
      ensures t0 < c.entries[i].tick <= c.tick
    {
      assert LastUse(uses, c.entries[i].ids, c.entries[i].tick - t0 - 1);
    }
  }

  lemma UseKeeps(uses: seq<seq<int>>, ids: seq<int>, k: int, now: seq<int>)
    requires LastUse(uses, ids, k) && now != ids
    ensures LastUse(uses + [now], ids, k)
  {}

  /** Setting entry i to the current time keeps the cache healthy. */
  lemma TouchKeeps(c: Cache, t0: nat, uses: seq<seq<int>>, cap: nat, i: nat, e: PrefixCkpt)
    requires Healthy(c, t0, uses, cap) && i < |c.entries|
    requires e.ids == c.entries[i].ids && e.tick == c.tick + 1
    ensures Healthy(Cache(c.entries[i := e], c.tick + 1), t0, uses + [e.ids], cap)
  {
    var es := c.entries[i := e];
    forall j | 0 <= j < |es|
      ensures LastUse(uses + [e.ids], es[j].ids, es[j].tick - t0 - 1)
    {
      if j != i {
        UseKeeps(uses, c.entries[j].ids, c.entries[j].tick - t0 - 1, e.ids);
      }
    }
  }

  lemma {:induction false} MakeRoomKeeps(cs: seq<PrefixCkpt>, cap: nat, t0: nat, uses: seq<seq<int>>, ids: seq<int>)
    requires cap > 0 && UniqueIds(cs) && TellsRecency(cs, t0, uses)
    requires forall j :: 0 <= j < |cs| ==> cs[j].ids != ids
    ensures var r := MakeRoom(cs, cap);
            UniqueIds(r) && TellsRecency(r, t0, uses) && forall j :: 0 <= j < |r| ==> r[j].ids != ids
    decreases |cs|
  {
    if |cs| >= cap {
      MakeRoomKeeps(Without(cs, Victim(cs)), cap, t0, uses, ids);
    }
  }

  lemma InsertKeeps(c: Cache, ck: PrefixCkpt, cap: nat, t0: nat, uses: seq<seq<int>>)
    requires cap > 0 && Healthy(c, t0, uses, cap) && Insertable(ck) && IndexOf(c.entries, ck.ids, 0) < 0
    ensures Healthy(AfterInsert(c, ck, cap), t0, uses + [ck.ids], cap)
  {
    hide MakeRoom;
    var r := MakeRoom(c.entries, cap);
    MakeRoomKeeps(c.entries, cap, t0, uses, ck.ids);
    forall j | 0 <= j < |r|
      ensures LastUse(uses + [ck.ids], r[j].ids, r[j].tick - t0 - 1)
    {
      UseKeeps(uses, r[j].ids, r[j].tick - t0 - 1, ck.ids);
    }
  }

  lemma ApplyKeeps(c: Cache, op: Op, minLen: nat, cap: nat, t0: nat, uses: seq<seq<int>>)
    requires cap > 0 && Healthy(c, t0, uses, cap)
    ensures Healthy(Apply(c, op, minLen, cap), t0, uses + Used(c, op, minLen), cap)
  {
    hide Healthy, Longest, MakeRoom;
    assert uses + [] == uses;
    match op
    case Look(prompt) =>
      var i := Longest(c.entries, prompt, minLen, |c.entries|);
      if i >= 0 {
        TouchKeeps(c, t0, uses, cap, i, c.entries[i].(tick := c.tick + 1));
      }
    case Put(ck) =>
      if Insertable(ck) {
        var i := IndexOf(c.entries, ck.ids, 0);
        if i >= 0 {
          TouchKeeps(c, t0, uses, cap, i, Refreshed(c.entries[i], ck, c.tick + 1));
        } else {
          InsertKeeps(c, ck, cap, t0, uses);
        }
      }
  }

  /**
   Over every run of lookups and insertions from the empty cache: the size stays within the cap, no
   ids are stored twice, and ticks order the entries by the time they were last used.
   */
  lemma {:induction false} RunKeeps(t0: nat, ops: seq<Op>, minLen: nat, cap: nat)
    requires cap > 0
    ensures Healthy(Run(Cache([], t0), ops, minLen, cap), t0, Uses(Cache([], t0), ops, minLen, cap), cap)
    decreases |ops|
  {
    if ops != [] {
      var before := ops[..|ops| - 1];
      RunKeeps(t0, before, minLen, cap);
      ApplyKeeps(Run(Cache([], t0), before, minLen, cap), ops[|ops| - 1], minLen, cap, t0,
                 Uses(Cache([], t0), before, minLen, cap));
    }
  }

  /** No entry of c' has the ids of entry i of c. */
  predicate Gone(c: Cache, i: nat, c': Cache)
    requires i < |c.entries|
  {
    forall j :: 0 <= j < |c'.entries| ==> c'.entries[j].ids != c.entries[i].ids
  }

  /** The last use of a is before the last use of b. */
  ghost predicate UsedBefore(uses: seq<seq<int>>, a: seq<int>, b: seq<int>) {
    forall k, m :: LastUse(uses, a, k) && LastUse(uses, b, m) ==> k < m
  }

  /** The ids of an insertion are stored afterwards, with the inserted contents. */
  lemma InsertedSurvives(c: Cache, ck: PrefixCkpt, cap: nat)
    requires cap > 0 && Insertable(ck)
    ensures var c' := AfterInsert(c, ck, cap);
            exists j :: 0 <= j < |c'.entries| && c'.entries[j].ids == ck.ids && c'.entries[j].rows == ck.rows &&
                        c'.entries[j].streams == ck.streams && c'.entries[j].tick == c'.tick
  {
    var c' := AfterInsert(c, ck, cap);
    var at := IndexOf(c.entries, ck.ids, 0);
    var j := if at >= 0 then at else |c'.entries| - 1;
    assert c'.entries[j].ids == ck.ids;
  }

  /** It counts as the end of a prompt only if nothing ever stored a prefix with its ids. */
  lemma InsertedClass(c: Cache, ck: PrefixCkpt, cap: nat, j: nat)
    requires cap > 0 && Insertable(ck) && UniqueIds(c.entries)
    requires j < |AfterInsert(c, ck, cap).entries| && AfterInsert(c, ck, cap).entries[j].ids == ck.ids
    ensures AfterInsert(c, ck, cap).entries[j].promptEnd <==>
            ck.promptEnd && forall i :: 0 <= i < |c.entries| && c.entries[i].ids == ck.ids ==> c.entries[i].promptEnd
  {
    hide MakeRoom;
    MakeRoomSubset(c.entries, cap);
    var at := IndexOf(c.entries, ck.ids, 0);
    var left := MakeRoom(c.entries, cap);
    if at >= 0 {
      OneIndex(c.entries, at, j);
    } else if j < |left| {
      assert left[j] in c.entries;
    }
  }

  lemma OneIndex(cs: seq<PrefixCkpt>, i: nat, j: nat)
    requires UniqueIds(cs) && i < |cs| && j < |cs| && cs[i].ids == cs[j].ids
    ensures i == j
  {}

  lemma {:induction false} MakeRoomSubset(cs: seq<PrefixCkpt>, cap: nat)
    requires cap > 0
    ensures forall e :: e in MakeRoom(cs, cap) ==> e in cs
    decreases |cs|
  {
    if |cs| >= cap {
      MakeRoomSubset(Without(cs, Victim(cs)), cap);
    }
  }

  /** Only an insertion of new ids into a full cache removes an entry, and only the victim. */
  lemma GoneMeansEvicted(c: Cache, op: Op, minLen: nat, cap: nat, i: nat)
    requires cap > 0 && |c.entries| <= cap && i < |c.entries|
    ensures var c' := Apply(c, op, minLen, cap);
            Gone(c, i, c') ==>
              op.Put? && Insertable(op.ck) && |c.entries| == cap && i == Victim(c.entries) &&
              IndexOf(c.entries, op.ck.ids, 0) < 0 && |c'.entries| == cap &&
              c'.entries[..cap - 1] == Without(c.entries, i)
  {
    var c' := Apply(c, op, minLen, cap);
    match op
    case Look(prompt) =>
      assert c'.entries[i].ids == c.entries[i].ids;
    case Put(ck) =>
      if !Insertable(ck) || IndexOf(c.entries, ck.ids, 0) >= 0 || |c.entries| < cap {
        assert c'.entries[i].ids == c.entries[i].ids;
      } else {
        var v := Victim(c.entries);
        assert MakeRoom(c.entries, cap) == Without(c.entries, v);
        assert c'.entries[..cap - 1] == Without(c.entries, v);
        if i != v {
          assert c'.entries[if i < v then i else i - 1] == c.entries[i];
        }
      }
  }

  /**
   What one operation may remove at any point of a run. A prefix entry goes only when no prompt-end
   entry is stored, and the entry that goes was last used before every other entry of its class.
   */
  lemma EvictsLeastRecentlyUsed(t0: nat, ops: seq<Op>, op: Op, minLen: nat, cap: nat, i: nat, j: nat)
    requires cap > 0
    requires var c := Run(Cache([], t0), ops, minLen, cap);
             i < |c.entries| && j < |c.entries| && i != j && Gone(c, i, Apply(c, op, minLen, cap))
    ensures var c := Run(Cache([], t0), ops, minLen, cap);
            var gone, other := c.entries[i], c.entries[j];
            && (other.promptEnd ==> gone.promptEnd)
            && (other.promptEnd == gone.promptEnd ==>
                  UsedBefore(Uses(Cache([], t0), ops, minLen, cap), gone.ids, other.ids))
            && other in Apply(c, op, minLen, cap).entries
  {
    var c := Run(Cache([], t0), ops, minLen, cap);
    var uses := Uses(Cache([], t0), ops, minLen, cap);
    RunKeeps(t0, ops, minLen, cap);
    RemovalIsLru(c, op, minLen, cap, t0, uses, i, j);
  }

  lemma RemovalIsLru(c: Cache, op: Op, minLen: nat, cap: nat, t0: nat, uses: seq<seq<int>>, i: nat, j: nat)
    requires cap > 0 && Healthy(c, t0, uses, cap)
    requires i < |c.entries| && j < |c.entries| && i != j && Gone(c, i, Apply(c, op, minLen, cap))
    ensures c.entries[j].promptEnd ==> c.entries[i].promptEnd
    ensures c.entries[j].promptEnd == c.entries[i].promptEnd ==> UsedBefore(uses, c.entries[i].ids, c.entries[j].ids)
    ensures c.entries[j] in Apply(c, op, minLen, cap).entries
  {
    var c' := Apply(c, op, minLen, cap);
    GoneMeansEvicted(c, op, minLen, cap, i);
    VictimIsOldest(c.entries);
    TicksAreDistinct(c, t0, uses, cap);
    assert c'.entries[if j < i then j else j - 1] == c'.entries[..cap - 1][if j < i then j else j - 1];
    assert c'.entries[if j < i then j else j - 1] == c.entries[j];
    assert LastUse(uses, c.entries[i].ids, c.entries[i].tick - t0 - 1);
    assert LastUse(uses, c.entries[j].ids, c.entries[j].tick - t0 - 1);
    assert c.entries[i].tick != c.entries[j].tick;
  }
}
