/** What the simulator counts, in terms of the trace alone: which blocks leave, and which of
    them were written while they were there. */
module EvictionCounts {
  import opened Words
  import opened Lru
  import opened CacheSet
  import opened LruContents
  import opened CacheModel
  import opened CacheCoherence
  import opened CacheTrace

  // One set.

  /** The line that holds `t` is dirty. */
  predicate DirtyIn(s: Set, t: Word)
    requires Holds(s, t)
  {
    s.lines[Find(s.lines, t, 0)].dirty
  }

  lemma HitDirty(A: Ways, s: Set, t: Word, write: bool, u: Word)
    requires |s.lines| == A && Holds(s, t)
    ensures var s' := HitLine(A, s, Find(s.lines, t, 0), write);
      && Holds(s', u) == Holds(s, u)
      && (Holds(s, u) ==> (DirtyIn(s', u) <==> DirtyIn(s, u) || (write && u == t)))
  {
    var i := Find(s.lines, t, 0);
    HitLines(A, s, i, write);
    var s' := HitLine(A, s, i, write);
    SameTagsHold(s, s', u);
    SameFind(s, s', u);
  }

  lemma MissDirty(A: Ways, s: Set, h: seq<Word>, t: Word, write: bool, data: seq<Byte>, u: Word)
    requires Tracks(A, s, h) && !Holds(s, t)
    ensures Victim(s) < A
    ensures var s', l := Install(A, s, Victim(s), t, write, data), s.lines[Victim(s)];
      && Holds(s', t) && DirtyIn(s', t) == write
      && (l.valid ==> Holds(s, l.tag) && l.tag != t && DirtyIn(s, l.tag) == l.dirty)
      && (u != t ==> (Holds(s', u) <==> Holds(s, u) && !(l.valid && u == l.tag)))
      && (u != t && Holds(s', u) ==> DirtyIn(s', u) == DirtyIn(s, u))
  {
    hide Tracks, Touch, TouchLine, Find, LruOk, Victim, Install;
    HasLines(A, s, h);
    VictimInRange(A, s, h);
    InstallTracks(A, s, h, t, write, data);
    var i := Victim(s);
    InstallLines(A, s, i, t, write, data);
    var s' := Install(A, s, i, t, write, data);
    HasLines(A, s', h + [t]);
    LookupAfterInstall(A, s, s', i, t, u);
    LookupAfterInstall(A, s, s', i, t, t);
    if s.lines[i].valid {
      HoldsIff(s, s.lines[i].tag);
      LookupAfterInstall(A, s, s', i, t, s.lines[i].tag);
    }
  }

  lemma HasLines(A: Ways, s: Set, h: seq<Word>)
    requires Tracks(A, s, h)
    ensures |s.lines| == A && LruOk(A, s)
  {}

  // Traces.

  /** The trace has written the block of `a` since it last came in. */
  ghost predicate Written(g: Geometry, trace: seq<Request>, a: Word)
    requires g.Valid()
  {
    trace != []
    && var before, r := trace[..|trace| - 1], trace[|trace| - 1];
    if g.SetIndex(r.addr) == g.SetIndex(a) && g.Tag(r.addr) == g.Tag(a) then
      r.write || (Recent(g, before, a) && Written(g, before, a))
    else Written(g, before, a)
  }

  /** The block of `b` leaves for that of the request. */
  ghost predicate Leaves(g: Geometry, before: seq<Request>, r: Request, b: Word)
    requires g.Valid()
  {
    Recent(g, before, b) && !Recent(g, before + [r], b)
  }

  /** How many requests find their block, and how many make one leave that has been written
      since it came in, or one that has not. */
  ghost function HitsIn(g: Geometry, trace: seq<Request>): nat
    requires g.Valid()
  {
    if trace == [] then 0 else
    var before, r := trace[..|trace| - 1], trace[|trace| - 1];
    HitsIn(g, before) + (if Recent(g, before, r.addr) then 1 else 0)
  }

  ghost function LeaveWritten(g: Geometry, trace: seq<Request>): nat
    requires g.Valid()
  {
    if trace == [] then 0 else
    var before, r := trace[..|trace| - 1], trace[|trace| - 1];
    LeaveWritten(g, before) + (if exists b: Word :: Leaves(g, before, r, b) && Written(g, before, b) then 1 else 0)
  }

  ghost function LeaveUnwritten(g: Geometry, trace: seq<Request>): nat
    requires g.Valid()
  {
    if trace == [] then 0 else
    var before, r := trace[..|trace| - 1], trace[|trace| - 1];
    LeaveUnwritten(g, before) + (if exists b: Word :: Leaves(g, before, r, b) && !Written(g, before, b) then 1 else 0)
  }

  /** One access, in the set it goes to. */
  lemma AccessInSet(g: Geometry, before: seq<Request>, r: Request)
    requires g.Valid()
    ensures var c, c', k, t := Replay(g, before), Replay(g, before + [r]), g.SetIndex(r.addr), g.Tag(r.addr);
      var s, data: seq<Byte> := c.sets[k], seq(g.B, _ => 0);
      && Tracks(g.A, s, History(g, before, k)) && Victim(s) < g.A == |s.lines|
      && (forall j | 0 <= j < g.S && j != k :: c'.sets[j] == c.sets[j])
      && (if Holds(s, t) then
            c'.sets[k] == HitLine(g.A, s, Find(s.lines, t, 0), r.write)
            && c'.hits == c.hits + 1 && c'.misses == c.misses
            && c'.dirtyEvictions == c.dirtyEvictions && c'.cleanEvictions == c.cleanEvictions
          else
            var l := s.lines[Victim(s)];
            c'.sets[k] == Install(g.A, s, Victim(s), t, r.write, data)
            && c'.hits == c.hits && c'.misses == c.misses + 1
            && c'.dirtyEvictions == c.dirtyEvictions + (if l.valid && l.dirty then 1 else 0)
            && c'.cleanEvictions == c.cleanEvictions + (if l.valid && !l.dirty then 1 else 0))
  {
    hide Geometry.SetIndex, Geometry.Tag, Geometry.BlockAddr, IsPow2, HitLine, Install, Victim, Tracks;
    assert (before + [r])[..|before|] == before;
    ReplayTracks(g, before, g.SetIndex(r.addr));
    VictimInRange(g.A, Replay(g, before).sets[g.SetIndex(r.addr)], History(g, before, g.SetIndex(r.addr)));
  }

  lemma WrittenGrows(g: Geometry, before: seq<Request>, r: Request, a: Word)
    requires g.Valid()
    ensures Written(g, before + [r], a) <==>
      if g.SetIndex(r.addr) == g.SetIndex(a) && g.Tag(r.addr) == g.Tag(a) then
        r.write || (Recent(g, before, a) && Written(g, before, a))
      else Written(g, before, a)
  {
    hide Geometry.SetIndex, Geometry.Tag, IsPow2, Recent;
    assert (before + [r])[..|before|] == before;
  }

  /** A cached block's line is dirty exactly if the block has been written since it came in. */
  lemma {:induction false} DirtyIffWritten(g: Geometry, trace: seq<Request>, a: Word)
    requires g.Valid() && Cached(g, Replay(g, trace), a)
    ensures LineOf(g, Replay(g, trace), a).dirty <==> Written(g, trace, a)
  {
    hide Geometry.SetIndex, Geometry.Tag, Geometry.BlockAddr, IsPow2, HitLine, Install, Victim, Tracks, Recent,
      Replay;
    if trace == [] {
      NothingCached(g, a);
    } else {
      var before, r := trace[..|trace| - 1], trace[|trace| - 1];
      assert trace == before + [r];
      AccessInSet(g, before, r);
      WrittenGrows(g, before, r, a);
      HitIffRecent(g, before, a);
      if Cached(g, Replay(g, before), a) { DirtyIffWritten(g, before, a); }
      if g.SetIndex(r.addr) == g.SetIndex(a) {
        var k := g.SetIndex(a);
        var s, t := Replay(g, before).sets[k], g.Tag(r.addr);
        if Holds(s, t) {
          HitDirty(g.A, s, t, r.write, g.Tag(a));
        } else {
          MissDirty(g.A, s, History(g, before, k), t, r.write, seq(g.B, _ => 0), g.Tag(a));
        }
      }
    }
  }

  lemma NothingCached(g: Geometry, a: Word)
    requires g.Valid()
    ensures !Cached(g, Replay(g, []), a)
  {}

  /** Requests name the blocks that a history has the tags of. */
  lemma {:induction false} BlockOfTag(g: Geometry, trace: seq<Request>, k: nat, u: Word) returns (b: Word)
    requires g.Valid() && u in History(g, trace, k)
    ensures g.SetIndex(b) == k && g.Tag(b) == u
  {
    hide Geometry.SetIndex, Geometry.Tag, IsPow2;
    var before, r := trace[..|trace| - 1], trace[|trace| - 1];
    if g.SetIndex(r.addr) == k && g.Tag(r.addr) == u {
      b := r.addr;
    } else {
      b := BlockOfTag(g, before, k, u);
    }
  }

  /** The line that a request's block would go to, before the request. */
  function VictimLine(g: Geometry, c: Cache, a: Word): Line
    requires Shaped(g, c) && Victim(c.sets[g.SetIndex(a)]) < g.A
  {
    var s := c.sets[g.SetIndex(a)];
    s.lines[Victim(s)]
  }

  /** What leaves is the block in the victim's line, and its dirty bit says whether it has
      been written. */
  lemma LeavesIsVictim(g: Geometry, before: seq<Request>, r: Request, b: Word)
    requires g.Valid()
    ensures var c, k := Replay(g, before), g.SetIndex(r.addr);
      && Victim(c.sets[k]) < g.A
      && var l := VictimLine(g, c, r.addr);
         && (Leaves(g, before, r, b) <==>
               !Cached(g, c, r.addr) && l.valid && g.SetIndex(b) == k && g.Tag(b) == l.tag)
         && (Leaves(g, before, r, b) ==> (Written(g, before, b) <==> l.dirty))
  {
    hide Geometry.SetIndex, Geometry.Tag, Geometry.BlockAddr, IsPow2, HitLine, Install, Victim, Tracks, Recent,
      Replay, Written;
    var c, k, t := Replay(g, before), g.SetIndex(r.addr), g.Tag(r.addr);
    var s := c.sets[k];
    AccessInSet(g, before, r);
    HitIffRecent(g, before, b);
    HitIffRecent(g, before + [r], b);
    if Cached(g, c, b) { DirtyIffWritten(g, before, b); }
    if g.SetIndex(b) == k {
      if Holds(s, t) {
        HitDirty(g.A, s, t, r.write, g.Tag(b));
      } else {
        MissDirty(g.A, s, History(g, before, k), t, r.write, seq(g.B, _ => 0), g.Tag(b));
      }
    }
  }

  /** A valid line's block has an address. */
  lemma LineHasAddress(g: Geometry, before: seq<Request>, r: Request) returns (b: Word)
    requires g.Valid() && Victim(Replay(g, before).sets[g.SetIndex(r.addr)]) < g.A
    requires VictimLine(g, Replay(g, before), r.addr).valid
    ensures g.SetIndex(b) == g.SetIndex(r.addr) && g.Tag(b) == VictimLine(g, Replay(g, before), r.addr).tag
  {
    hide Geometry.SetIndex, Geometry.Tag, Geometry.BlockAddr, IsPow2, Victim, Replay;
    ReplayTracks(g, before, g.SetIndex(r.addr));
    b := BlockOfTag(g, before, g.SetIndex(r.addr), VictimLine(g, Replay(g, before), r.addr).tag);
  }

  /** Each access counts what it does. */
  lemma AccessIsCounted(g: Geometry, before: seq<Request>, r: Request)
    requires g.Valid()
    ensures var c, c' := Replay(g, before), Replay(g, before + [r]);
      && c'.hits == c.hits + (if Recent(g, before, r.addr) then 1 else 0)
      && c'.misses == c.misses + (if Recent(g, before, r.addr) then 0 else 1)
      && c'.dirtyEvictions == c.dirtyEvictions +
           (if exists b: Word :: Leaves(g, before, r, b) && Written(g, before, b) then 1 else 0)
      && c'.cleanEvictions == c.cleanEvictions +
           (if exists b: Word :: Leaves(g, before, r, b) && !Written(g, before, b) then 1 else 0)
  {
    hide Geometry.SetIndex, Geometry.Tag, Geometry.BlockAddr, IsPow2, HitLine, Install, Victim, Tracks, Recent,
      Replay, Written, Leaves;
    var c := Replay(g, before);
    AccessInSet(g, before, r);
    HitIffRecent(g, before, r.addr);
    LeavesIsVictim(g, before, r, 0);
    if !Cached(g, c, r.addr) && VictimLine(g, c, r.addr).valid {
      var b := LineHasAddress(g, before, r);
      LeavesIsVictim(g, before, r, b);
    }
    forall b: Word | Leaves(g, before, r, b)
      ensures !Cached(g, c, r.addr) && VictimLine(g, c, r.addr).valid
      ensures Written(g, before, b) <==> VictimLine(g, c, r.addr).dirty
    {
      LeavesIsVictim(g, before, r, b);
    }
  }

  /** The four numbers of the report are numbers of the trace alone. */
  lemma {:induction false} CountersAreOfTrace(g: Geometry, trace: seq<Request>)
    requires g.Valid()
    ensures var c := Replay(g, trace);
      && c.hits == HitsIn(g, trace) && c.misses + HitsIn(g, trace) == |trace|
      && c.dirtyEvictions == LeaveWritten(g, trace) && c.cleanEvictions == LeaveUnwritten(g, trace)
  {
    hide IsPow2, Recent, Written, Leaves, AccessData;
    if trace != [] {
      var before, r := trace[..|trace| - 1], trace[|trace| - 1];
      assert trace == before + [r];
      CountersAreOfTrace(g, before);
      AccessIsCounted(g, before, r);
    }
  }

  // When something leaves.

  /** The distinct tags of a history. */
  ghost function TagsOf(h: seq<Word>): set<Word> {
    set u | u in h
  }

  lemma FullMeansAsked(A: Ways, s: Set, h: seq<Word>)
    requires Tracks(A, s, h)
    ensures Victim(s) < A && (s.lines[Victim(s)].valid <==> |TagsOf(h)| >= A)
  {
    VictimInRange(A, s, h);
    var i := FirstInvalid(s.lines, 0);
    if i == A {
      TagSetSize(s, A);
      forall u | u in TagSet(s, A) ensures u in TagsOf(h) { InTagSet(s, A, u); }
      SubsetSize(TagSet(s, A), TagsOf(h));
    } else {
      forall u | u in TagsOf(h) ensures u in TagSet(s, i) { OnlyBelow(A, s, h, i, u); }
      SubsetSize(TagsOf(h), TagSet(s, i));
    }
  }

  lemma OnlyBelow(A: Ways, s: Set, h: seq<Word>, i: nat, u: Word)
    requires Tracks(A, s, h) && i < A && !s.lines[i].valid && u in h
    ensures u in TagSet(s, i)
  {
    assert LineUse(s, h, i) == 0;
    assert Holds(s, u);
    InTagSet(s, i, u);
  }

  /** A request that misses makes a block leave exactly if its set has been asked for at
      least A blocks, and then one. */
  lemma LeavesIffFull(g: Geometry, before: seq<Request>, r: Request)
    requires g.Valid() && !Recent(g, before, r.addr)
    ensures (exists b: Word :: Leaves(g, before, r, b)) <==> |TagsOf(History(g, before, g.SetIndex(r.addr)))| >= g.A
    ensures forall b: Word, b': Word | Leaves(g, before, r, b) && Leaves(g, before, r, b') ::
      g.BlockBase(b) == g.BlockBase(b')
  {
    hide Geometry.SetIndex, Geometry.Tag, Geometry.BlockAddr, IsPow2, Victim, Tracks, Recent, Replay, Leaves, Written,
      Geometry.BlockBase;
    var c, k := Replay(g, before), g.SetIndex(r.addr);
    HitIffRecent(g, before, r.addr);
    ReplayTracks(g, before, k);
    FullMeansAsked(g.A, c.sets[k], History(g, before, k));
    LeavesIsVictim(g, before, r, 0);
    if VictimLine(g, c, r.addr).valid {
      var b := LineHasAddress(g, before, r);
      LeavesIsVictim(g, before, r, b);
    }
    forall b: Word | Leaves(g, before, r, b)
      ensures VictimLine(g, c, r.addr).valid && g.SetIndex(b) == k && g.Tag(b) == VictimLine(g, c, r.addr).tag
    {
      LeavesIsVictim(g, before, r, b);
    }
    forall b: Word, b': Word | Leaves(g, before, r, b) && Leaves(g, before, r, b')
      ensures g.BlockBase(b) == g.BlockBase(b')
    {
      SameBlock(g, b, b');
    }
  }

  // Reads and writes.

  lemma {:induction false} ReadsWriteNothing(g: Geometry, trace: seq<Request>, a: Word)
    requires g.Valid() && forall i | 0 <= i < |trace| :: !trace[i].write
    ensures !Written(g, trace, a)
  {
    hide Geometry.SetIndex, Geometry.Tag, IsPow2, Recent;
    if trace != [] { ReadsWriteNothing(g, trace[..|trace| - 1], a); }
  }

  lemma {:induction false} WritesWriteAll(g: Geometry, trace: seq<Request>, a: Word)
    requires g.Valid() && (forall i | 0 <= i < |trace| :: trace[i].write)
    requires g.Tag(a) in History(g, trace, g.SetIndex(a))
    ensures Written(g, trace, a)
  {
    hide Geometry.SetIndex, Geometry.Tag, IsPow2, Recent;
    var before, r := trace[..|trace| - 1], trace[|trace| - 1];
    if !(g.SetIndex(r.addr) == g.SetIndex(a) && g.Tag(r.addr) == g.Tag(a)) { WritesWriteAll(g, before, a); }
  }

  /** A trace of reads evicts nothing dirty. */
  lemma {:induction false} ReadsEvictClean(g: Geometry, trace: seq<Request>)
    requires g.Valid() && forall i | 0 <= i < |trace| :: !trace[i].write
    ensures Replay(g, trace).dirtyEvictions == 0
  {
    hide IsPow2, Recent, Written, AccessData;
    if trace != [] {
      var before, r := trace[..|trace| - 1], trace[|trace| - 1];
      assert trace == before + [r];
      ReadsEvictClean(g, before);
      AccessIsCounted(g, before, r);
      forall b: Word ensures !Written(g, before, b) { ReadsWriteNothing(g, before, b); }
    }
  }

  /** A trace of writes evicts nothing clean. */
  lemma {:induction false} WritesEvictDirty(g: Geometry, trace: seq<Request>)
    requires g.Valid() && forall i | 0 <= i < |trace| :: trace[i].write
    ensures Replay(g, trace).cleanEvictions == 0
  {
    hide IsPow2, Written, AccessData, Geometry.SetIndex, Geometry.Tag;
    if trace != [] {
      var before, r := trace[..|trace| - 1], trace[|trace| - 1];
      assert trace == before + [r];
      WritesEvictDirty(g, before);
      AccessIsCounted(g, before, r);
      forall b: Word | Leaves(g, before, r, b) ensures Written(g, before, b) { WritesWriteAll(g, before, b); }
    }
  }
}
