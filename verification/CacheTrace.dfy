/** Whole traces through the cache simulator: what is cached, what is counted, and what
    more associativity buys. */
module CacheTrace {
  import opened Words
  import opened CacheSet
  import opened LruContents
  import opened CacheModel
  import opened CacheCoherence

  datatype Request = Request(addr: Word, write: bool)

  /** One simulated access: a hit, or a miss whose block comes in as zeros. */
  function AccessData(g: Geometry, c: Cache, r: Request): (c': Cache)
    requires Shaped(g, c)
    ensures Shaped(g, c')
  {
    var (hit, c1) := CheckHit(g, c, r.addr, r.write);
    if hit || Victim(c1.sets[g.SetIndex(r.addr)]) >= g.A then c1
    else HandleMiss(g, c1, r.addr, r.write, seq(g.B, _ => 0)).1
  }

  function Replay(g: Geometry, trace: seq<Request>): (c: Cache)
    requires g.Valid()
    ensures Shaped(g, c)
  {
    if trace == [] then EmptyCache(g)
    else AccessData(g, Replay(g, trace[..|trace| - 1]), trace[|trace| - 1])
  }

  /** The tags the trace asks set `k` for, in order. */
  function History(g: Geometry, trace: seq<Request>, k: nat): seq<Word>
    requires g.Valid()
  {
    if trace == [] then [] else
    var rest, r := History(g, trace[..|trace| - 1], k), trace[|trace| - 1];
    if g.SetIndex(r.addr) == k then rest + [g.Tag(r.addr)] else rest
  }

  /** The block of `a` is among the A most recently used ones of its set. */
  ghost predicate Recent(g: Geometry, trace: seq<Request>, a: Word)
    requires g.Valid()
  {
    var h := History(g, trace, g.SetIndex(a));
    g.Tag(a) in h && |Newer(h, g.Tag(a))| < g.A
  }

  lemma {:induction false} ReplayTracks(g: Geometry, trace: seq<Request>, k: nat)
    requires g.Valid() && k < g.S
    ensures Tracks(g.A, Replay(g, trace).sets[k], History(g, trace, k))
  {
    hide Tracks, Geometry.SetIndex, Geometry.Tag, IsPow2, HitLine, Install, Victim, Holds;
    if trace == [] {
      EmptyTracks(g);
    } else {
      var before, r := trace[..|trace| - 1], trace[|trace| - 1];
      ReplayTracks(g, before, k);
      AccessTracks(g, Replay(g, before), r, k, History(g, before, k));
    }
  }

  lemma AccessTracks(g: Geometry, c: Cache, r: Request, k: nat, h: seq<Word>)
    requires Shaped(g, c) && k < g.S && Tracks(g.A, c.sets[k], h)
    ensures Tracks(g.A, AccessData(g, c, r).sets[k], if g.SetIndex(r.addr) == k then h + [g.Tag(r.addr)] else h)
  {
    hide Tracks, Geometry.SetIndex, Geometry.Tag, Geometry.BlockAddr, IsPow2, HitLine, Install, Victim;
    if g.SetIndex(r.addr) == k {
      var t := g.Tag(r.addr);
      if Holds(c.sets[k], t) {
        HitTracks(g.A, c.sets[k], h, t, r.write);
      } else {
        InstallTracks(g.A, c.sets[k], h, t, r.write, seq(g.B, _ => 0));
      }
    }
  }

  /** True LRU over whole traces: an access hits exactly when its block was asked for
      before, and fewer than A other blocks of its set have been asked for since. */
  lemma HitIffRecent(g: Geometry, trace: seq<Request>, a: Word)
    requires g.Valid()
    ensures Cached(g, Replay(g, trace), a) <==> Recent(g, trace, a)
  {
    ReplayTracks(g, trace, g.SetIndex(a));
    ContentsAreMostRecent(g.A, Replay(g, trace).sets[g.SetIndex(a)], History(g, trace, g.SetIndex(a)), g.Tag(a));
  }

  // Inclusion.

  predicate MoreWays(g: Geometry, g': Geometry) {
    g.Valid() && g'.Valid() && g'.B == g.B && g'.S == g.S && g.A <= g'.A
  }

  lemma {:induction false} SameHistory(g: Geometry, g': Geometry, trace: seq<Request>, k: nat)
    requires MoreWays(g, g')
    ensures History(g', trace, k) == History(g, trace, k)
  {
    if trace != [] { SameHistory(g, g', trace[..|trace| - 1], k); }
  }

  /** What the smaller cache holds at any point of any trace, the larger one holds too. */
  lemma MoreWaysHoldMore(g: Geometry, g': Geometry, trace: seq<Request>, a: Word)
    requires MoreWays(g, g') && Cached(g, Replay(g, trace), a)
    ensures Cached(g', Replay(g', trace), a)
  {
    HitIffRecent(g, trace, a);
    HitIffRecent(g', trace, a);
    SameHistory(g, g', trace, g.SetIndex(a));
    assert g'.Tag(a) == g.Tag(a) && g'.SetIndex(a) == g.SetIndex(a);
  }

  lemma {:induction false} MoreWaysMissLess(g: Geometry, g': Geometry, trace: seq<Request>)
    requires MoreWays(g, g')
    ensures Replay(g', trace).misses <= Replay(g, trace).misses
  {
    hide IsPow2, Cached;
    if trace != [] {
      var before, r := trace[..|trace| - 1], trace[|trace| - 1];
      MoreWaysMissLess(g, g', before);
      AccessCounts(g, Replay(g, before), r);
      AccessCounts(g', Replay(g', before), r);
      if Cached(g, Replay(g, before), r.addr) { MoreWaysHoldMore(g, g', before, r.addr); }
    }
  }

  lemma AccessCounts(g: Geometry, c: Cache, r: Request)
    requires Shaped(g, c)
    ensures var c' := AccessData(g, c, r);
      if Cached(g, c, r.addr) then c'.hits == c.hits + 1 && c'.misses == c.misses
      else c'.hits == c.hits && c'.misses == c.misses + 1
  {
    hide Geometry.SetIndex, Geometry.Tag, Geometry.BlockAddr, IsPow2, HitLine, Install, Victim;
  }

  // Conservation.

  function ValidLines(lines: seq<Line>): nat {
    if lines == [] then 0 else ValidLines(lines[..|lines| - 1]) + (if lines[|lines| - 1].valid then 1 else 0)
  }

  function ValidIn(sets: seq<Set>): nat {
    if sets == [] then 0 else ValidIn(sets[..|sets| - 1]) + ValidLines(sets[|sets| - 1].lines)
  }

  lemma {:induction false} UpdateLines(lines: seq<Line>, i: nat, l: Line)
    requires i < |lines|
    ensures ValidLines(lines[i := l]) + (if lines[i].valid then 1 else 0) ==
            ValidLines(lines) + (if l.valid then 1 else 0)
  {
    var n := |lines| - 1;
    if i == n {
      assert lines[i := l][..n] == lines[..n];
    } else {
      assert lines[i := l][..n] == lines[..n][i := l];
      UpdateLines(lines[..n], i, l);
    }
  }

  lemma {:induction false} UpdateSets(sets: seq<Set>, k: nat, s: Set)
    requires k < |sets|
    ensures ValidIn(sets[k := s]) + ValidLines(sets[k].lines) == ValidIn(sets) + ValidLines(s.lines)
  {
    var n := |sets| - 1;
    if k == n {
      assert sets[k := s][..n] == sets[..n];
    } else {
      assert sets[k := s][..n] == sets[..n][k := s];
      UpdateSets(sets[..n], k, s);
    }
  }

  lemma {:induction false} NoneValid(lines: seq<Line>)
    requires forall i | 0 <= i < |lines| :: !lines[i].valid
    ensures ValidLines(lines) == 0
  {
    if lines != [] { NoneValid(lines[..|lines| - 1]); }
  }

  lemma {:induction false} AllEmpty(sets: seq<Set>)
    requires forall k, i | 0 <= k < |sets| && 0 <= i < |sets[k].lines| :: !sets[k].lines[i].valid
    ensures ValidIn(sets) == 0
  {
    if sets != [] {
      AllEmpty(sets[..|sets| - 1]);
      NoneValid(sets[|sets| - 1].lines);
    }
  }

  lemma AccessConserves(g: Geometry, c: Cache, r: Request)
    requires Shaped(g, c) && Victim(c.sets[g.SetIndex(r.addr)]) < g.A
    ensures var c' := AccessData(g, c, r);
      c'.misses - c.misses ==
        (c'.dirtyEvictions - c.dirtyEvictions) + (c'.cleanEvictions - c.cleanEvictions)
        + (ValidIn(c'.sets) - ValidIn(c.sets))
  {
    hide Geometry.SetIndex, Geometry.Tag, Geometry.BlockAddr, IsPow2, Victim, HitLine, Install;
    var k := g.SetIndex(r.addr);
    var s := c.sets[k];
    var t := g.Tag(r.addr);
    var c' := AccessData(g, c, r);
    UpdateSets(c.sets, k, c'.sets[k]);
    assert c.sets[k := c'.sets[k]] == c'.sets;
    if Holds(s, t) {
      var i := Find(s.lines, t, 0);
      HitLines(g.A, s, i, r.write);
      UpdateLines(s.lines, i, s.lines[i].(dirty := true));
    } else {
      var data: seq<Byte> := seq(g.B, _ => 0);
      InstallLines(g.A, s, Victim(s), t, r.write, data);
      UpdateLines(s.lines, Victim(s), Line(true, t, r.write, data));
    }
  }

  /** Every access is a hit or a miss, and every block that ever came in was evicted
      clean, evicted dirty, or is still there. */
  lemma {:induction false} Conservation(g: Geometry, trace: seq<Request>)
    requires g.Valid()
    ensures var c := Replay(g, trace);
      && c.hits + c.misses == |trace|
      && c.misses == c.dirtyEvictions + c.cleanEvictions + ValidIn(c.sets)
  {
    hide IsPow2, Cached, Victim, Tracks;
    if trace == [] {
      AllEmpty(EmptyCache(g).sets);
    } else {
      var before, r := trace[..|trace| - 1], trace[|trace| - 1];
      Conservation(g, before);
      AccessCounts(g, Replay(g, before), r);
      ReplayTracks(g, before, g.SetIndex(r.addr));
      VictimInRange(g.A, Replay(g, before).sets[g.SetIndex(r.addr)], History(g, before, g.SetIndex(r.addr)));
      AccessConserves(g, Replay(g, before), r);
    }
  }
}
