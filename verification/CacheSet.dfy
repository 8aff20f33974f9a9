/** One set of the cache: lookup, the choice of a victim and the update of the LRU
    matrix, related to the history of tags the set has been asked for. */
module CacheSet {
  import opened Words
  import opened Lru

  datatype Line = Line(valid: bool, tag: Word, dirty: bool, data: seq<Byte>)

  datatype Set = Set(lines: seq<Line>, matrix: Word, nextLru: Word)

  /** The first line from `i` on that holds `tag`, or the number of lines. */
  function Find(lines: seq<Line>, tag: Word, i: nat): (r: nat)
    requires i <= |lines|
    ensures i <= r <= |lines|
    ensures r < |lines| ==> lines[r].valid && lines[r].tag == tag
    ensures forall j | i <= j < r :: !(lines[j].valid && lines[j].tag == tag)
    decreases |lines| - i
  {
    if i == |lines| || (lines[i].valid && lines[i].tag == tag) then i else Find(lines, tag, i + 1)
  }

  /** The first line from `i` on that is empty, or the number of lines. */
  function FirstInvalid(lines: seq<Line>, i: nat): (r: nat)
    requires i <= |lines|
    ensures i <= r <= |lines|
    ensures r < |lines| ==> !lines[r].valid
    ensures forall j | i <= j < r :: lines[j].valid
    decreases |lines| - i
  {
    if i == |lines| || !lines[i].valid then i else FirstInvalid(lines, i + 1)
  }

  predicate Holds(s: Set, tag: Word) {
    Find(s.lines, tag, 0) < |s.lines|
  }

  /** The line a new block goes to. */
  function Victim(s: Set): nat {
    var i := FirstInvalid(s.lines, 0);
    if i < |s.lines| then i else s.nextLru
  }

  function TouchLine(A: Ways, s: Set, i: nat): Set {
    var m := Touch(A, i, s.matrix);
    s.(matrix := m, nextLru := ZeroRow(A, m, 0))
  }

  /** A hit on line `i`. */
  function HitLine(A: Ways, s: Set, i: nat, write: bool): Set
    requires i < |s.lines|
  {
    var s' := if write then s.(lines := s.lines[i := s.lines[i].(dirty := true)]) else s;
    TouchLine(A, s', i)
  }

  /** A miss: block `data` replaces whatever line `i` held. */
  function Install(A: Ways, s: Set, i: nat, tag: Word, write: bool, data: seq<Byte>): Set
    requires i < |s.lines|
  {
    TouchLine(A, s.(lines := s.lines[i := Line(true, tag, write, data)]), i)
  }

  // Histories.

  /** When `tag` was last asked for, counted from 1; 0 when it never was. */
  function LastUse(h: seq<Word>, tag: Word): (k: nat)
    ensures k <= |h|
    ensures k > 0 <==> tag in h
    ensures k > 0 ==> h[k - 1] == tag
  {
    if h == [] then 0
    else if h[|h| - 1] == tag then |h|
    else
      assert h == h[..|h| - 1] + [h[|h| - 1]];
      LastUse(h[..|h| - 1], tag)
  }

  function LineUse(s: Set, h: seq<Word>, i: nat): nat
    requires i < |s.lines|
  {
    if s.lines[i].valid then LastUse(h, s.lines[i].tag) else 0
  }

  /** `s` is what true LRU replacement leaves after the history `h`: the matrix orders
      the lines by last use, and every tag asked for but no longer present is older
      than all the lines, which are then all in use. */
  ghost predicate Tracks(A: Ways, s: Set, h: seq<Word>) {
    && |s.lines| == A
    && (forall i | 0 <= i < A :: s.lines[i].valid ==> s.lines[i].tag in h)
    && (forall i, j | 0 <= i < j < A :: s.lines[i].valid && s.lines[j].valid ==> s.lines[i].tag != s.lines[j].tag)
    && (forall i, j | 0 <= i < j < A :: s.lines[j].valid ==> s.lines[i].valid)
    && (forall r, c | 0 <= r < A && 0 <= c < A :: MatrixBit(A, s.matrix, r, c) <==> LineUse(s, h, r) > LineUse(s, h, c))
    && (h != [] ==> s.nextLru == ZeroRow(A, s.matrix, 0))
    && (forall t, i | t in h && !Holds(s, t) && 0 <= i < A :: LineUse(s, h, i) > LastUse(h, t))
  }

  lemma LastUseSnoc(h: seq<Word>, t: Word, u: Word)
    ensures LastUse(h + [t], u) == if u == t then |h| + 1 else LastUse(h, u)
  {
    assert (h + [t])[..|h|] == h;
  }

  lemma LastUseInjective(h: seq<Word>, t: Word, u: Word)
    requires t in h && LastUse(h, t) == LastUse(h, u)
    ensures t == u
  {}

  /** The line the matrix names is one no other line is older than. */
  lemma {:induction false} NextIsLeast(A: Ways, s: Set, h: seq<Word>)
    requires Tracks(A, s, h)
    ensures var v := ZeroRow(A, s.matrix, 0);
      v < A && forall i | 0 <= i < A :: LineUse(s, h, v) <= LineUse(s, h, i)
  {
    var least := LeastUsed(A, s, h, A);
    assert RowIsZero(A, s.matrix, least) by { RowIsZeroMeans(A, s.matrix, least); }
    ZeroRowFound(A, s.matrix, 0, least);
    var v := ZeroRow(A, s.matrix, 0);
    RowIsZeroMeans(A, s.matrix, v);
    forall i | 0 <= i < A ensures LineUse(s, h, v) <= LineUse(s, h, i) {
      assert !MatrixBit(A, s.matrix, v, i);
    }
  }

  ghost function LeastUsed(A: Ways, s: Set, h: seq<Word>, n: nat): (r: nat)
    requires |s.lines| == A && 1 <= n <= A
    ensures r < n
    ensures forall i | 0 <= i < n :: LineUse(s, h, r) <= LineUse(s, h, i)
  {
    if n == 1 then 0 else
    var r := LeastUsed(A, s, h, n - 1);
    if LineUse(s, h, n - 1) < LineUse(s, h, r) then n - 1 else r
  }

  lemma VictimInRange(A: Ways, s: Set, h: seq<Word>)
    requires Tracks(A, s, h)
    ensures Victim(s) < A
  {
    if FirstInvalid(s.lines, 0) == A {
      assert s.lines[0].valid;
    }
  }

  /** Touching line `i`, which now holds `t`, keeps the matrix in step with the history. */
  lemma TouchKeepsMatrix(A: Ways, s: Set, i: nat, t: Word, h: seq<Word>, s0: Set)
    requires |s.lines| == |s0.lines| == A && i < A
    requires s.lines[i].valid && s.lines[i].tag == t && s.matrix == s0.matrix
    requires forall j | 0 <= j < A && j != i :: s.lines[j] == s0.lines[j]
    requires forall j | 0 <= j < A && j != i && s.lines[j].valid :: s.lines[j].tag != t && s.lines[j].tag in h
    requires forall r, c | 0 <= r < A && 0 <= c < A ::
      MatrixBit(A, s0.matrix, r, c) <==> LineUse(s0, h, r) > LineUse(s0, h, c)
    ensures var s' := TouchLine(A, s, i);
      forall r, c | 0 <= r < A && 0 <= c < A ::
        MatrixBit(A, s'.matrix, r, c) <==> LineUse(s', h + [t], r) > LineUse(s', h + [t], c)
  {
    hide Touch, MatrixBit, ZeroRow, LastUse;
    var s' := TouchLine(A, s, i);
    forall r, c | 0 <= r < A && 0 <= c < A
      ensures MatrixBit(A, s'.matrix, r, c) <==> LineUse(s', h + [t], r) > LineUse(s', h + [t], c)
    {
      TouchBit(A, i, s.matrix, r, c);
      LastUseSnoc(h, t, s.lines[r].tag);
      LastUseSnoc(h, t, s.lines[c].tag);
    }
  }

  lemma HitTracks(A: Ways, s: Set, h: seq<Word>, t: Word, write: bool)
    requires Tracks(A, s, h) && Holds(s, t)
    ensures Tracks(A, HitLine(A, s, Find(s.lines, t, 0), write), h + [t])
  {
    hide Touch, MatrixBit, ZeroRow, LastUse;
    var i := Find(s.lines, t, 0);
    var s1 := if write then s.(lines := s.lines[i := s.lines[i].(dirty := true)]) else s;
    TouchKeepsMatrix(A, s1, i, t, h, s);
    var s' := HitLine(A, s, i, write);
    forall u | u in h + [t] && !Holds(s', u)
      ensures forall j | 0 <= j < A :: LineUse(s', h + [t], j) > LastUse(h + [t], u)
    {
      SameTagsHold(s, s', u);
      LastUseSnoc(h, t, u);
      forall j | 0 <= j < A ensures LineUse(s', h + [t], j) > LastUse(h + [t], u) {
        LastUseSnoc(h, t, s.lines[j].tag);
        assert LineUse(s, h, j) > LastUse(h, u);
      }
    }
  }

  lemma SameTagsHold(s: Set, s': Set, u: Word)
    requires |s.lines| == |s'.lines|
    requires forall j | 0 <= j < |s.lines| :: s.lines[j].valid == s'.lines[j].valid && s.lines[j].tag == s'.lines[j].tag
    ensures Holds(s, u) == Holds(s', u)
  {
    var a, b := Find(s.lines, u, 0), Find(s'.lines, u, 0);
  }

  lemma HoldsIff(s: Set, u: Word)
    ensures Holds(s, u) <==> exists j | 0 <= j < |s.lines| :: s.lines[j].valid && s.lines[j].tag == u
  {}

  lemma InstallTracks(A: Ways, s: Set, h: seq<Word>, t: Word, write: bool, data: seq<Byte>)
    requires Tracks(A, s, h) && !Holds(s, t)
    ensures Victim(s) < A && Tracks(A, Install(A, s, Victim(s), t, write, data), h + [t])
  {
    hide Touch, MatrixBit, ZeroRow, LastUse;
    VictimInRange(A, s, h);
    NextIsLeast(A, s, h);
    var i := Victim(s);
    var s1 := s.(lines := s.lines[i := Line(true, t, write, data)]);
    HoldsIff(s, t);
    TouchKeepsMatrix(A, s1, i, t, h, s);
    var s' := Install(A, s, i, t, write, data);
    forall u | u in h + [t] && !Holds(s', u)
      ensures forall j | 0 <= j < A :: LineUse(s', h + [t], j) > LastUse(h + [t], u)
    {
      HoldsIff(s', u);
      HoldsIff(s, u);
      assert u != t by { assert s'.lines[i].tag == t; }
      LastUseSnoc(h, t, u);
      forall j | 0 <= j < A ensures LineUse(s', h + [t], j) > LastUse(h + [t], u) {
        LastUseSnoc(h, t, s'.lines[j].tag);
        if j != i {
          EvictedIsOlder(A, s, h, u, i, j);
        }
      }
    }
  }

  /** A tag missing after line `i` is given away is older than every other line. */
  lemma EvictedIsOlder(A: Ways, s: Set, h: seq<Word>, u: Word, i: nat, j: nat)
    requires Tracks(A, s, h) && u in h && i < A && j < A && i != j && i == Victim(s)
    requires forall k | 0 <= k < A && k != i :: !(s.lines[k].valid && s.lines[k].tag == u)
    ensures LineUse(s, h, j) > LastUse(h, u)
  {
    HoldsIff(s, u);
    if Holds(s, u) {
      assert s.lines[i].valid && s.lines[i].tag == u;
      assert s.lines[0].valid;
      NextIsLeast(A, s, h);
      assert LineUse(s, h, i) <= LineUse(s, h, j);
      assert s.lines[j].valid;
      if LineUse(s, h, j) == LastUse(h, u) {
        LastUseInjective(h, u, s.lines[j].tag);
      }
    }
  }
}
