/** What true LRU means for the contents of a set, and that more ways never hurt. */
module LruContents {
  import opened Words
  import opened Lru
  import opened CacheSet

  /** The distinct tags asked for since `tag` was last asked for. */
  ghost function Newer(h: seq<Word>, tag: Word): set<Word> {
    set u | u in h && LastUse(h, u) > LastUse(h, tag)
  }

  /** The tags in the first `n` lines. */
  ghost function TagSet(s: Set, n: nat): (r: set<Word>)
    requires n <= |s.lines|
    ensures |r| <= n
  {
    if n == 0 then {}
    else if s.lines[n - 1].valid then TagSet(s, n - 1) + {s.lines[n - 1].tag}
    else TagSet(s, n - 1)
  }

  lemma {:induction false} InTagSet(s: Set, n: nat, t: Word)
    requires n <= |s.lines|
    ensures t in TagSet(s, n) <==> exists i :: 0 <= i < n && s.lines[i].valid && s.lines[i].tag == t
  {
    if n > 0 { InTagSet(s, n - 1, t); }
  }

  lemma {:induction false} TagSetSize(s: Set, n: nat)
    requires n <= |s.lines| && forall i | 0 <= i < n :: s.lines[i].valid
    requires forall i, j | 0 <= i < j < n :: s.lines[i].tag != s.lines[j].tag
    ensures |TagSet(s, n)| == n
  {
    if n > 0 {
      TagSetSize(s, n - 1);
      InTagSet(s, n - 1, s.lines[n - 1].tag);
    }
  }

  lemma {:induction false} SubsetSize<T>(a: set<T>, b: set<T>)
    requires a <= b
    ensures |a| <= |b|
  {
    if a != {} {
      var x :| x in a;
      SubsetSize(a - {x}, b - {x});
    }
  }

  /** A tag asked for later than one that is still there is still there, too. */
  lemma NewerIsHeld(A: Ways, s: Set, h: seq<Word>, i: nat, u: Word)
    requires Tracks(A, s, h) && i < A && u in h && LineUse(s, h, i) <= LastUse(h, u)
    ensures Holds(s, u)
  {}

  /** A set of associativity A holds exactly the tags with fewer than A distinct tags
      asked for since: the A most recently used ones. */
  lemma ContentsAreMostRecent(A: Ways, s: Set, h: seq<Word>, t: Word)
    requires Tracks(A, s, h)
    ensures Holds(s, t) <==> t in h && |Newer(h, t)| < A
  {
    if Holds(s, t) {
      NewerFit(A, s, h, t);
    } else if t in h {
      AllNewer(A, s, h, t);
    }
  }

  lemma NewerFit(A: Ways, s: Set, h: seq<Word>, t: Word)
    requires Tracks(A, s, h) && Holds(s, t)
    ensures t in h && |Newer(h, t)| < A
  {
    hide TagSet;
    var i := Find(s.lines, t, 0);
    var all := TagSet(s, A);
    InTagSet(s, A, t);
    forall u | u in Newer(h, t) ensures u in all - {t} {
      NewerIsHeld(A, s, h, i, u);
      HoldsIff(s, u);
      InTagSet(s, A, u);
    }
    SubsetSize(Newer(h, t), all - {t});
  }

  lemma AllNewer(A: Ways, s: Set, h: seq<Word>, t: Word)
    requires Tracks(A, s, h) && t in h && !Holds(s, t)
    ensures |Newer(h, t)| >= A
  {
    hide TagSet;
    var all := TagSet(s, A);
    forall i | 0 <= i < A
      ensures s.lines[i].valid && s.lines[i].tag in Newer(h, t)
    {
      assert LineUse(s, h, i) > LastUse(h, t);
    }
    forall u | u in all ensures u in Newer(h, t) {
      InTagSet(s, A, u);
    }
    TagSetSize(s, A);
    SubsetSize(all, Newer(h, t));
  }

  /** For the same history, whatever a set holds, a set with more ways holds too. */
  lemma Inclusion(A: Ways, A': Ways, s: Set, s': Set, h: seq<Word>, t: Word)
    requires A <= A' && Tracks(A, s, h) && Tracks(A', s', h)
    requires Holds(s, t)
    ensures Holds(s', t)
  {
    ContentsAreMostRecent(A, s, h, t);
    ContentsAreMostRecent(A', s', h, t);
  }
}
