/** The cache as the emulator keeps it: an array of sets updated in place, searched with
    loops and addressed with shifts and masks. */
module CacheSim {
  import opened Words
  import opened Bits
  import opened Lru
  import opened CacheSet
  import opened FlatMemory
  import opened CacheModel
  import opened CacheTrace
  import opened Masks

  method LogLoop(x: nat) returns (result: nat)
    ensures result == Log(x)
  {
    result := 0;
    var rest: nat := x / 2;
    while rest > 0
      invariant Log(x) == result + (if rest == 0 then 0 else 1 + Log(rest))
      decreases rest
    {
      result := result + 1;
      rest := rest / 2;
    }
  }

  /** Update the matrix for an access, and find the row that is all zeros. */
  method LruStep(A: Ways, access: nat, matrix: Word) returns (m: Word, row: nat)
    requires access < A
    ensures m == Touch(A, access, matrix) && row == ZeroRow(A, m, 0)
  {
    hide WordOp, ShiftLeft, ShiftRight;
    var rowMask := Wrap(ShiftLeft(1, A) - 1);
    m := WordOp(Or, matrix, ShiftLeft(rowMask, access * A));
    var colMask: Word := 0;
    for r := 0 to A
      invariant colMask == ColMask(A, access, r)
    {
      colMask := WordOp(Or, colMask, ShiftLeft(1, r * A + access));
    }
    m := WordOp(And, m, Complement(colMask));
    row := 0;
    while row < A && WordOp(And, ShiftRight(m, row * A), rowMask) != 0
      invariant row <= A && ZeroRow(A, m, 0) == ZeroRow(A, m, row)
    {
      row := row + 1;
    }
    if row == A {
      row := 0;
    }
  }

  class CacheArray {
    const g: Geometry
    const sets: array<Set>
    var hits: nat
    var misses: nat
    var dirtyEvictions: nat
    var cleanEvictions: nat

    ghost predicate Valid()
      reads this, sets
    {
      Shaped(g, Model())
    }

    ghost function Model(): Cache
      reads this, sets
    {
      Cache(sets[..], hits, misses, dirtyEvictions, cleanEvictions)
    }

    constructor (g: Geometry)
      requires g.Valid()
      ensures Valid() && this.g == g && fresh(sets) && Model() == EmptyCache(g)
    {
      this.g := g;
      sets := new Set[g.S](_ => EmptySet(g));
      hits, misses, dirtyEvictions, cleanEvictions := 0, 0, 0, 0;
    }

    method SetOf(a: Word) returns (k: nat)
      requires Valid()
      ensures k == g.SetIndex(a) && k < sets.Length
    {
      var b := LogLoop(g.B);
      k := WordOp(And, ShiftRight(a, b), g.S - 1);
      IndexByMask(g, a);
    }

    method TagOf(a: Word) returns (t: Word)
      requires Valid()
      ensures t == g.Tag(a)
    {
      var b := LogLoop(g.B);
      var s := LogLoop(g.S);
      t := ShiftRight(a, b + s);
      TagByShift(g, a);
    }

    /** The line that holds `a`, or the number of lines. */
    method GetLine(a: Word) returns (k: nat, i: nat)
      requires Valid()
      ensures k == g.SetIndex(a) && k < sets.Length && i == Find(sets[k].lines, g.Tag(a), 0) && i <= g.A
    {
      k := SetOf(a);
      var tag := TagOf(a);
      i := 0;
      while i < g.A && !(sets[k].lines[i].valid && sets[k].lines[i].tag == tag)
        invariant i <= g.A && Find(sets[k].lines, tag, 0) == Find(sets[k].lines, tag, i)
      {
        i := i + 1;
      }
    }

    /** The line to give to a new block of set `k`. */
    method SelectLine(k: nat) returns (i: nat)
      requires Valid() && k < sets.Length
      ensures i == Victim(sets[k])
    {
      i := 0;
      while i < g.A && sets[k].lines[i].valid
        invariant i <= g.A && FirstInvalid(sets[k].lines, 0) == FirstInvalid(sets[k].lines, i)
      {
        i := i + 1;
      }
      if i == g.A {
        i := sets[k].nextLru;
      }
    }

    method TouchInPlace(k: nat, i: nat)
      requires Valid() && k < sets.Length && i < g.A
      modifies sets
      ensures Valid() && Model() == old(Model()).(sets := old(sets[..])[k := TouchLine(g.A, old(sets[k]), i)])
    {
      var m, row := LruStep(g.A, i, sets[k].matrix);
      sets[k] := sets[k].(matrix := m, nextLru := row);
    }

    method Check(a: Word, write: bool) returns (hit: bool)
      requires Valid()
      modifies this, sets
      ensures Valid()
      ensures CheckHit(g, old(Model()), a, write) == (hit, Model())
    {
      hide Touch, ZeroRow, Geometry.SetIndex, Geometry.Tag, IsPow2, Geometry.BlockAddr;
      var k, i := GetLine(a);
      if i == g.A {
        misses := misses + 1;
        return false;
      }
      hits := hits + 1;
      if write {
        sets[k] := sets[k].(lines := sets[k].lines[i := sets[k].lines[i].(dirty := true)]);
      }
      TouchInPlace(k, i);
      assert sets[..] == old(sets[..])[k := HitLine(g.A, old(sets[k]), i, write)];
      return true;
    }

    method Miss(a: Word, write: bool, data: seq<Byte>) returns (e: Evicted)
      requires Valid() && Victim(sets[g.SetIndex(a)]) < g.A
      modifies this, sets
      ensures Valid()
      ensures HandleMiss(g, old(Model()), a, write, data) == (e, Model())
    {
      hide Touch, ZeroRow, Geometry.SetIndex, Geometry.Tag, IsPow2, Geometry.BlockAddr, Log, WordOp, ShiftLeft;
      var newTag := TagOf(a);
      var k := SetOf(a);
      var i := SelectLine(k);
      var l := sets[k].lines[i];
      var b := LogLoop(g.B);
      var s := LogLoop(g.S);
      e := Evicted(l.valid, l.dirty, WordOp(Or, ShiftLeft(l.tag, b + s), ShiftLeft(k, b)), l.data);
      if l.valid && l.dirty {
        dirtyEvictions := dirtyEvictions + 1;
      } else if l.valid {
        cleanEvictions := cleanEvictions + 1;
      }
      sets[k] := sets[k].(lines := sets[k].lines[i := Line(true, newTag, write, data)]);
      TouchInPlace(k, i);
      assert sets[..] == old(sets[..])[k := Install(g.A, old(sets[k]), i, newTag, write, data)];
    }

    method GetWordAt(a: Word) returns (v: Word)
      requires Valid() && Cached(g, Model(), a)
      requires |LineOf(g, Model(), a).data| == g.B && g.Offset(a) + 8 <= g.B
      ensures v == GetWord(g, Model(), a)
    {
      hide WordOp, IsPow2, Geometry.SetIndex, Geometry.Tag, Geometry.BlockAddr;
      var k, i := GetLine(a);
      var offset := WordOp(And, a, g.B - 1);
      OffsetByMask(g, a);
      var bytes := sets[k].lines[i].data[offset..offset + 8];
      FromBytesBound(bytes);
      Pow256Is64();
      v := FromBytes(bytes);
    }

    method SetWordAt(a: Word, v: Word)
      requires Valid() && Cached(g, Model(), a)
      requires |LineOf(g, Model(), a).data| == g.B && g.Offset(a) + 8 <= g.B
      modifies sets
      ensures Valid()
      ensures Model() == SetWord(g, old(Model()), a, v)
    {
      hide WordOp, IsPow2, Geometry.SetIndex, Geometry.Tag, Geometry.BlockAddr;
      var k, i := GetLine(a);
      var offset := WordOp(And, a, g.B - 1);
      OffsetByMask(g, a);
      var l := sets[k].lines[i];
      var data := l.data[..offset] + ToBytes(v, 8) + l.data[offset + 8..];
      sets[k] := sets[k].(lines := sets[k].lines[i := l.(data := data, dirty := true)]);
    }

    /** One access of the standalone simulator. */
    method Simulate(a: Word, write: bool)
      requires Valid() && Victim(sets[g.SetIndex(a)]) < g.A
      modifies this, sets
      ensures Valid()
      ensures Model() == AccessData(g, old(Model()), Request(a, write))
    {
      hide Geometry.SetIndex, Geometry.Tag, IsPow2, Geometry.BlockAddr, HitLine, Install, Victim;
      var hit := Check(a, write);
      if !hit {
        var zeros: seq<Byte> := seq(g.B, _ => 0);
        var _ := Miss(a, write, zeros);
      }
    }
  }
}
