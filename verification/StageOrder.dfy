/** The five stages of a cycle may run in any order. */
module StageOrder {
  import opened Words
  import opened Isa
  import opened MemorySystem
  import opened Datapath
  import opened Sequential
  import opened Pipeline
  import opened Invariant
  import opened TextMemory
  import opened OperandValues

  datatype Stage = Fetch | Decode | Execute | Memory | Writeback

  function RunOne(p: Program, st: Stage, s: Cpu): (s': Cpu)
    requires s.Ok(p.cfg)
    ensures s'.Ok(p.cfg)
  {
    match st
    case Fetch => FetchStage(p, s)
    case Decode => DecodeStage(s)
    case Execute => ExecuteStage(s)
    case Memory => MemoryStage(p, s)
    case Writeback => WritebackStage(s)
  }

  function RunOrder(p: Program, order: seq<Stage>, s: Cpu): (s': Cpu)
    requires s.Ok(p.cfg)
    ensures s'.Ok(p.cfg)
  {
    if order == [] then s else RunOrder(p, order[1..], RunOne(p, order[0], s))
  }

  const SOURCE_ORDER := [Fetch, Decode, Execute, Memory, Writeback]

  predicate EachOnce(order: seq<Stage>) {
    multiset(order) == multiset(SOURCE_ORDER)
  }

  /** Fetch makes up a HLT, or it reads a word that the data access of this cycle leaves as
      it is, and memory raises no fault or fetch would set the next PC to the faulting
      instruction's own address anyway. */
  predicate Agreeable(p: Program, s: Cpu)
    requires s.Ok(p.cfg)
  {
    || FetchHalts(s)
    || (&& InstrBits(p.cfg, DataAccess(p.cfg, s.mem, s.mOut).0, SelectPC(s)) == FetchWord(p, s)
        && (|| !(AddressFault(p.cfg, s.mOut) || IsFault(s.mOut.status))
            || NextPC(p.cfg, FetchWord(p, s), SelectPC(s)) == Wrap(s.mOut.value - 4)))
  }

  /** In every state of a run, the data access leaves the word of a text address as it is. */
  lemma TextWordStays(p: Program, a0: Arch, s: Cpu, k: nat)
    requires a0.regs.Valid() && DataBehaves(p, a0) && Inv(p, a0, s, k)
    requires SelectPC(s) != 0 && !FetchFault(p.cfg, SelectPC(s))
    ensures InstrBits(p.cfg, DataAccess(p.cfg, s.mem, s.mOut).0, SelectPC(s)) == FetchWord(p, s) == p.code(SelectPC(s))
  {
    hide HoldsX, HoldsM, HoldsW, HoldsD, FetchReady, Squashed, DataAgrees, MemOk, DataBehaves, DataAccess, SelectPC,
      Quiet, View, Halted;
    MemoryInCycle(p, a0, s, k);
    FetchesProgram(p, s);
  }

  predicate NoRepeats(order: seq<Stage>) {
    forall st :: multiset(order)[st] <= 1
  }

  lemma Commute(p: Program, a: Stage, b: Stage, s: Cpu)
    requires s.Ok(p.cfg) && a != b
    requires {a, b} == {Fetch, Memory} ==> Quiet(p, s) && Agreeable(p, s)
    ensures RunOne(p, a, RunOne(p, b, s)) == RunOne(p, b, RunOne(p, a, s))
  {
    hide RunOne, Agreeable;
    match a
    case Fetch => if b == Memory { FetchCommutes(p, Memory, s); } else { FetchCommutes(p, b, s); }
    case Memory => if b == Fetch { FetchCommutes(p, Memory, s); } else { MemoryCommutes(p, b, s); }
    case _ =>
      if b == Fetch { FetchCommutes(p, a, s); }
      else if b == Memory { MemoryCommutes(p, a, s); }
      else { OthersCommute(p, a, b, s); }
  }

  lemma FetchCommutes(p: Program, b: Stage, s: Cpu)
    requires s.Ok(p.cfg) && b != Fetch && (b == Memory ==> Quiet(p, s) && Agreeable(p, s))
    ensures RunOne(p, Fetch, RunOne(p, b, s)) == RunOne(p, b, RunOne(p, Fetch, s))
  {
    hide Datapath.Decode, Datapath.Execute, ExecuteFlags, DataAccess, FetchAt, Sources, AddressFault, NextPC;
    if b == Memory { FetchMemory(p, s); }
  }

  lemma MemoryCommutes(p: Program, b: Stage, s: Cpu)
    requires s.Ok(p.cfg) && b != Fetch && b != Memory
    ensures RunOne(p, Memory, RunOne(p, b, s)) == RunOne(p, b, RunOne(p, Memory, s))
  {
    hide Datapath.Decode, Datapath.Execute, ExecuteFlags, DataAccess, Sources, AddressFault;
  }

  lemma OthersCommute(p: Program, a: Stage, b: Stage, s: Cpu)
    requires s.Ok(p.cfg) && Fetch !in {a, b} && Memory !in {a, b}
    ensures RunOne(p, a, RunOne(p, b, s)) == RunOne(p, b, RunOne(p, a, s))
  {
    hide Datapath.Decode, Datapath.Execute, ExecuteFlags, Sources;
  }

  lemma FetchMemory(p: Program, s: Cpu)
    requires s.Ok(p.cfg) && Quiet(p, s) && Agreeable(p, s)
    ensures MemoryStage(p, FetchStage(p, s)) == FetchStage(p, MemoryStage(p, s))
  {
    hide DataAccess, FetchAt, AddressFault, NextPC;
  }

  /** Agreement survives the stages that have nothing to do with it. */
  lemma StaysAgreeable(p: Program, a: Stage, s: Cpu)
    requires s.Ok(p.cfg) && Quiet(p, s) && Agreeable(p, s) && a != Fetch && a != Memory
    ensures Quiet(p, RunOne(p, a, s)) && Agreeable(p, RunOne(p, a, s))
  {
    hide Datapath.Decode, Datapath.Execute, ExecuteFlags, FetchAt, Sources, AddressFault, NextPC;
  }

  predicate Fine(p: Program, order: seq<Stage>, s: Cpu)
    requires s.Ok(p.cfg)
  {
    NoRepeats(order) && (Fetch in order && Memory in order ==> Quiet(p, s) && Agreeable(p, s))
  }

  lemma FineTail(p: Program, order: seq<Stage>, s: Cpu)
    requires s.Ok(p.cfg) && Fine(p, order, s) && order != []
    ensures Fine(p, order[1..], RunOne(p, order[0], s))
  {
    hide Agreeable, RunOne;
    assert order == [order[0]] + order[1..];
    assert multiset(order) == multiset{order[0]} + multiset(order[1..]);
    forall st ensures multiset(order[1..])[st] <= 1 {
      assert multiset(order)[st] <= 1;
    }
    assert multiset(order)[order[0]] <= 1;
    assert order[0] !in multiset(order[1..]);
    if order[0] != Fetch && order[0] != Memory && Fetch in order && Memory in order {
      StaysAgreeable(p, order[0], s);
    }
  }

  /** Any stage of an order may as well run first. */
  lemma {:induction false} MoveToFront(p: Program, order: seq<Stage>, i: nat, s: Cpu)
    requires s.Ok(p.cfg) && Fine(p, order, s) && i < |order|
    ensures RunOrder(p, order, s) == RunOrder(p, order[..i] + order[i + 1..], RunOne(p, order[i], s))
  {
    hide RunOne, Agreeable;
    if i == 0 {
      assert order[..0] + order[1..] == order[1..];
    } else {
      var rest, t := order[1..], RunOne(p, order[0], s);
      FineTail(p, order, s);
      MoveToFront(p, rest, i - 1, t);
      Distinct(order, i);
      Commute(p, order[0], order[i], s);
      var without := order[..i] + order[i + 1..];
      assert without[0] == order[0] && without[1..] == rest[..i - 1] + rest[i..];
    }
  }

  lemma Distinct(order: seq<Stage>, i: nat)
    requires NoRepeats(order) && 0 < i < |order|
    ensures order[0] != order[i] && order[0] in order && order[i] in order
  {
    assert order == [order[0]] + order[1..i] + [order[i]] + order[i + 1..];
    assert multiset(order)[order[0]] <= 1;
  }

  lemma RemoveOne(order: seq<Stage>, i: nat)
    requires i < |order|
    ensures multiset(order[..i] + order[i + 1..]) == multiset(order) - multiset{order[i]}
  {
    assert order == order[..i] + [order[i]] + order[i + 1..];
  }

  lemma {:induction false} AnyTwoOrders(p: Program, x: seq<Stage>, y: seq<Stage>, s: Cpu)
    requires s.Ok(p.cfg) && Fine(p, x, s) && Fine(p, y, s) && multiset(x) == multiset(y)
    ensures RunOrder(p, x, s) == RunOrder(p, y, s)
    decreases |x|
  {
    hide RunOne, Agreeable;
    assert |x| == |multiset(x)| == |multiset(y)| == |y|;
    if x != [] {
      assert x[0] in multiset(y);
      var i :| 0 <= i < |y| && y[i] == x[0];
      MoveToFront(p, y, i, s);
      RemoveOne(y, i);
      RemoveOne(x, 0);
      assert x[..0] + x[1..] == x[1..];
      var y' := y[..i] + y[i + 1..];
      FineTail(p, x, s);
      SameFine(p, x[1..], y', RunOne(p, x[0], s));
      AnyTwoOrders(p, x[1..], y', RunOne(p, x[0], s));
    }
  }

  lemma SameFine(p: Program, x: seq<Stage>, y: seq<Stage>, s: Cpu)
    requires s.Ok(p.cfg) && Fine(p, x, s) && multiset(x) == multiset(y)
    ensures Fine(p, y, s)
  {
    assert Fetch in y ==> Fetch in multiset(x);
    assert Memory in y ==> Memory in multiset(x);
  }

  lemma RunFive(p: Program, a: Stage, b: Stage, c: Stage, d: Stage, e: Stage, s: Cpu)
    requires s.Ok(p.cfg)
    ensures RunOrder(p, [a, b, c, d, e], s) ==
            RunOne(p, e, RunOne(p, d, RunOne(p, c, RunOne(p, b, RunOne(p, a, s)))))
  {
    hide RunOne;
    var s1 := RunOne(p, a, s);
    var s2 := RunOne(p, b, s1);
    var s3 := RunOne(p, c, s2);
    var s4 := RunOne(p, d, s3);
    assert [a, b, c, d, e][1..] == [b, c, d, e] && [b, c, d, e][1..] == [c, d, e];
    assert [c, d, e][1..] == [d, e] && [d, e][1..] == [e] && [e][1..] == [];
    assert RunOrder(p, [e], s4) == RunOne(p, e, s4);
    assert RunOrder(p, [d, e], s3) == RunOrder(p, [e], s4);
    assert RunOrder(p, [c, d, e], s2) == RunOrder(p, [d, e], s3);
    assert RunOrder(p, [b, c, d, e], s1) == RunOrder(p, [c, d, e], s2);
  }

  lemma SourceOrder(p: Program, s: Cpu)
    requires s.Ok(p.cfg)
    ensures RunOrder(p, SOURCE_ORDER, s) == RunStages(p, s)
  {
    hide FetchStage, DecodeStage, ExecuteStage, MemoryStage, WritebackStage, RunOrder;
    RunFive(p, Fetch, Decode, Execute, Memory, Writeback, s);
  }

  /** While fetch leaves the data cache alone, all 120 orders of the five stages give the
      same state if and only if memory and fetch agree on the word fetched and the next PC. */
  lemma OrderDoesNotMatter(p: Program, s: Cpu)
    requires s.Ok(p.cfg) && Quiet(p, s)
    ensures (forall order | EachOnce(order) :: RunOrder(p, order, s) == RunStages(p, s)) <==> Agreeable(p, s)
  {
    hide Agreeable, RunOne, RunStages;
    if Agreeable(p, s) {
      forall order | EachOnce(order) ensures RunOrder(p, order, s) == RunStages(p, s) {
        SourceIsFine();
        SameFine(p, SOURCE_ORDER, order, s);
        AnyTwoOrders(p, order, SOURCE_ORDER, s);
        SourceOrder(p, s);
      }
    } else {
      FetchLast(p, s);
    }
  }

  lemma SourceIsFine()
    ensures NoRepeats(SOURCE_ORDER)
  {
    assert multiset(SOURCE_ORDER) == multiset{Fetch, Decode, Execute, Memory, Writeback};
  }

  /** With the memory stage first, a disagreement goes the other way. */
  lemma FetchLast(p: Program, s: Cpu)
    requires s.Ok(p.cfg) && Quiet(p, s) && !Agreeable(p, s)
    ensures exists order :: EachOnce(order) && RunOrder(p, order, s) != RunStages(p, s)
  {
    hide Agreeable, DecodeStage, ExecuteStage, MemoryStage, FetchStage, WritebackStage, RunStages, RunOrder, EachOnce,
      Quiet;
    MemoryFirstIsAnOrder();
    RunFive(p, Memory, Fetch, Decode, Execute, Writeback, s);
    WhenFetchLast(p, s);
    assert RunOrder(p, MEMORY_FIRST, s) != RunStages(p, s);
  }

  const MEMORY_FIRST := [Memory, Fetch, Decode, Execute, Writeback]

  lemma MemoryFirstIsAnOrder()
    ensures EachOnce(MEMORY_FIRST)
  {
    assert multiset(MEMORY_FIRST) == multiset{Fetch, Decode, Execute, Memory, Writeback} == multiset(SOURCE_ORDER);
  }

  /** Either the word in decode or the next PC tells the two orders apart. */
  lemma WhenFetchLast(p: Program, s: Cpu)
    requires s.Ok(p.cfg) && Quiet(p, s) && !Agreeable(p, s)
    ensures WritebackStage(ExecuteStage(DecodeStage(FetchStage(p, MemoryStage(p, s))))) != RunStages(p, s)
  {
    hide DataAccess, FetchAt, AddressFault, NextPC, DecodeStage, ExecuteStage, InstrBits, FetchCached;
    var t, u := FetchStage(p, MemoryStage(p, s)), FetchStage(p, s);
    KeepFetched(t);
    KeepFetched(u);
    KeepFetched(s);
    KeepBits(p.cfg, InstrBits(p.cfg, MemoryStage(p, s).mem, SelectPC(s)), SelectPC(s));
    KeepBits(p.cfg, FetchWord(p, s), SelectPC(s));
  }

  lemma KeepBits(cfg: Config, bits: Insn, pc: Word)
    ensures FetchAt(cfg, bits, pc).bits == bits
  {
    hide FetchOp, AdrpValue;
  }

  lemma KeepFetched(t: Cpu)
    requires t.regs.Valid()
    ensures ExecuteStage(DecodeStage(t)).fPC == t.fPC && ExecuteStage(DecodeStage(t)).mOut == t.mOut
    ensures ExecuteStage(DecodeStage(t)).mem == t.mem && ExecuteStage(DecodeStage(t)).dIn == t.dIn
  {}
}
