/** The processor as the emulator runs it: architectural state, pipeline registers and
    wires updated in place by the five stages, the hazard unit and the clock. */
module Processor {
  import opened Words
  import opened Adder
  import opened Alu
  import opened Isa
  import opened MemorySystem
  import opened MemoryUnit
  import opened PageTable
  import opened Datapath
  import opened Sequential
  import opened Pipeline

  /** The two sides of a pipeline register and what to do with it at the clock edge. */
  datatype PipeReg<T> = PipeReg(input: T, output: T, ctl: Ctl)

  /** The signals that stages leave for each other and for the clocked logic. */
  datatype Wires = Wires(fPC: Word, dSrc1: Reg, dSrc2: Reg, xNzcv: Flags, xSetFlags: bool,
                         mPC: Word, wVal: Word, deassert: bool)

  predicate Running(st: Status) {
    st == AOK || st == BUB
  }

  /** A run of `n` cycles did not go on past a stop or past the limit. */
  ghost predicate NotPastStop(p: Program, s: Cpu, n: nat, cycleMax: nat)
    requires s.Ok(p.cfg)
  {
    forall k: nat | 1 <= k < n :: k < cycleMax && Running(Run(p, s, k).status)
  }

  /** Fetch does not go to the data cache for an address between instructions. */
  predicate Orderly(p: Program, s: Cpu) {
    !FetchHalts(s) && FetchCached(p.cfg, SelectPC(s)) ==> SelectPC(s) % 4 == 0
  }

  ghost predicate OrderlyRun(p: Program, s: Cpu)
    requires s.Ok(p.cfg)
  {
    forall k: nat :: Orderly(p, Run(p, s, k))
  }

  /** All state of the processor proper; the memory system is a part of its own. */
  class Core {
    const cfg: Config
    ghost const p: Program
    const adder: RippleCarryAdder
    const gpr: array<Word>
    var sp: Word
    var nzcv: Flags
    var pc: Word
    var status: Status
    var f: PipeReg<FReg>
    var d: PipeReg<DReg>
    var x: PipeReg<XReg>
    var m: PipeReg<MReg>
    var w: PipeReg<WReg>
    var wires: Wires

    ghost predicate Valid() {
      cfg == p.cfg && gpr.Length == 31 && adder.rca.Length == 64 && gpr as object != adder.rca
    }

    /** The processor's state, next to a memory system in state `ms`. */
    ghost function With(ms: MemSys): (s: Cpu)
      requires Valid()
      reads this, gpr
      ensures s.regs.Valid() && s.mem == ms
    {
      Cpu(Regs(gpr[..], sp), nzcv, pc, status,
          f.input, f.output, d.input, d.output, x.input, x.output, m.input, m.output, w.input, w.output,
          f.ctl, d.ctl, x.ctl, m.ctl, w.ctl,
          wires.fPC, wires.dSrc1, wires.dSrc2, wires.xNzcv, wires.xSetFlags, wires.mPC, wires.wVal, wires.deassert, ms)
    }

    /** The memory system is complete and shares no state with the processor. */
    ghost predicate Beside(mem: Unit)
      reads mem, mem.pages, mem.Footprint()
    {
      mem.Valid() && mem.cfg == p.cfg && {this as object, gpr, adder.rca} !! mem.Footprint()
    }

    constructor (ghost p: Program, cfg: Config, entry: Word, sp: Word, ghost ms: MemSys)
      requires cfg == p.cfg
      ensures Valid() && this.p == p && fresh(gpr) && fresh(adder) && fresh(adder.rca)
      ensures With(ms) == Boot(Regs(seq(31, _ => 0), sp), Flags(false, true, false, false), entry, ms)
    {
      this.p, this.cfg := p, cfg;
      adder := new RippleCarryAdder();
      gpr := new Word[31](_ => 0);
      this.sp, nzcv, pc, status := sp, Flags(false, true, false, false), entry, BUB;
      f := PipeReg(F_BUBBLE, FReg(entry, AOK), BUBBLE);
      d := PipeReg(D_BUBBLE, D_BUBBLE, BUBBLE);
      x := PipeReg(X_BUBBLE, X_BUBBLE, BUBBLE);
      m := PipeReg(M_BUBBLE, M_BUBBLE, BUBBLE);
      w := PipeReg(W_BUBBLE, W_BUBBLE, BUBBLE);
      wires := Wires(0, 0, 0, Flags(false, false, false, false), false, 0, 0, false);
      new;
      assert gpr[..] == seq(31, _ => 0);
    }

    method ChoosePC(ghost ms: MemSys) returns (current: Word, sticky: Status)
      requires Valid()
      ensures current == SelectPC(With(ms)) && sticky == StickyStatus(With(ms))
    {
      current, sticky := f.output.predPC, f.input.status;
      var redirected := true;
      if d.output.op == RET && f.output.predPC == 0 {
        current := 0;
      } else if x.output.op == RET {
        current := x.output.valA;
      } else if m.output.op == B_COND && !m.output.condHolds {
        current := m.output.value;
      } else {
        redirected := false;
      }
      if current != 0 && redirected {
        sticky := AOK;
      }
    }

    method FetchInstr(mem: Unit)
      requires Valid() && Beside(mem) && Orderly(p, With(mem.Model()))
      modifies this, mem.Footprint()
      ensures Beside(mem) && fresh(mem.Footprint() - old(mem.Footprint()))
      ensures MemShaped(p.cfg, old(mem.Model()))
      ensures With(mem.Model()) == FetchStage(p, old(With(mem.Model())))
    {
      hide Core.With, FetchStage, FetchHalts, FetchMem, FetchWord, SelectPC, StickyStatus, Unit.Model, Pages.Valid,
        Pages.Contents, MemOk, MemShaped, Orderly;
      ghost var ms := mem.Model();
      var current, sticky, halts, bits := ReadNext(mem);
      TakeInstr(current, sticky, halts, bits, ms, mem.Model());
    }

    /** Where fetch looks, and what it reads there. */
    method ReadNext(mem: Unit) returns (current: Word, sticky: Status, halts: bool, bits: Insn)
      requires Valid() && Beside(mem) && Orderly(p, With(mem.Model()))
      modifies mem.Footprint()
      ensures Beside(mem) && fresh(mem.Footprint() - old(mem.Footprint()))
      ensures MemShaped(p.cfg, old(mem.Model()))
      ensures var s := old(With(mem.Model()));
        && current == SelectPC(s) && sticky == StickyStatus(s) && halts == FetchHalts(s)
        && (!halts ==> bits == FetchWord(p, s)) && mem.Model() == FetchMem(p, s)
    {
      hide SelectPC, StickyStatus, FetchHalts, Unit.Model, Pages.Valid, Pages.Contents, MemOk, InstrBits, InstrRead,
        FetchCached, MemShaped;
      current, sticky, halts := ChooseFetch(mem.Model());
      bits := ReadText(mem, current, halts);
    }

    /** The PC, the status fetch goes by, and whether that makes it a HLT. */
    method ChooseFetch(ghost ms: MemSys) returns (current: Word, sticky: Status, halts: bool)
      requires Valid()
      ensures current == SelectPC(With(ms)) && sticky == StickyStatus(With(ms)) && halts == FetchHalts(With(ms))
    {
      hide SelectPC, StickyStatus;
      current, sticky := ChoosePC(ms);
      halts := current == 0 || sticky == STOP || sticky == INS;
    }

    /** Instruction memory, unless fetch makes up its instruction. */
    method ReadText(mem: Unit, current: Word, halts: bool) returns (bits: Insn)
      requires Valid() && Beside(mem)
      requires !halts && FetchCached(p.cfg, current) ==> current % 4 == 0
      modifies mem.Footprint()
      ensures Beside(mem) && fresh(mem.Footprint() - old(mem.Footprint()))
      ensures MemShaped(p.cfg, old(mem.Model()))
      ensures mem.Model() == if halts then old(mem.Model()) else InstrRead(p.cfg, old(mem.Model()), current)
      ensures !halts ==> bits == InstrBits(p.cfg, old(mem.Model()), current)
    {
      hide Unit.Model, Pages.Valid, Pages.Contents, MemOk, InstrBits, InstrRead, FetchCached;
      ShapeKept(p.cfg, mem.Model());
      bits := 0;
      if !halts {
        bits := mem.ReadInstr(current);
      }
    }

    /** What fetch leaves in its registers. */
    method TakeInstr(current: Word, sticky: Status, halts: bool, bits: Insn, ghost before: MemSys, ghost ms: MemSys)
      requires Valid() && current == SelectPC(With(before)) && sticky == StickyStatus(With(before))
      requires halts == FetchHalts(With(before)) && (!halts ==> bits == FetchWord(p, With(before)))
      requires MemShaped(p.cfg, before) && ms == FetchMem(p, With(before))
      modifies this`d, this`f, this`wires
      ensures With(ms) == FetchStage(p, old(With(before)))
    {
      hide MemShaped, InstrRead, FetchAt, NextPC, SelectPC, StickyStatus, FetchWord, FetchHalts;
      var fetched := HaltReg(d.input.value);
      if !halts {
        fetched := FetchAt(cfg, bits, current);
        wires := wires.(fPC := NextPC(cfg, bits, current));
      }
      d := d.(input := fetched);
      f := f.(input := f.input.(status := if fetched.status != AOK then fetched.status else sticky),
              output := f.output.(status := fetched.status));
    }

    method ReadReg(r: Reg) returns (v: Word)
      requires Valid()
      ensures v == Regs(gpr[..], sp).Read(r)
    {
      v := if r == XZR then 0 else if r == SP then sp else gpr[r];
    }

    method DecodeInstr(ghost ms: MemSys)
      requires Valid()
      modifies this
      ensures With(ms) == DecodeStage(old(With(ms)))
    {
      hide Sources, ControlOf, AluOpOf, ImmediateOf, CondOf, HwOf;
      var held := d.output;
      var o := Sources(held);
      var a := ReadReg(o.src1);
      var b := ReadReg(o.src2);
      var s := ControlOf(held.op);
      x := x.(input := XReg(held.op, held.value, s.x, s.m, s.w, AluOpOf(held.op), CondOf(held.bits), a, b,
                            ImmediateOf(held.bits, held.op), HwOf(held.bits), o.dst, held.status));
      wires := wires.(dSrc1 := o.src1, dSrc2 := o.src2);
    }

    method ExecuteInstr(ghost ms: MemSys)
      requires Valid()
      modifies this, adder.rca
      ensures With(ms) == ExecuteStage(old(With(ms)))
    {
      hide AluResult, AluFlags;
      var held := x.output;
      var a := if held.xs.valaSel then held.value else held.valA;
      var b := if held.xs.valbSel then held.valB else held.imm;
      var valEx, condHolds, flags := RunAlu(adder, a, b, held.hw, nzcv, held.aluOp, held.xs.setFlags, held.cond);
      assert gpr[..] == old(gpr[..]);
      m := m.(input := MReg(held.op, held.value, condHolds, held.ms, held.ws, held.valB, held.dst, valEx, held.status));
      wires := wires.(xNzcv := flags, xSetFlags := held.xs.setFlags);
    }

    method AccessData(mem: Unit) returns (v: Word)
      requires Valid() && mem.Valid() && mem.cfg == p.cfg
      modifies mem.Footprint()
      ensures mem.Valid() && fresh(mem.Footprint() - old(mem.Footprint()))
      ensures MemShaped(p.cfg, old(mem.Model()))
      ensures (mem.Model(), v) == DataAccess(p.cfg, old(mem.Model()), old(m.output))
    {
      hide Unit.Model, Pages.Valid, DataRead, DataWrite, MemOk, AddressFault;
      var held := m.output;
      ghost var ms := mem.Model();
      ShapeKept(p.cfg, ms);
      v := 0;
      if held.ms.read {
        v := mem.ReadData(held.valEx);
      }
      if held.ms.write {
        mem.WriteData(held.valEx, held.valB);
      }
    }

    method MemoryInstr(mem: Unit)
      requires Valid() && Beside(mem)
      modifies this, mem.Footprint()
      ensures Beside(mem) && fresh(mem.Footprint() - old(mem.Footprint()))
      ensures MemShaped(p.cfg, old(mem.Model()))
      ensures With(mem.Model()) == MemoryStage(p, old(With(mem.Model())))
    {
      hide Unit.Model, Pages.Valid, MemOk, DataAccess, MemoryOut;
      var v := AccessData(mem);
      assert gpr[..] == old(gpr[..]);
      FinishMemory(v, mem.Model());
    }

    method FinishMemory(v: Word, ghost ms: MemSys)
      requires Valid()
      modifies this`w, this`wires
      ensures var s, out := old(With(ms)), MemoryOut(p.cfg, old(m.output), v);
        var here := Wrap(s.mOut.value - 4);
        With(ms) == s.(wIn := out, mPC := here, fPC := if IsFault(out.status) then here else s.fPC)
    {
      hide AddressFault;
      var held := m.output;
      var here := Wrap(held.value - 4);
      var st := if AddressFault(cfg, held) then ADR else held.status;
      w := w.(input := WReg(held.op, held.ws, held.dst, held.valEx, v, st));
      wires := wires.(mPC := here, fPC := if st == INS || st == ADR then here else wires.fPC);
    }

    method WbackInstr(ghost ms: MemSys)
      requires Valid()
      modifies this
      ensures With(ms) == WritebackStage(old(With(ms)))
    {
      wires := wires.(wVal := if w.output.ws.wvalSel then w.output.valMem else w.output.valEx);
    }

    method ForwardFor(src: Reg, fromFile: Word, ghost ms: MemSys) returns (v: Word)
      requires Valid()
      ensures v == ForwardOne(With(ms), src, fromFile)
    {
      v := fromFile;
      if x.output.ws.wEnable && x.output.dst == src && src != XZR {
        v := m.input.valEx;
      } else if m.output.ws.wEnable && m.output.dst == src && src != XZR {
        v := if m.output.ws.wvalSel then w.input.valMem else m.output.valEx;
      } else if w.output.ws.wEnable && w.output.dst == src && src != XZR {
        v := if w.output.ws.wvalSel then w.output.valMem else w.output.valEx;
      }
    }

    method ForwardReg(ghost ms: MemSys)
      requires Valid()
      modifies this
      ensures With(ms) == Forward(old(With(ms)))
    {
      hide ForwardOne;
      var a := ForwardFor(wires.dSrc1, x.input.valA, ms);
      var b := ForwardFor(wires.dSrc2, x.input.valB, ms);
      x := x.(input := x.input.(valA := a, valB := b));
    }

    method HazardRequests(memBusy: bool, ghost ms: MemSys) returns (r: Requests)
      requires Valid() && memBusy == ms.busy
      ensures r == Requested(With(ms))
    {
      hide LoadUse, IsFault;
      if memBusy {
        var hold := Request(false, true);
        return Requests(true, hold, hold, hold, hold, Request(true, false));
      }
      var fStall := f.output.status == STOP || f.output.status == INS;
      var retFromMain := d.output.op == RET && x.input.valA == 0;
      var ret := d.output.op == RET && !retFromMain;
      var mispred := x.output.op == B_COND && !m.input.condHolds;
      var loadUse := LoadUse(x.output, wires.dSrc1, wires.dSrc2);
      var fault := IsFault(w.input.status) || IsFault(m.output.status);
      r := Requests(fault,
                    Request(retFromMain && !fStall, fStall || loadUse || ret),
                    Request((ret && !loadUse) || mispred || retFromMain, loadUse),
                    Request(loadUse || mispred, false),
                    Request(false, false), Request(false, false));
    }

    method ControlHazards(memBusy: bool, ghost ms: MemSys)
      requires Valid() && memBusy == ms.busy
      modifies this
      ensures With(ms) == HandleHazards(old(With(ms)))
    {
      hide Requested, ControlStage;
      var r := HazardRequests(memBusy, ms);
      wires := wires.(deassert := r.noFlags);
      f := f.(ctl := ControlStage(f.ctl, r.f.bubble, r.f.stall));
      d := d.(ctl := ControlStage(d.ctl, r.d.bubble, r.d.stall));
      x := x.(ctl := ControlStage(x.ctl, r.x.bubble, r.x.stall));
      m := m.(ctl := ControlStage(m.ctl, r.m.bubble, r.m.stall));
      w := w.(ctl := ControlStage(w.ctl, r.w.bubble, r.w.stall));
    }

    method WriteReg(dst: Reg, v: Word, enable: bool)
      requires Valid()
      modifies this`sp, gpr
      ensures Regs(gpr[..], sp) == if enable then old(Regs(gpr[..], sp)).Write(dst, v) else old(Regs(gpr[..], sp))
    {
      if !enable || dst == XZR {
        return;
      }
      if dst == SP {
        sp := v;
      } else {
        gpr[dst] := v;
      }
    }

    method CommitState(ghost ms: MemSys)
      requires Valid()
      modifies this, gpr
      ensures With(ms) == Commit(old(With(ms)))
    {
      hide Regs.Write;
      WriteReg(w.output.dst, wires.wVal, w.output.ws.wEnable && w.output.status == AOK);
      status := w.output.status;
      if !wires.deassert && wires.xSetFlags {
        nzcv := wires.xNzcv;
      }
      pc := if w.input.status == ADR || w.input.status == INS then wires.mPC else wires.fPC;
      f := f.(input := f.input.(predPC := pc));
    }

    method LatchAll(ghost ms: MemSys)
      requires Valid()
      modifies this
      ensures With(ms) == Latch(old(With(ms)))
    {
      hide LatchOne;
      f := f.(output := LatchOne(f.ctl, f.input, f.output, F_BUBBLE));
      d := d.(output := LatchOne(d.ctl, d.input, d.output, D_BUBBLE));
      x := x.(output := LatchOne(x.ctl, x.input, x.output, X_BUBBLE));
      m := m.(output := LatchOne(m.ctl, m.input, m.output, M_BUBBLE));
      w := w.(output := LatchOne(w.ctl, w.input, w.output, W_BUBBLE));
      if f.ctl == FAULT || d.ctl == FAULT || x.ctl == FAULT || m.ctl == FAULT || w.ctl == FAULT {
        status := STOP;
      }
    }

    /** Fetch, decode and execute. */
    method FrontStages(mem: Unit)
      requires Valid() && Beside(mem) && Orderly(p, With(mem.Model()))
      modifies this, adder.rca, mem.Footprint()
      ensures Beside(mem) && fresh(mem.Footprint() - old(mem.Footprint()))
      ensures MemShaped(p.cfg, old(mem.Model()))
      ensures With(mem.Model()) == ExecuteStage(DecodeStage(FetchStage(p, old(With(mem.Model())))))
    {
      hide Core.With, Unit.Model, Pages.Valid, Pages.Contents, MemOk, FetchStage, DecodeStage, ExecuteStage, Orderly;
      FetchInstr(mem);
      ghost var ms := mem.Model();
      DecodeInstr(ms);
      ExecuteInstr(ms);
      assert mem.Model() == ms;
    }

    /** Writeback and what follows the stages: forwarding, hazards, the clocked state and the latches. */
    method FinishCycle(memBusy: bool, ghost ms: MemSys)
      requires Valid() && memBusy == ms.busy
      modifies this, gpr
      ensures With(ms) == Latch(Commit(HandleHazards(Forward(WritebackStage(old(With(ms)))))))
    {
      hide Core.With, WritebackStage, Forward, HandleHazards, Commit, Latch;
      WbackInstr(ms);
      ForwardReg(ms);
      ControlHazards(memBusy, ms);
      CommitState(ms);
      LatchAll(ms);
    }

    /** The stages up to memory. */
    method CallStages(mem: Unit)
      requires Valid() && Beside(mem) && Orderly(p, With(mem.Model()))
      modifies this, adder.rca, mem.Footprint()
      ensures Beside(mem) && fresh(mem.Footprint() - old(mem.Footprint()))
      ensures MemShaped(p.cfg, old(mem.Model()))
      ensures With(mem.Model()) == MemoryStage(p, ExecuteStage(DecodeStage(FetchStage(p, old(With(mem.Model()))))))
    {
      hide Core.With, Unit.Model, Pages.Valid, Pages.Contents, MemOk, FetchStage, DecodeStage, ExecuteStage,
        MemoryStage, Orderly;
      FrontStages(mem);
      MemoryInstr(mem);
    }

    /** One turn of the loop: every stage, then the corrections, then the clock edge. */
    method ClockCycle(mem: Unit)
      requires Valid() && Beside(mem) && Orderly(p, With(mem.Model()))
      modifies this, gpr, adder.rca, mem.Footprint()
      ensures Beside(mem) && fresh(mem.Footprint() - old(mem.Footprint()))
      ensures MemShaped(p.cfg, old(mem.Model()))
      ensures With(mem.Model()) == Cycle(p, old(With(mem.Model())))
    {
      hide Core.With, Unit.Model, Pages.Valid, Pages.Contents, MemOk, FetchStage, DecodeStage, ExecuteStage,
        MemoryStage, WritebackStage, Forward, HandleHazards, Commit, Latch, Orderly;
      CallStages(mem);
      mem.BusyIsModelled();
      FinishCycle(mem.busy, mem.Model());
    }

    /** The cycle loop: at least one cycle, then on until the processor stops or the limit is reached. */
    method RunElf(mem: Unit, cycleMax: nat) returns (n: nat)
      requires Valid() && Beside(mem) && MemShaped(p.cfg, mem.Model()) && OrderlyRun(p, With(mem.Model()))
      modifies this, gpr, adder.rca, mem.Footprint()
      ensures MemShaped(p.cfg, old(mem.Model()))
      ensures Beside(mem) && With(mem.Model()) == Run(p, old(With(mem.Model())), n)
      ensures 1 <= n && (n >= cycleMax || !Running(status))
      ensures NotPastStop(p, old(With(mem.Model())), n, cycleMax)
    {
      hide Unit.Model, Pages.Valid, Pages.Contents, MemOk, Cycle, Orderly;
      ghost var s := With(mem.Model());
      n := 0;
      var more := true;
      while more
        invariant Beside(mem) && fresh(mem.Footprint() - old(mem.Footprint()))
        invariant With(mem.Model()) == Run(p, s, n)
        invariant more == (n == 0 || (Running(status) && n < cycleMax))
        invariant NotPastStop(p, s, n, cycleMax)
        decreases cycleMax - n + (if more then 1 else 0)
      {
        ClockCycle(mem);
        n := n + 1;
        more := Running(status) && n < cycleMax;
      }
    }
  }
}
