/** The statistics accumulator of `lab.Analyzer`: the opcode range tables,
    the per-method and per-class tallies, and the 0..255 histogram report.
    ASM's tree model is reduced to what the tallies read: the method list of
    a class and each method's instruction opcodes in list order. */
module Lab {
  import opened Opcodes
  import opened Counting

  /** An inclusive opcode range, the `{low, high}` pairs of the source. */
  datatype Range = Range(lo: int, hi: int) {
    predicate Contains(op: int) { lo <= op <= hi }
  }

  /** `INVOKE_RANGE`: invokevirtual through invokedynamic. */
  const INVOKE_RANGE := Range(182, 186)

  /** `CBRANCH_RANGES`, in the order the source lists them. */
  const CBRANCH_RANGES: seq<Range> := [
    Range(IFEQ, IFLE),
    Range(IF_ICMPEQ, IF_ICMPLE),
    Range(IF_ACMPEQ, IF_ACMPNE),
    Range(TABLESWITCH, LOOKUPSWITCH),
    Range(IFNULL, IFNONNULL)
  ]

  /** The invoke range holds exactly the five invocation opcodes; no
      branch range overlaps it or another branch range, and `goto`, `jsr`
      and `ret` (167..169) fall between the ranges. */
  lemma RangesClassify(op: int)
    ensures INVOKE_RANGE.Contains(op) <==> IsInvoke(op)
    ensures forall j :: 0 <= j < |CBRANCH_RANGES| ==> !(INVOKE_RANGE.Contains(op) && CBRANCH_RANGES[j].Contains(op))
    ensures forall j, k :: 0 <= j < k < |CBRANCH_RANGES| ==> !(CBRANCH_RANGES[j].Contains(op) && CBRANCH_RANGES[k].Contains(op))
    ensures forall j :: 0 <= j < |CBRANCH_RANGES| ==>
      !CBRANCH_RANGES[j].Contains(GOTO) && !CBRANCH_RANGES[j].Contains(JSR) && !CBRANCH_RANGES[j].Contains(RET)
  {
  }

  /** ASM's `MethodNode`, reduced to its name, descriptor and the opcodes of
      its instruction list (pseudo-instructions included, as -1). */
  datatype MethodNode = MethodNode(name: string, desc: string, instructions: seq<Opcode>)

  /** ASM's `ClassNode`, reduced to its internal name and its methods. */
  datatype ClassNode = ClassNode(name: string, methods: seq<MethodNode>)

  /** One line of the histogram report, without the mnemonic column. */
  datatype Row = Row(opcode: int, count: int)

  /** The opcodes of all `methods`, in order. */
  function Flatten(methods: seq<MethodNode>): seq<Opcode>
  {
    if methods == [] then []
    else Flatten(methods[..|methods| - 1]) + methods[|methods| - 1].instructions
  }

  /** How many of `methods` have at least one real instruction: those the
      analyzer adds to `methodCount`. */
  function MethodsWithCode(methods: seq<MethodNode>): (n: nat)
    ensures n <= |methods|
  {
    if methods == [] then 0
    else
      var last := methods[|methods| - 1];
      MethodsWithCode(methods[..|methods| - 1]) + (if CountWhere(last.instructions, IsReal) > 0 then 1 else 0)
  }

  /** The opcodes of two lists of methods are the opcodes of their
      concatenation. */
  lemma {:induction false} FlattenAppend(a: seq<MethodNode>, b: seq<MethodNode>)
    ensures Flatten(a + b) == Flatten(a) + Flatten(b)
  {
    if b == [] {
      assert a + b == a;
    } else {
      var init, last := b[..|b| - 1], b[|b| - 1];
      assert (a + b)[..|a + b| - 1] == a + init;
      FlattenAppend(a, init);
      calc {
        Flatten(a + b);
        Flatten(a + init) + last.instructions;
        (Flatten(a) + Flatten(init)) + last.instructions;
        Flatten(a) + (Flatten(init) + last.instructions);
      }
    }
  }

  /** The methods with code among two lists add up. */
  lemma {:induction false} MethodsWithCodeAppend(a: seq<MethodNode>, b: seq<MethodNode>)
    ensures MethodsWithCode(a + b) == MethodsWithCode(a) + MethodsWithCode(b)
  {
    if b == [] {
      assert a + b == a;
    } else {
      var init := b[..|b| - 1];
      assert (a + b)[..|a + b| - 1] == a + init;
      MethodsWithCodeAppend(a, init);
    }
  }

  /** `methodCount` falls short of the number of methods analyzed exactly
      when some method has no real instruction (abstract or native ones). */
  lemma {:induction false} AllMethodsCountedIff(methods: seq<MethodNode>)
    ensures MethodsWithCode(methods) == |methods|
        <==> forall i :: 0 <= i < |methods| ==> CountWhere(methods[i].instructions, IsReal) > 0
  {
    if methods != [] {
      var init := methods[..|methods| - 1];
      AllMethodsCountedIff(init);
      assert forall i :: 0 <= i < |init| ==> init[i] == methods[i];
    }
  }

  /** Each counted method contributes at least one instruction. */
  lemma {:induction false} MethodsBoundedByInstructions(methods: seq<MethodNode>)
    ensures MethodsWithCode(methods) <= CountWhere(Flatten(methods), IsReal)
  {
    if methods != [] {
      var init := methods[..|methods| - 1];
      MethodsBoundedByInstructions(init);
      CountWhereAppend(Flatten(init), methods[|methods| - 1].instructions, IsReal);
    }
  }

  /** The five tabulated ranges cover exactly the conditional branches. */
  lemma BranchRangesCover(op: int)
    ensures IsCondBranch(op) <==> exists j :: 0 <= j < |CBRANCH_RANGES| && CBRANCH_RANGES[j].Contains(op)
  {
    if IsCondBranch(op) {
      var j := if op <= IFLE then 0 else if op <= IF_ICMPLE then 1 else if op <= IF_ACMPNE then 2
               else if op <= LOOKUPSWITCH then 3 else 4;
      assert CBRANCH_RANGES[j].Contains(op);
    }
  }

  /** The `for (int[] range : CBRANCH_RANGES)` scan with its early `break`:
      an opcode hits one of the five tabulated ranges exactly when it is one
      of the eighteen conditional branches. */
  method ScanBranchRanges(op: int) returns (found: bool)
    ensures found <==> IsCondBranch(op)
  {
    found := false;
    for i := 0 to |CBRANCH_RANGES|
      invariant !found
      invariant forall j :: 0 <= j < i ==> !CBRANCH_RANGES[j].Contains(op)
    {
      if CBRANCH_RANGES[i].Contains(op) {
        found := true;
        break;
      }
    }
    BranchRangesCover(op);
  }

  /** What the accumulated state must be after analyzing `history`: the
      histogram and the counters are those of the opcodes seen. */
  ghost predicate Consistent(h: seq<int>, history: seq<MethodNode>,
                             instructions: int, invocations: int, branches: int, methods: int)
  {
    var seen := Flatten(history);
    && h == HistogramOf(seen)
    && instructions == CountWhere(seen, IsReal)
    && invocations == CountWhere(seen, IsInvoke)
    && branches == CountWhere(seen, IsCondBranch)
    && methods == MethodsWithCode(history)
  }

  /** In every consistent state the statistics agree with each other: the
      256 slots sum to the instruction count, the invoke slots to the
      invocation count and the branch slots to the branch count; no more
      methods are counted than were analyzed, nor than instructions. */
  lemma StatisticsAgree(h: seq<int>, history: seq<MethodNode>,
                        instructions: int, invocations: int, branches: int, methods: int)
    requires Consistent(h, history, instructions, invocations, branches, methods)
    ensures SumOver(h, IsReal) == instructions
    ensures SumOver(h, IsInvoke) == invocations
    ensures SumOver(h, IsCondBranch) == branches
    ensures methods <= instructions && methods <= |history|
  {
    HistogramCounts(Flatten(history), IsReal);
    HistogramCounts(Flatten(history), IsInvoke);
    HistogramCounts(Flatten(history), IsCondBranch);
    MethodsBoundedByInstructions(history);
  }

  /** Tallying one more method keeps the state consistent: the new state
      is the old one plus the method's own tally. */
  lemma ConsistentAfterMethod(history: seq<MethodNode>, m: MethodNode,
                              h0: seq<int>, i0: int, v0: int, b0: int, m0: int,
                              h1: seq<int>, i1: int, v1: int, b1: int, m1: int)
    requires Consistent(h0, history, i0, v0, b0, m0)
    requires h1 == HistogramOf(Flatten(history) + m.instructions)
    requires i1 == i0 + CountWhere(m.instructions, IsReal)
    requires v1 == v0 + CountWhere(m.instructions, IsInvoke)
    requires b1 == b0 + CountWhere(m.instructions, IsCondBranch)
    requires m1 == m0 + (if CountWhere(m.instructions, IsReal) > 0 then 1 else 0)
    ensures Consistent(h1, history + [m], i1, v1, b1, m1)
    ensures forall x :: 0 <= x < 256 ==> h1[x] == h0[x] + HistogramOf(m.instructions)[x]
  {
    var before, ops := Flatten(history), m.instructions;
    assert (history + [m])[..|history|] == history;
    assert Flatten(history + [m]) == before + ops;
    CountWhereAppend(before, ops, IsReal);
    CountWhereAppend(before, ops, IsInvoke);
    CountWhereAppend(before, ops, IsCondBranch);
    HistogramAppend(before, ops);
  }

  /** Between two consistent states, one history extending the other by
      `more`, every counter has grown by the tally of `more`. */
  lemma ConsistentDeltas(history: seq<MethodNode>, more: seq<MethodNode>, extended: seq<MethodNode>,
                         h0: seq<int>, i0: int, v0: int, b0: int, m0: int,
                         h1: seq<int>, i1: int, v1: int, b1: int, m1: int)
    requires Consistent(h0, history, i0, v0, b0, m0)
    requires extended == history + more
    requires Consistent(h1, extended, i1, v1, b1, m1)
    ensures m1 == m0 + MethodsWithCode(more)
    ensures i1 == i0 + CountWhere(Flatten(more), IsReal)
    ensures v1 == v0 + CountWhere(Flatten(more), IsInvoke)
    ensures b1 == b0 + CountWhere(Flatten(more), IsCondBranch)
    ensures forall x :: 0 <= x < 256 ==> h1[x] == h0[x] + HistogramOf(Flatten(more))[x]
  {
    FlattenAppend(history, more);
    MethodsWithCodeAppend(history, more);
    CountWhereAppend(Flatten(history), Flatten(more), IsReal);
    CountWhereAppend(Flatten(history), Flatten(more), IsInvoke);
    CountWhereAppend(Flatten(history), Flatten(more), IsCondBranch);
    HistogramAppend(Flatten(history), Flatten(more));
  }

  /** The static state of `lab.Analyzer`: five counters and the opcode
      histogram (`opcodeCount`, a map read with default 0, here an array of
      256 zero-initialised slots). `analyzed` is the ghost history of every
      method passed to `AnalyzeMethod`. */
  class Analyzer {
    var classCount: nat
    var methodCount: nat
    var instructionCount: nat
    var invocationCount: nat
    var branchCount: nat
    var histogram: array<int>
    ghost var analyzed: seq<MethodNode>

    /** Every opcode the analyzer has been shown, pseudo-instructions included. */
    ghost function Seen(): seq<Opcode>
      reads this
    {
      Flatten(analyzed)
    }

    /** The counters and the histogram agree with the history. */
    ghost predicate Valid()
      reads this, histogram
    {
      && histogram.Length == 256
      && Consistent(histogram[..], analyzed, instructionCount, invocationCount, branchCount, methodCount)
    }

    /** The static initialisers: every counter zero, no slot recorded. */
    constructor ()
      ensures Valid() && fresh(histogram)
      ensures classCount == 0 && methodCount == 0 && instructionCount == 0
      ensures invocationCount == 0 && branchCount == 0 && analyzed == []
      ensures forall x :: 0 <= x < 256 ==> histogram[x] == 0
    {
      classCount, methodCount, instructionCount := 0, 0, 0;
      invocationCount, branchCount := 0, 0;
      histogram := new int[256](_ => 0);
      analyzed := [];
      new;
      assert histogram[..] == HistogramOf([]);
    }

    /** The body of the parallel stream's `peek`, for one real instruction:
        bump its histogram slot, then count it as an invocation if it lies in
        `INVOKE_RANGE`, and otherwise as a branch if one of `CBRANCH_RANGES`
        holds it. */
    method RecordInstruction(op: Opcode)
      requires histogram.Length == 256 && op != PSEUDO
      modifies this`invocationCount, this`branchCount, histogram
      ensures histogram[..] == Bump(old(histogram[..]), op)
      ensures invocationCount == old(invocationCount) + (if IsInvoke(op) then 1 else 0)
      ensures branchCount == old(branchCount) + (if IsCondBranch(op) then 1 else 0)
    {
      histogram[op] := histogram[op] + 1;
      if INVOKE_RANGE.lo <= op <= INVOKE_RANGE.hi {
        invocationCount := invocationCount + 1;
      } else {
        var isBranch := ScanBranchRanges(op);
        if isBranch {
          branchCount := branchCount + 1;
        }
      }
    }

    /** The parallel stream of `analyzeMethod`, run sequentially: drop the
        pseudo-instructions, record each remaining one, and return how many
        there were. `prefix` is the ghost history the histogram reflects. */
    method TallyStream(ops: seq<Opcode>, ghost prefix: seq<Opcode>) returns (total: nat)
      requires histogram.Length == 256 && histogram[..] == HistogramOf(prefix)
      modifies this`invocationCount, this`branchCount, histogram
      ensures histogram[..] == HistogramOf(prefix + ops)
      ensures total == CountWhere(ops, IsReal)
      ensures invocationCount == old(invocationCount) + CountWhere(ops, IsInvoke)
      ensures branchCount == old(branchCount) + CountWhere(ops, IsCondBranch)
    {
      total := 0;
      assert prefix + ops[..0] == prefix;
      for i := 0 to |ops|
        invariant total == CountWhere(ops[..i], IsReal)
        invariant invocationCount == old(invocationCount) + CountWhere(ops[..i], IsInvoke)
        invariant branchCount == old(branchCount) + CountWhere(ops[..i], IsCondBranch)
        invariant histogram[..] == HistogramOf(prefix + ops[..i])
      {
        var op := ops[i];
        StreamStep(prefix, ops, i);
        if op != PSEUDO {
          RecordInstruction(op);
          total := total + 1;
        }
      }
      assert ops[..|ops|] == ops;
    }

    /** `analyzeMethod`: tally the method's real instructions into the
        histogram and the invocation and branch counters, add their number
        to `instructionCount`, and count the method if that number is
        positive. */
    method AnalyzeMethod(m: MethodNode)
      requires Valid()
      modifies this, histogram
      ensures Valid() && histogram == old(histogram)
      ensures analyzed == old(analyzed) + [m]
      ensures classCount == old(classCount)
      ensures instructionCount == old(instructionCount) + CountWhere(m.instructions, IsReal)
      ensures methodCount == old(methodCount) + (if CountWhere(m.instructions, IsReal) > 0 then 1 else 0)
      ensures invocationCount == old(invocationCount) + CountWhere(m.instructions, IsInvoke)
      ensures branchCount == old(branchCount) + CountWhere(m.instructions, IsCondBranch)
      ensures forall x :: 0 <= x < 256 ==> histogram[x] == old(histogram[x]) + HistogramOf(m.instructions)[x]
    {
      ghost var before := Seen();
      var ops := m.instructions;
      var total := TallyStream(ops, before);
      instructionCount := instructionCount + total;
      if total > 0 {
        methodCount := methodCount + 1;
      }
      analyzed := analyzed + [m];
      ConsistentAfterMethod(old(analyzed), m,
                            old(histogram[..]), old(instructionCount), old(invocationCount), old(branchCount), old(methodCount),
                            histogram[..], instructionCount, invocationCount, branchCount, methodCount);
    }

    /** The loop of `analyzeClass` over the class's methods, in order. */
    method AnalyzeMethods(methods: seq<MethodNode>)
      requires Valid()
      modifies this, histogram
      ensures Valid() && histogram == old(histogram)
      ensures analyzed == old(analyzed) + methods
      ensures classCount == old(classCount)
    {
      for i := 0 to |methods|
        invariant Valid() && histogram == old(histogram)
        invariant analyzed == old(analyzed) + methods[..i]
        invariant classCount == old(classCount)
      {
        PrefixStep(methods, i);
        AnalyzeMethod(methods[i]);
      }
      assert methods[..|methods|] == methods;
    }

    /** `analyzeClass`: count the class, then analyze each of its methods
        in order. */
    method AnalyzeClass(c: ClassNode)
      requires Valid()
      modifies this, histogram
      ensures Valid() && histogram == old(histogram)
      ensures analyzed == old(analyzed) + c.methods
      ensures classCount == old(classCount) + 1
      ensures methodCount == old(methodCount) + MethodsWithCode(c.methods)
      ensures instructionCount == old(instructionCount) + CountWhere(Flatten(c.methods), IsReal)
      ensures invocationCount == old(invocationCount) + CountWhere(Flatten(c.methods), IsInvoke)
      ensures branchCount == old(branchCount) + CountWhere(Flatten(c.methods), IsCondBranch)
      ensures forall x :: 0 <= x < 256 ==> histogram[x] == old(histogram[x]) + HistogramOf(Flatten(c.methods))[x]
    {
      classCount := classCount + 1;
      AnalyzeMethods(c.methods);
      ConsistentDeltas(old(analyzed), c.methods, analyzed,
                       old(histogram[..]), old(instructionCount), old(invocationCount), old(branchCount), old(methodCount),
                       histogram[..], instructionCount, invocationCount, branchCount, methodCount);
    }

    /** The report loop of `main` over opcodes 0..255: one row per opcode,
        in ascending order, carrying its count, which is 0 for an opcode
        never recorded. */
    method OpcodeTable() returns (rows: seq<Row>)
      requires Valid()
      ensures |rows| == 256
      ensures forall x :: 0 <= x < 256 ==> rows[x] == Row(x, histogram[x])
      ensures forall x :: 0 <= x < 256 ==> rows[x].count == multiset(Seen())[x]
    {
      rows := [];
      for opcode := 0 to 256
        invariant |rows| == opcode
        invariant forall x :: 0 <= x < opcode ==> rows[x] == Row(x, histogram[x])
      {
        rows := rows + [Row(opcode, histogram[opcode])];
      }
      HistogramIsMultiplicity(Seen());
    }
  }
}
