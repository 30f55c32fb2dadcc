/** The specification of what the analyzer accumulates, as functions of the
    sequence of opcodes it has been shown: how many entries fall in a
    category, and the 256-slot opcode histogram. The lemmas state the laws
    the parallel stream in `analyzeMethod` relies on: the totals are
    determined by the histogram, the histogram by the multiset of opcodes,
    and totals over a split stream add up. */
module Counting {
  import opened Opcodes

  /** Number of entries of `ops` whose opcode satisfies `p`. */
  function CountWhere(ops: seq<Opcode>, p: int -> bool): (n: nat)
    ensures n <= |ops|
  {
    if ops == [] then 0
    else CountWhere(ops[..|ops| - 1], p) + (if p(ops[|ops| - 1]) then 1 else 0)
  }

  /** One more occurrence of `op`; a pseudo-instruction has no slot. */
  function Bump(h: seq<int>, op: Opcode): seq<int>
    requires |h| == 256
  {
    if op == PSEUDO then h else h[op := h[op] + 1]
  }

  /** The histogram built the way the analyzer builds it: start from 256
      zero slots and bump one slot per real instruction, in order. */
  function HistogramOf(ops: seq<Opcode>): (h: seq<int>)
    ensures |h| == 256
  {
    if ops == [] then seq(256, _ => 0)
    else Bump(HistogramOf(ops[..|ops| - 1]), ops[|ops| - 1])
  }

  /** Sum of the slots of `h` whose opcode satisfies `p`. */
  function SumOver(h: seq<int>, p: int -> bool): int
  {
    if h == [] then 0
    else SumOver(h[..|h| - 1], p) + (if p(|h| - 1) then h[|h| - 1] else 0)
  }

  /** Extending a prefix of `s` by one element. */
  lemma PrefixStep<T>(s: seq<T>, i: nat)
    requires i < |s|
    ensures s[..i + 1] == s[..i] + [s[i]]
  {
  }

  /** One more opcode: the count grows by one exactly when `p` holds of it. */
  lemma CountStep(ops: seq<Opcode>, op: Opcode, p: int -> bool)
    ensures CountWhere(ops + [op], p) == CountWhere(ops, p) + (if p(op) then 1 else 0)
  {
    assert (ops + [op])[..|ops|] == ops;
  }

  /** One more opcode: the histogram is bumped at its slot. */
  lemma HistogramStep(ops: seq<Opcode>, op: Opcode)
    ensures HistogramOf(ops + [op]) == Bump(HistogramOf(ops), op)
  {
    assert (ops + [op])[..|ops|] == ops;
  }

  /** The three totals and the histogram after one more opcode of a stream
      whose first `i` entries have been tallied on top of `prefix`. */
  lemma StreamStep(prefix: seq<Opcode>, ops: seq<Opcode>, i: nat)
    requires i < |ops|
    ensures CountWhere(ops[..i + 1], IsReal) == CountWhere(ops[..i], IsReal) + (if IsReal(ops[i]) then 1 else 0)
    ensures CountWhere(ops[..i + 1], IsInvoke) == CountWhere(ops[..i], IsInvoke) + (if IsInvoke(ops[i]) then 1 else 0)
    ensures CountWhere(ops[..i + 1], IsCondBranch) == CountWhere(ops[..i], IsCondBranch) + (if IsCondBranch(ops[i]) then 1 else 0)
    ensures HistogramOf(prefix + ops[..i + 1]) == Bump(HistogramOf(prefix + ops[..i]), ops[i])
  {
    assert ops[..i + 1] == ops[..i] + [ops[i]];
    assert prefix + ops[..i + 1] == (prefix + ops[..i]) + [ops[i]];
    CountStep(ops[..i], ops[i], IsReal);
    CountStep(ops[..i], ops[i], IsInvoke);
    CountStep(ops[..i], ops[i], IsCondBranch);
    HistogramStep(prefix + ops[..i], ops[i]);
  }

  /** Each slot of the histogram is the number of times its opcode occurs. */
  lemma {:induction false} HistogramIsMultiplicity(ops: seq<Opcode>)
    ensures forall x :: 0 <= x < 256 ==> HistogramOf(ops)[x] == multiset(ops)[x]
  {
    if ops != [] {
      var init, last := ops[..|ops| - 1], ops[|ops| - 1];
      HistogramIsMultiplicity(init);
      PrefixStep(ops, |ops| - 1);
      assert ops[..|ops|] == ops;
      assert multiset(ops) == multiset(init) + multiset{last};
    }
  }

  /** Bumping one slot raises the sum over `p` by one exactly when `p`
      selects that slot. */
  lemma {:induction false} SumOverBump(h: seq<int>, x: int, p: int -> bool)
    requires 0 <= x < |h|
    ensures SumOver(h[x := h[x] + 1], p) == SumOver(h, p) + (if p(x) then 1 else 0)
  {
    var h' := h[x := h[x] + 1];
    if x < |h| - 1 {
      assert h'[..|h'| - 1] == h[..|h| - 1][x := h[x] + 1];
      SumOverBump(h[..|h| - 1], x, p);
    } else {
      assert h'[..|h'| - 1] == h[..|h| - 1];
    }
  }

  lemma {:induction false} SumOverZeros(h: seq<int>, p: int -> bool)
    requires forall i :: 0 <= i < |h| ==> h[i] == 0
    ensures SumOver(h, p) == 0
  {
    if h != [] {
      SumOverZeros(h[..|h| - 1], p);
    }
  }

  /** Every total the analyzer keeps can be read back from the histogram:
      counting the instructions in a category equals summing the histogram
      over that category's slots. */
  lemma {:induction false} HistogramCounts(ops: seq<Opcode>, p: int -> bool)
    requires !p(PSEUDO)
    ensures SumOver(HistogramOf(ops), p) == CountWhere(ops, p)
  {
    if ops != [] {
      var init, last := ops[..|ops| - 1], ops[|ops| - 1];
      HistogramCounts(init, p);
      if last != PSEUDO {
        SumOverBump(HistogramOf(init), last, p);
      }
    } else {
      SumOverZeros(HistogramOf(ops), p);
    }
  }

  /** Counting over a concatenation is the sum of the counts over its parts:
      a partition of the stream may be tallied piecewise and added. */
  lemma {:induction false} CountWhereAppend(a: seq<Opcode>, b: seq<Opcode>, p: int -> bool)
    ensures CountWhere(a + b, p) == CountWhere(a, p) + CountWhere(b, p)
  {
    if b != [] {
      var init := b[..|b| - 1];
      assert (a + b)[..|a + b| - 1] == a + init;
      CountWhereAppend(a, init, p);
    } else {
      assert a + b == a;
    }
  }

  /** The histogram of a concatenation is the slot-wise sum of the parts'. */
  lemma HistogramAppend(a: seq<Opcode>, b: seq<Opcode>)
    ensures forall x :: 0 <= x < 256 ==> HistogramOf(a + b)[x] == HistogramOf(a)[x] + HistogramOf(b)[x]
  {
    HistogramIsMultiplicity(a);
    HistogramIsMultiplicity(b);
    HistogramIsMultiplicity(a + b);
    assert multiset(a + b) == multiset(a) + multiset(b);
  }

  /** The histogram, and with it every total, depends only on the multiset
      of opcodes and not on their order. */
  lemma OrderIndependent(a: seq<Opcode>, b: seq<Opcode>, p: int -> bool)
    requires multiset(a) == multiset(b)
    requires !p(PSEUDO)
    ensures HistogramOf(a) == HistogramOf(b)
    ensures CountWhere(a, p) == CountWhere(b, p)
  {
    HistogramIsMultiplicity(a);
    HistogramIsMultiplicity(b);
    assert HistogramOf(a) == HistogramOf(b);
    HistogramCounts(a, p);
    HistogramCounts(b, p);
  }

  /** A pseudo-instruction anywhere in the stream changes no total and no
      histogram slot. */
  lemma PseudoIsInert(a: seq<Opcode>, b: seq<Opcode>, p: int -> bool)
    requires !p(PSEUDO)
    ensures CountWhere(a + [PSEUDO] + b, p) == CountWhere(a + b, p)
    ensures HistogramOf(a + [PSEUDO] + b) == HistogramOf(a + b)
  {
    CountWhereAppend(a + [PSEUDO], b, p);
    CountWhereAppend(a, [PSEUDO], p);
    CountWhereAppend(a, b, p);
    assert CountWhere([PSEUDO], p) == 0 by {
      assert [PSEUDO][..0] == [];
    }
    HistogramAppend(a + [PSEUDO], b);
    HistogramAppend(a, [PSEUDO]);
    HistogramAppend(a, b);
    assert [PSEUDO][..0] == [];
    assert HistogramOf([PSEUDO]) == HistogramOf([]);
  }

  /** No instruction is counted both as an invocation and as a branch, and
      neither kind is counted for a pseudo-instruction. */
  lemma {:induction false} InvokeAndBranchExclusive(ops: seq<Opcode>)
    ensures CountWhere(ops, IsInvoke) + CountWhere(ops, IsCondBranch) <= CountWhere(ops, IsReal)
  {
    if ops != [] {
      InvokeAndBranchExclusive(ops[..|ops| - 1]);
    }
  }
}
