# Bytecode statistics accumulator of `lab.Analyzer`

`lab.Analyzer` reads every `.class` entry of a jar with ASM and reports five
totals (classes, methods with code, instructions, invoke instructions,
conditional-branch instructions) and a 256-row opcode histogram. Parsing is
ASM's; what the repository itself does is classify each instruction's opcode
and accumulate the statistics. This project models that part:

- `opcodes.dfy` (module `Opcodes`): the JVM opcode values involved (chapter 6
  of the Java Virtual Machine Specification) and the two categories as
  explicitly enumerated opcode lists: the five invocations and the eighteen
  conditional branches.
- `counting.dfy` (module `Counting`): the specification of the tallies as
  functions of the opcode stream (`CountWhere`, `HistogramOf`, `SumOver`)
  and the laws relating them: every total is a sum over histogram slots,
  each slot is the multiplicity of its opcode, totals add up over a split
  stream, do not depend on order, and ignore pseudo-instructions.
- `analyzer.dfy` (module `Lab`): the `INVOKE_RANGE` and `CBRANCH_RANGES`
  tables, the range scan with early `break`, and class `Analyzer`, whose
  fields are the source's static counters with the histogram as an
  `array<int>` of 256 slots (the source's `ConcurrentHashMap` read with
  `getOrDefault(opcode, 0)`; every observable read agrees). A ghost history
  of the analyzed methods ties the counters to the specification.
  `AnalyzeMethod`, `AnalyzeMethods` and `AnalyzeClass` keep `Valid()`;
  `AnalyzeMethod` and `AnalyzeClass` also state each counter's new value in
  terms of the old one. `RecordInstruction` and `TallyStream` are the steps
  inside one method and state the histogram and the two counters they
  change.

An ASM instruction list is modelled as a sequence of opcodes in -1..255,
where -1 marks ASM's pseudo-instructions (labels, line numbers, frames). The
source's parallel stream is modelled as a sequential loop; `OrderIndependent`
and `CountWhereAppend` state why any order or partition gives the same totals.

## Model

| member | source | states |
|---|---|---|
| `Lab.ScanBranchRanges` | src/main/java/lab/Analyzer.java:128-133 | the walk over `CBRANCH_RANGES` with early `break` finds a range exactly when the opcode is one of the eighteen conditional branches |
| `Lab.BranchRangesCover` | src/main/java/lab/Analyzer.java:32-38 | the five inclusive ranges 153-158, 159-164, 165-166, 170-171, 198-199 together hold exactly the conditional-branch opcodes |
| `Lab.RangesClassify` | src/main/java/lab/Analyzer.java:41 | an opcode is in 182..186 exactly when it is an invoke opcode; the invoke range and the branch ranges are pairwise disjoint; 167, 168, 169 are in no branch range |
| `Opcodes.CategoriesAreDisjoint` | src/main/java/lab/Analyzer.java:123-134 | goto, jsr, ret and athrow are not conditional branches; no opcode is both an invocation and a branch; the pseudo-opcode -1 is neither |
| `Lab.Analyzer.RecordInstruction` | src/main/java/lab/Analyzer.java:116-135 | one real instruction bumps its own histogram slot and nothing else in it, adds one to the invocation count iff it is an invoke, otherwise one to the branch count iff it is a conditional branch |
| `Lab.Analyzer.TallyStream` | src/main/java/lab/Analyzer.java:114-136 | the filtered stream returns the number of non-(-1) opcodes, and adds to the histogram and the two counters exactly the tallies of those opcodes |
| `Lab.Analyzer.AnalyzeMethod` | src/main/java/lab/Analyzer.java:102-141 | `instructionCount` grows by the number of real instructions, `methodCount` by one iff there is at least one, the invoke and branch counters and every slot by the method's tallies; `classCount` is unchanged and the state stays consistent |
| `Lab.Analyzer.AnalyzeMethods` | src/main/java/lab/Analyzer.java:96-99 | the loop over a class's methods analyzes each of them in order, extends the history by exactly that list and leaves `classCount` alone |
| `Lab.Analyzer.AnalyzeClass` | src/main/java/lab/Analyzer.java:90-100 | `classCount` grows by exactly one whatever the methods contain; every other counter and slot grows by the tally of all its methods, `methodCount` by the number of methods with code |
| `Lab.Analyzer.constructor` | src/main/java/lab/Analyzer.java:22-29 | every counter starts at zero and every one of the 256 slots at zero |
| `Lab.Analyzer.OpcodeTable` | src/main/java/lab/Analyzer.java:61-67 | exactly 256 rows for opcodes 0..255 in ascending order, each with its slot's count, which is the number of times that opcode was seen and so 0 for one never recorded |
| `Lab.StatisticsAgree` | src/main/java/lab/Analyzer.java:114-140 | in every consistent state the 256 slots sum to `instructionCount`, slots 182..186 to the invocation count, the slots of the five branch ranges to the branch count, and `methodCount` is at most the number of analyzed methods and at most `instructionCount` |
| `Lab.ConsistentAfterMethod` | src/main/java/lab/Analyzer.java:114-140 | adding one method's tallies to a consistent state gives the consistent state of the longer history |
| `Lab.ConsistentDeltas` | src/main/java/lab/Analyzer.java:96-99 | between two consistent states whose histories differ by a list of methods, every counter differs by that list's tally |
| `Lab.MethodsWithCode` | src/main/java/lab/Analyzer.java:140 | the number of methods counted is at most the number of methods |
| `Lab.AllMethodsCountedIff` | src/main/java/lab/Analyzer.java:140 | every method is counted exactly when every method has at least one real instruction |
| `Lab.MethodsBoundedByInstructions` | src/main/java/lab/Analyzer.java:139-140 | the methods counted never outnumber the real instructions counted |
| `Lab.FlattenAppend` | src/main/java/lab/Analyzer.java:96-99 | the opcodes of two method lists analyzed in turn are those of their concatenation |
| `Lab.MethodsWithCodeAppend` | src/main/java/lab/Analyzer.java:96-99 | the methods with code of two method lists add up |
| `Counting.CountWhere` | src/main/java/lab/Analyzer.java:136 | a category count never exceeds the stream length |
| `Counting.HistogramOf` | src/main/java/lab/Analyzer.java:120 | the histogram always has 256 slots |
| `Counting.HistogramIsMultiplicity` | src/main/java/lab/Analyzer.java:120 | slot x of the histogram is the number of occurrences of opcode x |
| `Counting.SumOverBump` | src/main/java/lab/Analyzer.java:120 | one `merge(opcode, 1, Integer::sum)` raises a slot sum by one exactly when the slot is among those summed |
| `Counting.HistogramCounts` | src/main/java/lab/Analyzer.java:114-136 | each total equals the sum of the histogram over its category's slots |
| `Counting.CountWhereAppend` | src/main/java/lab/Analyzer.java:114 | a count over a concatenated stream is the sum of the counts over its parts, so partitions may be tallied separately |
| `Counting.HistogramAppend` | src/main/java/lab/Analyzer.java:114-120 | the histogram of a concatenated stream is the slot-wise sum of the parts' histograms |
| `Counting.OrderIndependent` | src/main/java/lab/Analyzer.java:114-136 | two streams with the same multiset of opcodes have the same histogram and the same totals |
| `Counting.PseudoIsInert` | src/main/java/lab/Analyzer.java:115 | inserting a -1 anywhere leaves every total and every slot unchanged |
| `Counting.InvokeAndBranchExclusive` | src/main/java/lab/Analyzer.java:123-134 | invocations plus branches never exceed the real instructions: no instruction is counted twice |

## Left out

- Class-file and bytecode decoding: done by ASM's `ClassReader` into a `ClassNode`, a foreign library; the model starts from the method list and the instruction opcodes.
- Jar enumeration (`analyzeJar`, `analyzeJarEntry`): reading entries, the directory and `.class` filter, and the input streams are I/O over foreign types.
- Mnemonics: the `Printer.OPCODES` table is foreign; report rows carry only opcode and count.
- Printing: every `System.out.println` helper and `printStatistics` are output formatting.
- Concurrency: the parallel stream, `AtomicInteger` and `ConcurrentHashMap` are modelled as a sequential loop; order and partition independence are stated as lemmas instead of threads.
- Static state: the source's counters and histogram are `static` fields, initialised once per JVM, so a second `Analyzer` or a second run of `main` in the same JVM would keep adding to the old totals; the model holds them as fields of one instance whose constructor starts them at zero.
- Integer width: counters are unbounded, so the `long` to `int` cast of the stream count and Java `int` overflow are not modelled.
- The test class only runs `main` on a jar and compares standard output with a recorded file; it has no logic of its own.
