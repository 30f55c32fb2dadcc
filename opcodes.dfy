/** The JVM opcode values the analyzer refers to (chapter 6 of the Java
    Virtual Machine Specification, as exposed by ASM's `Opcodes`) and the
    two instruction categories it counts, stated as explicit opcode sets. */
module Opcodes {

  /** What ASM's `AbstractInsnNode.getOpcode` reports: 0..255 for a real
      instruction, -1 for a pseudo-instruction (label, line number, frame). */
  type Opcode = x: int | -1 <= x <= 255

  const PSEUDO: Opcode := -1

  const IFEQ := 153
  const IFNE := 154
  const IFLT := 155
  const IFGE := 156
  const IFGT := 157
  const IFLE := 158
  const IF_ICMPEQ := 159
  const IF_ICMPNE := 160
  const IF_ICMPLT := 161
  const IF_ICMPGE := 162
  const IF_ICMPGT := 163
  const IF_ICMPLE := 164
  const IF_ACMPEQ := 165
  const IF_ACMPNE := 166
  const GOTO := 167
  const JSR := 168
  const RET := 169
  const TABLESWITCH := 170
  const LOOKUPSWITCH := 171
  const INVOKEVIRTUAL := 182
  const INVOKESPECIAL := 183
  const INVOKESTATIC := 184
  const INVOKEINTERFACE := 185
  const INVOKEDYNAMIC := 186
  const ATHROW := 191
  const IFNULL := 198
  const IFNONNULL := 199

  /** A real instruction, as opposed to one of ASM's pseudo-instructions. */
  predicate IsReal(op: int) { op != PSEUDO }

  /** The five method-invocation instructions. */
  predicate IsInvoke(op: int)
  {
    || op == INVOKEVIRTUAL || op == INVOKESPECIAL || op == INVOKESTATIC
    || op == INVOKEINTERFACE || op == INVOKEDYNAMIC
  }

  /** The eighteen conditional control transfers: the if<cond>,
      if_icmp<cond> and if_acmp<cond> families, the two switches and the two
      null tests. */
  predicate IsCondBranch(op: int)
  {
    || op == IFEQ || op == IFNE || op == IFLT || op == IFGE || op == IFGT || op == IFLE
    || op == IF_ICMPEQ || op == IF_ICMPNE || op == IF_ICMPLT
    || op == IF_ICMPGE || op == IF_ICMPGT || op == IF_ICMPLE
    || op == IF_ACMPEQ || op == IF_ACMPNE
    || op == TABLESWITCH || op == LOOKUPSWITCH
    || op == IFNULL || op == IFNONNULL
  }

  /** The unconditional transfers are outside the branch category, and no
      opcode is both an invocation and a conditional branch. */
  lemma CategoriesAreDisjoint(op: int)
    ensures !IsCondBranch(GOTO) && !IsCondBranch(JSR) && !IsCondBranch(RET) && !IsCondBranch(ATHROW)
    ensures !(IsInvoke(op) && IsCondBranch(op))
    ensures !IsInvoke(PSEUDO) && !IsCondBranch(PSEUDO)
  {
  }
}
