/**
 * EcmaMapping (ui/panels/charpane/EcmaMapping.java): the SGR rendition
 * numbers of section 8.3.117 of ECMA-48 that change the style word, each as
 * a pair of masks. Applying a mode first clears its off-mask bits, then sets
 * its on-mask bits.
 */
module EcmaMapping {
  import opened Wrappers
  import opened JavaLang
  import opened StyleChars
  import opened StyleBits

  /** The on-mask and off-mask that register(nr, onMask, offMask) stores for one mode. */
  datatype Masks = Masks(on: bv32, off: bv32)

  /**
   * registerAll, as a lookup: the masks of modes 0-9, 20-25 and 27-29; mode
   * 26 is reserved. register stores both masks for a mode, so a mode is in
   * the on-mask table exactly when it is in the off-mask table.
   */
  function Registered(mode: int): Option<Masks>
  {
    match mode
    case 0 => Some(Masks(0, 0x7fff_ffff))
    case 1 => Some(Masks(STYLE_BOLD, 0))
    case 2 => Some(Masks(STYLE_FAINT, 0))
    case 3 => Some(Masks(STYLE_ITALIC, 0))
    case 4 => Some(Masks(STYLE_UNDERSCORE, 0))
    case 5 => Some(Masks(STYLE_SLOW_BLINK, 0))
    case 6 => Some(Masks(STYLE_FAST_BLINK | STYLE_UBERBOLD, 0))
    case 7 => Some(Masks(STYLE_INVERSE, 0))
    case 8 => Some(Masks(STYLE_HIDDEN, 0))
    case 9 => Some(Masks(STYLE_STRIKETHROUGH, 0))
    case 20 => Some(Masks(STYLE_FRAKTUR, 0))
    case 21 => Some(Masks(STYLE_DOUBLE_UNDERSCORE, 0))
    case 22 => Some(Masks(0, STYLE_BOLD | STYLE_FAINT))
    case 23 => Some(Masks(0, STYLE_ITALIC | STYLE_FRAKTUR))
    case 24 => Some(Masks(0, STYLE_UNDERSCORE | STYLE_DOUBLE_UNDERSCORE))
    case 25 => Some(Masks(0, STYLE_SLOW_BLINK | STYLE_FAST_BLINK))
    case 27 => Some(Masks(0, STYLE_INVERSE))
    case 28 => Some(Masks(0, STYLE_HIDDEN))
    case 29 => Some(Masks(0, STYLE_STRIKETHROUGH))
    case _ => None
  }

  /** hasMode: the mode has registered masks. */
  predicate HasMode(mode: int)
  {
    Registered(mode).Some?
  }

  /**
   * The masks of one mode applied to a style word: clear the off bits, then
   * set the on bits. The on bits end up set, the other off bits clear, and
   * every bit outside both masks keeps its value.
   */
  function ApplyMask(style: bv32, m: Masks): (r: bv32)
    ensures MasksApplied(style, m.on, m.off, r)
  {
    ClearThenSet(style, m.on, m.off);
    (style & !m.off) | m.on
  }

  /** applyStyle: a registered mode applies its masks; any other mode changes nothing. */
  function Apply(style: bv32, mode: int): (r: bv32)
    ensures !HasMode(mode) ==> r == style
    ensures HasMode(mode) ==> MasksApplied(style, Registered(mode).value.on, Registered(mode).value.off, r)
  {
    match Registered(mode)
    case None => style
    case Some(m) => ApplyMask(style, m)
  }

  /** Exactly the modes 0-9, 20-25 and 27-29 are registered. */
  lemma HasModeExactly(mode: int)
    ensures HasMode(mode) <==> 0 <= mode <= 9 || 20 <= mode <= 25 || 27 <= mode <= 29
  {
  }

  /** Applying a mode twice is applying it once. */
  lemma ApplyIdempotent(style: bv32, mode: int)
    ensures Apply(Apply(style, mode), mode) == Apply(style, mode)
  {
  }

  /** Mode 0 clears bits 0-30, so a non-negative style word becomes 0. */
  lemma ResetClearsStyle(style: bv32)
    ensures Apply(style, 0) == style & 0x8000_0000
    ensures style & 0x8000_0000 == 0 ==> Apply(style, 0) == STYLE_NONE
  {
  }

  /** Modes 1-9 set their own flag on an empty style; mode 6 also sets UBERBOLD. */
  lemma SetModes(n: int)
    requires 1 <= n <= 9
    ensures n != 6 ==> Apply(STYLE_NONE, n) == SgrFlag(n)
    ensures n == 6 ==> Apply(STYLE_NONE, n) == SgrFlag(n) | STYLE_UBERBOLD
  {
  }

  /** Modes 22-25 and 27-29 clear the flags they pair with, leaving other bits alone. */
  lemma UnsetMode(style: bv32, mode: int)
    requires 22 <= mode <= 29 && mode != 26
    ensures Registered(mode).Some? && Registered(mode).value.on == 0
    ensures Apply(style, mode) == style & !Registered(mode).value.off
  {
  }

  /** Each unset mode turns a style made of exactly its paired flags back into an empty style. */
  lemma UnmaskPairs(mode: int)
    requires 22 <= mode <= 29 && mode != 26
    ensures Apply(Registered(mode).value.off, mode) == STYLE_NONE
  {
    UnsetMode(Registered(mode).value.off, mode);
  }
}

/** Bit-level facts about clearing and setting masks in a 32-bit style word. */
module StyleBits {
  // Each fact is its own lemma: together in one proof they overwhelm the bit-vector solver.

  /** After clearing and setting, the on bits are set. */
  lemma SetBits(style: bv32, on: bv32, off: bv32)
    ensures ((style & !off) | on) & on == on
  {
  }

  /** After clearing and setting, the off bits that are not on bits are clear. */
  lemma ClearedBits(style: bv32, on: bv32, off: bv32)
    ensures ((style & !off) | on) & off & !on == 0
  {
  }

  /** After clearing and setting, the bits outside both masks are kept. */
  lemma KeptBits(style: bv32, on: bv32, off: bv32)
    ensures ((style & !off) | on) & !(on | off) == style & !(on | off)
  {
  }

  /** r has the on bits set, the other off bits clear and the bits outside both masks of style. */
  predicate MasksApplied(style: bv32, on: bv32, off: bv32, r: bv32)
  {
    r & on == on && r & off & !on == 0 && r & !(on | off) == style & !(on | off)
  }

  lemma ClearThenSet(style: bv32, on: bv32, off: bv32)
    ensures MasksApplied(style, on, off, (style & !off) | on)
  {
    SetBits(style, on, off);
    ClearedBits(style, on, off);
    KeptBits(style, on, off);
  }
}
