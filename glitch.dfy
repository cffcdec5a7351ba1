/**
 * The glitch-text effect: while glitching, each character is independently
 * replaced, with a probability set by the variant, by a random character of a
 * fixed charset; the effect arms a timer chain unless it waits for a hover.
 */
module Glitch {
  import opened Draw

  datatype Variant = Light | Heavy | Subtle

  /** The characters a glitched position can show. */
  const Charset: string := "!<>-_\\/[]{}\U{2014}=+*^?#@\U{0418}%"

  /** The charset has 21 characters. */
  lemma CharsetSize()
    ensures |Charset| == 21
  {
  }

  /** `getRandomChar`: a character of the charset. */
  function RandomChar(r: Unit): (c: char)
    ensures c in Charset
  {
    Charset[Below(r, |Charset|)]
  }

  /** The chance that a character is replaced. */
  function GlitchFactor(v: Variant): (f: real)
    ensures 0.0 < f < 1.0
  {
    match v
    case Heavy => 0.3
    case Light => 0.1
    case Subtle => 0.05
  }

  /** Milliseconds a glitch stays on screen. */
  function GlitchDuration(v: Variant): (ms: nat)
    ensures ms > 0
  {
    match v
    case Heavy => 500
    case Light => 200
    case Subtle => 100
  }

  /** A stronger variant glitches more often and for longer. */
  lemma StrongerVariantsGlitchMore()
    ensures GlitchFactor(Subtle) < GlitchFactor(Light) < GlitchFactor(Heavy)
    ensures GlitchDuration(Subtle) < GlitchDuration(Light) < GlitchDuration(Heavy)
  {
  }

  /** The draws for one character: the replacement test, and the replacement. */
  datatype CharDraw = CharDraw(rtest: Unit, rchar: Unit)

  /** One character of `createGlitchText`. */
  function GlitchChar(c: char, d: CharDraw, v: Variant): char
  {
    if d.rtest < GlitchFactor(v) then RandomChar(d.rchar) else c
  }

  /**
   * `createGlitchText`: one output character per input character, each the
   * original or a charset character, and the original wherever its test draw
   * is not below the variant's factor.
   */
  function GlitchText(text: string, draws: seq<CharDraw>, v: Variant): (g: string)
    requires |draws| == |text|
    ensures |g| == |text|
    ensures forall i :: 0 <= i < |text| ==> g[i] == text[i] || g[i] in Charset
    ensures forall i :: 0 <= i < |text| && draws[i].rtest >= GlitchFactor(v) ==> g[i] == text[i]
  {
    seq(|text|, i requires 0 <= i < |text| => GlitchChar(text[i], draws[i], v))
  }

  /** The positions a glitch replaces. */
  function Replaced(draws: seq<CharDraw>, v: Variant): set<nat>
  {
    set i: nat | i < |draws| && draws[i].rtest < GlitchFactor(v)
  }

  /**
   * With the same draws, every position a weaker variant replaces is replaced
   * by a stronger one too, with the same character.
   */
  lemma StrongerReplacesMore(text: string, draws: seq<CharDraw>)
    requires |draws| == |text|
    ensures Replaced(draws, Subtle) <= Replaced(draws, Light) <= Replaced(draws, Heavy)
    ensures forall i :: i in Replaced(draws, Light) ==>
              GlitchText(text, draws, Light)[i] == GlitchText(text, draws, Heavy)[i]
  {
  }

  /** What the glitch effect arms when it runs. */
  datatype Setup = Inert | Armed(initialGlitch: bool, duration: nat, nextInterval: real)

  /**
   * The effect: inert while waiting for a hover; otherwise an immediate glitch
   * unless the variant is subtle, and the next one after the interval give or
   * take up to a second.
   */
  function EffectSetup(onHover: bool, hoverState: bool, v: Variant, glitchInterval: real, rnext: Unit): (s: Setup)
    ensures s.Inert? <==> onHover && !hoverState
    ensures s.Armed? ==> (s.initialGlitch <==> v != Subtle)
    ensures s.Armed? ==> glitchInterval - 1000.0 <= s.nextInterval < glitchInterval + 1000.0
    ensures s.Armed? ==> s.duration == GlitchDuration(v)
  {
    if onHover && !hoverState then Inert
    else Armed(v != Subtle, GlitchDuration(v), glitchInterval + (rnext * 2000.0 - 1000.0))
  }

  /** `getColorClass`: the four named colours, and white for anything else. */
  function ColorClass(color: string): (cls: string)
    ensures color !in {"pink", "blue", "green", "yellow"} ==> cls == "text-white"
    ensures color in {"pink", "blue", "green", "yellow"} ==> cls == "text-cyberpunk-" + color
  {
    if color == "pink" then "text-cyberpunk-pink"
    else if color == "blue" then "text-cyberpunk-blue"
    else if color == "green" then "text-cyberpunk-green"
    else if color == "yellow" then "text-cyberpunk-yellow"
    else "text-white"
  }

  /** The text shown: glitched only while glitching. */
  function Rendered(text: string, isGlitching: bool, draws: seq<CharDraw>, v: Variant): (shown: string)
    requires |draws| == |text|
    ensures !isGlitching ==> shown == text
    ensures |shown| == |text|
  {
    if isGlitching then GlitchText(text, draws, v) else text
  }

  /** The two offset copies are shown while glitching, and always for the heavy variant. */
  function ShowsLayers(isGlitching: bool, v: Variant): (shown: bool)
    ensures isGlitching ==> shown
    ensures v == Heavy ==> shown
    ensures !isGlitching && v != Heavy ==> !shown
  {
    isGlitching || v == Heavy
  }

  /** Whenever the drawn text differs from the original, the offset copies are on screen too. */
  lemma LayersAccompanyGlitch(text: string, isGlitching: bool, draws: seq<CharDraw>, v: Variant)
    requires |draws| == |text|
    ensures Rendered(text, isGlitching, draws, v) != text ==> ShowsLayers(isGlitching, v)
  {
  }
}
