/**
  The public enumerations of microlog.h: the output levels, with the integer
  values the C enumeration gives them, and the feature flags, with their bits.
 */
module MicrologHeader {
  import opened Wrappers

  /** MicrologOutputLevel, from the least verbose level to the most verbose. */
  datatype OutputLevel = LevelNone | LevelError | LevelInfo | LevelDebug | LevelTrace

  /** The value the C enumeration assigns to each level. */
  function Ordinal(level: OutputLevel): (n: nat)
    ensures n <= 4
  {
    match level
    case LevelNone => 0
    case LevelError => 1
    case LevelInfo => 2
    case LevelDebug => 3
    case LevelTrace => 4
  }

  /** The level whose enumeration value is `n`, if the header declares one. */
  function FromOrdinal(n: int): (r: Option<OutputLevel>)
    ensures r.Some? <==> 0 <= n <= 4
  {
    if n == 0 then Some(LevelNone)
    else if n == 1 then Some(LevelError)
    else if n == 2 then Some(LevelInfo)
    else if n == 3 then Some(LevelDebug)
    else if n == 4 then Some(LevelTrace)
    else None
  }

  /** The values of the enumeration identify its levels: each level's value maps back to it. */
  lemma OrdinalRoundTrip(level: OutputLevel)
    ensures FromOrdinal(Ordinal(level)) == Some(level)
  {
  }

  /** Every declared value names a level, and that level has exactly that value. */
  lemma FromOrdinalRoundTrip(n: int)
    requires 0 <= n <= 4
    ensures FromOrdinal(n).Some? && Ordinal(FromOrdinal(n).value) == n
  {
  }

  /** `a` is strictly less verbose than `b`: the order the C code's `<` comparisons use. */
  predicate Below(a: OutputLevel, b: OutputLevel)
  {
    Ordinal(a) < Ordinal(b)
  }

  /** The levels are totally ordered: two distinct levels are always comparable, one way only. */
  lemma LevelsTotallyOrdered(a: OutputLevel, b: OutputLevel)
    ensures a == b <==> Ordinal(a) == Ordinal(b)
    ensures a != b ==> (Below(a, b) <==> !Below(b, a))
    ensures !Below(a, a)
  {
  }

  /** The order is the order of declaration: None < Error < Info < Debug < Trace. */
  lemma DeclarationOrder(a: OutputLevel, b: OutputLevel, c: OutputLevel)
    ensures Below(LevelNone, LevelError) && Below(LevelError, LevelInfo)
    ensures Below(LevelInfo, LevelDebug) && Below(LevelDebug, LevelTrace)
    ensures Below(a, b) && Below(b, c) ==> Below(a, c)
  {
  }

  /** MicrologFeature, an `unsigned char` bit mask. */
  datatype Feature = FeatureColor | FeatureTime

  /** The bit a feature occupies: a single bit of an unsigned char. */
  function FeatureBit(feature: Feature): (bit: bv8)
    ensures bit != 0 && bit & (bit - 1) == 0
    ensures feature == FeatureColor ==> bit == 1
    ensures feature == FeatureTime ==> bit == 2
  {
    match feature
    case FeatureColor => 1 << 0
    case FeatureTime => 1 << 1
  }

  /** Distinct features occupy distinct bits, so the flags can be combined and tested independently. */
  lemma FeatureBitsDisjoint(f: Feature, g: Feature)
    ensures f != g <==> FeatureBit(f) & FeatureBit(g) == 0
  {
  }
}
