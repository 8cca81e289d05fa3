/**
  The few PHP values the plugin's distance comparison can see, and PHP's
  loose `>` between them. An entry missing from an array reads as null.
 */
module PhpValues {

  datatype PhpValue = PhpInt(i: int) | PhpNull

  /** PHP's conversion to boolean: null and 0 are false, every other integer is true. */
  predicate ToBool(v: PhpValue)
  {
    match v
    case PhpInt(i) => i != 0
    case PhpNull => false
  }

  /**
    PHP's loose `a > b`: two integers compare numerically; when either side
    is null, both sides are converted to booleans and compared with false
    below true.
   */
  predicate LooseGreater(a: PhpValue, b: PhpValue)
  {
    if a.PhpInt? && b.PhpInt? then a.i > b.i
    else ToBool(a) && !ToBool(b)
  }

  /** An integer is greater than null exactly when it is non-zero, negative ones included. */
  lemma IntGreaterThanNull(d: int)
    ensures LooseGreater(PhpInt(d), PhpNull) <==> d != 0
  {
  }
}
