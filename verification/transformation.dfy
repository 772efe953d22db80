/** The optional transformation rule: a key it matches is a template whose
    resolved value is assigned to a derived key, so the derived key must be
    resolved after the template key. */
module Transformation {

  /** A stateless predicate on keys and the derived-key mapping it enables. */
  datatype Rule = Rule(matches: string -> bool, transform: string -> string)

  /** A rule for keys ending in a fixed suffix: the derived key is the key
      with the suffix removed. */
  function SuffixRule(suffix: string): (r: Rule)
    ensures forall k :: r.matches(k) ==> r.transform(k) + suffix == k
    ensures forall k :: r.matches(k + suffix) && r.transform(k + suffix) == k
  {
    Rule(k => |suffix| <= |k| && k[|k| - |suffix|..] == suffix,
         k => if |suffix| <= |k| then k[..|k| - |suffix|] else k)
  }
}
