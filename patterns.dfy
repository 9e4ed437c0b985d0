/** Pattern matching with the regular-expression-or-literal fallback
    (acl/evaluator.py `_match`, and the identical inner `m` of
    acl/parser.py `match_identity`). */
module Patterns {

  /** The host's regular-expression library, which this model does not
      implement: whether a pattern compiles, and whether a compiled pattern
      matches the whole of a value (anchored at both ends). */
  datatype RegexEngine = RegexEngine(
    compiles: string -> bool,
    fullMatch: (string, string) -> bool)

  /** A full regular-expression match; when the pattern does not compile,
      plain string equality instead. */
  function Match(re: RegexEngine, pat: string, value: string): bool {
    if re.compiles(pat) then re.fullMatch(pat, value) else pat == value
  }

  /** Hypothesis used by scenarios: the pattern, read as a regular
      expression, matches its own text (true of any pattern without
      metacharacters). */
  predicate MatchesItself(re: RegexEngine, pat: string) {
    re.compiles(pat) ==> re.fullMatch(pat, pat)
  }

  /** A pattern that does not compile decides by equality: "[" matches
      only "[" and, in particular, not "x". */
  lemma MalformedPatternIsLiteral(re: RegexEngine, v: string)
    requires !re.compiles("[")
    ensures Match(re, "[", v) <==> v == "["
    ensures Match(re, "[", "[") && !Match(re, "[", "x")
  {
  }

  /** A self-matching pattern matches its own text on either branch. */
  lemma SelfMatch(re: RegexEngine, pat: string)
    requires MatchesItself(re, pat)
    ensures Match(re, pat, pat)
  {
  }
}
