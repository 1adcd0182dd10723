/** The regular-expression search `name.match(/[^a-zA-Z]/)` that both the
    profile screen and the onboarding screen use to reject names. */
module NameMatch {
  import opened Wrappers

  /** The character class `[a-zA-Z]`. */
  predicate IsLetter(c: char) {
    'a' <= c <= 'z' || 'A' <= c <= 'Z'
  }

  predicate AllLetters(s: string) {
    forall i :: 0 <= i < |s| ==> IsLetter(s[i])
  }

  /** `s.match(/[^a-zA-Z]/)`: the position of the first character outside
      `[a-zA-Z]` (the match), or `None` when the search finds nothing (`null`). */
  function FirstNonLetter(s: string): (r: Option<nat>)
    ensures r.Some? ==> r.value < |s| && !IsLetter(s[r.value])
    ensures r.None? <==> AllLetters(s)
  {
    if |s| == 0 then None
    else if !IsLetter(s[0]) then Some(0)
    else
      match FirstNonLetter(s[1..])
      case None => None
      case Some(i) => Some(i + 1)
  }
}
