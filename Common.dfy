/** Value types shared by the front-end and back-end models. */
module Common {

  datatype Option<T> = None | Some(value: T)

  /**
   * JavaScript truthiness of a value the app holds as "a string or null"
   * (a session token, an alias field, a response field): null and "" are
   * falsy, every other string is truthy.
   */
  predicate Truthy(s: Option<string>) {
    s.Some? && s.value != ""
  }

  /** The 62-letter alphabet (A-Z, a-z, 0-9) that both short-code generators draw from. */
  const Alphabet: string := "ABCDEFGHIJKLMNOPQRSTUVWXYZabcdefghijklmnopqrstuvwxyz0123456789"

  /** A code every character of which is drawn from the alphabet. */
  predicate OverAlphabet(code: string) {
    forall i :: 0 <= i < |code| ==> code[i] in Alphabet
  }

  /** `Array.prototype.find` as an index: the first position whose element satisfies `p`. */
  function FindFirst<T>(s: seq<T>, p: T -> bool): (r: Option<nat>)
    ensures r.Some? ==> r.value < |s| && p(s[r.value]) && forall j :: 0 <= j < r.value ==> !p(s[j])
    ensures r.None? ==> forall j :: 0 <= j < |s| ==> !p(s[j])
  {
    if |s| == 0 then None
    else if p(s[0]) then Some(0)
    else match FindFirst(s[1..], p)
      case None => None
      case Some(k) => Some(k + 1)
  }
}
