/** Small shared definitions. */
module Prelude {

  datatype Option<+T> = None | Some(value: T)

  /** JavaScript's `text.slice(0, n)`. */
  function Truncate(text: string, n: nat): (r: string)
    ensures r <= text && |r| <= n
    ensures |text| <= n ==> r == text
  {
    if |text| <= n then text else text[..n]
  }

  /** JavaScript's `!text` on a nullable string: missing and empty count alike. */
  predicate Blank(text: Option<string>) {
    text.None? || text.value == ""
  }

  function UpperAscii(c: char): char {
    if 'a' <= c <= 'z' then (c as int - 'a' as int + 'A' as int) as char else c
  }

  /** `word` starts at position i of `text`, letter case ignored; `word` is given in capitals. */
  predicate MatchesAt(text: string, word: string, i: nat) {
    i + |word| <= |text| && forall k :: 0 <= k < |word| ==> UpperAscii(text[i + k]) == word[k]
  }

  predicate MentionsIgnoringCase(text: string, word: string) {
    exists i :: 0 <= i <= |text| && MatchesAt(text, word, i)
  }
}
