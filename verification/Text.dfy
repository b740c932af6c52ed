/** Substring search, joining and prefixes. */
module Text {
  import opened Prelude

  predicate MatchAt(text: string, pattern: string, i: nat) {
    i + |pattern| <= |text| && text[i..i + |pattern|] == pattern
  }

  /** `pattern in text`. */
  predicate Contains(text: string, pattern: string) {
    exists i: nat | i <= |text| :: MatchAt(text, pattern, i)
  }

  predicate StartsWith(text: string, prefix: string) {
    prefix <= text
  }

  /** The first position at or after `from` where `pattern` occurs. */
  function FirstMatch(text: string, pattern: string, from: nat): (r: Option<nat>)
    ensures r.Some? ==> from <= r.value && MatchAt(text, pattern, r.value)
    ensures r.Some? ==> forall j | from <= j < r.value :: !MatchAt(text, pattern, j)
    ensures r.None? ==> forall j | from <= j <= |text| :: !MatchAt(text, pattern, j)
    decreases |text| - from
  {
    if MatchAt(text, pattern, from) then Some(from)
    else if from >= |text| then None
    else FirstMatch(text, pattern, from + 1)
  }

  /** `sep.join(parts)`. */
  function Join(parts: seq<string>, sep: string): string {
    if |parts| == 0 then ""
    else if |parts| == 1 then parts[0]
    else parts[0] + sep + Join(parts[1..], sep)
  }
}
