/** The string operations the search boxes use: `toLowerCase` and `includes`.
    Lower-casing is modelled on the ASCII letters only. */
module Text {

  function LowerChar(c: char): char
  {
    if 'A' <= c <= 'Z' then (c as int - 'A' as int + 'a' as int) as char else c
  }

  predicate IsUpper(c: char)
  {
    'A' <= c <= 'Z'
  }

  /** `s.toLowerCase()`: same length, every upper-case letter replaced by
      its own lower-case letter, every other character kept. */
  function ToLower(s: string): (r: string)
    ensures |r| == |s|
    ensures forall i :: 0 <= i < |r| ==> !IsUpper(r[i])
    ensures forall i :: 0 <= i < |s| && IsUpper(s[i]) ==> r[i] == (s[i] as int - 'A' as int + 'a' as int) as char
    ensures forall i :: 0 <= i < |s| && !IsUpper(s[i]) ==> r[i] == s[i]
  {
    seq(|s|, i requires 0 <= i < |s| => LowerChar(s[i]))
  }

  /** Lower-casing twice is lower-casing once. */
  lemma ToLowerIdempotent(s: string)
    ensures ToLower(ToLower(s)) == ToLower(s)
  {
  }

  /** `q` occurs in `s` starting at index `i`. */
  predicate OccursAt(s: string, q: string, i: int)
  {
    0 <= i <= |s| - |q| && s[i..i + |q|] == q
  }

  /** `s.includes(q)`: the query occurs at some index of the text. */
  predicate Contains(s: string, q: string)
  {
    exists i :: 0 <= i <= |s| - |q| && OccursAt(s, q, i)
  }

  /** The empty query occurs in every text. */
  lemma EmptyIsContained(s: string)
    ensures Contains(s, "")
  {
    assert OccursAt(s, "", 0);
  }

  /** `field.toLowerCase().includes(query.toLowerCase())`. */
  predicate IncludesIgnoringCase(field: string, query: string)
  {
    Contains(ToLower(field), ToLower(query))
  }

  /** Letter case is irrelevant on either side of a case-insensitive search. */
  lemma IncludesIgnoringCaseOfLowered(field: string, query: string)
    ensures IncludesIgnoringCase(ToLower(field), query) == IncludesIgnoringCase(field, query)
    ensures IncludesIgnoringCase(field, ToLower(query)) == IncludesIgnoringCase(field, query)
  {
    ToLowerIdempotent(field);
    ToLowerIdempotent(query);
  }
}
