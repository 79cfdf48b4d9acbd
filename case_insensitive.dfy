/**
 * String-keyed dictionaries whose keys are matched ignoring case, the way the
 * host's request-header dictionary and its configuration providers look names
 * up (header field names are case-insensitive, section 5.1 of RFC 9110).
 */
module CaseInsensitive {

  import opened Wrappers

  /** Upper-cases an ASCII letter; every other character is left alone. */
  function FoldChar(c: char): char
  {
    if 'a' <= c <= 'z' then (c as int - 32) as char else c
  }

  function Fold(s: string): string
  {
    seq(|s|, i requires 0 <= i < |s| => FoldChar(s[i]))
  }

  /** Two names denote the same key when they agree up to ASCII case. */
  predicate NameEquals(a: string, b: string)
  {
    Fold(a) == Fold(b)
  }

  predicate HasName(m: map<string, string>, name: string)
  {
    exists k :: k in m && NameEquals(k, name)
  }

  /** No two keys of the dictionary name the same entry. */
  predicate CaseDistinct(m: map<string, string>)
  {
    forall k1, k2 :: k1 in m && k2 in m && NameEquals(k1, k2) ==> k1 == k2
  }

  type CaseInsensitiveMap = m: map<string, string> | CaseDistinct(m) witness map[]

  /**
   * `TryGetValue`: the value stored under any spelling of `name`, or None when
   * no key matches it.
   */
  function TryGetValue(m: CaseInsensitiveMap, name: string): (r: Option<string>)
    ensures r.None? <==> !HasName(m, name)
    ensures forall k :: k in m && NameEquals(k, name) ==> r == Some(m[k])
  {
    if HasName(m, name) then
      var k :| k in m && NameEquals(k, name);
      Some(m[k])
    else
      None
  }

  /** Looking a name up under two spellings that differ only in case gives the same answer. */
  lemma TryGetValueIgnoresCase(m: CaseInsensitiveMap, a: string, b: string)
    requires NameEquals(a, b)
    ensures TryGetValue(m, a) == TryGetValue(m, b)
  {
  }
}
