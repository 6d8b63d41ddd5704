/**
 * Translation of COROS dictionary keys (translate_key). The dictionary is an
 * explicit parameter instead of the process-wide cache the program loads
 * from coros_dictionary.json.
 */
module Translation {
  import opened Wrappers

  /** Python's `s[:m]` for a possibly negative `m`. */
  function PrefixSlice(s: string, m: int): (r: string)
    ensures |r| <= |s| && r == s[..|r|]
    ensures 0 <= m <= |s| ==> |r| == m
    ensures m < 0 ==> |r| == if |s| + m < 0 then 0 else |s| + m
  {
    if m >= 0 then (if m <= |s| then s[..m] else s)
    else if |s| + m < 0 then [] else s[..|s| + m]
  }

  /** Whether translate_key cuts a translation: `max_length` is truthy and the text is longer. */
  predicate Truncates(translation: string, maxLength: Option<int>) {
    maxLength.Some? && maxLength.value != 0 && |translation| > maxLength.value
  }

  /**
   * `dictionary.get(key, key)`, cut to `maxLength` characters plus "..." when
   * `maxLength` is truthy (present and non-zero) and the translation is longer.
   */
  function TranslateKey(key: string, dictionary: map<string, string>, maxLength: Option<int>): (r: string)
    ensures var t := if key in dictionary then dictionary[key] else key;
      && (!Truncates(t, maxLength) ==> r == t)
      && (Truncates(t, maxLength) && maxLength.value > 0 ==>
            |r| == maxLength.value + 3 && r == t[..maxLength.value] + "...")
      && (Truncates(t, maxLength) && maxLength.value < 0 ==>
            // a negative bound drops that many characters from the end
            3 <= |r| <= |t| + 3 && r == t[..|r| - 3] + "..."
            && |r| - 3 == if |t| + maxLength.value < 0 then 0 else |t| + maxLength.value)
    ensures key !in dictionary && maxLength.None? ==> r == key
  {
    var translation := if key in dictionary then dictionary[key] else key;
    if Truncates(translation, maxLength) then
      PrefixSlice(translation, maxLength.value) + "..."
    else translation
  }
}
