/** The three ECMAScript string built-ins the URL helper relies on, over
    `seq<char>`: `String.prototype.startsWith`, `String.prototype.endsWith`
    (both without the optional position argument) and
    `String.prototype.slice` (with a start argument only).

    `StartsWith` and `EndsWith` are written as a comparison of characters
    one at a time; their contracts tie them to Dafny's own prefix and
    suffix notions. */
module JsString {

  /** `suffix` is a tail of `s`. */
  predicate IsSuffix(suffix: string, s: string) {
    |suffix| <= |s| && s[|s| - |suffix|..] == suffix
  }

  /** `s.startsWith(search)`: the first `|search|` characters of `s` are
      exactly `search`. */
  function StartsWith(s: string, search: string): (r: bool)
    ensures r <==> search <= s
  {
    if |search| == 0 then true
    else if |s| == 0 then false
    else
      assert search <= s <==> s[0] == search[0] && search[1..] <= s[1..];
      s[0] == search[0] && StartsWith(s[1..], search[1..])
  }

  /** `s.endsWith(search)`: the last `|search|` characters of `s` are
      exactly `search`. */
  function EndsWith(s: string, search: string): (r: bool)
    ensures r <==> IsSuffix(search, s)
  {
    if |search| == 0 then true
    else if |s| == 0 then false
    else
      var s', search' := s[..|s| - 1], search[..|search| - 1];
      assert s == s' + [s[|s| - 1]] && search == search' + [search[|search| - 1]];
      assert |search| <= |s| ==> s[|s| - |search|..] == s'[|s'| - |search'|..] + [s[|s| - 1]];
      s[|s| - 1] == search[|search| - 1] && EndsWith(s', search')
  }

  /** `s.slice(start)`: a negative start counts from the end, and the
      resulting index is clamped to `0 .. |s|`; the result is everything
      from that index on. */
  function Slice(s: string, start: int): (r: string)
    ensures |r| <= |s| && r == s[|s| - |r|..]
    ensures 0 <= start <= |s| ==> |r| == |s| - start
    ensures |s| <= start ==> r == []
    ensures start < 0 && |s| <= -start ==> r == s
    ensures start < 0 && -start <= |s| ==> |r| == -start
  {
    var from :=
      if start < 0 then (if |s| + start < 0 then 0 else |s| + start)
      else if start < |s| then start
      else |s|;
    s[from..]
  }
}
