/**
 * The PHP string built-ins the login endpoint relies on, restated over
 * Dafny strings: trim() with its default character list, strtolower()
 * (ASCII case folding), strpos(...) !== false, str_replace($needle, '', ...)
 * and empty() applied to a string.
 */
module PhpStrings {

  /** The characters trim() strips by default: space, tab, line feed,
      carriage return, NUL and vertical tab. */
  predicate IsTrimChar(c: char) {
    c == ' ' || c == '\t' || c == '\n' || c == '\r' || c == '\0' || c == '\U{B}'
  }

  predicate AllTrimChars(s: string) {
    forall i :: 0 <= i < |s| ==> IsTrimChar(s[i])
  }

  /** Neither end of s is a character trim() would strip. */
  predicate IsTrimmed(s: string) {
    s == [] || (!IsTrimChar(s[0]) && !IsTrimChar(s[|s| - 1]))
  }

  /** How many characters trim() strips from the front of s. */
  function LeadingTrimCount(s: string): (k: nat)
    ensures k <= |s|
    ensures AllTrimChars(s[..k])
    ensures k < |s| ==> !IsTrimChar(s[k])
  {
    if s == [] || !IsTrimChar(s[0]) then 0
    else
      var k' := LeadingTrimCount(s[1..]);
      assert s[..k' + 1] == [s[0]] + s[1..][..k'];
      1 + k'
  }

  /** How many characters trim() strips from the back of s. */
  function TrailingTrimCount(s: string): (k: nat)
    ensures k <= |s|
    ensures AllTrimChars(s[|s| - k..])
    ensures k < |s| ==> !IsTrimChar(s[|s| - 1 - k])
  {
    if s == [] || !IsTrimChar(s[|s| - 1]) then 0
    else
      var init := s[..|s| - 1];
      var k' := TrailingTrimCount(init);
      assert s[|s| - (k' + 1)..] == init[|init| - k'..] + [s[|s| - 1]];
      1 + k'
  }

  /** trim($s): s is a run of strippable characters, then r, then another
      such run, and r itself neither starts nor ends with one. */
  function Trim(s: string): (r: string)
    ensures |r| <= |s|
    ensures IsTrimmed(r)
    ensures LeadingTrimCount(s) + |r| <= |s|
    ensures r == s[LeadingTrimCount(s)..LeadingTrimCount(s) + |r|]
    ensures AllTrimChars(s[..LeadingTrimCount(s)])
    ensures AllTrimChars(s[LeadingTrimCount(s) + |r|..])
  {
    var l := LeadingTrimCount(s);
    var t := s[l..];
    var m := TrailingTrimCount(t);
    var r := t[..|t| - m];
    assert s[l + |r|..] == t[|t| - m..];
    assert r != [] ==> r[0] == s[l] && r[|r| - 1] == t[|t| - 1 - m];
    r
  }

  /** A string trim() leaves alone is returned unchanged. */
  lemma TrimOfTrimmed(s: string)
    requires IsTrimmed(s)
    ensures Trim(s) == s
  {
    assert LeadingTrimCount(s) == 0;
    assert TrailingTrimCount(s) == 0;
  }

  predicate IsUpper(c: char) {
    'A' <= c <= 'Z'
  }

  predicate NoUpper(s: string) {
    forall i :: 0 <= i < |s| ==> !IsUpper(s[i])
  }

  function LowerChar(c: char): char {
    if IsUpper(c) then (c as int + 32) as char else c
  }

  /** strtolower($s): ASCII letters A-Z become a-z, every other character
      is kept, and the length does not change. */
  function ToLower(s: string): (r: string)
    ensures |r| == |s|
    ensures NoUpper(r)
    ensures forall i :: 0 <= i < |s| && IsUpper(s[i]) ==> r[i] as int == s[i] as int + 32
    ensures forall i :: 0 <= i < |s| && !IsUpper(s[i]) ==> r[i] == s[i]
  {
    seq(|s|, i requires 0 <= i < |s| => LowerChar(s[i]))
  }

  /** A string without upper-case letters is its own lower-case form. */
  lemma ToLowerOfLower(s: string)
    requires NoUpper(s)
    ensures ToLower(s) == s
  {
  }

  /** strpos($haystack, $needle) !== false. */
  predicate Contains(haystack: string, needle: string)
    decreases |haystack|
  {
    needle <= haystack || (haystack != [] && Contains(haystack[1..], needle))
  }

  /** Contains holds exactly when the needle starts at some offset of the haystack. */
  lemma {:induction false} ContainsAt(haystack: string, needle: string)
    ensures Contains(haystack, needle) <==> exists k :: 0 <= k <= |haystack| && needle <= haystack[k..]
  {
    assert haystack[0..] == haystack;
    if haystack != [] {
      var tail := haystack[1..];
      ContainsAt(tail, needle);
      if Contains(tail, needle) {
        var k :| 0 <= k <= |tail| && needle <= tail[k..];
        assert tail[k..] == haystack[k + 1..];
      }
      forall k | 0 < k <= |haystack| && needle <= haystack[k..]
        ensures Contains(haystack, needle)
      {
        assert tail[k - 1..] == haystack[k..];
      }
    }
  }


  /** str_replace($needle, '', $s): one left-to-right pass that deletes
      every non-overlapping occurrence of needle. */
  function RemoveAll(s: string, needle: string): (r: string)
    requires needle != []
    ensures |r| <= |s|
    ensures !Contains(s, needle) ==> r == s
    decreases |s|
  {
    if s == [] then []
    else if needle <= s then RemoveAll(s[|needle|..], needle)
    else [s[0]] + RemoveAll(s[1..], needle)
  }

  /** A leading occurrence is deleted and the scan resumes after it. */
  lemma {:induction false} RemoveAllLeading(needle: string, rest: string)
    requires needle != []
    ensures RemoveAll(needle + rest, needle) == RemoveAll(rest, needle)
  {
    assert needle <= needle + rest;
    assert (needle + rest)[|needle|..] == rest;
  }

  /** A prefix that contains no part of an occurrence survives unchanged. */
  lemma {:induction false} RemoveAllKeepsPrefix(prefix: string, rest: string, needle: string)
    requires needle != []
    requires forall k :: 0 <= k < |prefix| ==> !(needle <= (prefix + rest)[k..])
    ensures RemoveAll(prefix + rest, needle) == prefix + RemoveAll(rest, needle)
    decreases |prefix|
  {
    if prefix != [] {
      var s := prefix + rest;
      assert !(needle <= s[0..]);
      assert s[0..] == s;
      assert s[1..] == prefix[1..] + rest;
      forall k | 0 <= k < |prefix[1..]|
        ensures !(needle <= (prefix[1..] + rest)[k..])
      {
        assert (prefix[1..] + rest)[k..] == s[k + 1..];
      }
      RemoveAllKeepsPrefix(prefix[1..], rest, needle);
    } else {
      assert prefix + rest == rest;
    }
  }

  /** empty($s) for a string: true for "" and for "0". */
  predicate IsEmptyString(s: string) {
    s == "" || s == "0"
  }
}
