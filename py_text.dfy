/** Python's str.strip(), which build_prompt applies to the rendered prompt. */
module PyText {

  /** The characters for which Python's str.isspace() holds. */
  predicate IsSpace(c: char) {
    || '\U{9}' <= c <= '\U{D}'
    || '\U{1C}' <= c <= '\U{20}'
    || c == '\U{85}' || c == '\U{A0}' || c == '\U{1680}'
    || '\U{2000}' <= c <= '\U{200A}'
    || c == '\U{2028}' || c == '\U{2029}' || c == '\U{202F}' || c == '\U{205F}' || c == '\U{3000}'
  }

  /** Neither empty nor starting or ending with whitespace. */
  predicate Trimmed(s: string) {
    |s| > 0 && !IsSpace(s[0]) && !IsSpace(s[|s| - 1])
  }

  /** A phrase of one of the prompt tables: non-empty, no leading whitespace. */
  type Phrase = s: string | |s| > 0 && !IsSpace(s[0]) witness "x"

  function StripLeading(s: string): (r: string)
    ensures |r| <= |s| && r == s[|s| - |r|..]
    ensures forall i :: 0 <= i < |s| - |r| ==> IsSpace(s[i])
    ensures r == [] || !IsSpace(r[0])
  {
    if s != [] && IsSpace(s[0]) then
      var r := StripLeading(s[1..]);
      assert s[1..][|s| - 1 - |r|..] == s[|s| - |r|..];
      assert forall i :: 1 <= i < |s| - |r| ==> s[i] == s[1..][i - 1];
      r
    else s
  }

  function StripTrailing(s: string): (r: string)
    ensures |r| <= |s| && r == s[..|r|]
    ensures forall i :: |r| <= i < |s| ==> IsSpace(s[i])
    ensures r == [] || !IsSpace(r[|r| - 1])
  {
    if s != [] && IsSpace(s[|s| - 1]) then
      var r := StripTrailing(s[..|s| - 1]);
      assert s[..|s| - 1][..|r|] == s[..|r|];
      r
    else s
  }

  /** str.strip(): whitespace removed from both ends. */
  function Strip(s: string): (r: string)
    ensures |r| <= |s|
    ensures r == [] || Trimmed(r)
  {
    StripTrailing(StripLeading(s))
  }

  lemma StripTrimmed(s: string)
    requires Trimmed(s)
    ensures Strip(s) == s
  {
    assert StripLeading(s) == s;
    assert StripTrailing(s) == s;
  }

  /** s begins with prefix and ends with suffix, and the two do not overlap. */
  predicate Wraps(s: string, prefix: string, suffix: string) {
    |prefix| + |suffix| <= |s| && s[..|prefix|] == prefix && s[|s| - |suffix|..] == suffix
  }

  lemma ConcatWraps(prefix: string, middle: string, suffix: string)
    ensures var s := prefix + middle + suffix;
            Wraps(s, prefix, suffix) && s[|prefix|..|s| - |suffix|] == middle
  {
    var s := prefix + middle + suffix;
    var left := prefix + middle;
    assert s[..|left|] == left && s[|left|..] == suffix;
    assert left[..|prefix|] == prefix && left[|prefix|..] == middle;
    assert s[..|prefix|] == left[..|prefix|];
    assert s[|prefix|..|left|] == left[|prefix|..];
  }

  /** The first and last characters of a wrapped string are those of its affixes. */
  lemma WrapsEnds(s: string, prefix: string, suffix: string)
    ensures Wraps(s, prefix, suffix) && |prefix| > 0 ==> s[0] == prefix[0]
    ensures Wraps(s, prefix, suffix) && |suffix| > 0 ==> s[|s| - 1] == suffix[|suffix| - 1]
  {
    if Wraps(s, prefix, suffix) && |suffix| > 0 {
      assert s[|s| - 1] == s[|s| - |suffix|..][|suffix| - 1];
    }
  }

  lemma WrapsSplit(s: string, prefix: string, suffix: string)
    requires Wraps(s, prefix, suffix)
    ensures s == prefix + s[|prefix|..|s| - |suffix|] + suffix
  {
    var middle := s[|prefix|..|s| - |suffix|];
    assert s == s[..|prefix|] + middle + s[|s| - |suffix|..];
  }

  /** str.split("\n"): the pieces between newline characters. */
  function Lines(s: string): (r: seq<string>)
    ensures |r| > 0
  {
    if s == [] then [""]
    else
      var rest := Lines(s[1..]);
      if s[0] == '\n' then [""] + rest
      else [[s[0]] + rest[0]] + rest[1..]
  }

  /** Joining a newline-free line to the rest with a newline adds exactly that line. */
  lemma {:induction false} LinesCons(a: string, b: string)
    requires '\n' !in a
    ensures Lines(a + "\n" + b) == [a] + Lines(b)
  {
    var s := a + "\n" + b;
    if a == [] {
      assert s == "\n" + b && s[1..] == b;
    } else {
      assert s[0] == a[0] != '\n' && '\n' !in a[1..];
      assert s[1..] == a[1..] + "\n" + b;
      LinesCons(a[1..], b);
      assert [a[0]] + a[1..] == a;
    }
  }
}
