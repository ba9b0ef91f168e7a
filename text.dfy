/** String helpers shared by the browser controller and the server:
    ASCII lower-casing, last-occurrence search, Python's `rsplit(sep, 1)`,
    `os.path.splitext`, `str.strip()` and `str.join`. */
module Text {

  datatype Option<+T> = None | Some(value: T)

  /** Lower-cases ASCII letters and leaves every other character alone. */
  function LowerChar(c: char): (r: char)
    ensures r == '.' <==> c == '.'
    ensures r == '/' <==> c == '/'
  {
    if 'A' <= c <= 'Z' then (c as int + 32) as char else c
  }

  function Lower(s: string): (r: string)
    ensures |r| == |s|
    ensures forall i :: 0 <= i < |s| ==> r[i] == LowerChar(s[i])
  {
    seq(|s|, i requires 0 <= i < |s| => LowerChar(s[i]))
  }

  lemma LowerSlice(s: string, i: nat)
    requires i <= |s|
    ensures Lower(s)[i..] == Lower(s[i..])
  {
  }

  /** Lower-casing neither adds nor removes dots. */
  lemma DotsSurviveLower(s: string)
    ensures '.' in Lower(s) <==> '.' in s
  {
    if '.' in s {
      var j :| 0 <= j < |s| && s[j] == '.';
      assert Lower(s)[j] == '.';
    }
  }

  predicate EndsWith(s: string, suffix: string) {
    |suffix| <= |s| && s[|s| - |suffix|..] == suffix
  }

  /** A string ends with whatever follows one of its positions. */
  lemma EndsWithAt(s: string, suffix: string, i: nat)
    requires i <= |s| && s[i..] == suffix
    ensures EndsWith(s, suffix)
  {
  }

  /** Lower-casing from position `i` on: the character there, then the rest. */
  lemma LowerFrom(s: string, i: nat)
    requires i < |s|
    ensures Lower(s)[i..] == [LowerChar(s[i])] + Lower(s[i + 1..])
  {
    LowerSlice(s, i);
    assert s[i..][1..] == s[i + 1..];
  }

  /** Index of the last occurrence of `c` in `s`, if any. */
  function LastIndexOf(s: string, c: char): (r: Option<nat>)
    ensures r.None? <==> c !in s
    ensures r.Some? ==> r.value < |s| && s[r.value] == c && c !in s[r.value + 1..]
  {
    if s == [] then None
    else if s[|s| - 1] == c then Some(|s| - 1)
    else
      assert s == s[..|s| - 1] + [s[|s| - 1]];
      LastIndexOf(s[..|s| - 1], c)
  }

  /** The last occurrence of `c` in `s` is the only one with no `c` after it. */
  lemma LastIndexOfUnique(s: string, c: char, i: nat)
    requires i < |s| && s[i] == c && c !in s[i + 1..]
    ensures LastIndexOf(s, c) == Some(i)
  {
  }

  /** Python's `s.rsplit(c, 1)`: the whole string when `c` does not occur,
      otherwise the text before and after the last `c`. */
  function RSplitOnce(s: string, c: char): (parts: seq<string>)
    ensures c !in s ==> parts == [s]
    ensures c in s ==> |parts| == 2 && parts[0] + [c] + parts[1] == s && c !in parts[1]
  {
    match LastIndexOf(s, c)
    case None => [s]
    case Some(i) =>
      assert s == s[..i] + [c] + s[i + 1..];
      [s[..i], s[i + 1..]]
  }

  /** Where the last path component of `p` begins: just after its last `/`. */
  function ComponentStart(p: string): (start: nat)
    ensures start <= |p| && '/' !in p[start..]
    ensures start > 0 ==> p[start - 1] == '/'
  {
    match LastIndexOf(p, '/') case None => 0 case Some(j) => j + 1
  }

  /** A path has an extension when some character of its last component
      that is not a dot comes before a dot. */
  predicate HasExtension(p: string) {
    exists k :: 0 <= k < |p| && p[k] != '.' && '/' !in p[k..] && '.' in p[k + 1..]
  }

  /** `HasExtension` is the condition `os.path.splitext` tests: the last dot
      lies in the last component and a non-dot character of that component
      precedes it. */
  lemma HasExtensionAtLastDot(p: string)
    ensures HasExtension(p) <==>
      LastIndexOf(p, '.').Some? && LastIndexOf(p, '.').value >= ComponentStart(p)
      && exists k :: ComponentStart(p) <= k < LastIndexOf(p, '.').value && p[k] != '.'
  {
    var start := ComponentStart(p);
    if HasExtension(p) {
      var k :| 0 <= k < |p| && p[k] != '.' && '/' !in p[k..] && '.' in p[k + 1..];
      var j :| k + 1 <= j < |p| && p[j] == '.';
      var d := LastIndexOf(p, '.').value;
      assert j <= d;
      assert start <= k;
    }
    var ld := LastIndexOf(p, '.');
    if ld.Some? && ld.value >= start && exists k :: start <= k < ld.value && p[k] != '.' {
      var k :| start <= k < ld.value && p[k] != '.';
      assert p[k + 1..][ld.value - k - 1] == '.';
      assert p[k..] == p[start..][k - start..];
    }
  }

  /** `os.path.splitext` for POSIX paths: the extension starts at the last
      dot of the last path component, unless that component consists of
      dots up to that point (so `".wav"` has no extension). */
  function SplitExt(p: string): (r: (string, string))
    ensures r.0 + r.1 == p
    ensures r.1 != [] ==> r.1[0] == '.' && '.' !in r.1[1..] && '/' !in r.1
    ensures r.1 != [] ==> LastIndexOf(p, '.') == Some(|r.0|)
    ensures r.1 != [] <==> HasExtension(p)
  {
    HasExtensionAtLastDot(p);
    var start := ComponentStart(p);
    match LastIndexOf(p, '.')
    case Some(d) =>
      if d >= start && exists k :: start <= k < d && p[k] != '.' then
        assert p[d..] == p[start..][d - start..];
        (p[..d], p[d..])
      else (p, "")
    case None => (p, "")
  }

  /** The extension starts at the last dot `d` when some character before it
      that is not a dot lies in the last path component. */
  lemma SplitExtAtLastDot(p: string, d: nat, k: nat)
    requires d < |p| && p[d] == '.' && '.' !in p[d + 1..]
    requires k < d && p[k] != '.' && '/' !in p[k..]
    ensures SplitExt(p) == (p[..d], p[d..])
  {
    LastIndexOfUnique(p, '.', d);
  }

  /** Characters Python's `str.strip()` removes (those for which `str.isspace()` holds). */
  predicate IsSpace(c: char) {
    c == ' ' || '\t' <= c <= '\r' || '\U{1C}' <= c <= '\U{1F}' || c == '\U{85}' || c == '\U{A0}'
    || c == '\U{1680}' || '\U{2000}' <= c <= '\U{200A}' || c == '\U{2028}' || c == '\U{2029}'
    || c == '\U{202F}' || c == '\U{205F}' || c == '\U{3000}'
  }

  /** Removes the longest all-whitespace prefix. */
  function TrimStart(s: string): (r: string)
    ensures |r| <= |s| && r == s[|s| - |r|..]
    ensures r == [] || !IsSpace(r[0])
    ensures forall i :: 0 <= i < |s| - |r| ==> IsSpace(s[i])
  {
    if s != [] && IsSpace(s[0]) then TrimStart(s[1..]) else s
  }

  /** Removes the longest all-whitespace suffix. */
  function TrimEnd(s: string): (r: string)
    ensures |r| <= |s| && r == s[..|r|]
    ensures r == [] || !IsSpace(r[|r| - 1])
    ensures forall i :: |r| <= i < |s| ==> IsSpace(s[i])
  {
    if s != [] && IsSpace(s[|s| - 1]) then TrimEnd(s[..|s| - 1]) else s
  }

  /** `r` is `s` from position `i` on, with everything before `i` and after
      `r` whitespace. */
  predicate StrippedAt(s: string, r: string, i: int) {
    0 <= i <= |s| - |r| && r == s[i..i + |r|]
    && forall k :: 0 <= k < |s| && (k < i || i + |r| <= k) ==> IsSpace(s[k])
  }

  /** Python's `s.strip()`. */
  function Strip(s: string): (r: string)
    ensures r == [] || (!IsSpace(r[0]) && !IsSpace(r[|r| - 1]))
    ensures (forall i :: 0 <= i < |s| ==> !IsSpace(s[i])) ==> r == s
    ensures exists i :: StrippedAt(s, r, i)
  {
    var t := TrimEnd(s);
    var r := TrimStart(t);
    var i := |t| - |r|;
    assert StrippedAt(s, r, i) by {
      forall k | 0 <= k < i ensures IsSpace(s[k]) {
        assert s[k] == t[k];
      }
    }
    r
  }

  lemma {:induction false} TrimStartOfUnspaced(s: string)
    requires s == [] || !IsSpace(s[0])
    ensures TrimStart(s) == s
  {
  }

  lemma {:induction false} TrimEndOfUnspaced(s: string)
    requires s == [] || !IsSpace(s[|s| - 1])
    ensures TrimEnd(s) == s
  {
  }

  /** Stripping twice is stripping once. */
  lemma StripIdempotent(s: string)
    ensures Strip(Strip(s)) == Strip(s)
  {
    var r := Strip(s);
    TrimEndOfUnspaced(r);
    TrimStartOfUnspaced(r);
  }

  /** A trailing space never survives a strip. */
  lemma StripTrailingSpace(s: string)
    ensures Strip(s + " ") == Strip(s)
  {
    var t := s + " ";
    assert t[|t| - 1] == ' ' && t[..|t| - 1] == s;
    assert TrimEnd(t) == TrimEnd(s);
  }

  /** Python's `sep.join(parts)`. */
  function Join(parts: seq<string>, sep: string): string
    decreases |parts|
  {
    if |parts| == 0 then ""
    else if |parts| == 1 then parts[0]
    else Join(parts[..|parts| - 1], sep) + sep + parts[|parts| - 1]
  }
}
