/**
 * The handful of Python `str` operations the core relies on, over `seq<char>`.
 * Only ASCII letters are case-mapped; Python's full Unicode case tables are not modelled.
 */
module Strings {

  /** `s.replace(pat, "")`: every non-overlapping occurrence of `pat`, scanned left to right, is removed. */
  function RemoveAll(s: string, pat: string): (r: string)
    requires |pat| > 0
    ensures |r| <= |s|
    decreases |s|
  {
    if |s| < |pat| then s
    else if s[..|pat|] == pat then RemoveAll(s[|pat|..], pat)
    else [s[0]] + RemoveAll(s[1..], pat)
  }

  /** Removing a one-character pattern leaves none of that character behind. */
  lemma {:induction false} RemoveCharRemovesAll(s: string, c: char)
    ensures c !in RemoveAll(s, [c])
    decreases |s|
  {
    if |s| < 1 {
    } else if s[..1] == [c] {
      RemoveCharRemovesAll(s[1..], c);
    } else {
      assert s[0] != c by { assert s[..1][0] == s[0]; }
      RemoveCharRemovesAll(s[1..], c);
    }
  }

  /** Removal keeps every character of the result from the input. */
  lemma {:induction false} RemoveAllKeepsCharacters(s: string, pat: string)
    requires |pat| > 0
    ensures forall ch :: ch in RemoveAll(s, pat) ==> ch in s
    decreases |s|
  {
    if |s| < |pat| {
    } else if s[..|pat|] == pat {
      RemoveAllKeepsCharacters(s[|pat|..], pat);
      assert forall ch :: ch in s[|pat|..] ==> ch in s;
    } else {
      RemoveAllKeepsCharacters(s[1..], pat);
      assert forall ch :: ch in s[1..] ==> ch in s;
    }
  }

  /**
   * A text in which the pattern's first character never occurs is left alone, and an
   * occurrence appended to it is the only thing removed.
   */
  lemma {:induction false} RemoveAllAppended(x: string, pat: string)
    requires |pat| > 0 && pat[0] !in x
    ensures RemoveAll(x, pat) == x
    ensures RemoveAll(x + pat, pat) == x
    decreases |x|
  {
    if |x| == 0 {
      assert x + pat == pat;
      assert pat[|pat|..] == [];
    } else {
      assert x[0] != pat[0];
      assert (x + pat)[..|pat|] != pat by { assert (x + pat)[..|pat|][0] == x[0]; }
      assert (x + pat)[1..] == x[1..] + pat;
      RemoveAllAppended(x[1..], pat);
      if |x| >= |pat| {
        assert x[..|pat|] != pat by { assert x[..|pat|][0] == x[0]; }
      }
      assert [x[0]] + x[1..] == x;
    }
  }

  /** `s.endswith(suffix)`. */
  predicate EndsWith(s: string, suffix: string)
  {
    |suffix| <= |s| && s[|s| - |suffix|..] == suffix
  }

  /** `str.upper` on one character, for the ASCII letters. */
  function UpperChar(c: char): (u: char)
    ensures !('a' <= u <= 'z')
    ensures ('A' <= c <= 'Z' || !('a' <= c <= 'z')) ==> u == c
  {
    if 'a' <= c <= 'z' then (c as int - 'a' as int + 'A' as int) as char else c
  }

  /** `s.upper()`. */
  function Upper(s: string): (r: string)
    ensures |r| == |s|
    ensures forall i :: 0 <= i < |s| ==> r[i] == UpperChar(s[i])
  {
    seq(|s|, i requires 0 <= i < |s| => UpperChar(s[i]))
  }

  /** A character is kept by `Upper` exactly when it is not a lower-case letter. */
  lemma UpperFixesUpperCase(s: string)
    requires forall i :: 0 <= i < |s| ==> !('a' <= s[i] <= 'z')
    ensures Upper(s) == s
  {
  }

  /** Upper-casing works character by character, so it distributes over concatenation. */
  lemma UpperAppend(x: string, y: string)
    ensures Upper(x + y) == Upper(x) + Upper(y)
  {
    var l, r := Upper(x + y), Upper(x) + Upper(y);
    assert |l| == |r|;
    forall i | 0 <= i < |l|
      ensures l[i] == r[i]
    {
      if i < |x| {
        assert (x + y)[i] == x[i];
      } else {
        assert (x + y)[i] == y[i - |x|];
      }
    }
  }

  /**
   * `str.isspace()` on one character, the characters `str.strip()` removes: tab through
   * carriage return, the separators U+001C..U+001F, space, U+0085, no-break space, and the
   * Unicode space separators and line/paragraph separators.
   */
  predicate IsSpace(c: char)
  {
    || '\t' <= c <= '\r'
    || '\U{001C}' <= c <= ' '
    || c == '\U{0085}' || c == '\U{00A0}' || c == '\U{1680}'
    || '\U{2000}' <= c <= '\U{200A}'
    || c == '\U{2028}' || c == '\U{2029}' || c == '\U{202F}' || c == '\U{205F}' || c == '\U{3000}'
  }

  /** The number of leading white-space characters among the first `n`. */
  function LeadingSpaces(s: string, n: nat): (k: nat)
    requires n <= |s|
    ensures k <= n
    ensures forall i :: 0 <= i < k ==> IsSpace(s[i])
    ensures k < n ==> !IsSpace(s[k])
  {
    if n == 0 then 0
    else
      var k := LeadingSpaces(s, n - 1);
      if k == n - 1 && IsSpace(s[n - 1]) then n else k
  }

  /** The length of `s[..n]` once trailing white space is dropped. */
  function TrimmedEnd(s: string, n: nat): (e: nat)
    requires n <= |s|
    ensures e <= n
    ensures forall i :: e <= i < n ==> IsSpace(s[i])
    ensures e > 0 ==> !IsSpace(s[e - 1])
  {
    if n == 0 then 0
    else if IsSpace(s[n - 1]) then TrimmedEnd(s, n - 1)
    else n
  }

  /**
   * `s[b..e]` is what stripping `s` keeps: everything outside it is white space, and it
   * neither starts nor ends with white space.
   */
  predicate StrippedAt(s: string, b: nat, e: nat)
  {
    && b <= e <= |s|
    && (forall i :: 0 <= i < b ==> IsSpace(s[i]))
    && (forall i :: e <= i < |s| ==> IsSpace(s[i]))
    && (b < e ==> !IsSpace(s[b]) && !IsSpace(s[e - 1]))
  }

  /** `s.strip()`. */
  function Strip(s: string): (r: string)
    ensures exists b: nat, e: nat :: StrippedAt(s, b, e) && r == s[b..e]
  {
    var e := TrimmedEnd(s, |s|);
    var b := LeadingSpaces(s, e);
    assert StrippedAt(s, b, e);
    s[b..e]
  }

  /** `sep.join(parts)`. */
  function Join(parts: seq<string>, sep: string): (r: string)
    decreases |parts|
  {
    if |parts| == 0 then ""
    else if |parts| == 1 then parts[0]
    else parts[0] + sep + Join(parts[1..], sep)
  }

  /** The joined text starts with the first part followed by the separator. */
  lemma JoinStartsWithFirst(parts: seq<string>, sep: string)
    requires |parts| >= 2
    ensures Join(parts, sep) == parts[0] + sep + Join(parts[1..], sep)
    ensures parts[0] + sep <= Join(parts, sep)
  {
  }

  /** The joined text ends with the separator followed by the last part. */
  lemma {:induction false} JoinEndsWithLast(parts: seq<string>, sep: string)
    requires |parts| >= 2
    ensures exists front :: Join(parts, sep) == front + sep + parts[|parts| - 1]
    decreases |parts|
  {
    if |parts| == 2 {
      assert Join(parts[1..], sep) == parts[1];
      assert Join(parts, sep) == parts[0] + sep + parts[1];
    } else {
      JoinEndsWithLast(parts[1..], sep);
      var front :| Join(parts[1..], sep) == front + sep + parts[1..][|parts[1..]| - 1];
      assert Join(parts, sep) == (parts[0] + sep + front) + sep + parts[|parts| - 1];
    }
  }

  /** The joined text ends with the separator followed by the last part. */
  lemma JoinEndsWithSeparatedLast(parts: seq<string>, sep: string)
    requires |parts| >= 2
    ensures EndsWith(Join(parts, sep), sep + parts[|parts| - 1])
  {
    JoinEndsWithLast(parts, sep);
    var front :| Join(parts, sep) == front + sep + parts[|parts| - 1];
    var tail := sep + parts[|parts| - 1];
    assert Join(parts, sep) == front + tail;
    assert (front + tail)[|front + tail| - |tail|..] == tail;
  }

  /** The length of a join: every part plus one separator between each neighbouring pair. */
  function TotalLength(parts: seq<string>): nat
    decreases |parts|
  {
    if |parts| == 0 then 0 else |parts[0]| + TotalLength(parts[1..])
  }

  lemma {:induction false} JoinLength(parts: seq<string>, sep: string)
    requires |parts| >= 1
    ensures |Join(parts, sep)| == TotalLength(parts) + (|parts| - 1) * |sep|
    decreases |parts|
  {
    if |parts| > 1 {
      JoinLength(parts[1..], sep);
    } else {
      assert parts[1..] == [];
    }
  }

  /** The index just past the last `/` among the first `n` characters, or 0 when there is none. */
  function AfterLastSlash(path: string, n: nat): (k: nat)
    requires n <= |path|
    ensures k <= n
    ensures k > 0 ==> path[k - 1] == '/'
    ensures forall i :: k <= i < n ==> path[i] != '/'
  {
    if n == 0 then 0
    else if path[n - 1] == '/' then n
    else AfterLastSlash(path, n - 1)
  }

  /** `os.path.basename(path)` on POSIX: what follows the last `/`. */
  function Basename(path: string): (r: string)
    ensures '/' !in r
    ensures |r| <= |path| && path[|path| - |r|..] == r
  {
    var k := AfterLastSlash(path, |path|);
    assert forall c :: c in path[k..] ==> c != '/' by {
      forall c | c in path[k..] ensures c != '/' {
        var j :| 0 <= j < |path[k..]| && path[k..][j] == c;
        assert path[k + j] == c;
      }
    }
    path[k..]
  }

  /** A directory joined to a file name by `/` has that file name as its base name. */
  lemma {:induction false} BasenameOfJoin(dir: string, name: string)
    requires '/' !in name
    ensures Basename(dir + "/" + name) == name
  {
    var path := dir + "/" + name;
    assert path[|dir|] == '/';
    assert forall i :: |dir| + 1 <= i < |path| ==> path[i] == name[i - |dir| - 1];
    var k := AfterLastSlash(path, |path|);
    assert forall i :: |dir| + 1 <= i < |path| ==> path[i] != '/';
    assert k == |dir| + 1;
    assert path[k..] == name;
  }
}
