/**
 * The two Python `str` methods the CLI applies to the lines of a `--uids`
 * file: `str.splitlines()` and `str.strip()` with no argument, over the
 * character classes Python uses for them.
 */
module PyStr {

  /** `c.isspace()`: the characters `str.strip()` removes by default. */
  predicate IsSpace(c: char) {
    var n := c as int;
    (0x09 <= n <= 0x0D) || (0x1C <= n <= 0x20) || n == 0x85 || n == 0xA0 || n == 0x1680 ||
    (0x2000 <= n <= 0x200A) || n == 0x2028 || n == 0x2029 || n == 0x202F || n == 0x205F ||
    n == 0x3000
  }

  /** The characters `str.splitlines()` ends a line at (with "\r\n" read as one). */
  predicate IsLineBoundary(c: char) {
    var n := c as int;
    (0x0A <= n <= 0x0D) || (0x1C <= n <= 0x1E) || n == 0x85 || n == 0x2028 || n == 0x2029
  }

  /** `s.startswith(prefix)`. */
  predicate StartsWith(s: string, prefix: string) {
    |prefix| <= |s| && s[..|prefix|] == prefix
  }

  /** The number of whitespace characters `s` starts with. */
  function LeadingSpace(s: string): (i: nat)
    ensures i <= |s|
    ensures forall k :: 0 <= k < i ==> IsSpace(s[k])
    ensures i == |s| || !IsSpace(s[i])
  {
    if s == [] || !IsSpace(s[0]) then 0 else 1 + LeadingSpace(s[1..])
  }

  /** The index at which the whitespace `s` ends with begins. */
  function TrailingSpaceStart(s: string): (j: nat)
    ensures j <= |s|
    ensures forall k :: j <= k < |s| ==> IsSpace(s[k])
    ensures j == 0 || !IsSpace(s[j - 1])
  {
    if s == [] || !IsSpace(s[|s| - 1]) then |s| else TrailingSpaceStart(s[..|s| - 1])
  }

  /**
   * `s.strip()`: `s` without the whitespace at either end. The result is a
   * slice of `s` with only whitespace cut off before and after it; it is
   * empty exactly when `s` is all whitespace, and otherwise neither starts
   * nor ends with whitespace.
   */
  function Strip(s: string): (r: string)
    ensures exists i, j ::
              && 0 <= i <= j <= |s| && r == s[i..j]
              && (forall k :: 0 <= k < i ==> IsSpace(s[k]))
              && (forall k :: j <= k < |s| ==> IsSpace(s[k]))
    ensures r == [] <==> forall k :: 0 <= k < |s| ==> IsSpace(s[k])
    ensures r == [] || (!IsSpace(r[0]) && !IsSpace(r[|r| - 1]))
    ensures |r| <= |s|
  {
    var i := LeadingSpace(s);
    if i == |s| then
      assert s[|s|..|s|] == [];
      []
    else
      var j := TrailingSpaceStart(s);
      assert i <= j;
      s[i..j]
  }

  /** Stripping twice is stripping once. */
  lemma StripIdempotent(s: string)
    ensures Strip(Strip(s)) == Strip(s)
  {
    var r := Strip(s);
    if r != [] {
      assert LeadingSpace(r) == 0;
      assert TrailingSpaceStart(r) == |r|;
      assert r[0..|r|] == r;
    }
  }

  /**
   * `s.splitlines()`: the lines of `s` without their line boundaries; a final
   * boundary does not start an extra empty line.
   */
  function SplitLines(s: string): (r: seq<string>)
    ensures forall i, k :: 0 <= i < |r| && 0 <= k < |r[i]| ==> !IsLineBoundary(r[i][k])
    ensures s == [] <==> r == []
    decreases |s|
  {
    if s == [] then []
    else if IsLineBoundary(s[0]) then
      var skip := if s[0] == '\r' && |s| > 1 && s[1] == '\n' then 2 else 1;
      [""] + SplitLines(s[skip..])
    else
      var rest := SplitLines(s[1..]);
      if rest == [] then [[s[0]]] else [[s[0]] + rest[0]] + rest[1..]
  }

  /** The text of a file holding the lines `ls`, each ended by "\n". */
  function Terminated(ls: seq<string>): (s: string)
    ensures |s| >= |ls|
  {
    if ls == [] then "" else ls[0] + "\n" + Terminated(ls[1..])
  }

  lemma {:induction false} SplitLinesFirst(l: string, t: string)
    requires forall k :: 0 <= k < |l| ==> !IsLineBoundary(l[k])
    ensures SplitLines(l + "\n" + t) == [l] + SplitLines(t)
    decreases |l|
  {
    if l == [] {
      assert l + "\n" + t == "\n" + t;
      assert ("\n" + t)[1..] == t;
    } else {
      var s := l + "\n" + t;
      SplitLinesFirst(l[1..], t);
      assert s[0] == l[0];
      assert s[1..] == l[1..] + "\n" + t;
      assert [l[0]] + l[1..] == l;
    }
  }

  /**
   * Splitting the text of a file whose lines end in "\n" gives back its
   * lines, as long as no line holds a boundary of its own.
   */
  lemma {:induction false} SplitLinesTerminated(ls: seq<string>)
    requires forall i, k :: 0 <= i < |ls| && 0 <= k < |ls[i]| ==> !IsLineBoundary(ls[i][k])
    ensures SplitLines(Terminated(ls)) == ls
  {
    if ls != [] {
      SplitLinesFirst(ls[0], Terminated(ls[1..]));
      SplitLinesTerminated(ls[1..]);
      assert [ls[0]] + ls[1..] == ls;
    }
  }
}
