/**
 * POSIX paths as Python's `pathlib` sees them: an optional root and a list
 * of parts. Parsing drops empty parts (repeated or trailing slashes) and "."
 * parts; ".." is kept, as pathlib keeps it.
 */
module Paths {
  import opened Wrappers
  import opened Seqs
  import opened Text

  datatype PurePath = PurePath(absolute: bool, parts: seq<string>)

  /** A part pathlib keeps after parsing. */
  predicate ValidPart(x: string) {
    x != "" && x != "." && '/' !in x
  }

  /** Every part is one pathlib could have produced. */
  predicate WellFormed(p: PurePath) {
    forall i :: 0 <= i < |p.parts| ==> ValidPart(p.parts[i])
  }

  /** `pathlib.Path(s)`. */
  function Parse(s: string): (p: PurePath)
    ensures WellFormed(p)
    ensures p.absolute <==> |s| > 0 && s[0] == '/'
  {
    var parts := Filter(Split(s, '/'), ValidPart);
    assert forall i :: 0 <= i < |parts| ==> ValidPart(parts[i]) by {
      forall i | 0 <= i < |parts| ensures ValidPart(parts[i]) {
        assert parts[i] in parts;
      }
    }
    PurePath(|s| > 0 && s[0] == '/', parts)
  }

  /** `str(p)`: "/" for the root alone, "." for the empty relative path. */
  function ToStr(p: PurePath): string {
    if p.absolute then "/" + JoinWith(p.parts, '/')
    else if p.parts == [] then "."
    else JoinWith(p.parts, '/')
  }

  /** `Path(s).is_absolute()`. */
  predicate IsAbsolute(s: string) {
    Parse(s).absolute
  }

  /** `Path(a, b)` / `a / b`: an absolute right-hand side replaces the left. */
  function Join(a: PurePath, b: PurePath): (r: PurePath)
    ensures WellFormed(a) && WellFormed(b) ==> WellFormed(r)
    ensures r.absolute <==> a.absolute || b.absolute
  {
    if b.absolute then b else PurePath(a.absolute, a.parts + b.parts)
  }

  /** Joining relative paths is associative. */
  lemma JoinAssociative(a: PurePath, b: PurePath, c: PurePath)
    requires !b.absolute && !c.absolute
    ensures Join(Join(a, b), c) == Join(a, Join(b, c))
  {
    assert (a.parts + b.parts) + c.parts == a.parts + (b.parts + c.parts);
  }

  /** `p.relative_to(base)`: None where pathlib raises `ValueError`. */
  function RelativeTo(p: PurePath, base: PurePath): (r: Option<PurePath>)
    ensures r.Some? ==> !r.value.absolute
    ensures r.Some? && WellFormed(p) ==> WellFormed(r.value)
  {
    if p.absolute == base.absolute && |base.parts| <= |p.parts| && p.parts[..|base.parts|] == base.parts
    then Some(PurePath(false, p.parts[|base.parts|..]))
    else None
  }

  /** `p.absolute()` with `cwd` standing for `os.getcwd()`. */
  function Absolute(cwd: PurePath, p: PurePath): (r: PurePath)
    ensures cwd.absolute ==> r.absolute
    ensures p.absolute ==> r == p
  {
    if p.absolute then p else Join(cwd, p)
  }

  /**
   * `p.expanduser()`: a leading "~" or "~user" part is replaced by that
   * user's home directory, which `homeOf` looks up ("" for the current user);
   * None where pathlib raises `RuntimeError` for a home it cannot determine.
   */
  function ExpandUser(p: PurePath, homeOf: string -> Option<PurePath>): (r: Option<PurePath>)
    ensures (p.absolute || p.parts == [] || !TildePart(p.parts[0])) ==> r == Some(p)
  {
    if !p.absolute && p.parts != [] && TildePart(p.parts[0]) then
      match homeOf(p.parts[0][1..])
      case None => None
      case Some(home) => Some(Join(home, PurePath(false, p.parts[1..])))
    else Some(p)
  }

  /** `part[:1] == "~"`. */
  predicate TildePart(part: string) {
    |part| > 0 && part[0] == '~'
  }

  lemma JoinHeadNotSlash(xs: seq<string>)
    requires |xs| >= 1 && xs[0] != "" && '/' !in xs[0]
    ensures JoinWith(xs, '/') != [] && JoinWith(xs, '/')[0] != '/'
  {
    if |xs| > 1 {
      assert JoinWith(xs, '/') == xs[0] + ([ '/' ] + JoinWith(xs[1..], '/'));
      assert JoinWith(xs, '/')[0] == xs[0][0];
      assert xs[0][0] in xs[0];
    } else {
      assert xs[0][0] in xs[0];
    }
  }

  /** Parsing the text of a well-formed path gives the path back. */
  lemma ParseToStr(p: PurePath)
    requires WellFormed(p)
    ensures Parse(ToStr(p)) == p
  {
    var s := ToStr(p);
    if p.parts == [] {
      if p.absolute {
        assert s == "/";
        assert Split(s, '/') == [""] + Split("", '/');
      } else {
        assert s == "." && s[1..] == "";
        assert Split(s, '/') == [['.'] + ""];
      }
    } else {
      assert forall i :: 0 <= i < |p.parts| ==> '/' !in p.parts[i];
      SplitJoin(p.parts, '/');
      FilterAll(p.parts, ValidPart);
      var j := JoinWith(p.parts, '/');
      if p.absolute {
        assert s == ['/'] + j;
        assert s[1..] == j;
        assert Split(s, '/') == [""] + p.parts;
        assert Filter([""] + p.parts, ValidPart) == Filter(p.parts, ValidPart) by {
          FilterAppend([""], p.parts, ValidPart);
        }
      } else {
        JoinHeadNotSlash(p.parts);
      }
    }
  }

  /** Text that pathlib would print for some path is a fixed point of parse-then-print. */
  lemma ToStrParseIdempotent(s: string)
    ensures ToStr(Parse(ToStr(Parse(s)))) == ToStr(Parse(s))
  {
    ParseToStr(Parse(s));
  }

  /** A relative path joined onto a base is relative to that base by exactly itself. */
  lemma RelativeToJoin(base: PurePath, rel: PurePath)
    requires !rel.absolute
    ensures RelativeTo(Join(base, rel), base) == Some(rel)
  {
    var j := Join(base, rel);
    assert j.parts[..|base.parts|] == base.parts;
    assert j.parts[|base.parts|..] == rel.parts;
  }

  /** Joining a base with what `relative_to` left gives back the path. */
  lemma JoinRelativeTo(p: PurePath, base: PurePath)
    requires RelativeTo(p, base).Some?
    ensures Join(base, RelativeTo(p, base).value) == p
  {
    assert p.parts == p.parts[..|base.parts|] + p.parts[|base.parts|..];
  }
}
