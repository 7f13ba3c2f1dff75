/**
 * The root hasher: `md5(str(root).encode() + salt).hexdigest()`. The MD5
 * digest itself is a parameter (`md5`), so the model commits only to what
 * is hashed and in which order.
 */
module RootHashing {
  import Paths

  newtype byte = x: int | 0 <= x < 256

  /** The UTF-8 bytes of one Unicode scalar value. */
  function Utf8Char(c: char): (r: seq<byte>)
    ensures 1 <= |r| <= 4
    ensures (c as int < 0x80) <==> |r| == 1
    ensures |r| == 1 ==> r[0] as int == c as int
  {
    var n := c as int;
    if n < 0x80 then [n as byte]
    else if n < 0x800 then [(0xC0 + n / 0x40) as byte, (0x80 + n % 0x40) as byte]
    else if n < 0x10000 then
      [(0xE0 + n / 0x1000) as byte, (0x80 + (n / 0x40) % 0x40) as byte, (0x80 + n % 0x40) as byte]
    else
      [(0xF0 + n / 0x40000) as byte, (0x80 + (n / 0x1000) % 0x40) as byte,
       (0x80 + (n / 0x40) % 0x40) as byte, (0x80 + n % 0x40) as byte]
  }

  /** `s.encode()`: UTF-8, Python's default encoding. */
  function Utf8(s: string): (r: seq<byte>)
    ensures |s| <= |r| <= 4 * |s|
  {
    if s == [] then [] else Utf8Char(s[0]) + Utf8(s[1..])
  }

  /** What may be passed as a root: a `str` or a `pathlib.Path`. */
  datatype Root = StrRoot(s: string) | PathRoot(p: Paths.PurePath)

  /** `str(root)`. */
  function RootText(root: Root): string {
    match root
    case StrRoot(s) => s
    case PathRoot(p) => Paths.ToStr(p)
  }

  /** `root_hash(salt, root)`: the digest of the root's text followed by the salt. */
  function RootHash(md5: seq<byte> -> string, salt: seq<byte>, root: Root): string {
    md5(Utf8(RootText(root)) + salt)
  }

  /**
   * The hash depends on the salt and the text of the root only: a `str` and
   * a `Path` that print the same hash the same.
   */
  lemma RootHashOfTextOnly(md5: seq<byte> -> string, salt: seq<byte>, a: Root, b: Root)
    requires RootText(a) == RootText(b)
    ensures RootHash(md5, salt, a) == RootHash(md5, salt, b)
  {
  }

  /** A path and its printed form hash alike, whatever the salt. */
  lemma PathAndItsTextHashAlike(md5: seq<byte> -> string, salt: seq<byte>, p: Paths.PurePath)
    ensures RootHash(md5, salt, PathRoot(p)) == RootHash(md5, salt, StrRoot(Paths.ToStr(p)))
  {
  }

  /** ASCII text encodes to its own code points, one byte per character. */
  lemma {:induction false} Utf8Ascii(s: string)
    requires forall i :: 0 <= i < |s| ==> s[i] as int < 0x80
    ensures |Utf8(s)| == |s|
    ensures forall i :: 0 <= i < |s| ==> Utf8(s)[i] as int == s[i] as int
  {
    if s != [] {
      Utf8Ascii(s[1..]);
      assert Utf8(s) == Utf8Char(s[0]) + Utf8(s[1..]);
      assert forall i :: 1 <= i < |s| ==> Utf8(s)[i] == Utf8(s[1..])[i - 1];
    }
  }
}
