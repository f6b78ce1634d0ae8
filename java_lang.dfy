/**
 * The few pieces of the Java and hutool runtime that the controllers' decisions
 * depend on: the exceptions their catch blocks see, String.trim, String.indexOf,
 * String.split and String.join with a one-character separator,
 * "unknown".equalsIgnoreCase, hutool's StrUtil.isBlank, and the UTF-16 code
 * units that String.chars() walks over.
 */
module JavaLang {
  import opened Wrappers

  /** An exception caught by a controller's catch block. `Raised` carries
      getMessage() and whether getCause() is an InterruptedException. */
  datatype JavaException = NullPointer | Raised(message: string, interruptedCause: bool)

  /** `e.getCause() instanceof InterruptedException` */
  predicate CauseIsInterrupted(e: JavaException) {
    e.Raised? && e.interruptedCause
  }

  // ---------------------------------------------------------------------------
  // String.trim(): drops leading and trailing characters whose code is <= U+0020

  predicate IsTrimmable(c: char) {
    c <= ' '
  }

  predicate AllTrimmable(s: string) {
    forall m :: 0 <= m < |s| ==> IsTrimmable(s[m])
  }

  /** Number of trimmable characters at the start of `s`. */
  function LeadingTrimmable(s: string): (k: nat)
    ensures k <= |s|
    ensures forall m :: 0 <= m < k ==> IsTrimmable(s[m])
    ensures k < |s| ==> !IsTrimmable(s[k])
  {
    if |s| == 0 || !IsTrimmable(s[0]) then 0 else 1 + LeadingTrimmable(s[1..])
  }

  /** Number of trimmable characters at the end of `s`. */
  function TrailingTrimmable(s: string): (k: nat)
    ensures k <= |s|
    ensures forall m :: |s| - k <= m < |s| ==> IsTrimmable(s[m])
    ensures k < |s| ==> !IsTrimmable(s[|s| - 1 - k])
  {
    if |s| == 0 || !IsTrimmable(s[|s| - 1]) then 0
    else 1 + TrailingTrimmable(s[..|s| - 1])
  }

  /** String.trim(): the infix of `s` left after removing the trimmable
      characters on either side; it neither starts nor ends with one. */
  function Trim(s: string): (r: string)
    ensures exists i :: TrimmedAt(s, r, i)
    ensures r != [] ==> !IsTrimmable(r[0]) && !IsTrimmable(r[|r| - 1])
  {
    var i := LeadingTrimmable(s);
    var rest := s[i..];
    var j := TrailingTrimmable(rest);
    var r := rest[..|rest| - j];
    assert r == s[i..i + |r|] && s[i + |r|..] == rest[|rest| - j..];
    assert TrimmedAt(s, r, i);
    r
  }

  /** `mid` occurs in `s` at position `i`. */
  predicate InfixAt(s: string, mid: string, i: int) {
    0 <= i <= |s| - |mid| && s[i..i + |mid|] == mid
  }

  /** `r` is `s` at position `i` with only trimmable characters around it. */
  predicate TrimmedAt(s: string, r: string, i: int) {
    InfixAt(s, r, i) && AllTrimmable(s[..i]) && AllTrimmable(s[i + |r|..])
  }

  // ---------------------------------------------------------------------------
  // hutool StrUtil.isBlank: null, empty, or made only of blank characters.
  // hutool is not part of this model; the character set below is that of its
  // CharUtil.isBlankChar: Character.isWhitespace, Character.isSpaceChar, and
  // U+FEFF, U+202A, U+0000, U+3164, U+2800, U+180E.

  predicate IsBlankChar(c: char) {
    var n := c as int;
    (0x09 <= n <= 0x0D) || (0x1C <= n <= 0x20) || n == 0x00A0 || n == 0x1680
    || (0x2000 <= n <= 0x200A) || n == 0x2028 || n == 0x2029 || n == 0x202F
    || n == 0x205F || n == 0x3000
    || n == 0xFEFF || n == 0x202A || n == 0x0000 || n == 0x3164 || n == 0x2800 || n == 0x180E
  }

  predicate IsBlank(s: Option<string>) {
    s.None? || forall i :: 0 <= i < |s.value| ==> IsBlankChar(s.value[i])
  }

  // ---------------------------------------------------------------------------
  // "unknown".equalsIgnoreCase(s). Java compares character by character after
  // upper-casing and then lower-casing both sides; besides the ASCII letters
  // themselves, the only character that folds onto a letter of "unknown" is
  // KELVIN SIGN U+212A, whose lower case is 'k'.

  const Unknown: string := "unknown"

  predicate FoldsTo(c: char, lower: char) {
    c == lower || c as int == lower as int - 32 || (lower == 'k' && c as int == 0x212A)
  }

  predicate IsUnknownIgnoringCase(s: string) {
    |s| == |Unknown| && forall i :: 0 <= i < |s| ==> FoldsTo(s[i], Unknown[i])
  }

  // ---------------------------------------------------------------------------
  // String.indexOf(char): the first position of `c`, or -1.

  function IndexOf(s: string, c: char): (r: int)
    ensures r == -1 <==> c !in s
    ensures r != -1 ==> 0 <= r < |s| && s[r] == c && c !in s[..r]
  {
    if |s| == 0 then -1
    else if s[0] == c then 0
    else
      var k := IndexOf(s[1..], c);
      assert s[1..][..if k == -1 then 0 else k] == s[1..1 + if k == -1 then 0 else k];
      if k == -1 then -1 else k + 1
  }

  // ---------------------------------------------------------------------------
  // String.join(sep, parts) and String.split(sep) for a one-character separator.

  function Join(parts: seq<string>, sep: char): string {
    if |parts| == 0 then []
    else if |parts| == 1 then parts[0]
    else parts[0] + [sep] + Join(parts[1..], sep)
  }

  /** Every piece between separators, empty ones included: the pieces, and
      there is always at least one. */
  function Pieces(s: string, sep: char): (r: seq<string>)
    ensures |r| >= 1
    ensures forall k :: 0 <= k < |r| ==> sep !in r[k]
  {
    if |s| == 0 then [""]
    else if s[0] == sep then [""] + Pieces(s[1..], sep)
    else
      var rest := Pieces(s[1..], sep);
      [[s[0]] + rest[0]] + rest[1..]
  }

  /** Java's split drops the empty pieces at the end. */
  function DropTrailingEmpty(ps: seq<string>): (r: seq<string>)
    ensures r <= ps
    ensures r != [] ==> r[|r| - 1] != ""
    ensures forall k :: |r| <= k < |ps| ==> ps[k] == ""
  {
    if |ps| > 0 && ps[|ps| - 1] == "" then DropTrailingEmpty(ps[..|ps| - 1]) else ps
  }

  /** String.split(String.valueOf(sep)): an input without any separator gives
      itself (so "" gives [""]); otherwise the pieces without trailing empties. */
  function Split(s: string, sep: char): seq<string> {
    if sep !in s then [s] else DropTrailingEmpty(Pieces(s, sep))
  }

  lemma {:induction false} JoinPieces(s: string, sep: char)
    ensures Join(Pieces(s, sep), sep) == s
  {
    if |s| == 0 {
    } else if s[0] == sep {
      JoinPieces(s[1..], sep);
      var rest := Pieces(s[1..], sep);
      assert Pieces(s, sep) == [""] + rest;
      assert ([""] + rest)[1..] == rest;
      assert s == [sep] + s[1..];
    } else {
      JoinPieces(s[1..], sep);
      var rest := Pieces(s[1..], sep);
      var r := [[s[0]] + rest[0]] + rest[1..];
      assert Pieces(s, sep) == r;
      if |rest| == 1 {
        assert s == [s[0]] + s[1..];
      } else {
        assert r[1..] == rest[1..];
        assert Join(rest, sep) == rest[0] + [sep] + Join(rest[1..], sep);
        assert s == [s[0]] + s[1..];
      }
    }
  }

  lemma {:induction false} PiecesWithoutSeparator(p: string, sep: char)
    requires sep !in p
    ensures Pieces(p, sep) == [p]
  {
    if |p| > 0 {
      PiecesWithoutSeparator(p[1..], sep);
      assert [p[0]] + p[1..] == p;
    }
  }

  lemma {:induction false} PiecesAfterSeparator(p: string, t: string, sep: char)
    requires sep !in p
    ensures Pieces(p + [sep] + t, sep) == [p] + Pieces(t, sep)
  {
    var s := p + [sep] + t;
    if |p| == 0 {
      assert s == [sep] + t;
      assert s[1..] == t;
    } else {
      assert s[0] == p[0];
      assert s[1..] == p[1..] + [sep] + t;
      PiecesAfterSeparator(p[1..], t, sep);
      assert [p[0]] + p[1..] == p;
    }
  }

  /** Splitting a join of separator-free pieces gives the pieces back. */
  lemma {:induction false} PiecesOfJoin(parts: seq<string>, sep: char)
    requires |parts| > 0
    requires forall k :: 0 <= k < |parts| ==> sep !in parts[k]
    ensures Pieces(Join(parts, sep), sep) == parts
  {
    if |parts| == 1 {
      PiecesWithoutSeparator(parts[0], sep);
    } else {
      PiecesOfJoin(parts[1..], sep);
      PiecesAfterSeparator(parts[0], Join(parts[1..], sep), sep);
      assert [parts[0]] + parts[1..] == parts;
    }
  }

  /** String.split undoes String.join when no piece holds the separator and
      the last piece is not empty. */
  lemma SplitOfJoin(parts: seq<string>, sep: char)
    requires |parts| > 0 && parts[|parts| - 1] != ""
    requires forall k :: 0 <= k < |parts| ==> sep !in parts[k]
    ensures Split(Join(parts, sep), sep) == parts
  {
    PiecesOfJoin(parts, sep);
    if sep !in Join(parts, sep) {
      PiecesWithoutSeparator(Join(parts, sep), sep);
    }
  }

  /** The first piece of a split is the text before the first separator. */
  lemma {:induction false} FirstPiece(s: string, sep: char)
    ensures Pieces(s, sep)[0] == if sep in s then s[..IndexOf(s, sep)] else s
  {
    if |s| > 0 && s[0] != sep {
      FirstPiece(s[1..], sep);
      assert sep in s <==> sep in s[1..];
      if sep in s {
        assert s[..IndexOf(s, sep)] == [s[0]] + s[1..][..IndexOf(s[1..], sep)];
      } else {
        assert s == [s[0]] + s[1..];
      }
    }
  }

  // ---------------------------------------------------------------------------
  // UTF-16: a Java String is a sequence of 16-bit code units, and
  // String.chars() yields one element per code unit.

  newtype CodeUnit = x: int | 0 <= x < 0x1_0000

  predicate IsSupplementary(c: char) {
    c as int >= 0x1_0000
  }

  /** Number of characters of `s` outside the Basic Multilingual Plane. */
  function SupplementaryCount(s: string): nat {
    if |s| == 0 then 0
    else (if IsSupplementary(s[0]) then 1 else 0) + SupplementaryCount(s[1..])
  }

  /** The UTF-16 encoding of one character: one unit, or a surrogate pair. */
  function EncodeChar(c: char): (u: seq<CodeUnit>)
    ensures |u| == if IsSupplementary(c) then 2 else 1
    ensures IsSupplementary(c) ==> 0xD800 <= u[0] < 0xDC00 <= u[1] < 0xE000
    ensures !IsSupplementary(c) ==> u[0] as int == c as int
  {
    var n := c as int;
    if n < 0x1_0000 then [n as CodeUnit]
    else [(0xD800 + (n - 0x1_0000) / 0x400) as CodeUnit, (0xDC00 + (n - 0x1_0000) % 0x400) as CodeUnit]
  }

  /** How a Java String holds `s`: one code unit per character, two for each
      character outside the Basic Multilingual Plane. */
  function Utf16(s: string): (u: seq<CodeUnit>)
    ensures |u| == |s| + SupplementaryCount(s)
  {
    if |s| == 0 then [] else EncodeChar(s[0]) + Utf16(s[1..])
  }

  /** Within the Basic Multilingual Plane a Java String holds one code unit
      per character, equal to it. */
  lemma {:induction false} Utf16WithinBmp(s: string)
    requires forall i :: 0 <= i < |s| ==> !IsSupplementary(s[i])
    ensures |Utf16(s)| == |s|
    ensures forall i :: 0 <= i < |s| ==> Utf16(s)[i] as int == s[i] as int
  {
    if |s| > 0 {
      Utf16WithinBmp(s[1..]);
      assert Utf16(s) == EncodeChar(s[0]) + Utf16(s[1..]);
    }
  }
}
