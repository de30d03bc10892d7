/**
 * The pieces of Go's `strings`, `strconv`/`fmt` and `path/filepath` packages
 * that the modelled code calls, written out over `string` (a Go string is a
 * byte string; here one `char` stands for one character, and comparing
 * code points in order is what comparing UTF-8 bytes in order amounts to).
 */
module GoStrings {
  import opened Base

  predicate HasPrefix(s: string, prefix: string)
  {
    |prefix| <= |s| && s[..|prefix|] == prefix
  }

  /** Prefixing both sides keeps a prefix: an error wrapped twice starts with both wrappers. */
  lemma PrefixWrapped(a: string, s: string, prefix: string)
    requires HasPrefix(s, prefix)
    ensures HasPrefix(a + s, a + prefix)
  {
    assert (a + s)[..|a + prefix|] == a + s[..|prefix|];
  }

  predicate HasSuffix(s: string, suffix: string)
  {
    |suffix| <= |s| && s[|s| - |suffix|..] == suffix
  }

  /** `strings.TrimPrefix`. */
  function TrimPrefix(s: string, prefix: string): (r: string)
    ensures HasPrefix(s, prefix) ==> prefix + r == s
    ensures !HasPrefix(s, prefix) ==> r == s
  {
    if HasPrefix(s, prefix) then s[|prefix|..] else s
  }

  /** `strings.TrimSuffix`. */
  function TrimSuffix(s: string, suffix: string): (r: string)
    ensures HasSuffix(s, suffix) ==> r + suffix == s
    ensures !HasSuffix(s, suffix) ==> r == s
  {
    if HasSuffix(s, suffix) then s[..|s| - |suffix|] else s
  }

  /** `filepath.Ext`: the suffix from the last '.' of the final path element, or "". */
  function Ext(path: string): string
  {
    ExtBefore(path, |path|)
  }

  function ExtBefore(path: string, i: nat): string
    requires i <= |path|
    decreases i
  {
    if i == 0 then ""
    else if path[i - 1] == '/' then ""
    else if path[i - 1] == '.' then path[i - 1..]
    else ExtBefore(path, i - 1)
  }

  lemma {:induction false} ExtBeforeIsSuffix(path: string, i: nat)
    requires i <= |path|
    ensures ExtBefore(path, i) == "" || HasSuffix(path, ExtBefore(path, i))
    decreases i
  {
    if i > 0 && path[i - 1] != '/' && path[i - 1] != '.' {
      ExtBeforeIsSuffix(path, i - 1);
    }
  }

  /** A name's extension is ".json" exactly when the name ends in ".json". */
  lemma ExtIsJsonIffSuffix(name: string)
    ensures Ext(name) == ".json" <==> HasSuffix(name, ".json")
  {
    ExtBeforeIsSuffix(name, |name|);
    if HasSuffix(name, ".json") {
      var n := |name|;
      assert name[n - 5..] == ".json";
      assert name[n - 1] == 'n' && name[n - 2] == 'o' && name[n - 3] == 's' && name[n - 4] == 'j' && name[n - 5] == '.';
      calc {
        ExtBefore(name, n);
        ExtBefore(name, n - 1);
        ExtBefore(name, n - 2);
        ExtBefore(name, n - 3);
        ExtBefore(name, n - 4);
        name[n - 5..];
      }
    }
  }

  /** `unicode.IsSpace`. */
  predicate IsSpace(c: char)
  {
    || c == '\t' || c == '\n' || c == '\U{000B}' || c == '\U{000C}' || c == '\r' || c == ' '
    || c == '\U{0085}' || c == '\U{00A0}' || c == '\U{1680}'
    || ('\U{2000}' <= c <= '\U{200A}')
    || c == '\U{2028}' || c == '\U{2029}' || c == '\U{202F}' || c == '\U{205F}' || c == '\U{3000}'
  }

  /** Every character of `s[lo..hi]` is white space. */
  predicate AllSpace(s: string, lo: int, hi: int)
  {
    forall k | 0 <= lo <= k < hi <= |s| :: IsSpace(s[k])
  }

  function TrimLeftSpace(s: string): (r: string)
    ensures HasSuffix(s, r)
    ensures r == [] || !IsSpace(r[0])
    ensures AllSpace(s, 0, |s| - |r|)
    decreases |s|
  {
    if |s| > 0 && IsSpace(s[0]) then TrimLeftSpace(s[1..]) else s
  }

  function TrimRightSpace(s: string): (r: string)
    ensures HasPrefix(s, r)
    ensures r == [] || !IsSpace(r[|r| - 1])
    ensures AllSpace(s, |r|, |s|)
    decreases |s|
  {
    if |s| > 0 && IsSpace(s[|s| - 1]) then TrimRightSpace(s[..|s| - 1]) else s
  }

  /** `r` is `s[i..j]` and everything outside `i..j` is white space. */
  predicate TrimmedAt(s: string, r: string, i: int, j: int)
  {
    0 <= i <= j <= |s| && r == s[i..j] && AllSpace(s, 0, i) && AllSpace(s, j, |s|)
  }

  /**
   * `strings.TrimSpace`: the longest slice of `s` that neither starts nor
   * ends with white space; everything cut off is white space, and nothing
   * inside is touched.
   */
  function TrimSpace(s: string): (r: string)
    ensures exists i, j :: TrimmedAt(s, r, i, j)
    ensures r == [] || (!IsSpace(r[0]) && !IsSpace(r[|r| - 1]))
  {
    var left := TrimLeftSpace(s);
    var t := TrimRightSpace(left);
    TrimSpaceWitness(s, left, t, |s| - |left|);
    t
  }

  lemma TrimSpaceWitness(s: string, left: string, r: string, i: int)
    requires 0 <= i <= |s| && left == s[i..] && AllSpace(s, 0, i)
    requires HasPrefix(left, r) && AllSpace(left, |r|, |left|)
    requires left == [] || !IsSpace(left[0])
    requires r == [] || !IsSpace(r[|r| - 1])
    ensures TrimmedAt(s, r, i, i + |r|)
    ensures r == [] || (!IsSpace(r[0]) && !IsSpace(r[|r| - 1]))
  {
    if r != [] {
      assert r[0] == left[0];
    }
    assert r == s[i..i + |r|];
    forall k | i + |r| <= k < |s|
      ensures IsSpace(s[k])
    {
      assert s[k] == left[k - i];
    }
  }

  /** `TrimSpace` of a string that neither starts nor ends with white space is the string itself. */
  lemma TrimSpaceNone(s: string)
    requires |s| > 0 && !IsSpace(s[0]) && !IsSpace(s[|s| - 1])
    ensures TrimSpace(s) == s
  {
  }

  /** `TrimSpace` of a string with exactly one white space character at its end drops that character. */
  lemma TrimSpaceLast(s: string)
    requires |s| > 1 && !IsSpace(s[0]) && IsSpace(s[|s| - 1]) && !IsSpace(s[|s| - 2])
    ensures TrimSpace(s) == s[..|s| - 1]
  {
    assert TrimLeftSpace(s) == s;
    assert s[..|s| - 1][|s| - 2] == s[|s| - 2];
  }

  /** `strings.Fields`: the maximal runs of non-space characters, in order. */
  function Fields(s: string): seq<string>
    decreases |s|
  {
    if |s| == 0 then []
    else if IsSpace(s[0]) then Fields(s[1..])
    else
      var w := Word(s);
      [w] + Fields(s[|w|..])
  }

  /** Every field is a non-empty run of non-space characters. */
  lemma {:induction false} FieldsAreWords(s: string, k: nat)
    requires k < |Fields(s)|
    ensures |Fields(s)[k]| > 0 && forall c | c in Fields(s)[k] :: !IsSpace(c)
    decreases |s|
  {
    if IsSpace(s[0]) {
      FieldsAreWords(s[1..], k);
    } else if k > 0 {
      FieldsAreWords(s[|Word(s)|..], k - 1);
    }
  }

  /** The leading run of non-space characters. */
  function Word(s: string): (w: string)
    ensures HasPrefix(s, w)
    ensures forall c | c in w :: !IsSpace(c)
    ensures |s| > 0 && !IsSpace(s[0]) ==> |w| > 0
    ensures |w| < |s| ==> IsSpace(s[|w|])
    decreases |s|
  {
    if |s| == 0 || IsSpace(s[0]) then "" else [s[0]] + Word(s[1..])
  }

  /**
   * `strings.ReplaceAll`: every non-overlapping occurrence of `pat`, taken
   * from left to right, is replaced by `rep`; an empty `pat` matches at the
   * start and after every character.
   */
  function ReplaceAll(s: string, pat: string, rep: string): string
    decreases |s|
  {
    if |pat| == 0 then
      if |s| == 0 then rep else rep + [s[0]] + ReplaceAll(s[1..], pat, rep)
    else if |s| < |pat| then s
    else if s[..|pat|] == pat then rep + ReplaceAll(s[|pat|..], pat, rep)
    else [s[0]] + ReplaceAll(s[1..], pat, rep)
  }

  /** `ReplaceAll` leaves alone a string in which the pattern's first character never occurs. */
  lemma {:induction false} ReplaceAbsent(s: string, pat: string, rep: string)
    requires |pat| > 0 && pat[0] !in s
    ensures ReplaceAll(s, pat, rep) == s
    decreases |s|
  {
    if |s| >= |pat| {
      assert s[..|pat|][0] == s[0];
      ReplaceAbsent(s[1..], pat, rep);
      assert [s[0]] + s[1..] == s;
    }
  }

  /** `ReplaceAll` passes over a prefix in which the pattern's first character never occurs. */
  lemma {:induction false} ReplaceAfter(a: string, b: string, pat: string, rep: string)
    requires |pat| > 0 && pat[0] !in a
    ensures ReplaceAll(a + b, pat, rep) == a + ReplaceAll(b, pat, rep)
    decreases |a|
  {
    if |a| > 0 {
      var s := a + b;
      if |s| >= |pat| {
        assert s[..|pat|][0] == a[0];
      }
      assert s[1..] == a[1..] + b;
      ReplaceAfter(a[1..], b, pat, rep);
      assert [a[0]] + a[1..] == a;
    } else {
      assert a + b == b;
    }
  }

  /** An occurrence of the pattern at the start is replaced, and the search goes on after it. */
  lemma ReplaceAt(pat: string, rep: string, b: string)
    requires |pat| > 0
    ensures ReplaceAll(pat + b, pat, rep) == rep + ReplaceAll(b, pat, rep)
  {
    assert (pat + b)[..|pat|] == pat;
    assert (pat + b)[|pat|..] == b;
  }

  /** A two-character string is no occurrence of a two-character pattern it differs from in its second character. */
  lemma ReplaceOther(s: string, pat: string, rep: string)
    requires |s| == 2 && |pat| == 2 && s[0] == pat[0] && s[1] != pat[1]
    ensures ReplaceAll(s, pat, rep) == s
  {
    assert s[..2] != pat;
    assert s[1..][1..] == [];
    assert [s[0]] + [s[1]] == s;
  }

  /** Go's `<` on strings: lexicographic order of the characters. */
  predicate Less(a: string, b: string)
    decreases |a|
  {
    if |a| == 0 then |b| > 0
    else if |b| == 0 then false
    else if a[0] != b[0] then a[0] < b[0]
    else Less(a[1..], b[1..])
  }

  /** Go's `<=` on strings. */
  predicate LessEq(a: string, b: string)
  {
    !Less(b, a)
  }

  /** `fmt.Sprintf("%d", n)` for a natural number. */
  function NatToString(n: nat): (s: string)
    ensures |s| > 0
    ensures forall c | c in s :: '0' <= c <= '9'
    decreases n
  {
    if n < 10 then [Digit(n)] else NatToString(n / 10) + [Digit(n % 10)]
  }

  function Digit(d: nat): (c: char)
    requires d < 10
    ensures '0' <= c <= '9'
  {
    ('0' as int + d) as char
  }

  /** `strings.Join`. */
  function Join(items: seq<string>, sep: string): string
    decreases |items|
  {
    if |items| == 0 then ""
    else if |items| == 1 then items[0]
    else items[0] + sep + Join(items[1..], sep)
  }

  /** The lower-case hexadecimal digit for `d`. */
  function HexDigit(d: int): (c: char)
    requires 0 <= d < 16
    ensures ('0' <= c <= '9') || ('a' <= c <= 'f')
  {
    if d < 10 then ('0' as int + d) as char else ('a' as int + (d - 10)) as char
  }

  /** The value of a lower-case hexadecimal digit. */
  function HexValue(c: char): int
  {
    if '0' <= c <= '9' then c as int - '0' as int
    else if 'a' <= c <= 'f' then c as int - 'a' as int + 10
    else 0
  }

  predicate IsLowerHex(c: char)
  {
    ('0' <= c <= '9') || ('a' <= c <= 'f')
  }

  /** `fmt.Sprintf("%x", b)` for a byte slice: two lower-case digits per byte. */
  function Hex(b: Bytes): (s: string)
    ensures |s| == 2 * |b|
    ensures forall k | 0 <= k < |s| :: IsLowerHex(s[k])
    decreases |b|
  {
    if |b| == 0 then "" else [HexDigit(b[0] / 16), HexDigit(b[0] % 16)] + Hex(b[1..])
  }

  /** Reads back the bytes of an even-length run of hexadecimal digits. */
  function Unhex(s: string): Bytes
    decreases |s|
  {
    if |s| < 2 then []
    else
      var v := HexValue(s[0]) * 16 + HexValue(s[1]);
      (if 0 <= v < 256 then [v] else [0]) + Unhex(s[2..])
  }

  /** `%x` loses nothing: the digits give back the bytes. */
  lemma {:induction false} UnhexHex(b: Bytes)
    ensures Unhex(Hex(b)) == b
    decreases |b|
  {
    if |b| > 0 {
      var s := Hex(b);
      assert s[2..] == Hex(b[1..]);
      assert HexValue(HexDigit(b[0] / 16)) == b[0] / 16;
      assert HexValue(HexDigit(b[0] % 16)) == b[0] % 16;
      UnhexHex(b[1..]);
      assert [b[0]] + b[1..] == b;
    }
  }
}
