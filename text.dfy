/** The JavaScript string operations the core uses: `trim`, `toLowerCase`,
    `includes` and `split(sep)[0]`, on strings as sequences of characters. */
module Text {

  /** ECMAScript's WhiteSpace and LineTerminator characters, the set `trim` removes. */
  predicate IsWhitespace(c: char) {
    c in {'\t', '\n', '\U{000B}', '\U{000C}', '\r', ' ', '\U{00A0}', '\U{1680}',
          '\U{2000}', '\U{2001}', '\U{2002}', '\U{2003}', '\U{2004}', '\U{2005}',
          '\U{2006}', '\U{2007}', '\U{2008}', '\U{2009}', '\U{200A}',
          '\U{2028}', '\U{2029}', '\U{202F}', '\U{205F}', '\U{3000}', '\U{FEFF}'}
  }

  predicate AllWhitespace(s: string) {
    forall k :: 0 <= k < |s| ==> IsWhitespace(s[k])
  }

  /** `s` without its leading whitespace. */
  function TrimStart(s: string): string {
    if s != [] && IsWhitespace(s[0]) then TrimStart(s[1..]) else s
  }

  /** `s` without its trailing whitespace. */
  function TrimEnd(s: string): string {
    if s != [] && IsWhitespace(s[|s| - 1]) then TrimEnd(s[..|s| - 1]) else s
  }

  /** `String.prototype.trim`. */
  function Trim(s: string): (r: string)
    ensures |r| <= |s|
  {
    TrimStartShape(s);
    TrimEndShape(TrimStart(s));
    TrimEnd(TrimStart(s))
  }

  /** `TrimStart(s)` is the suffix of `s` left after a run of whitespace, and
      it does not start with whitespace. */
  lemma {:induction false} TrimStartShape(s: string)
    ensures |TrimStart(s)| <= |s| && TrimStart(s) == s[|s| - |TrimStart(s)|..]
    ensures TrimStart(s) != [] ==> !IsWhitespace(TrimStart(s)[0])
    ensures AllWhitespace(s[..|s| - |TrimStart(s)|])
  {
    if s != [] && IsWhitespace(s[0]) {
      TrimStartShape(s[1..]);
      var n := |s| - |TrimStart(s)|;
      assert s[..n] == [s[0]] + s[1..][..n - 1];
    } else {
      assert s[0..] == s;
    }
  }

  /** `TrimEnd(s)` is the prefix of `s` before a run of whitespace, and it
      does not end with whitespace. */
  lemma {:induction false} TrimEndShape(s: string)
    ensures |TrimEnd(s)| <= |s| && TrimEnd(s) == s[..|TrimEnd(s)|]
    ensures TrimEnd(s) != [] ==> !IsWhitespace(TrimEnd(s)[|TrimEnd(s)| - 1])
    ensures AllWhitespace(s[|TrimEnd(s)|..])
  {
    if s != [] && IsWhitespace(s[|s| - 1]) {
      var init := s[..|s| - 1];
      TrimEndShape(init);
      var n := |TrimEnd(s)|;
      assert s[n..] == init[n..] + [s[|s| - 1]];
    } else {
      assert s[..|s|] == s;
    }
  }

  /** `Trim(s)` is a slice of `s` with whitespace on both sides of it and
      none at its own two ends. */
  lemma TrimIsCore(s: string)
    ensures exists i, j ::
      (0 <= i <= j <= |s| && Trim(s) == s[i..j] && AllWhitespace(s[..i]) && AllWhitespace(s[j..]))
    ensures Trim(s) != [] ==> !IsWhitespace(Trim(s)[0]) && !IsWhitespace(Trim(s)[|Trim(s)| - 1])
  {
    TrimStartShape(s);
    TrimEndShape(TrimStart(s));
    var u := TrimStart(s);
    var i := |s| - |u|;
    var j := i + |Trim(s)|;
    assert Trim(s) == u[..|Trim(s)|] == s[i..j];
    assert s[j..] == u[|Trim(s)|..];
  }

  /** The title checks of the add form rest on this: the trimmed text is empty
      exactly when the text is empty or whitespace only. */
  lemma TrimEmptyIffBlank(s: string)
    ensures Trim(s) == [] <==> AllWhitespace(s)
  {
    TrimStartShape(s);
    TrimEndShape(TrimStart(s));
    var u := TrimStart(s);
    if AllWhitespace(s) && u != [] {
      assert false;
    }
    if Trim(s) == [] {
      assert u[0..] == u;
      assert u == [];
      assert s[..|s|] == s;
    }
  }

  /** `s.length`: the number of UTF-16 code units, one for a character of the
      Basic Multilingual Plane and two (a surrogate pair) for any other. */
  function Utf16Length(s: string): (n: nat)
    ensures |s| <= n <= 2 * |s|
  {
    if s == [] then 0 else (if s[0] as int < 0x1_0000 then 1 else 2) + Utf16Length(s[1..])
  }

  /** The length adds up over concatenation. */
  lemma {:induction false} Utf16LengthConcat(a: string, b: string)
    ensures Utf16Length(a + b) == Utf16Length(a) + Utf16Length(b)
  {
    if a != [] {
      assert (a + b)[0] == a[0];
      assert (a + b)[1..] == a[1..] + b;
      Utf16LengthConcat(a[1..], b);
    } else {
      assert a + b == b;
    }
  }

  /** The length is the number of characters exactly when no character lies
      outside the Basic Multilingual Plane. */
  lemma {:induction false} Utf16LengthIsCountIffBmp(s: string)
    ensures Utf16Length(s) == |s| <==> forall k :: 0 <= k < |s| ==> s[k] as int < 0x1_0000
  {
    if s != [] {
      Utf16LengthIsCountIffBmp(s[1..]);
      assert forall k :: 1 <= k < |s| ==> s[1..][k - 1] == s[k];
    }
  }

  /** `toLowerCase` on one character, for Basic Latin and Latin-1. */
  function LowerChar(c: char): char {
    if 'A' <= c <= 'Z' || ('\U{00C0}' <= c <= '\U{00DE}' && c != '\U{00D7}') then
      (c as int + 32) as char
    else
      c
  }

  /** `toLowerCase` on a string, character by character. The result keeps the
      length and has no upper-case Basic Latin or Latin-1 letter left in it. */
  function Lower(s: string): (r: string)
    ensures |r| == |s| && forall k :: 0 <= k < |s| ==> r[k] == LowerChar(s[k])
    ensures forall k :: 0 <= k < |r| ==> !('A' <= r[k] <= 'Z') && !('\U{00C0}' <= r[k] <= '\U{00DE}' && r[k] != '\U{00D7}')
  {
    seq(|s|, k requires 0 <= k < |s| => LowerChar(s[k]))
  }

  /** Lower-casing twice is lower-casing once. */
  lemma LowerForgetsCase(s: string)
    ensures Lower(Lower(s)) == Lower(s)
  {
    assert forall k :: 0 <= k < |s| ==> Lower(Lower(s))[k] == Lower(s)[k];
  }

  /** `haystack.includes(needle)`, searched left to right. */
  predicate Contains(haystack: string, needle: string)
    ensures Contains(haystack, needle) ==> |needle| <= |haystack|
  {
    needle <= haystack || (haystack != [] && Contains(haystack[1..], needle))
  }

  /** `Contains` is substring search: the needle occurs at some offset. */
  lemma {:induction false} ContainsIffOccurs(haystack: string, needle: string)
    ensures Contains(haystack, needle) <==> exists i :: 0 <= i <= |haystack| && needle <= haystack[i..]
  {
    if haystack != [] {
      ContainsIffOccurs(haystack[1..], needle);
      if exists i :: 0 <= i <= |haystack| && needle <= haystack[i..] {
        var i :| 0 <= i <= |haystack| && needle <= haystack[i..];
        if i > 0 {
          assert haystack[1..][i - 1..] == haystack[i..];
        }
      }
      if Contains(haystack[1..], needle) && !(needle <= haystack) {
        var i :| 0 <= i <= |haystack[1..]| && needle <= haystack[1..][i..];
        assert haystack[1..][i..] == haystack[i + 1..];
      }
    } else {
      assert haystack[0..] == haystack;
    }
  }

  /** `s.split(sep)[0]`: the text before the first `sep`, or all of `s` when
      there is none. */
  function UpToFirst(s: string, sep: char): (r: string)
    ensures r <= s && sep !in r
    ensures |r| < |s| ==> s[|r|] == sep
  {
    if s == [] || s[0] == sep then [] else [s[0]] + UpToFirst(s[1..], sep)
  }

  /** A prefix free of `sep` and followed by `sep` (or by nothing) is the
      first segment. */
  lemma {:induction false} UpToFirstUnique(s: string, sep: char, p: string)
    requires p <= s && sep !in p && (|p| < |s| ==> s[|p|] == sep)
    ensures UpToFirst(s, sep) == p
  {
    if s != [] && s[0] != sep {
      assert p != [] && p[0] == s[0];
      UpToFirstUnique(s[1..], sep, p[1..]);
      assert p == [p[0]] + p[1..];
    }
  }
}
