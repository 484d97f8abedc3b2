/**
 * Whitespace trimming as Python's `str.strip()` performs it with no
 * argument: the characters removed are those `str.isspace()` accepts.
 */
module Text {

  /**
   * The characters `str.strip()` removes: Python 3's whitespace class, that
   * is the Unicode characters of category Zs or of bidirectional class WS,
   * B or S. This includes the separators U+001C to U+001F and U+0085.
   */
  predicate IsSpace(c: char) {
    || ('\t' <= c <= '\r')                   // tab, line feed, vertical tab, form feed, carriage return
    || ('\U{001C}' <= c <= '\U{001F}')       // file, group, record and unit separators
    || c == ' ' || c == '\U{0085}' || c == '\U{00A0}' || c == '\U{1680}'
    || ('\U{2000}' <= c <= '\U{200A}')       // en quad to hair space
    || c == '\U{2028}' || c == '\U{2029}' || c == '\U{202F}' || c == '\U{205F}' || c == '\U{3000}'
  }

  /** Every character of `s` is whitespace; in particular the empty string is blank. */
  predicate IsBlank(s: string) {
    forall k :: 0 <= k < |s| ==> IsSpace(s[k])
  }

  /** Neither the first nor the last character is whitespace. */
  predicate IsStripped(s: string) {
    s == [] || (!IsSpace(s[0]) && !IsSpace(s[|s| - 1]))
  }

  /** `s` without its leading whitespace. */
  function TrimStart(s: string): (r: string)
    ensures |r| <= |s|
  {
    if s != [] && IsSpace(s[0]) then TrimStart(s[1..]) else s
  }

  /** What `TrimStart` removes is a blank prefix, and what it keeps does not begin with whitespace. */
  lemma {:induction false} TrimStartSpec(s: string)
    ensures TrimStart(s) == s[|s| - |TrimStart(s)|..]
    ensures IsBlank(s[..|s| - |TrimStart(s)|])
    ensures TrimStart(s) == [] || !IsSpace(TrimStart(s)[0])
  {
    if s != [] && IsSpace(s[0]) {
      TrimStartSpec(s[1..]);
      var k := |s| - |TrimStart(s)|;
      assert s[1..][..k - 1] == s[1..k];
      forall j | 0 <= j < k ensures IsSpace(s[..k][j]) {
        if j > 0 {
          assert s[..k][j] == s[1..][..k - 1][j - 1];
        }
      }
    }
  }

  /** `s` without its trailing whitespace. */
  function TrimEnd(s: string): (r: string)
    ensures |r| <= |s|
  {
    if s != [] && IsSpace(s[|s| - 1]) then TrimEnd(s[..|s| - 1]) else s
  }

  /** What `TrimEnd` removes is a blank suffix, and what it keeps does not end with whitespace. */
  lemma {:induction false} TrimEndSpec(s: string)
    ensures TrimEnd(s) == s[..|TrimEnd(s)|]
    ensures IsBlank(s[|TrimEnd(s)|..])
    ensures TrimEnd(s) == [] || !IsSpace(TrimEnd(s)[|TrimEnd(s)| - 1])
  {
    if s != [] && IsSpace(s[|s| - 1]) {
      var t := s[..|s| - 1];
      TrimEndSpec(t);
      var k := |TrimEnd(s)|;
      assert t[..k] == s[..k];
      forall j | 0 <= j < |s| - k ensures IsSpace(s[k..][j]) {
        if j < |s| - 1 - k {
          assert s[k..][j] == t[k..][j];
        }
      }
    }
  }

  /** Where `Strip(s)` begins inside `s`. */
  function StripOffset(s: string): (k: nat)
    ensures k <= |s|
  {
    |s| - |TrimStart(s)|
  }

  /** A string is blank exactly when both pieces of any split of it are. */
  lemma BlankSplit(s: string, i: nat)
    requires i <= |s|
    ensures IsBlank(s) <==> IsBlank(s[..i]) && IsBlank(s[i..])
  {
    if IsBlank(s[..i]) && IsBlank(s[i..]) {
      forall k | 0 <= k < |s| ensures IsSpace(s[k]) {
        if k < i {
          assert s[k] == s[..i][k];
        } else {
          assert s[k] == s[i..][k - i];
        }
      }
    }
  }

  /** Python's `s.strip()`: `s` without its leading and trailing whitespace. */
  function Strip(s: string): (r: string)
    ensures |r| <= |s|
    ensures IsStripped(r)
  {
    var t := TrimStart(s);
    TrimStartSpec(s);
    TrimEndSpec(t);
    assert TrimEnd(t) != [] ==> TrimEnd(t)[0] == t[0];
    TrimEnd(t)
  }

  /**
   * `Strip(s)` is the slice of `s` left once leading and trailing
   * whitespace are removed: it neither begins nor ends with whitespace,
   * everything `s` holds outside it is whitespace, and it is empty exactly
   * when `s` is blank.
   */
  lemma StripSpec(s: string)
    ensures IsStripped(Strip(s))
    ensures StripOffset(s) + |Strip(s)| <= |s| && Strip(s) == s[StripOffset(s)..StripOffset(s) + |Strip(s)|]
    ensures IsBlank(s[..StripOffset(s)]) && IsBlank(s[StripOffset(s) + |Strip(s)|..])
    ensures Strip(s) == [] <==> IsBlank(s)
  {
    var t := TrimStart(s);
    var r := Strip(s);
    var i := StripOffset(s);
    TrimStartSpec(s);
    TrimEndSpec(t);
    assert t == s[i..];
    assert t[|r|..] == s[i + |r|..];
    assert r == s[i..i + |r|];
    BlankSplit(s, i);
    BlankSplit(t, |r|);
    if r != [] {
      assert r[0] == TrimStart(s)[0];
    }
  }

  /** Stripping an already stripped string changes nothing. */
  lemma StripIdempotent(s: string)
    requires IsStripped(s)
    ensures Strip(s) == s
  {
    if s != [] {
      assert TrimStart(s) == s;
    }
  }

  /** Stripping is idempotent. */
  lemma StripTwice(s: string)
    ensures Strip(Strip(s)) == Strip(s)
  {
    StripSpec(s);
    StripIdempotent(Strip(s));
  }

  /** The concatenation of a sequence of strings, in order. */
  function Concat(parts: seq<string>): string
  {
    if parts == [] then "" else Concat(parts[..|parts| - 1]) + parts[|parts| - 1]
  }
}
