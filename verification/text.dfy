/**
 * The Python string primitives the system relies on, written out over
 * `seq<char>`: `str.isspace`, `strip`, substring `in`, `lower`, slicing
 * `s[:n]`, `split(sep)`, `sep.join`, `rfind`, `str(int)` and
 * `len(s.split())`.
 */
module Text {

  /** Python's `str.isspace()` for one character (ASCII and Unicode spaces). */
  predicate IsSpace(c: char) {
    || c == ' '
    || ('\t' <= c <= '\r')
    || ('\U{001C}' <= c <= '\U{001F}')
    || c == '\U{0085}' || c == '\U{00A0}' || c == '\U{1680}'
    || ('\U{2000}' <= c <= '\U{200A}')
    || c == '\U{2028}' || c == '\U{2029}' || c == '\U{202F}' || c == '\U{205F}' || c == '\U{3000}'
  }

  /** Every character is white space; `not s or not s.strip()` in Python. */
  predicate IsBlank(s: string) {
    forall i :: 0 <= i < |s| ==> IsSpace(s[i])
  }

  /** Neither end of `s` is white space. */
  predicate IsTrimmed(s: string) {
    |s| == 0 || (!IsSpace(s[0]) && !IsSpace(s[|s| - 1]))
  }

  /** Number of leading white-space characters of `s[..hi]`, from `lo`. */
  function SkipSpaces(s: string, lo: nat, hi: nat): (a: nat)
    requires lo <= hi <= |s|
    ensures lo <= a <= hi
    ensures forall i :: lo <= i < a ==> IsSpace(s[i])
    ensures a < hi ==> !IsSpace(s[a])
    decreases hi - lo
  {
    if lo < hi && IsSpace(s[lo]) then SkipSpaces(s, lo + 1, hi) else lo
  }

  /** End of `s[lo..hi]` once its trailing white space is dropped. */
  function TrimEnd(s: string, lo: nat, hi: nat): (b: nat)
    requires lo <= hi <= |s|
    ensures lo <= b <= hi
    ensures forall i :: b <= i < hi ==> IsSpace(s[i])
    ensures b > lo ==> !IsSpace(s[b - 1])
    decreases hi - lo
  {
    if lo < hi && IsSpace(s[hi - 1]) then TrimEnd(s, lo, hi - 1) else hi
  }

  /** Index in `s` where `s.strip()` begins. */
  function StripStart(s: string): nat
    ensures StripStart(s) <= |s|
  {
    SkipSpaces(s, 0, |s|)
  }

  /** Index in `s` where `s.strip()` ends. */
  function StripEnd(s: string): nat
    ensures StripStart(s) <= StripEnd(s) <= |s|
  {
    TrimEnd(s, StripStart(s), |s|)
  }

  /** `s.strip()`: the slice of `s` left after removing white space at both ends. */
  function Strip(s: string): (r: string)
    ensures IsTrimmed(r)
    ensures r == s[StripStart(s)..StripEnd(s)]
    ensures forall i :: 0 <= i < StripStart(s) ==> IsSpace(s[i])
    ensures forall i :: StripEnd(s) <= i < |s| ==> IsSpace(s[i])
    ensures r == "" <==> IsBlank(s)
  {
    var a, b := StripStart(s), StripEnd(s);
    assert a < b ==> !IsSpace(s[a]) && !IsSpace(s[b - 1]);
    s[a..b]
  }

  /** Stripping a trimmed string changes nothing; in particular stripping is idempotent. */
  lemma StripTrimmed(s: string)
    requires IsTrimmed(s)
    ensures Strip(s) == s
  {
    if |s| > 0 {
      assert SkipSpaces(s, 0, |s|) == 0;
      assert TrimEnd(s, 0, |s|) == |s|;
    }
  }

  /** `key` occurs in `text` starting at index `i`. */
  predicate OccursAt(text: string, key: string, i: int) {
    0 <= i && i + |key| <= |text| && text[i..i + |key|] == key
  }

  /** Python's `key in text` for strings. */
  predicate Contains(text: string, key: string)
    decreases |text|
  {
    |key| <= |text| && (text[..|key|] == key || Contains(text[1..], key))
  }

  /** `any(k in text for k in keys)` */
  predicate ContainsAny(text: string, keys: seq<string>) {
    exists i :: 0 <= i < |keys| && Contains(text, keys[i])
  }

  /** `Contains` holds exactly when `key` occurs at some index of `text`. */
  lemma {:induction false} ContainsIffOccurs(text: string, key: string)
    ensures Contains(text, key) <==> exists i :: OccursAt(text, key, i)
    decreases |text|
  {
    if |key| <= |text| && text[..|key|] != key {
      ContainsIffOccurs(text[1..], key);
      if exists i :: OccursAt(text, key, i) {
        var i :| OccursAt(text, key, i);
        assert i > 0;
        assert text[1..][i - 1..i - 1 + |key|] == text[i..i + |key|];
        assert OccursAt(text[1..], key, i - 1);
      }
      if Contains(text[1..], key) {
        var j :| OccursAt(text[1..], key, j);
        assert text[j + 1..j + 1 + |key|] == text[1..][j..j + |key|];
        assert OccursAt(text, key, j + 1);
      }
    } else if |key| <= |text| {
      assert OccursAt(text, key, 0);
    }
  }

  /** Any occurrence makes `Contains` true. */
  lemma ContainsAt(text: string, key: string, i: nat)
    requires OccursAt(text, key, i)
    ensures Contains(text, key)
  {
    ContainsIffOccurs(text, key);
  }

  /** A Latin-1 upper-case letter; `str.lower()` of the system's data only needs these. */
  predicate IsUpper(c: char) {
    ('A' <= c <= 'Z') || ('\U{00C0}' <= c <= '\U{00DE}' && c != '\U{00D7}')
  }

  function LowerChar(c: char): (r: char)
    ensures IsUpper(c) ==> r as int == c as int + 32
    ensures !IsUpper(c) ==> r == c
  {
    if IsUpper(c) then (c as int + 32) as char else c
  }

  /** `s.lower()`: every upper-case letter replaced by its lower-case form. */
  function Lower(s: string): (r: string)
    ensures |r| == |s|
    ensures forall i :: 0 <= i < |s| ==> r[i] == LowerChar(s[i])
  {
    seq(|s|, i requires 0 <= i < |s| => LowerChar(s[i]))
  }

  /** `s[:n]` */
  function Take(s: string, n: nat): (r: string)
    ensures |r| == if n < |s| then n else |s|
    ensures r == s[..|r|]
  {
    if n < |s| then s[..n] else s
  }

  /** `s.find(sub)`: the first index where `sub` occurs, or -1. */
  function Find(s: string, sub: string): (r: int)
    ensures r >= -1
    ensures r >= 0 ==> OccursAt(s, sub, r)
    ensures r >= 0 ==> forall i :: 0 <= i < r ==> !OccursAt(s, sub, i)
    ensures r == -1 ==> forall i :: !OccursAt(s, sub, i)
    decreases |s|
  {
    if |s| < |sub| then -1
    else if s[..|sub|] == sub then 0
    else
      var k := Find(s[1..], sub);
      assert !OccursAt(s, sub, 0);
      forall i | 1 <= i
        ensures OccursAt(s, sub, i) <==> OccursAt(s[1..], sub, i - 1)
      {
        if i <= |s| - |sub| {
          SliceOfTail(s, i - 1, |sub|);
        }
      }
      if k < 0 then -1 else k + 1
  }

  /** A window of `s[1..]` is the window of `s` one place to the right. */
  lemma SliceOfTail(s: string, i: nat, n: nat)
    requires 1 + i + n <= |s|
    ensures s[1..][i..i + n] == s[i + 1..i + 1 + n]
  {
  }

  /** `s.rfind(sub, lo, hi)` for `hi <= len(s)`: the last index in the window, or -1. */
  function RFind(s: string, sub: string, lo: nat, hi: nat): (r: int)
    requires hi <= |s|
    ensures r == -1 || (lo <= r && r + |sub| <= hi && OccursAt(s, sub, r))
    ensures r == -1 ==> forall i :: lo <= i && i + |sub| <= hi ==> !OccursAt(s, sub, i)
    ensures r != -1 ==> forall i :: r < i && i + |sub| <= hi ==> !OccursAt(s, sub, i)
    decreases hi
  {
    if hi < lo + |sub| then -1
    else if s[hi - |sub|..hi] == sub then hi - |sub|
    else RFind(s, sub, lo, hi - 1)
  }

  /** `s.split(sep)` for a non-empty separator. */
  function Split(s: string, sep: string): (parts: seq<string>)
    requires |sep| > 0
    ensures |parts| >= 1
    decreases |s|
  {
    var i := Find(s, sep);
    if i < 0 then [s] else [s[..i]] + Split(s[i + |sep|..], sep)
  }

  /** `sep.join(parts)` */
  function Join(parts: seq<string>, sep: string): string
    decreases |parts|
  {
    if |parts| == 0 then ""
    else if |parts| == 1 then parts[0]
    else parts[0] + sep + Join(parts[1..], sep)
  }

  /** Joining the pieces of a split with the same separator gives back the text. */
  lemma {:induction false} JoinSplit(s: string, sep: string)
    requires |sep| > 0
    ensures Join(Split(s, sep), sep) == s
    decreases |s|
  {
    var i := Find(s, sep);
    if i >= 0 {
      var rest := s[i + |sep|..];
      JoinSplit(rest, sep);
      var tail := Split(rest, sep);
      assert Split(s, sep) == [s[..i]] + tail;
      assert s == s[..i] + sep + rest;
    }
  }

  /** No piece of a split contains the separator. */
  lemma {:induction false} SplitPiecesAvoidSeparator(s: string, sep: string)
    requires |sep| > 0
    ensures forall k :: 0 <= k < |Split(s, sep)| ==> Find(Split(s, sep)[k], sep) == -1
    decreases |s|
  {
    var i := Find(s, sep);
    if i >= 0 {
      SplitPiecesAvoidSeparator(s[i + |sep|..], sep);
      var head := s[..i];
      forall j | OccursAt(head, sep, j)
        ensures false
      {
        assert head[j..j + |sep|] == s[j..j + |sep|];
        assert OccursAt(s, sep, j);
      }
    }
  }

  /** When the first `sep` of `p + sep` is the appended one, `p` holds none. */
  lemma FindNoneBefore(p: string, sep: string)
    requires |sep| > 0 && Find(p + sep, sep) == |p|
    ensures Find(p, sep) == -1
  {
    forall i | 0 <= i && i + |sep| <= |p|
      ensures !OccursAt(p, sep, i)
    {
      assert (p + sep)[i..i + |sep|] == p[i..i + |sep|];
      assert !OccursAt(p + sep, sep, i);
    }
  }

  /** ... and whatever follows the appended `sep`, it stays the first. */
  lemma FindPastPrefix(p: string, sep: string, rest: string)
    requires |sep| > 0 && Find(p + sep, sep) == |p|
    ensures Find(p + sep + rest, sep) == |p|
  {
    var s := p + sep + rest;
    assert OccursAt(s, sep, |p|) by {
      assert s[|p|..|p| + |sep|] == sep;
    }
    forall i | 0 <= i < |p|
      ensures !OccursAt(s, sep, i)
    {
      assert !OccursAt(p + sep, sep, i);
      if i + |sep| <= |s| {
        assert s[i..i + |sep|] == (p + sep)[i..i + |sep|];
      }
    }
  }

  /**
   * Splitting a join gives back the parts, provided no part runs into the
   * separator: in each `p + sep` the first `sep` is the appended one.
   */
  lemma {:induction false} SplitJoin(parts: seq<string>, sep: string)
    requires |sep| > 0 && |parts| >= 1
    requires forall k :: 0 <= k < |parts| ==> Find(parts[k] + sep, sep) == |parts[k]|
    ensures Split(Join(parts, sep), sep) == parts
    decreases |parts|
  {
    var p := parts[0];
    assert Find(p + sep, sep) == |p|;
    if |parts| == 1 {
      FindNoneBefore(p, sep);
    } else {
      var rest := Join(parts[1..], sep);
      var s := p + sep + rest;
      assert Join(parts, sep) == s;
      FindPastPrefix(p, sep, rest);
      assert s[..|p|] == p;
      assert s[|p| + |sep|..] == rest;
      SplitJoin(parts[1..], sep);
      assert parts == [p] + parts[1..];
    }
  }

  /** Decimal digit of `d`. */
  function DigitChar(d: nat): char
    requires d < 10
  {
    "0123456789"[d]
  }

  /** `str(n)` for a natural number. */
  function NatToString(n: nat): (r: string)
    ensures |r| >= 1
    decreases n
  {
    if n < 10 then [DigitChar(n)] else NatToString(n / 10) + [DigitChar(n % 10)]
  }

  /** Value of a string of decimal digits (`int(s)`). */
  function DigitsValue(s: string): nat
    requires forall i :: 0 <= i < |s| ==> '0' <= s[i] <= '9'
    decreases |s|
  {
    if |s| == 0 then 0 else DigitsValue(s[..|s| - 1]) * 10 + (s[|s| - 1] as int - '0' as int)
  }

  /** `len(s.split())`: the number of maximal runs of non-space characters. */
  function WordCount(s: string): (n: nat)
    ensures n == 0 <==> IsBlank(s)
    decreases |s|
  {
    if |s| == 0 then 0
    else if IsSpace(s[0]) then WordCount(s[1..])
    else 1 + WordCount(SkipWord(s))
  }

  /** `s` without its leading run of non-space characters. */
  function SkipWord(s: string): (r: string)
    ensures |r| <= |s| && r == s[|s| - |r|..]
    ensures |s| > 0 && !IsSpace(s[0]) ==> |r| < |s|
    decreases |s|
  {
    if |s| > 0 && !IsSpace(s[0]) then SkipWord(s[1..]) else s
  }

  /** The non-space characters of `s`, in order. */
  function NonSpace(s: string): string
    decreases |s|
  {
    if |s| == 0 then "" else (if IsSpace(s[0]) then "" else [s[0]]) + NonSpace(s[1..])
  }

  lemma {:induction false} NonSpaceAppend(a: string, b: string)
    ensures NonSpace(a + b) == NonSpace(a) + NonSpace(b)
    decreases |a|
  {
    if |a| == 0 {
      assert a + b == b;
    } else {
      assert (a + b)[0] == a[0];
      assert (a + b)[1..] == a[1..] + b;
      NonSpaceAppend(a[1..], b);
    }
  }

  lemma {:induction false} NonSpaceOfBlank(s: string)
    ensures IsBlank(s) <==> NonSpace(s) == ""
    decreases |s|
  {
    if |s| > 0 {
      NonSpaceOfBlank(s[1..]);
      assert IsBlank(s) <==> IsSpace(s[0]) && IsBlank(s[1..]);
    }
  }

  /** Stripping only removes white space. */
  lemma NonSpaceStrip(s: string)
    ensures NonSpace(Strip(s)) == NonSpace(s)
  {
    var a, b := StripStart(s), StripEnd(s);
    assert s == s[..a] + s[a..b] + s[b..];
    NonSpaceAppend(s[..a] + s[a..b], s[b..]);
    NonSpaceAppend(s[..a], s[a..b]);
    assert IsBlank(s[..a]);
    assert IsBlank(s[b..]);
    NonSpaceOfBlank(s[..a]);
    NonSpaceOfBlank(s[b..]);
  }

  /** The concatenation of a sequence of strings. */
  function Concat(parts: seq<string>): string
    decreases |parts|
  {
    if |parts| == 0 then "" else parts[0] + Concat(parts[1..])
  }

  lemma {:induction false} ConcatAppend(a: seq<string>, b: seq<string>)
    ensures Concat(a + b) == Concat(a) + Concat(b)
    decreases |a|
  {
    if |a| == 0 {
      assert a + b == b;
    } else {
      assert (a + b)[0] == a[0];
      assert (a + b)[1..] == a[1..] + b;
      ConcatAppend(a[1..], b);
    }
  }
}
