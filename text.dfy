/**
 * String operations shared by the storefront scripts: the whitespace class
 * of ECMAScript regular expressions and `String.prototype.trim`, ASCII
 * lower-casing, character filters, decimal numerals and line joining.
 */
module Text {
  import opened Wrappers

  // ---------------------------------------------------------------- characters

  /** ECMAScript WhiteSpace and LineTerminator code points: what `\s` matches and `trim()` removes. */
  predicate IsSpace(c: char) {
    || c == ' ' || c == '\t' || c == '\n' || c == '\U{000B}' || c == '\U{000C}' || c == '\r'
    || c == '\U{00A0}' || c == '\U{1680}' || ('\U{2000}' <= c <= '\U{200A}')
    || c == '\U{2028}' || c == '\U{2029}' || c == '\U{202F}' || c == '\U{205F}'
    || c == '\U{3000}' || c == '\U{FEFF}'
  }

  /** The characters the regular expression `.` refuses to match. */
  predicate IsLineTerminator(c: char) {
    c == '\n' || c == '\r' || c == '\U{2028}' || c == '\U{2029}'
  }

  /** `\d` in an ECMAScript regular expression. */
  predicate IsDigit(c: char) {
    '0' <= c <= '9'
  }

  predicate IsUpper(c: char) {
    'A' <= c <= 'Z'
  }

  /** `\w`: the characters between which `\b` sees no word boundary. */
  predicate IsWordChar(c: char) {
    IsDigit(c) || IsUpper(c) || ('a' <= c <= 'z') || c == '_'
  }

  predicate AllDigits(s: string) {
    forall i | 0 <= i < |s| :: IsDigit(s[i])
  }

  /** The characters kept by `/[^\d.,-]/g` removal. */
  predicate IsMoneyChar(c: char) {
    IsDigit(c) || c == '.' || c == ',' || c == '-'
  }

  function LowerChar(c: char): (r: char)
    ensures IsUpper(c) ==> r as int == c as int + 32
    ensures !IsUpper(c) ==> r == c
    ensures !IsUpper(r)
  {
    if IsUpper(c) then (c as int + 32) as char else c
  }

  // ---------------------------------------------------------------- lower case

  /** `toLowerCase()` restricted to the ASCII letters. */
  function Lower(s: string): (r: string)
    ensures |r| == |s|
    ensures forall i | 0 <= i < |s| :: r[i] == LowerChar(s[i])
  {
    seq(|s|, i requires 0 <= i < |s| => LowerChar(s[i]))
  }

  lemma {:induction false} LowerAppend(a: string, b: string)
    ensures Lower(a + b) == Lower(a) + Lower(b)
  {
  }

  // ---------------------------------------------------------------- trimming

  /** Drops the leading whitespace: what `trimStart()` and a leading `\s*` consume. */
  function TrimStart(s: string): (r: string)
    ensures |r| <= |s| && r == s[|s| - |r|..]
    ensures r == [] || !IsSpace(r[0])
    ensures forall i | 0 <= i < |s| - |r| :: IsSpace(s[i])
  {
    if s != [] && IsSpace(s[0]) then TrimStart(s[1..]) else s
  }

  lemma {:induction false} TrimStartNoSpace(s: string)
    requires s == [] || !IsSpace(s[0])
    ensures TrimStart(s) == s
  {
  }

  lemma {:induction false} TrimStartSpace(c: char, s: string)
    requires IsSpace(c)
    ensures TrimStart([c] + s) == TrimStart(s)
  {
    assert ([c] + s)[1..] == s;
  }

  /** Drops the trailing whitespace. */
  function TrimEnd(s: string): (r: string)
    ensures |r| <= |s| && r == s[..|r|]
    ensures r == [] || !IsSpace(r[|r| - 1])
    ensures forall i | |r| <= i < |s| :: IsSpace(s[i])
  {
    if s != [] && IsSpace(s[|s| - 1]) then TrimEnd(s[..|s| - 1]) else s
  }

  /** `String.prototype.trim`. */
  function Trim(s: string): (r: string)
    ensures r == [] || (!IsSpace(r[0]) && !IsSpace(r[|r| - 1]))
    ensures |r| <= |s|
  {
    TrimEnd(TrimStart(s))
  }

  lemma {:induction false} TrimOfTrimmed(s: string)
    requires s == [] || (!IsSpace(s[0]) && !IsSpace(s[|s| - 1]))
    ensures Trim(s) == s
  {
  }

  /**
   * `text(el)` of both quote scripts: the trimmed text of an element (its
   * value for an input), `""` when the element was not found.
   */
  function ElementText(el: Option<string>): (r: string)
    ensures el.None? ==> r == ""
    ensures el.Some? ==> r == Trim(el.value)
  {
    match el
    case None => ""
    case Some(t) => Trim(t)
  }

  // ---------------------------------------------------------------- filters

  /** The characters of `s` that are digits, `.`, `,` or `-`, in order. */
  function KeepMoney(s: string): (r: string)
    ensures |r| <= |s|
    ensures forall i | 0 <= i < |r| :: IsMoneyChar(r[i])
    ensures (forall i | 0 <= i < |s| :: IsMoneyChar(s[i])) ==> r == s
  {
    if s == [] then []
    else if IsMoneyChar(s[0]) then [s[0]] + KeepMoney(s[1..])
    else KeepMoney(s[1..])
  }

  /** The digits of `s`, in order (removal of `/[^0-9]/g`). */
  function KeepDigits(s: string): (r: string)
    ensures |r| <= |s|
    ensures AllDigits(r)
    ensures AllDigits(s) ==> r == s
  {
    if s == [] then []
    else if IsDigit(s[0]) then [s[0]] + KeepDigits(s[1..])
    else KeepDigits(s[1..])
  }

  /** Filtering a concatenation filters each part. */
  lemma {:induction false} KeepMoneyAppend(a: string, b: string)
    ensures KeepMoney(a + b) == KeepMoney(a) + KeepMoney(b)
    decreases |a|
  {
    if a == [] {
      assert a + b == b;
    } else {
      assert (a + b)[0] == a[0] && (a + b)[1..] == a[1..] + b;
      KeepMoneyAppend(a[1..], b);
    }
  }

  /** A single character is kept exactly when it is a money character. */
  lemma {:induction false} KeepMoneyChar(c: char)
    ensures KeepMoney([c]) == if IsMoneyChar(c) then [c] else []
  {
    assert [c][1..] == [];
  }

  /** `KeepMoney` leaves nothing exactly when there was nothing to keep. */
  lemma {:induction false} KeepMoneyEmpty(s: string)
    ensures KeepMoney(s) == [] <==> forall k | 0 <= k < |s| :: !IsMoneyChar(s[k])
    decreases |s|
  {
    if s != [] {
      KeepMoneyEmpty(s[1..]);
      assert forall k | 1 <= k < |s| :: s[k] == s[1..][k - 1];
    }
  }

  /** Filtering a concatenation filters each part. */
  lemma {:induction false} KeepDigitsAppend(a: string, b: string)
    ensures KeepDigits(a + b) == KeepDigits(a) + KeepDigits(b)
    decreases |a|
  {
    if a == [] {
      assert a + b == b;
    } else {
      assert (a + b)[0] == a[0] && (a + b)[1..] == a[1..] + b;
      KeepDigitsAppend(a[1..], b);
    }
  }

  /** A single character is kept exactly when it is a digit. */
  lemma {:induction false} KeepDigitsChar(c: char)
    ensures KeepDigits([c]) == if IsDigit(c) then [c] else []
  {
    assert [c][1..] == [];
  }

  /** The longest prefix of `s` made of characters satisfying `p`. */
  function TakeWhile(s: string, p: char -> bool): (r: string)
    ensures |r| <= |s| && r == s[..|r|]
    ensures forall i | 0 <= i < |r| :: p(r[i])
    ensures |r| == |s| || !p(s[|r|])
  {
    if s != [] && p(s[0]) then [s[0]] + TakeWhile(s[1..], p) else []
  }

  /** At most the first `n` characters (`slice(0, n)`). */
  function Take(s: string, n: nat): (r: string)
    ensures |r| <= n && |r| <= |s| && r == s[..|r|]
    ensures |s| <= n ==> r == s
  {
    if |s| <= n then s else s[..n]
  }

  // ---------------------------------------------------------------- searching

  /** `s` begins with `p` once its ASCII letters are lower-cased (`p` is lower case). */
  predicate StartsWithCI(s: string, p: string) {
    |p| <= |s| && Lower(s[..|p|]) == p
  }

  /** `s` contains `p` at some position, ignoring ASCII case (what `/p/i.test(s)` decides). */
  predicate ContainsCI(s: string, p: string)
    decreases |s|
  {
    StartsWithCI(s, p) || (s != [] && ContainsCI(s[1..], p))
  }

  predicate StartsWith(s: string, p: string) {
    |p| <= |s| && s[..|p|] == p
  }

  // ---------------------------------------------------------------- decimal numerals

  function DigitChar(d: nat): (c: char)
    requires d < 10
    ensures IsDigit(c) && c as int - '0' as int == d
  {
    ('0' as int + d) as char
  }

  /** `String(n)` for a non-negative integer. */
  function Show(n: nat): (r: string)
    ensures r != [] && AllDigits(r)
  {
    if n < 10 then [DigitChar(n)] else Show(n / 10) + [DigitChar(n % 10)]
  }

  /** The value of a string of decimal digits (what `parseInt(d, 10)` gives for one). */
  function DigitsValue(d: string): nat
    requires AllDigits(d)
  {
    if d == [] then 0
    else
      assert IsDigit(d[|d| - 1]);
      DigitsValue(d[..|d| - 1]) * 10 + (d[|d| - 1] as int - '0' as int)
  }

  /** Reading back a printed number gives the number. */
  lemma {:induction false} ShowRoundTrip(n: nat)
    ensures DigitsValue(Show(n)) == n
  {
    if n >= 10 {
      var s := Show(n / 10) + [DigitChar(n % 10)];
      assert s[..|s| - 1] == Show(n / 10);
      ShowRoundTrip(n / 10);
    }
  }

  // ---------------------------------------------------------------- sequences

  /** `xs.map(f)`, built by appending in order as a `forEach` with `push` does. */
  function MapSeq<A, B>(xs: seq<A>, f: A -> B): seq<B>
  {
    if xs == [] then [] else MapSeq(xs[..|xs| - 1], f) + [f(xs[|xs| - 1])]
  }

  lemma {:induction false} MapSeqAt<A, B>(xs: seq<A>, f: A -> B)
    ensures |MapSeq(xs, f)| == |xs|
    ensures forall k | 0 <= k < |xs| :: MapSeq(xs, f)[k] == f(xs[k])
  {
    if xs != [] {
      var p := xs[..|xs| - 1];
      MapSeqAt(p, f);
      assert forall k | 0 <= k < |p| :: p[k] == xs[k];
    }
  }

  // ---------------------------------------------------------------- lines

  /** `lines.join(sep)`. */
  function Join(lines: seq<string>, sep: char): string
  {
    if |lines| == 0 then ""
    else if |lines| == 1 then lines[0]
    else lines[0] + [sep] + Join(lines[1..], sep)
  }

  /** `s.split(sep)`: the pieces between the separators; never empty. */
  function Split(s: string, sep: char): (r: seq<string>)
    ensures |r| >= 1
  {
    if s == [] then [""]
    else if s[0] == sep then [""] + Split(s[1..], sep)
    else
      var rest := Split(s[1..], sep);
      [[s[0]] + rest[0]] + rest[1..]
  }

  predicate Free(s: string, sep: char) {
    forall i | 0 <= i < |s| :: s[i] != sep
  }

  lemma {:induction false} SplitPiece(a: string, t: string, sep: char)
    requires Free(a, sep)
    ensures Split(a, sep) == [a]
    ensures Split(a + [sep] + t, sep) == [a] + Split(t, sep)
  {
    if a != [] {
      assert a[0] != sep && [a[0]] + a[1..] == a;
      SplitPiece(a[1..], t, sep);
      assert (a + [sep] + t)[1..] == a[1..] + [sep] + t;
    }
  }

  /** Splitting joined lines at the separator gives the lines back, when no line holds it. */
  lemma {:induction false} SplitJoin(lines: seq<string>, sep: char)
    requires |lines| >= 1
    requires forall k | 0 <= k < |lines| :: Free(lines[k], sep)
    ensures Split(Join(lines, sep), sep) == lines
  {
    SplitPiece(lines[0], [], sep);
    if |lines| > 1 {
      SplitPiece(lines[0], Join(lines[1..], sep), sep);
      SplitJoin(lines[1..], sep);
    }
  }

  // ---------------------------------------------------------------- leftmost match

  /** The capture of the first match of `m` in `s`, trying positions `0..|s|` in order. */
  function Leftmost<T>(s: string, m: string -> Option<T>): (r: Option<T>)
    ensures r.Some? ==> exists i | 0 <= i <= |s| :: m(s[i..]) == r
    ensures m(s).Some? ==> r == m(s)
    decreases |s|
  {
    if m(s).Some? then
      assert s[0..] == s;
      m(s)
    else if s == [] then None
    else
      var r := Leftmost(s[1..], m);
      assert forall i | 0 <= i <= |s| - 1 :: s[1..][i..] == s[i + 1..];
      r
  }

  /**
   * `Leftmost` finds the match at the first position where there is one:
   * no position before it matches, and there is no match exactly when no
   * position matches.
   */
  lemma {:induction false} LeftmostFirst<T>(s: string, m: string -> Option<T>)
    ensures Leftmost(s, m).Some? ==> exists i | 0 <= i <= |s| ::
      m(s[i..]) == Leftmost(s, m) && forall k | 0 <= k < i :: m(s[k..]).None?
    ensures Leftmost(s, m).None? <==> forall i | 0 <= i <= |s| :: m(s[i..]).None?
    decreases |s|
  {
    assert s[0..] == s;
    if m(s).None? && s != [] {
      var t := s[1..];
      var r := Leftmost(t, m);
      assert Leftmost(s, m) == r;
      LeftmostFirst(t, m);
      if r.Some? {
        var i :| 0 <= i <= |t| && m(t[i..]) == r && forall k | 0 <= k < i :: m(t[k..]).None?;
        assert t[i..] == s[i + 1..];
        forall k | 0 <= k < i + 1 ensures m(s[k..]).None? {
          if k > 0 { assert s[k..] == t[k - 1..]; }
        }
      } else {
        forall i | 0 <= i <= |s| ensures m(s[i..]).None? {
          if i > 0 { assert s[i..] == t[i - 1..]; }
        }
      }
    }
  }

  /** A match right after a stretch where no position matches is the one found. */
  lemma {:induction false} LeftmostAfter<T>(pre: string, t: string, m: string -> Option<T>)
    requires m(t).Some?
    requires forall i | 0 <= i < |pre| :: m((pre + t)[i..]).None?
    ensures Leftmost(pre + t, m) == m(t)
    decreases |pre|
  {
    if pre == [] {
      assert pre + t == t;
    } else {
      var s := pre + t;
      assert s[0..] == s;
      assert s[1..] == pre[1..] + t;
      forall i | 0 <= i < |pre| - 1 ensures m((pre[1..] + t)[i..]).None? {
        assert (pre[1..] + t)[i..] == s[i + 1..];
      }
      LeftmostAfter(pre[1..], t, m);
    }
  }
}
