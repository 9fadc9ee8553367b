/**
 * The text helpers of assets/send-qoute-org.js: `moneyKeepDollar`,
 * `escapeHtml`, `extractQty`, `extractLineTotal` and the `parseInt` of the
 * variant id. Each fixed regular expression is written out as a matcher on
 * the suffix of the text where a match would begin; `Text.Leftmost` tries
 * those suffixes in order, as `String.prototype.match` does.
 */
module QuoteFormat {
  import opened Text
  import opened Wrappers

  // ---------------------------------------------------------------- moneyKeepDollar

  /** `\b[A-Z]{3}\b` matches at `i`: three capitals with no letter, digit or `_` on either side. */
  predicate IsCodeAt(s: string, i: nat) {
    && i + 3 <= |s|
    && (i == 0 || !IsWordChar(s[i - 1]))
    && IsUpper(s[i]) && IsUpper(s[i + 1]) && IsUpper(s[i + 2])
    && (i + 3 == |s| || !IsWordChar(s[i + 3]))
  }

  /** `s[i..]` with every currency-code word removed; word boundaries are judged on the whole of `s`. */
  function StripCodesFrom(s: string, i: nat): (r: string)
    requires i <= |s|
    ensures |r| <= |s| - i
    decreases |s| - i
  {
    if i == |s| then []
    else if IsCodeAt(s, i) then StripCodesFrom(s, i + 3)
    else [s[i]] + StripCodesFrom(s, i + 1)
  }

  /** `replace(/\b[A-Z]{3}\b/g, "")`. */
  function StripCodes(s: string): string {
    StripCodesFrom(s, 0)
  }

  /** Text without capital letters holds no currency code and is left as it is. */
  lemma {:induction false} StripCodesFromPlain(s: string, i: nat)
    requires i <= |s|
    requires forall k | i <= k < |s| :: !IsUpper(s[k])
    ensures StripCodesFrom(s, i) == s[i..]
    decreases |s| - i
  {
    if i < |s| {
      StripCodesFromPlain(s, i + 1);
      assert [s[i]] + s[i + 1..] == s[i..];
    }
  }

  /**
   * `moneyKeepDollar`: drop currency codes and trim; text with a `$` is
   * kept as it is, other text keeps only its digits, `.`, `,` and `-`
   * behind a `$`, and becomes `""` exactly when none are left.
   */
  function MoneyKeepDollar(raw: string): (r: string)
    ensures var t := Trim(StripCodes(raw));
      && ('$' in t ==> r == t)
      && ('$' !in t ==> (r == "" <==> forall k | 0 <= k < |t| :: !IsMoneyChar(t[k])))
      && ('$' !in t && r != "" ==> r[0] == '$' && r[1..] == KeepMoney(t))
    ensures r == "" || '$' in r
  {
    var t := Trim(StripCodes(raw));
    if '$' in t then t
    else
      var n := KeepMoney(t);
      KeepMoneyEmpty(t);
      if n == [] then [] else "$" + n
  }

  /** A `$` amount made of money characters is its own `moneyKeepDollar`. */
  lemma {:induction false} MoneyOfAmount(n: string)
    requires n != [] && forall k | 0 <= k < |n| :: IsMoneyChar(n[k])
    ensures MoneyKeepDollar("$" + n) == "$" + n
  {
    var s := "$" + n;
    StripCodesFromPlain(s, 0);
    assert s[0..] == s;
    assert !IsSpace(s[0]) && !IsSpace(s[|s| - 1]);
    TrimOfTrimmed(s);
    assert s[0] == '$';
  }

  /** What `moneyKeepDollar` returns is a fixed point of it. */
  lemma {:induction false} MoneyIdempotentOnAmounts(raw: string)
    requires '$' !in Trim(StripCodes(raw))
    ensures MoneyKeepDollar(MoneyKeepDollar(raw)) == MoneyKeepDollar(raw)
  {
    var r := MoneyKeepDollar(raw);
    if r != "" {
      var n := r[1..];
      assert r == "$" + n;
      MoneyOfAmount(n);
    } else {
      assert Trim(StripCodes("")) == "";
    }
  }

  /** A stretch without capitals is copied through unchanged. */
  lemma {:induction false} StripPlainPrefix(s: string, i: nat, j: nat)
    requires i <= j <= |s|
    requires forall k | i <= k < j :: !IsUpper(s[k])
    ensures StripCodesFrom(s, i) == s[i..j] + StripCodesFrom(s, j)
    decreases j - i
  {
    if i < j {
      StripPlainPrefix(s, i, j - 1);
      StripPlainStep(s, j - 1);
      assert s[i..j] == s[i..j - 1] + [s[j - 1]];
    }
  }

  /** A character that is not a capital is copied through. */
  lemma {:induction false} StripPlainStep(s: string, i: nat)
    requires i < |s| && !IsUpper(s[i])
    ensures StripCodesFrom(s, i) == [s[i]] + StripCodesFrom(s, i + 1)
  {
    assert !IsCodeAt(s, i);
  }

  /** A three-capital word after a space at the end is stripped, the rest kept. */
  lemma {:induction false} StripTrailingCode(n: string, code: string)
    requires forall k | 0 <= k < |n| :: !IsUpper(n[k])
    requires |code| == 3 && IsUpper(code[0]) && IsUpper(code[1]) && IsUpper(code[2])
    ensures StripCodes(n + " " + code) == n + " "
  {
    var s := n + " " + code;
    var j := |n| + 1;
    StripPlainPrefix(s, 0, j);
    assert IsCodeAt(s, j);
    assert s[0..j] == n + " ";
  }

  /** Trimming drops one trailing space after a word that needs no trimming. */
  lemma {:induction false} TrimTrailingSpace(n: string)
    requires n != [] && !IsSpace(n[0]) && !IsSpace(n[|n| - 1])
    ensures Trim(n + " ") == n
  {
    var t := n + " ";
    TrimStartNoSpace(t);
    assert t[..|t| - 1] == n;
    assert TrimEnd(t) == TrimEnd(n);
  }

  /** A trailing currency code is dropped and the amount gets its `$`: `"12.50 USD"` gives `"$12.50"`. */
  lemma {:induction false} MoneyWithCode(n: string, code: string)
    requires n != [] && forall k | 0 <= k < |n| :: IsMoneyChar(n[k])
    requires |code| == 3 && IsUpper(code[0]) && IsUpper(code[1]) && IsUpper(code[2])
    ensures MoneyKeepDollar(n + " " + code) == "$" + n
  {
    StripTrailingCode(n, code);
    TrimTrailingSpace(n);
    assert '$' !in n;
  }

  // ---------------------------------------------------------------- escapeHtml

  /** `replace(/c/g, rep)`. */
  function ReplaceChar(s: string, c: char, rep: string): (r: string)
  {
    if s == [] then [] else (if s[0] == c then rep else [s[0]]) + ReplaceChar(s[1..], c, rep)
  }

  lemma {:induction false} ReplaceCharAppend(a: string, b: string, c: char, rep: string)
    ensures ReplaceChar(a + b, c, rep) == ReplaceChar(a, c, rep) + ReplaceChar(b, c, rep)
  {
    if a == [] {
      assert a + b == b;
    } else {
      assert (a + b)[0] == a[0] && (a + b)[1..] == a[1..] + b;
      ReplaceCharAppend(a[1..], b, c, rep);
    }
  }

  /** The entity references `escapeHtml` writes. */
  const AmpRef: string := "&amp;"
  const LtRef: string := "&lt;"
  const GtRef: string := "&gt;"
  const QuotRef: string := "&quot;"

  /** The entity that stands for one character in HTML text. */
  function EscapeChar(c: char): (r: string)
    ensures '<' !in r && '>' !in r && '"' !in r
    ensures r != [] && (r[0] == '&' <==> c == '&' || c == '<' || c == '>' || c == '"')
  {
    if c == '&' then AmpRef
    else if c == '<' then LtRef
    else if c == '>' then GtRef
    else if c == '"' then QuotRef
    else [c]
  }

  /** Every character escaped on its own: the reference the chained replacements are held to. */
  function EscapeAll(s: string): (r: string)
    ensures '<' !in r && '>' !in r && '"' !in r
  {
    if s == [] then [] else EscapeChar(s[0]) + EscapeAll(s[1..])
  }

  /** The four replacements of `escapeHtml`, in order, on one character. */
  function Chain(s: string): string {
    ReplaceChar(ReplaceChar(ReplaceChar(ReplaceChar(s, '&', AmpRef), '<', LtRef), '>', GtRef), '"', QuotRef)
  }

  lemma {:induction false} ChainAppend(a: string, b: string)
    ensures Chain(a + b) == Chain(a) + Chain(b)
  {
    ReplaceCharAppend(a, b, '&', AmpRef);
    var a1, b1 := ReplaceChar(a, '&', AmpRef), ReplaceChar(b, '&', AmpRef);
    ReplaceCharAppend(a1, b1, '<', LtRef);
    var a2, b2 := ReplaceChar(a1, '<', LtRef), ReplaceChar(b1, '<', LtRef);
    ReplaceCharAppend(a2, b2, '>', GtRef);
    var a3, b3 := ReplaceChar(a2, '>', GtRef), ReplaceChar(b2, '>', GtRef);
    ReplaceCharAppend(a3, b3, '"', QuotRef);
  }

  lemma {:induction false} ReplaceOne(c: char, d: char, rep: string)
    ensures ReplaceChar([c], d, rep) == if c == d then rep else [c]
  {
    assert [c][1..] == [];
  }

  lemma {:induction false} ReplaceAbsent(s: string, c: char, rep: string)
    requires c !in s
    ensures ReplaceChar(s, c, rep) == s
  {
    if s != [] {
      assert s[0] != c && c !in s[1..];
      ReplaceAbsent(s[1..], c, rep);
      assert [s[0]] + s[1..] == s;
    }
  }

  lemma {:induction false} ChainChar(c: char)
    ensures Chain([c]) == EscapeChar(c)
  {
    if c == '&' {
      ChainAmp(c);
    } else if c == '<' {
      ChainLt(c);
    } else if c == '>' {
      ChainGt(c);
    } else if c == '"' {
      ChainQuot(c);
    } else {
      ChainPlain(c);
    }
  }
  lemma {:induction false} ChainAmp(c: char)
    requires c == '&'
    ensures Chain([c]) == AmpRef
  {
    ReplaceOne(c, '&', AmpRef);
    AmpRefKept();
  }
  /** The later replacements leave `&amp;` alone. */
  lemma {:induction false} AmpRefKept()
    ensures ReplaceChar(ReplaceChar(ReplaceChar(AmpRef, '<', LtRef), '>', GtRef), '"', QuotRef) == AmpRef
  {
    assert '<' !in AmpRef && '>' !in AmpRef && '"' !in AmpRef;
    ReplaceAbsent(AmpRef, '<', LtRef);
    ReplaceAbsent(AmpRef, '>', GtRef);
    ReplaceAbsent(AmpRef, '"', QuotRef);
  }
  lemma {:induction false} ChainLt(c: char)
    requires c == '<'
    ensures Chain([c]) == LtRef
  {
    ReplaceOne(c, '&', AmpRef);
    ReplaceOne(c, '<', LtRef);
    ReplaceAbsent(LtRef, '>', GtRef);
    ReplaceAbsent(LtRef, '"', QuotRef);
  }
  lemma {:induction false} ChainGt(c: char)
    requires c == '>'
    ensures Chain([c]) == GtRef
  {
    ReplaceOne(c, '&', AmpRef);
    ReplaceOne(c, '<', LtRef);
    ReplaceOne(c, '>', GtRef);
    ReplaceAbsent(GtRef, '"', QuotRef);
  }
  lemma {:induction false} ChainQuot(c: char)
    requires c == '"'
    ensures Chain([c]) == QuotRef
  {
    ReplaceOne(c, '&', AmpRef);
    ReplaceOne(c, '<', LtRef);
    ReplaceOne(c, '>', GtRef);
    ReplaceOne(c, '"', QuotRef);
  }
  lemma {:induction false} ChainPlain(c: char)
    requires c != '&' && c != '<' && c != '>' && c != '"'
    ensures Chain([c]) == [c]
  {
    ReplaceOne(c, '&', AmpRef);
    ReplaceOne(c, '<', LtRef);
    ReplaceOne(c, '>', GtRef);
    ReplaceOne(c, '"', QuotRef);
  }


  /** Replacing `&` first, then `<`, `>` and `"`, escapes each character exactly once. */
  lemma {:induction false} ChainEscapes(s: string)
    ensures Chain(s) == EscapeAll(s)
  {
    if s != [] {
      assert s == [s[0]] + s[1..];
      ChainAppend([s[0]], s[1..]);
      ChainChar(s[0]);
      ChainEscapes(s[1..]);
    }
  }

  /** `escapeHtml`: `String(s || "")` with `&`, `<`, `>` and `"` replaced by entities, in that order. */
  function EscapeHtml(s: Option<string>): (r: string)
    ensures s.None? ==> r == ""
    ensures s.Some? ==> r == EscapeAll(s.value)
    ensures '<' !in r && '>' !in r && '"' !in r
  {
    var t := s.GetOr("");
    ChainEscapes(t);
    Chain(t)
  }

  /** Reads the four entities back. */
  function Unescape(s: string): string
    decreases |s|
  {
    if s == [] then []
    else if StartsWith(s, AmpRef) then "&" + Unescape(s[5..])
    else if StartsWith(s, LtRef) then "<" + Unescape(s[4..])
    else if StartsWith(s, GtRef) then ">" + Unescape(s[4..])
    else if StartsWith(s, QuotRef) then "\"" + Unescape(s[6..])
    else [s[0]] + Unescape(s[1..])
  }

  lemma {:induction false} UnescapeAmp(rest: string)
    ensures Unescape(AmpRef + rest) == "&" + Unescape(rest)
  {
    var t := AmpRef + rest;
    assert t[..5] == AmpRef && t[5..] == rest;
  }

  lemma {:induction false} UnescapeLt(rest: string)
    ensures Unescape(LtRef + rest) == "<" + Unescape(rest)
  {
    var t := LtRef + rest;
    assert t[1] == 'l';
    assert t[..4] == LtRef && t[4..] == rest;
  }

  lemma {:induction false} UnescapeGt(rest: string)
    ensures Unescape(GtRef + rest) == ">" + Unescape(rest)
  {
    var t := GtRef + rest;
    assert t[1] == 'g';
    assert t[..4] == GtRef && t[4..] == rest;
  }

  lemma {:induction false} UnescapeQuot(rest: string)
    ensures Unescape(QuotRef + rest) == "\"" + Unescape(rest)
  {
    var t := QuotRef + rest;
    assert t[1] == 'q';
    assert t[..6] == QuotRef && t[6..] == rest;
  }

  lemma {:induction false} UnescapePlain(c: char, rest: string)
    requires c != '&'
    ensures Unescape([c] + rest) == [c] + Unescape(rest)
  {
    var t := [c] + rest;
    assert t[0] == c && t[1..] == rest;
  }

  /** One escaped character followed by anything reads back as that character. */
  lemma {:induction false} UnescapeStep(c: char, rest: string)
    ensures Unescape(EscapeChar(c) + rest) == [c] + Unescape(rest)
  {
    if c == '&' {
      UnescapeAmp(rest);
    } else if c == '<' {
      UnescapeLt(rest);
    } else if c == '>' {
      UnescapeGt(rest);
    } else if c == '"' {
      UnescapeQuot(rest);
    } else {
      UnescapePlain(c, rest);
    }
  }

  /** Escaping loses nothing: the text reads back unchanged. */
  lemma {:induction false} EscapeRoundTrip(s: string)
    ensures Unescape(EscapeAll(s)) == s
  {
    if s != [] {
      UnescapeStep(s[0], EscapeAll(s[1..]));
      EscapeRoundTrip(s[1..]);
      assert s == [s[0]] + s[1..];
    }
  }

  // ---------------------------------------------------------------- extractQty

  /** `/Qty\s*:\s*(\d+)/i` at the start of `t`: the digits it captures. */
  function QtyMatch(t: string): (r: Option<string>)
    ensures r.Some? ==> r.value != [] && AllDigits(r.value)
  {
    if !StartsWithCI(t, "qty") then None
    else
      var u := TrimStart(t[3..]);
      if u == [] || u[0] != ':' then None
      else
        var d := TakeWhile(TrimStart(u[1..]), IsDigit);
        if d == [] then None else Some(d)
  }

  /** `extractQty`: the number after the first `Qty:` label, or 1 when there is none. */
  function ExtractQty(txt: string): (q: nat)
    ensures Leftmost(txt, QtyMatch).None? ==> q == 1
    ensures Leftmost(txt, QtyMatch).Some? ==> q == DigitsValue(Leftmost(txt, QtyMatch).value)
  {
    match Leftmost(txt, QtyMatch)
    case Some(d) => DigitsValue(d)
    case None => 1
  }

  /** A `Qty: ` label followed by a printed number is a match capturing that number. */
  lemma {:induction false} QtyMatchOfLabel(n: nat)
    ensures QtyMatch("Qty: " + Show(n)) == Some(Show(n))
  {
    QtyMatchOfDigits(Show(n));
  }

  /** The label `Qty: d` matches with its digits. */
  lemma {:induction false} QtyMatchOfDigits(d: string)
    requires d != [] && AllDigits(d)
    ensures QtyMatch("Qty: " + d) == Some(d)
  {
    QtyHead(d);
    QtyTail(d);
    TakeWhileAll(d, IsDigit);
  }

  lemma {:induction false} QtyHead(d: string)
    ensures StartsWithCI("Qty: " + d, "qty") && ("Qty: " + d)[3..] == ": " + d
  {
    var s := "Qty: " + d;
    assert s[..3] == "Qty";
    assert Lower("Qty") == "qty";
  }

  lemma {:induction false} QtyTail(d: string)
    requires d != [] && !IsSpace(d[0])
    ensures TrimStart(": " + d) == ": " + d && TrimStart((": " + d)[1..]) == d
  {
    var u := ": " + d;
    TrimStartNoSpace(u);
    assert u[1..] == [' '] + d;
    TrimStartSpace(' ', d);
    TrimStartNoSpace(d);
  }


  /** A quantity printed behind a `Qty: ` label is read back. */
  lemma {:induction false} QtyOfLabel(n: nat)
    ensures ExtractQty("Qty: " + Show(n)) == n
  {
    QtyMatchOfLabel(n);
    ShowRoundTrip(n);
  }

  /** A string all of whose characters satisfy `p` is its own longest such prefix. */
  lemma {:induction false} TakeWhileAll(s: string, p: char -> bool)
    requires forall k | 0 <= k < |s| :: p(s[k])
    ensures TakeWhile(s, p) == s
  {
    if s != [] {
      TakeWhileAll(s[1..], p);
      assert [s[0]] + s[1..] == s;
    }
  }

  /** Text without a `qty` label in any letter case gives quantity 1. */
  lemma {:induction false} NoLabelQtyOne(txt: string)
    requires !ContainsCI(txt, "qty")
    ensures ExtractQty(txt) == 1
  {
    NotContainedNowhere(txt, "qty");
    LeftmostFirst(txt, QtyMatch);
  }

  lemma {:induction false} NotContainedNowhere(s: string, p: string)
    requires !ContainsCI(s, p)
    ensures forall i | 0 <= i <= |s| :: !StartsWithCI(s[i..], p)
    decreases |s|
  {
    assert s[0..] == s;
    if s != [] {
      NotContainedNowhere(s[1..], p);
      assert forall i | 1 <= i <= |s| :: s[1..][i - 1..] == s[i..];
    }
  }

  // ---------------------------------------------------------------- extractLineTotal

  /** `/Total\s*:\s*(.*)$/i` at the start of `t`: the rest of the text, which must hold no line break. */
  function TotalMatch(t: string): (r: Option<string>)
    ensures r.Some? ==> forall k | 0 <= k < |r.value| :: !IsLineTerminator(r.value[k])
  {
    if !StartsWithCI(t, "total") then None
    else
      var u := TrimStart(t[5..]);
      if u == [] || u[0] != ':' then None
      else
        var v := TrimStart(u[1..]);
        if exists k | 0 <= k < |v| :: IsLineTerminator(v[k]) then None else Some(v)
  }

  /** `extractLineTotal`: `moneyKeepDollar` of what follows `Total:`, or of the whole text without that label. */
  function ExtractLineTotal(txt: string): (r: string)
    ensures Leftmost(txt, TotalMatch).Some? ==> r == MoneyKeepDollar(Leftmost(txt, TotalMatch).value)
    ensures Leftmost(txt, TotalMatch).None? ==> r == MoneyKeepDollar(txt)
    ensures r == "" || '$' in r
  {
    match Leftmost(txt, TotalMatch)
    case Some(v) => MoneyKeepDollar(v)
    case None => MoneyKeepDollar(txt)
  }

  /** A `Total: ` label followed by a one-line amount is a match capturing that amount. */
  lemma {:induction false} TotalMatchOfLabel(v: string)
    requires v == [] || !IsSpace(v[0])
    requires forall k | 0 <= k < |v| :: !IsLineTerminator(v[k])
    ensures TotalMatch("Total: " + v) == Some(v)
  {
    var s := "Total: " + v;
    assert s[..5] == "Total";
    assert Lower("Total") == "total";
    var u := s[5..];
    assert u == ": " + v;
    TrimStartNoSpace(u);
    assert u[1..] == [' '] + v;
    TrimStartSpace(' ', v);
    TrimStartNoSpace(v);
  }

  /** The amount behind a `Total: ` label is what is formatted. */
  lemma {:induction false} TotalOfLabel(v: string)
    requires v == [] || !IsSpace(v[0])
    requires forall k | 0 <= k < |v| :: !IsLineTerminator(v[k])
    ensures ExtractLineTotal("Total: " + v) == MoneyKeepDollar(v)
  {
    TotalMatchOfLabel(v);
  }

  // ---------------------------------------------------------------- parseInt

  /** `parseInt(s, 10)`: optional leading whitespace and sign, then the leading digits; `None` for NaN. */
  function ParseInt(s: string): (r: Option<int>)
    ensures r.Some? ==> TakeWhile(TrimStart(s), IsDigit) != [] || |TrimStart(s)| >= 1
  {
    var t := TrimStart(s);
    var neg := t != [] && t[0] == '-';
    var body := if t != [] && (t[0] == '-' || t[0] == '+') then t[1..] else t;
    var d := TakeWhile(body, IsDigit);
    if d == [] then None
    else if neg then Some(-(DigitsValue(d) as int))
    else Some(DigitsValue(d) as int)
  }

  /** A printed number parses back to itself. */
  lemma {:induction false} ParseIntRoundTrip(n: nat)
    ensures ParseInt(Show(n)) == Some(n)
  {
    var s := Show(n);
    assert !IsSpace(s[0]) && s[0] != '-' && s[0] != '+';
    assert TrimStart(s) == s;
    TakeWhileAll(s, IsDigit);
    ShowRoundTrip(n);
  }
}
