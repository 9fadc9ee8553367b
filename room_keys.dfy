/**
 * Identity keys of assets/assign-to-rooms.js: the `norm` normaliser, the
 * storage scope and storage key, and the `linekey:` / `sku:` / `title:`
 * key schemes under which a room note is cached.
 */
module RoomKeys {
  import opened Text
  import opened Wrappers

  // ---------------------------------------------------------------- norm

  /** Replaces every maximal run of whitespace with one space (`replace(/\s+/g, " ")`). */
  function Collapse(s: string): (r: string)
    ensures |r| <= |s|
    decreases |s|
  {
    if s == [] then []
    else if IsSpace(s[0]) then [' '] + Collapse(TrimStart(s[1..]))
    else [s[0]] + Collapse(s[1..])
  }

  /**
   * A collapsed string is single-spaced; it starts with a space exactly when
   * the original starts with whitespace, and is empty only when the original is.
   */
  lemma {:induction false} CollapseShape(s: string)
    ensures SingleSpaced(Collapse(s))
    ensures (Collapse(s) != [] && Collapse(s)[0] == ' ') <==> (s != [] && IsSpace(s[0]))
    ensures Collapse(s) == [] <==> s == []
    decreases |s|
  {
    if s != [] {
      var t := if IsSpace(s[0]) then TrimStart(s[1..]) else s[1..];
      CollapseShape(t);
      var c := Collapse(t);
      var head := if IsSpace(s[0]) then ' ' else s[0];
      assert Collapse(s) == [head] + c;
      SingleSpacedCons(head, c, IsSpace(s[0]));
    }
  }

  /** Putting a character in front of a single-spaced string keeps it single-spaced, unless it doubles a space. */
  lemma {:induction false} SingleSpacedCons(head: char, c: string, space: bool)
    requires SingleSpaced(c)
    requires space ==> head == ' ' && (c == [] || c[0] != ' ')
    requires !space ==> !IsSpace(head)
    ensures SingleSpaced([head] + c)
  {
    var r := [head] + c;
    assert forall i | 1 <= i < |r| :: r[i] == c[i - 1];
  }

  /** `norm`: collapse whitespace runs, trim, lower-case. */
  function Norm(s: string): string
  {
    Lower(Trim(Collapse(s)))
  }

  /** The only whitespace is the plain space, never two in a row. */
  predicate SingleSpaced(t: string) {
    && (forall i | 0 <= i < |t| :: IsSpace(t[i]) ==> t[i] == ' ')
    && (forall i | 0 <= i < |t| - 1 :: !(t[i] == ' ' && t[i + 1] == ' '))
  }

  /** What `norm` produces: single inner spaces only, no space at either end, no upper-case letter. */
  predicate Normal(t: string) {
    && SingleSpaced(t)
    && (t == [] || (t[0] != ' ' && t[|t| - 1] != ' '))
    && (forall i | 0 <= i < |t| :: !IsUpper(t[i]))
  }

  /** Trimming a collapsed string keeps it collapsed. */
  lemma {:induction false} TrimKeepsCollapsed(c: string)
    requires SingleSpaced(c)
    ensures SingleSpaced(Trim(c))
  {
    var a := TrimStart(c);
    SingleSpacedSlice(c, |c| - |a|, |c|);
    SingleSpacedSlice(a, 0, |TrimEnd(a)|);
  }

  /** Any piece of a single-spaced string is single-spaced. */
  lemma {:induction false} SingleSpacedSlice(c: string, lo: nat, hi: nat)
    requires SingleSpaced(c) && lo <= hi <= |c|
    ensures SingleSpaced(c[lo..hi])
  {
    var t := c[lo..hi];
    assert forall i | 0 <= i < |t| :: t[i] == c[lo + i];
  }

  lemma {:induction false} LowerCharSpace(c: char)
    ensures IsSpace(LowerChar(c)) <==> IsSpace(c)
    ensures LowerChar(c) == ' ' <==> c == ' '
  {
  }

  /** Lower-casing keeps every space where it was. */
  lemma {:induction false} LowerKeepsSpaces(t: string)
    ensures forall i | 0 <= i < |t| :: IsSpace(Lower(t)[i]) <==> IsSpace(t[i])
    ensures forall i | 0 <= i < |t| :: Lower(t)[i] == ' ' <==> t[i] == ' '
  {
    forall i | 0 <= i < |t|
      ensures IsSpace(Lower(t)[i]) <==> IsSpace(t[i])
      ensures Lower(t)[i] == ' ' <==> t[i] == ' '
    {
      LowerCharSpace(t[i]);
    }
  }

  /** The result of `norm` has no leading, trailing or doubled space and no other whitespace. */
  lemma {:induction false} NormIsNormal(s: string)
    ensures Normal(Norm(s))
  {
    var c := Collapse(s);
    CollapseShape(s);
    TrimKeepsCollapsed(c);
    var t := Trim(c);
    LowerOfTrimmed(t);
    assert Norm(s) == Lower(t);
  }

  lemma {:induction false} LowerOfTrimmed(t: string)
    requires SingleSpaced(t)
    requires t == [] || (!IsSpace(t[0]) && !IsSpace(t[|t| - 1]))
    ensures Normal(Lower(t))
  {
    LowerKeepsSpaces(t);
  }

  lemma {:induction false} CollapseOfCollapsed(t: string)
    requires SingleSpaced(t)
    ensures Collapse(t) == t
  {
    if t != [] {
      if IsSpace(t[0]) {
        assert t[1..] == [] || !IsSpace(t[1]);
        assert TrimStart(t[1..]) == t[1..];
      }
      CollapseOfCollapsed(t[1..]);
      assert [t[0]] + t[1..] == t;
    }
  }

  /** A normal string is left as it is by `norm`. */
  lemma {:induction false} NormOfNormal(t: string)
    requires Normal(t)
    ensures Norm(t) == t
  {
    CollapseOfCollapsed(t);
    assert t == [] || (!IsSpace(t[0]) && !IsSpace(t[|t| - 1]));
    TrimOfTrimmed(t);
  }

  /** `norm(norm(s)) == norm(s)`. */
  lemma {:induction false} NormIdempotent(s: string)
    ensures Norm(Norm(s)) == Norm(s)
  {
    NormIsNormal(s);
    NormOfNormal(Norm(s));
  }

  // ---------------------------------------------------------------- scope and storage key

  const StorePrefix: string := "cp_assign_to_room__"

  /** The storage scope: the `cartId` parameter, else the injected cart token, else `"cart"`. */
  function Scope(cartId: string, cartToken: string): (r: string)
    ensures r != []
    ensures cartId != [] ==> r == cartId
    ensures cartId == [] && cartToken != [] ==> r == cartToken
    ensures cartId == [] && cartToken == [] ==> r == "cart"
  {
    if cartId != [] then cartId else if cartToken != [] then cartToken else "cart"
  }

  /** `STORE_KEY`: one local-storage entry per scope. */
  function StoreKey(scope: string): (k: string)
    ensures StartsWith(k, StorePrefix) && k[|StorePrefix|..] == scope
  {
    StorePrefix + scope
  }

  /** Different scopes never share a storage entry. */
  lemma {:induction false} StoreKeyInjective(a: string, b: string)
    requires StoreKey(a) == StoreKey(b)
    ensures a == b
  {
    assert a == StoreKey(a)[|StorePrefix|..];
  }

  // ---------------------------------------------------------------- key schemes

  const TitleCap: nat := 120

  function LineKey(key: string): string { "linekey:" + key }

  function SkuKey(sku: string): string { "sku:" + Norm(sku) }

  function TitleKey(title: string): string { "title:" + Take(Norm(title), TitleCap) }

  /** Keys of different schemes never collide, whatever the raw values. */
  lemma {:induction false} SchemesDisjoint(a: string, b: string, c: string)
    ensures LineKey(a) != SkuKey(b) && LineKey(a) != TitleKey(c) && SkuKey(b) != TitleKey(c)
  {
    assert LineKey(a)[0] == 'l' && SkuKey(b)[0] == 's' && TitleKey(c)[0] == 't';
  }

  // ---------------------------------------------------------------- SKU labels

  /** `[A-Za-z0-9._-]`. */
  predicate IsSkuChar(c: char) {
    IsWordChar(c) || c == '.' || c == '-'
  }

  /** The token the pattern `SKU:\s*([A-Za-z0-9._-]+)` captures at the very start of `t`, or `""`. */
  function SkuAt(t: string): (r: string)
    ensures r == [] || StartsWith(t, "SKU:")
    ensures forall i | 0 <= i < |r| :: IsSkuChar(r[i])
  {
    if StartsWith(t, "SKU:") then TakeWhile(TrimStart(t[4..]), IsSkuChar) else ""
  }

  /** The pattern matched at the very start of `t`, with its capture. */
  function SkuMatch(t: string): (r: Option<string>)
    ensures r.Some? <==> SkuAt(t) != []
    ensures r.Some? ==> r.value == SkuAt(t)
  {
    if SkuAt(t) != [] then Some(SkuAt(t)) else None
  }

  /** The first capture of `/SKU:\s*([A-Za-z0-9._-]+)/` in `t`, or `""` when the pattern does not match. */
  function FindSku(t: string): (r: string)
    ensures forall i | 0 <= i < |r| :: IsSkuChar(r[i])
  {
    match Leftmost(t, SkuMatch)
    case Some(sku) => sku
    case None => ""
  }

  /**
   * The SKU found is the capture at the first position where the pattern
   * matches, and none is found exactly when it matches nowhere.
   */
  lemma {:induction false} FindSkuFirst(t: string)
    ensures FindSku(t) != "" ==> exists i | 0 <= i <= |t| ::
      SkuAt(t[i..]) == FindSku(t) && forall k | 0 <= k < i :: SkuAt(t[k..]) == ""
    ensures FindSku(t) == "" <==> forall i | 0 <= i <= |t| :: SkuAt(t[i..]) == ""
  {
    LeftmostFirst(t, SkuMatch);
    var r := Leftmost(t, SkuMatch);
    if r.Some? {
      var i :| 0 <= i <= |t| && SkuMatch(t[i..]) == r && forall k | 0 <= k < i :: SkuMatch(t[k..]).None?;
      assert SkuAt(t[i..]) == FindSku(t);
    }
  }

  /** A label after text in which no position matches is the one found: `Item SKU: EP123` gives `EP123`. */
  lemma {:induction false} FindSkuAfter(pre: string, t: string)
    requires SkuAt(t) != []
    requires forall i | 0 <= i < |pre| :: SkuAt((pre + t)[i..]) == []
    ensures FindSku(pre + t) == SkuAt(t)
  {
    LeftmostAfter(pre, t, SkuMatch);
  }

  /** Text in which `SKU:` does not occur yields no SKU. */
  lemma {:induction false} FindSkuNeedsLabel(t: string)
    requires !ContainsLabel(t)
    ensures FindSku(t) == ""
  {
    LabelNowhere(t);
    FindSkuFirst(t);
  }

  lemma {:induction false} LabelNowhere(t: string)
    requires !ContainsLabel(t)
    ensures forall i | 0 <= i <= |t| :: !StartsWith(t[i..], "SKU:")
    decreases |t|
  {
    assert t[0..] == t;
    if t != [] {
      LabelNowhere(t[1..]);
      assert forall i | 1 <= i <= |t| :: t[i..] == t[1..][i - 1..];
    }
  }

  /** A label `SKU:` + spaces + token, followed by a non-token character, yields that token. */
  lemma {:induction false} SkuOfLabel(spaces: string, token: string, rest: string)
    requires forall i | 0 <= i < |spaces| :: IsSpace(spaces[i])
    requires token != [] && forall i | 0 <= i < |token| :: IsSkuChar(token[i])
    requires rest == [] || !IsSkuChar(rest[0])
    ensures FindSku("SKU:" + spaces + token + rest) == token
  {
    SkuAtOfLabel(spaces, token, rest);
    FindSkuAt("SKU:" + spaces + token + rest);
  }

  /** The pattern matched at a label captures the token after it. */
  lemma {:induction false} SkuAtOfLabel(spaces: string, token: string, rest: string)
    requires forall i | 0 <= i < |spaces| :: IsSpace(spaces[i])
    requires token != [] && forall i | 0 <= i < |token| :: IsSkuChar(token[i])
    requires rest == [] || !IsSkuChar(rest[0])
    ensures SkuAt("SKU:" + spaces + token + rest) == token
  {
    var u := spaces + (token + rest);
    assert "SKU:" + u == "SKU:" + spaces + token + rest;
    SkuAtLabel(u);
    SkuCharNotSpace(token[0]);
    assert (token + rest)[0] == token[0];
    TrimStartOfSpaces(spaces, token + rest);
    TakeWhileOfRun(token, rest);
  }

  /** A label after text without an `S` (such as `Item `) is found: only a position holding `S` can start a match. */
  lemma {:induction false} SkuOfLabelAfter(pre: string, spaces: string, token: string, rest: string)
    requires forall i | 0 <= i < |pre| :: pre[i] != 'S'
    requires forall i | 0 <= i < |spaces| :: IsSpace(spaces[i])
    requires token != [] && forall i | 0 <= i < |token| :: IsSkuChar(token[i])
    requires rest == [] || !IsSkuChar(rest[0])
    ensures FindSku(pre + ("SKU:" + spaces + token + rest)) == token
  {
    SkuAtOfLabel(spaces, token, rest);
    FindSkuAfterPlain(pre, "SKU:" + spaces + token + rest);
  }

  lemma {:induction false} FindSkuAfterPlain(pre: string, t: string)
    requires forall i | 0 <= i < |pre| :: pre[i] != 'S'
    requires SkuAt(t) != []
    ensures FindSku(pre + t) == SkuAt(t)
  {
    forall i | 0 <= i < |pre| ensures SkuAt((pre + t)[i..]) == [] {
      NoLabelAt((pre + t)[i..]);
    }
    FindSkuAfter(pre, t);
  }

  lemma {:induction false} NoLabelAt(u: string)
    requires u == [] || u[0] != 'S'
    ensures SkuAt(u) == []
  {
    if |u| >= 4 {
      assert u[..4][0] != "SKU:"[0];
    }
  }



  lemma {:induction false} SkuCharNotSpace(c: char)
    requires IsSkuChar(c)
    ensures !IsSpace(c)
  {
  }

  lemma {:induction false} FindSkuAt(t: string)
    requires SkuAt(t) != []
    ensures FindSku(t) == SkuAt(t)
  {
  }

  lemma {:induction false} SkuAtLabel(u: string)
    ensures SkuAt("SKU:" + u) == TakeWhile(TrimStart(u), IsSkuChar)
  {
    var t := "SKU:" + u;
    assert t[..4] == "SKU:" && t[4..] == u;
  }

  lemma {:induction false} TrimStartOfSpaces(spaces: string, s: string)
    requires forall i | 0 <= i < |spaces| :: IsSpace(spaces[i])
    requires s == [] || !IsSpace(s[0])
    ensures TrimStart(spaces + s) == s
  {
    if spaces != [] {
      assert (spaces + s)[1..] == spaces[1..] + s;
      TrimStartOfSpaces(spaces[1..], s);
    }
  }

  lemma {:induction false} TakeWhileOfRun(token: string, rest: string)
    requires forall i | 0 <= i < |token| :: IsSkuChar(token[i])
    requires rest == [] || !IsSkuChar(rest[0])
    ensures TakeWhile(token + rest, IsSkuChar) == token
  {
    if token != [] {
      assert (token + rest)[1..] == token[1..] + rest;
      TakeWhileOfRun(token[1..], rest);
    }
  }

  // ---------------------------------------------------------------- saved-cart rows

  /**
   * What `buildSavedItemKey` reads from a saved-cart row: the text of each
   * element of the row in document order, the text of its first link, of its
   * first heading-like element, and of the whole row.
   */
  datatype SavedRow = SavedRow(
    elementTexts: seq<string>,
    linkText: Option<string>,
    headingText: Option<string>,
    rowText: string)

  /** The first element text containing `SKU:` (the `find` over all descendants). */
  function FirstSkuText(texts: seq<string>): (r: Option<string>)
    ensures r.Some? ==> r.value in texts && ContainsLabel(r.value)
    ensures r.None? <==> forall t | t in texts :: !ContainsLabel(t)
  {
    if texts == [] then None
    else if ContainsLabel(texts[0]) then Some(texts[0])
    else
      assert forall t | t in texts :: t == texts[0] || t in texts[1..];
      FirstSkuText(texts[1..])
  }

  /** The element text chosen is the first one containing `SKU:`: no earlier one contains it. */
  lemma {:induction false} FirstSkuTextFirst(texts: seq<string>)
    ensures FirstSkuText(texts).Some? ==> exists i | 0 <= i < |texts| ::
      texts[i] == FirstSkuText(texts).value && forall k | 0 <= k < i :: !ContainsLabel(texts[k])
  {
    if texts != [] && !ContainsLabel(texts[0]) {
      var r := FirstSkuText(texts[1..]);
      FirstSkuTextFirst(texts[1..]);
      if r.Some? {
        var i :| 0 <= i < |texts| - 1 && texts[1..][i] == r.value && forall k | 0 <= k < i :: !ContainsLabel(texts[1..][k]);
        assert texts[i + 1] == r.value;
        forall k | 0 <= k < i + 1 ensures !ContainsLabel(texts[k]) {
          if k > 0 {
            assert texts[k] == texts[1..][k - 1];
          }
        }
      }
    }
  }

  predicate ContainsLabel(t: string)
    decreases |t|
  {
    StartsWith(t, "SKU:") || (t != [] && ContainsLabel(t[1..]))
  }

  /** The SKU the row shows, or `""`: only the first element mentioning `SKU:` is searched. */
  function RowSku(row: SavedRow): string
  {
    match FirstSkuText(row.elementTexts)
    case None => ""
    case Some(t) => FindSku(t)
  }

  /** The title the row shows: its first link, else its first heading, else the whole row. */
  function RowTitle(row: SavedRow): string
  {
    match row.linkText
    case Some(t) => t
    case None => match row.headingText
      case Some(h) => h
      case None => row.rowText
  }

  /** `buildSavedItemKey`: the SKU key when a SKU was found, else the capped title key. */
  function BuildSavedItemKey(row: SavedRow): (k: string)
    ensures RowSku(row) != [] ==> k == SkuKey(RowSku(row))
    ensures RowSku(row) == [] ==> k == TitleKey(RowTitle(row))
    ensures StartsWith(k, "sku:") || (StartsWith(k, "title:") && |k| <= |"title:"| + TitleCap)
  {
    if RowSku(row) != [] then SkuKey(RowSku(row)) else TitleKey(RowTitle(row))
  }
}
