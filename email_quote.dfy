/**
 * The saved-cart page helpers of assets/send-qoute.js: first-match lookup
 * over a list of selectors, the items read from the cart rows, and the
 * plain-text body of the quote e-mail.
 */
module EmailQuote {
  import opened Text
  import opened Wrappers

  // ---------------------------------------------------------------- selector lists

  const ItemRowSelectors: seq<string> :=
    [".cart-items .cart-item", ".CartItems .CartItem", "table tbody tr", ".cart-item", "[data-cart-item]"]
  const TitleSelectors: seq<string> :=
    [".cart-item__name", ".product-title", "a[href*='/products/']", "td:nth-child(2)", "[data-title]"]
  const QtySelectors: seq<string> := [".cart-item__quantity input", "input[name*='quantity']", "[data-qty]"]
  const PriceSelectors: seq<string> := [".cart-item__price", ".price", "[data-price]", "td:nth-child(4)"]
  const LineTotalSelectors: seq<string> := [".cart-item__total", ".line-total", "[data-line-total]", "td:nth-child(5)"]
  const GrandTotalSelectors: seq<string> := [".totals__total-value", ".cart-total", "[data-cart-total]", "strong"]

  // ---------------------------------------------------------------- $ and $all

  /**
   * The element `$` finds: the answer of the first selector that finds one.
   * `query` stands for `root.querySelector`.
   */
  function FirstMatch<E>(selectors: seq<string>, query: string -> Option<E>): (r: Option<E>)
    ensures r.None? <==> forall i | 0 <= i < |selectors| :: query(selectors[i]).None?
    ensures r.Some? ==> exists i | 0 <= i < |selectors| ::
      query(selectors[i]) == r && forall j | 0 <= j < i :: query(selectors[j]).None?
  {
    if selectors == [] then None
    else if query(selectors[0]).Some? then query(selectors[0])
    else
      var r := FirstMatch(selectors[1..], query);
      assert forall i | 1 <= i < |selectors| :: selectors[1..][i - 1] == selectors[i];
      r
  }

  /** When the selectors before `i` find nothing and selector `i` finds an element, that is the element. */
  lemma {:induction false} FirstMatchAt<E>(selectors: seq<string>, query: string -> Option<E>, i: nat)
    requires i < |selectors| && query(selectors[i]).Some?
    requires forall j | 0 <= j < i :: query(selectors[j]).None?
    ensures FirstMatch(selectors, query) == query(selectors[i])
  {
    if i > 0 {
      assert forall j | 0 <= j < i - 1 :: selectors[1..][j] == selectors[j + 1];
      FirstMatchAt(selectors[1..], query, i - 1);
    }
  }

  /** `$`: tries the selectors in order and returns the first element found, or `null`. */
  method Select<E>(selectors: seq<string>, query: string -> Option<E>) returns (el: Option<E>)
    ensures el == FirstMatch(selectors, query)
  {
    for i := 0 to |selectors|
      invariant forall j | 0 <= j < i :: query(selectors[j]).None?
    {
      var found := query(selectors[i]);
      if found.Some? {
        FirstMatchAt(selectors, query, i);
        return found;
      }
    }
    return None;
  }

  /**
   * The elements `$all` returns: those of the first selector that matches
   * any, or none. `queryAll` stands for `root.querySelectorAll`.
   */
  function FirstNonEmpty<E>(selectors: seq<string>, queryAll: string -> seq<E>): (r: seq<E>)
    ensures r == [] <==> forall i | 0 <= i < |selectors| :: queryAll(selectors[i]) == []
    ensures r != [] ==> exists i | 0 <= i < |selectors| ::
      queryAll(selectors[i]) == r && forall j | 0 <= j < i :: queryAll(selectors[j]) == []
  {
    if selectors == [] then []
    else if queryAll(selectors[0]) != [] then queryAll(selectors[0])
    else
      var r := FirstNonEmpty(selectors[1..], queryAll);
      assert forall i | 1 <= i < |selectors| :: selectors[1..][i - 1] == selectors[i];
      r
  }

  lemma {:induction false} FirstNonEmptyAt<E>(selectors: seq<string>, queryAll: string -> seq<E>, i: nat)
    requires i < |selectors| && queryAll(selectors[i]) != []
    requires forall j | 0 <= j < i :: queryAll(selectors[j]) == []
    ensures FirstNonEmpty(selectors, queryAll) == queryAll(selectors[i])
  {
    if i > 0 {
      assert forall j | 0 <= j < i - 1 :: selectors[1..][j] == selectors[j + 1];
      FirstNonEmptyAt(selectors[1..], queryAll, i - 1);
    }
  }

  /** `$all`: the matches of the first selector that has any, else an empty list. */
  method SelectAll<E>(selectors: seq<string>, queryAll: string -> seq<E>) returns (els: seq<E>)
    ensures els == FirstNonEmpty(selectors, queryAll)
  {
    for i := 0 to |selectors|
      invariant forall j | 0 <= j < i :: queryAll(selectors[j]) == []
    {
      var found := queryAll(selectors[i]);
      if found != [] {
        FirstNonEmptyAt(selectors, queryAll, i);
        return found;
      }
    }
    return [];
  }

  // ---------------------------------------------------------------- text helpers

  /** `cleanMoney`: keep only digits, `.`, `,` and `-` (and trim, which then has nothing to remove). */
  function CleanMoney(s: string): (r: string)
    ensures forall i | 0 <= i < |r| :: IsMoneyChar(r[i])
    ensures r == KeepMoney(s)
  {
    var k := KeepMoney(s);
    assert k == [] || (!IsSpace(k[0]) && !IsSpace(k[|k| - 1]));
    TrimOfTrimmed(k);
    Trim(k)
  }

  /** Cleaning cleaned money changes nothing. */
  lemma {:induction false} CleanMoneyIdempotent(s: string)
    ensures CleanMoney(CleanMoney(s)) == CleanMoney(s)
  {
  }

  /** `"Saved Cart"`, which trimming leaves as it is. */
  function DefaultCartName(): (r: string)
    ensures r == "Saved Cart" && Trim(r) == r
  {
    var s := "Saved Cart";
    assert s[0] == 'S' && s[|s| - 1] == 't';
    TrimOfTrimmed(s);
    s
  }

  /** `getCartName`: the page heading, else the document title, else `"Saved Cart"`, trimmed. */
  function CartName(heading: Option<string>, documentTitle: string): (r: string)
    ensures heading.Some? ==> r == Trim(heading.value)
    ensures heading.None? && documentTitle != "" ==> r == Trim(documentTitle)
    ensures heading.None? && documentTitle == "" ==> r == "Saved Cart"
  {
    match heading
    case Some(h) => Trim(h)
    case None => if documentTitle != "" then Trim(documentTitle) else DefaultCartName()
  }

  // ---------------------------------------------------------------- items

  /** One item of the quote as `parseItemsFromDOM` records it. */
  datatype EmailItem = EmailItem(title: string, quantity: string, price: string, lineTotal: string)

  /**
   * The quantity as recorded: the digits of the text when it has any, the
   * text itself when it has none, and `"1"` when it is empty.
   */
  function NormalizeQty(qty: string): (r: string)
    ensures r != ""
    ensures KeepDigits(qty) != "" ==> r == KeepDigits(qty) && AllDigits(r)
    ensures KeepDigits(qty) == "" && qty != "" ==> r == qty
    ensures qty == "" ==> r == "1"
  {
    var digits := KeepDigits(qty);
    var q := if digits != "" then digits else qty;
    if q != "" then q else "1"
  }

  /** A recorded quantity is recorded unchanged when read again. */
  lemma {:induction false} NormalizeQtyIdempotent(qty: string)
    ensures NormalizeQty(NormalizeQty(qty)) == NormalizeQty(qty)
  {
    var r := NormalizeQty(qty);
    if KeepDigits(qty) != "" {
      assert KeepDigits(r) == r;
    } else if qty == "" {
      assert KeepDigits("1") == "1";
    }
  }

  /** A `Qty: n` label is recorded as the number `n`. */
  lemma {:induction false} NormalizeQtyOfLabel(n: nat)
    ensures NormalizeQty("Qty: " + Show(n)) == Show(n)
  {
    KeepDigitsAppend("Qty: ", Show(n));
    assert KeepDigits("Qty: ") == "";
    assert "" + Show(n) == Show(n);
  }

  /** The query of a selector inside one row (`row.querySelector`, read as the element's text). */
  function InRow<R>(row: R, field: (R, string) -> Option<string>): string -> Option<string> {
    sel => field(row, sel)
  }

  /** The trimmed text of the first element of the row found by the selector list. */
  function RowText<R>(row: R, selectors: seq<string>, field: (R, string) -> Option<string>): string {
    ElementText(FirstMatch(selectors, InRow(row, field)))
  }

  /** A title the quote skips: empty, or naming a button ("add to cart", "remove", in any letter case). */
  predicate SkippedTitle(title: string) {
    title == "" || ContainsCI(title, "add to cart") || ContainsCI(title, "remove")
  }

  /** The item a row contributes, or none when its title is skipped. */
  function RowItem<R>(row: R, field: (R, string) -> Option<string>): (r: Option<EmailItem>)
    ensures r.None? <==> SkippedTitle(RowText(row, TitleSelectors, field))
    ensures r.Some? ==> (
      && r.value.title == RowText(row, TitleSelectors, field)
      && r.value.quantity == NormalizeQty(RowText(row, QtySelectors, field))
      && r.value.price == CleanMoney(RowText(row, PriceSelectors, field))
      && r.value.lineTotal == CleanMoney(RowText(row, LineTotalSelectors, field)))
  {
    var title := RowText(row, TitleSelectors, field);
    if SkippedTitle(title) then None
    else
      Some(EmailItem(
        title,
        NormalizeQty(RowText(row, QtySelectors, field)),
        CleanMoney(RowText(row, PriceSelectors, field)),
        CleanMoney(RowText(row, LineTotalSelectors, field))))
  }

  /** How each row is read. */
  function RowReader<R>(field: (R, string) -> Option<string>): R -> Option<EmailItem> {
    row => RowItem(row, field)
  }

  /** The items of the rows, in row order, each row read by `read`, the rows it refuses left out. */
  function Collect<R>(rows: seq<R>, read: R -> Option<EmailItem>): seq<EmailItem> {
    if rows == [] then []
    else Collect(rows[..|rows| - 1], read) + Emit(read(rows[|rows| - 1]))
  }

  function Emit(o: Option<EmailItem>): seq<EmailItem> {
    match o case Some(it) => [it] case None => []
  }

  /** The items `parseItemsFromDOM` records for the rows. */
  function ItemsOf<R>(rows: seq<R>, field: (R, string) -> Option<string>): seq<EmailItem> {
    Collect(rows, RowReader(field))
  }

  /** The items of `a + b` are the items of `a` followed by those of `b`: rows keep their order. */
  lemma {:induction false} CollectAppend<R>(a: seq<R>, b: seq<R>, read: R -> Option<EmailItem>)
    ensures Collect(a + b, read) == Collect(a, read) + Collect(b, read)
    decreases |b|
  {
    if b == [] {
      assert a + b == a;
    } else {
      var c := a + b;
      assert c[..|c| - 1] == a + b[..|b| - 1] && c[|c| - 1] == b[|b| - 1];
      CollectAppend(a, b[..|b| - 1], read);
    }
  }

  /** Reading one more row appends what that row gives. */
  lemma {:induction false} CollectSnoc<R>(rows: seq<R>, i: nat, read: R -> Option<EmailItem>)
    requires i < |rows|
    ensures Collect(rows[..i + 1], read) == Collect(rows[..i], read) + Emit(read(rows[i]))
  {
    assert rows[..i + 1][..i] == rows[..i];
  }

  /** Every item `read` produces satisfies `ok`, so every collected item does. */
  lemma {:induction false} CollectAll<R>(rows: seq<R>, read: R -> Option<EmailItem>, ok: EmailItem -> bool)
    requires forall j | 0 <= j < |rows| :: read(rows[j]).Some? ==> ok(read(rows[j]).value)
    ensures forall k | 0 <= k < |Collect(rows, read)| :: ok(Collect(rows, read)[k])
  {
    if rows != [] {
      CollectAll(rows[..|rows| - 1], read, ok);
    }
  }

  /** An item worth quoting: a title that is not skipped and a quantity. */
  predicate Quotable(it: EmailItem) {
    !SkippedTitle(it.title) && it.quantity != ""
  }

  /** Every recorded item has a title that is not skipped and a non-empty quantity. */
  lemma {:induction false} ItemsAreQuotable<R>(rows: seq<R>, field: (R, string) -> Option<string>)
    ensures forall k | 0 <= k < |ItemsOf(rows, field)| :: Quotable(ItemsOf(rows, field)[k])
  {
    CollectAll(rows, RowReader(field), Quotable);
  }

  /** The reading of one row: its four fields looked up by `$`, then filtered and normalised. */
  method ReadRow<R>(row: R, field: (R, string) -> Option<string>) returns (item: Option<EmailItem>)
    ensures item == RowItem(row, field)
  {
    var titleEl := Select(TitleSelectors, InRow(row, field));
    var qtyEl := Select(QtySelectors, InRow(row, field));
    var priceEl := Select(PriceSelectors, InRow(row, field));
    var totalEl := Select(LineTotalSelectors, InRow(row, field));
    var title := ElementText(titleEl);
    var qty := ElementText(qtyEl);
    var price := CleanMoney(ElementText(priceEl));
    var lineTotal := CleanMoney(ElementText(totalEl));
    if SkippedTitle(title) {
      return None;
    }
    return Some(EmailItem(title, NormalizeQty(qty), price, lineTotal));
  }

  /** `parseItemsFromDOM`: the item rows found by `$all`, read one by one, then the grand total. */
  method ParseItemsFromDOM<R>(
    queryAll: string -> seq<R>, field: (R, string) -> Option<string>, query: string -> Option<string>)
    returns (items: seq<EmailItem>, grandTotal: string)
    ensures items == ItemsOf(FirstNonEmpty(ItemRowSelectors, queryAll), field)
    ensures grandTotal == CleanMoney(ElementText(FirstMatch(GrandTotalSelectors, query)))
  {
    var rows := SelectAll(ItemRowSelectors, queryAll);
    items := [];
    for i := 0 to |rows|
      invariant items == Collect(rows[..i], RowReader(field))
    {
      var item := ReadRow(rows[i], field);
      CollectSnoc(rows, i, RowReader(field));
      assert RowReader(field)(rows[i]) == item;
      if item.Some? {
        items := items + [item.value];
      }
    }
    assert rows[..|rows|] == rows;
    var totalEl := Select(GrandTotalSelectors, query);
    grandTotal := CleanMoney(ElementText(totalEl));
  }

  // ---------------------------------------------------------------- e-mail body

  const Separator: string := "----------------------------------------"

  /** One item line: title and quantity, then the unit price and line total when they are set. */
  function ItemLine(it: EmailItem): string {
    "- " + it.title + " | Qty: " + it.quantity
    + (if it.price != "" then " | Unit: " + it.price else "")
    + (if it.lineTotal != "" then " | Line Total: " + it.lineTotal else "")
  }

  /** The lines before the items. */
  function Header(cartName: string, cartId: string, url: string): seq<string> {
    ["Quote: " + cartName] + (if cartId != "" then ["Cart ID: " + cartId] else [])
    + ["Link: " + url, "", "Items:", Separator]
  }

  /** The lines after the items; `generated` is the local time the body is built. */
  function Footer(grandTotal: string, generated: string): seq<string> {
    [Separator] + (if grandTotal != "" then ["Grand Total: " + grandTotal] else []) + ["", "Generated: " + generated]
  }

  /** The lines of the e-mail body. */
  function EmailLines(items: seq<EmailItem>, grandTotal: string, cartName: string, cartId: string, url: string, generated: string): seq<string> {
    Header(cartName, cartId, url) + MapSeq(items, ItemLine) + Footer(grandTotal, generated)
  }

  /**
   * The layout of the body: the quote name, the cart id only when there is
   * one, the link, a blank line, "Items:" and a separator; then one line per
   * item in order; then a separator, the grand total only when there is one,
   * a blank line and the generation time.
   */
  lemma {:induction false} EmailLayout(items: seq<EmailItem>, grandTotal: string, cartName: string, cartId: string, url: string, generated: string)
    ensures var lines := EmailLines(items, grandTotal, cartName, cartId, url, generated);
      var h := if cartId != "" then 6 else 5;
      var g := if grandTotal != "" then 1 else 0;
      && |lines| == h + |items| + 3 + g
      && lines[0] == "Quote: " + cartName
      && (cartId != "" ==> lines[1] == "Cart ID: " + cartId)
      && lines[h - 4] == "Link: " + url && lines[h - 3] == "" && lines[h - 2] == "Items:" && lines[h - 1] == Separator
      && (forall k | 0 <= k < |items| :: lines[h + k] == ItemLine(items[k]))
      && lines[h + |items|] == Separator
      && (grandTotal != "" ==> lines[h + |items| + 1] == "Grand Total: " + grandTotal)
      && lines[|lines| - 2] == "" && lines[|lines| - 1] == "Generated: " + generated
  {
    MapSeqAt(items, ItemLine);
  }

  /** `buildEmailBody`: the lines pushed one after another, joined with line breaks. */
  method BuildEmailBody(items: seq<EmailItem>, grandTotal: string, cartName: string, cartId: string, url: string, generated: string)
    returns (body: string)
    ensures body == Join(EmailLines(items, grandTotal, cartName, cartId, url, generated), '\n')
  {
    var lines: seq<string> := [];
    lines := lines + ["Quote: " + cartName];
    if cartId != "" {
      lines := lines + ["Cart ID: " + cartId];
    }
    lines := lines + ["Link: " + url];
    lines := lines + [""];
    lines := lines + ["Items:"];
    lines := lines + [Separator];
    assert lines == Header(cartName, cartId, url);
    for i := 0 to |items|
      invariant lines == Header(cartName, cartId, url) + MapSeq(items[..i], ItemLine)
    {
      assert items[..i + 1][..i] == items[..i];
      lines := lines + [ItemLine(items[i])];
    }
    assert items[..|items|] == items;
    ghost var upToItems := lines;
    lines := lines + [Separator];
    if grandTotal != "" {
      lines := lines + ["Grand Total: " + grandTotal];
    }
    lines := lines + [""];
    lines := lines + ["Generated: " + generated];
    assert lines == upToItems + Footer(grandTotal, generated);
    body := Join(lines, '\n');
  }

  /** When no field holds a line break, the body splits back into exactly its lines. */
  lemma {:induction false} BodyLinesRoundTrip(items: seq<EmailItem>, grandTotal: string, cartName: string, cartId: string, url: string, generated: string)
    requires forall k | 0 <= k < |EmailLines(items, grandTotal, cartName, cartId, url, generated)| ::
      Free(EmailLines(items, grandTotal, cartName, cartId, url, generated)[k], '\n')
    ensures var lines := EmailLines(items, grandTotal, cartName, cartId, url, generated);
      Split(Join(lines, '\n'), '\n') == lines
  {
    SplitJoin(EmailLines(items, grandTotal, cartName, cartId, url, generated), '\n');
  }

  // ---------------------------------------------------------------- sending

  /** What the "Email Quote" button does: warn that there is nothing to send, or compose a message. */
  datatype EmailAction = NoItems | Compose(subject: string, body: string)

  /**
   * `sendQuoteEmail`: without items the visitor is warned; otherwise the
   * mail client is opened with the subject "Quote - " and the cart name and
   * the body built from the items.
   */
  function SendQuoteEmail(items: seq<EmailItem>, grandTotal: string, cartName: string, cartId: string, url: string, generated: string): (a: EmailAction)
    ensures a.NoItems? <==> items == []
    ensures a.Compose? ==> a.subject == "Quote - " + cartName
    ensures a.Compose? ==> a.body == Join(EmailLines(items, grandTotal, cartName, cartId, url, generated), '\n')
  {
    if items == [] then NoItems
    else Compose("Quote - " + cartName, Join(EmailLines(items, grandTotal, cartName, cartId, url, generated), '\n'))
  }
}
