/**
 * The quote page of assets/send-qoute-org.js: the product and variant id
 * read from an "add item" button, the item key of a row, a second room store
 * that keeps empty values, the payload of the intercepted add-to-cart click,
 * the items read for printing and the rows of the print table.
 */
module QuoteOrg {
  import opened Text
  import opened Wrappers
  import opened QuoteFormat
  import opened NoteStore
  import CartSync

  // ---------------------------------------------------------------- page records

  /** An "add item" button: its `onclick` attribute and its `data-*` attributes by camel-cased name. */
  datatype Button = Button(onclick: Option<string>, dataset: map<string, string>)

  /** A `.cart-item` row: its button and the raw text of the elements the script reads (`None` when absent). */
  datatype QuoteRow = QuoteRow(
    button: Option<Button>,
    title: Option<string>,
    qty: Option<string>,
    unitPrice: Option<string>,
    lineTotal: Option<string>,
    roomInput: Option<string>)

  /** `a || b` on strings. */
  function Or(a: string, b: string): string {
    if a != "" then a else b
  }

  /** `ds.name`, `undefined` read as `""`. */
  function Data(ds: map<string, string>, name: string): string {
    if name in ds then ds[name] else ""
  }

  // ---------------------------------------------------------------- ids from the onclick attribute

  predicate NotQuote(c: char) {
    c != '\''
  }

  /** `'([^']+)'` at the start of `t`: the quoted text and what follows the closing quote. */
  function QuotedArg(t: string): (r: Option<(string, string)>)
    ensures r.Some? ==> var (v, rest) := r.value;
      v != [] && (forall k | 0 <= k < |v| :: v[k] != '\'') && t == "'" + v + "'" + rest
  {
    if t == [] || t[0] != '\'' then None
    else
      var v := TakeWhile(t[1..], NotQuote);
      if v == [] || 1 + |v| == |t| then None
      else
        assert t[1..][..|v|] == v && t[1 + |v|] == '\'';
        assert t == "'" + v + "'" + t[2 + |v|..];
        Some((v, t[2 + |v|..]))
  }

  /** A quoted argument is read back exactly. */
  lemma {:induction false} QuotedArgOf(v: string, rest: string)
    requires v != [] && forall k | 0 <= k < |v| :: v[k] != '\''
    ensures QuotedArg("'" + v + "'" + rest) == Some((v, rest))
  {
    var t := "'" + v + "'" + rest;
    assert t[1..] == v + ("'" + rest);
    TakeWhilePrefix(v, "'" + rest, NotQuote);
    assert t[2 + |v|..] == rest;
  }

  lemma {:induction false} TakeWhilePrefix(v: string, w: string, p: char -> bool)
    requires forall k | 0 <= k < |v| :: p(v[k])
    requires w != [] && !p(w[0])
    ensures TakeWhile(v + w, p) == v
  {
    if v == [] {
      assert v + w == w;
    } else {
      assert (v + w)[0] == v[0] && (v + w)[1..] == v[1..] + w;
      TakeWhilePrefix(v[1..], w, p);
      assert [v[0]] + v[1..] == v;
    }
  }

  /** `addItemToCart(` with its letters lower-cased, as the `/i` patterns compare it. */
  const CallName: string := "additemtocart("

  /** `/addItemToCart\(\s*'([^']+)'/i` at the start of `t`: the first argument. */
  function ProductArgMatch(t: string): Option<string> {
    if !StartsWithCI(t, CallName) then None
    else
      match QuotedArg(TrimStart(t[|CallName|..]))
      case Some((p, _)) => Some(p)
      case None => None
  }

  /** `/addItemToCart\(\s*'[^']+'\s*,\s*'([^']+)'/i` at the start of `t`: the second argument. */
  function VariantArgMatch(t: string): Option<string> {
    if !StartsWithCI(t, CallName) then None
    else
      match QuotedArg(TrimStart(t[|CallName|..]))
      case None => None
      case Some((_, rest)) =>
        var u := TrimStart(rest);
        if u == [] || u[0] != ',' then None
        else
          match QuotedArg(TrimStart(u[1..]))
          case Some((v, _)) => Some(v)
          case None => None
  }

  /**
   * `getVariantId`: the second quoted argument of an `addItemToCart(...)`
   * onclick, else `data-variant-id`, `data-variant`, `data-id`, else `""`.
   */
  function GetVariantId(btn: Option<Button>): string
  {
    match btn
    case None => ""
    case Some(b) =>
      match Leftmost(b.onclick.GetOr(""), VariantArgMatch)
      case Some(v) => v
      case None => Or(Or(Data(b.dataset, "variantId"), Data(b.dataset, "variant")), Data(b.dataset, "id"))
  }

  /** `getProductId`: the first quoted argument of the onclick, else `data-product-id`, `data-product`, else `""`. */
  function GetProductId(btn: Option<Button>): string
  {
    match btn
    case None => ""
    case Some(b) =>
      match Leftmost(b.onclick.GetOr(""), ProductArgMatch)
      case Some(p) => p
      case None => Or(Data(b.dataset, "productId"), Data(b.dataset, "product"))
  }

  /** Without an id in the onclick, `data-variant-id`, `data-variant` and `data-id` are tried in that order. */
  lemma {:induction false} VariantIdFallback(b: Button)
    requires Leftmost(b.onclick.GetOr(""), VariantArgMatch).None?
    ensures var ds := b.dataset; var r := GetVariantId(Some(b));
      && (Data(ds, "variantId") != "" ==> r == Data(ds, "variantId"))
      && (Data(ds, "variantId") == "" && Data(ds, "variant") != "" ==> r == Data(ds, "variant"))
      && (Data(ds, "variantId") == "" && Data(ds, "variant") == "" ==> r == Data(ds, "id"))
  {
  }

  /** Without an id in the onclick, `data-product-id` and then `data-product` are tried. */
  lemma {:induction false} ProductIdFallback(b: Button)
    requires Leftmost(b.onclick.GetOr(""), ProductArgMatch).None?
    ensures var ds := b.dataset; var r := GetProductId(Some(b));
      && (Data(ds, "productId") != "" ==> r == Data(ds, "productId"))
      && (Data(ds, "productId") == "" ==> r == Data(ds, "product"))
  {
  }

  /** A row without a button has no ids. */
  lemma {:induction false} NoButtonNoIds()
    ensures GetVariantId(None) == "" && GetProductId(None) == ""
  {
  }

  /** The onclick `addItemToCart('p','v'...` as the theme writes it. */
  function OnclickOf(p: string, v: string, rest: string): string {
    "addItemToCart('" + p + "','" + v + "'" + rest
  }

  lemma {:induction false} CallNameMatches(t: string)
    requires |t| >= 14 && t[..14] == "addItemToCart("
    ensures StartsWithCI(t, CallName)
  {
    assert Lower("addItemToCart(") == CallName;
  }

  /** After the call name, the onclick holds the quoted product id and what follows it. */
  lemma {:induction false} OnclickArgs(p: string, v: string, rest: string)
    ensures StartsWithCI(OnclickOf(p, v, rest), CallName)
    ensures TrimStart(OnclickOf(p, v, rest)[|CallName|..]) == "'" + p + "'" + ("," + "'" + v + "'" + rest)
  {
    var t := OnclickOf(p, v, rest);
    assert t[..14] == "addItemToCart(";
    CallNameMatches(t);
    var a := t[|CallName|..];
    assert a == "'" + p + "'" + ("," + "'" + v + "'" + rest);
    TrimStartNoSpace(a);
  }

  lemma {:induction false} ProductArgOfOnclick(p: string, v: string, rest: string)
    requires p != [] && forall k | 0 <= k < |p| :: p[k] != '\''
    ensures ProductArgMatch(OnclickOf(p, v, rest)) == Some(p)
  {
    OnclickArgs(p, v, rest);
    QuotedArgOf(p, "," + "'" + v + "'" + rest);
  }

  /** After the first argument: a comma, then the quoted variant id. */
  lemma {:induction false} VariantTail(v: string, rest: string)
    ensures var after := "," + "'" + v + "'" + rest;
      && TrimStart(after) == after && after[0] == ','
      && TrimStart(after[1..]) == "'" + v + "'" + rest
  {
    var after := "," + "'" + v + "'" + rest;
    TrimStartNoSpace(after);
    assert after[1..] == "'" + v + "'" + rest;
    TrimStartNoSpace(after[1..]);
  }

  lemma {:induction false} VariantArgOfOnclick(p: string, v: string, rest: string)
    requires p != [] && forall k | 0 <= k < |p| :: p[k] != '\''
    requires v != [] && forall k | 0 <= k < |v| :: v[k] != '\''
    ensures VariantArgMatch(OnclickOf(p, v, rest)) == Some(v)
  {
    var after := "," + "'" + v + "'" + rest;
    OnclickArgs(p, v, rest);
    QuotedArgOf(p, after);
    VariantTail(v, rest);
    QuotedArgOf(v, rest);
  }

  /** Both ids come from the onclick call whatever the data attributes say. */
  lemma {:induction false} OnclickIds(p: string, v: string, rest: string, ds: map<string, string>)
    requires p != [] && forall k | 0 <= k < |p| :: p[k] != '\''
    requires v != [] && forall k | 0 <= k < |v| :: v[k] != '\''
    ensures GetProductId(Some(Button(Some(OnclickOf(p, v, rest)), ds))) == p
    ensures GetVariantId(Some(Button(Some(OnclickOf(p, v, rest)), ds))) == v
  {
    ProductArgOfOnclick(p, v, rest);
    VariantArgOfOnclick(p, v, rest);
  }

  /** `itemKeyForRow`: the variant id, else the product id, else the title text, else `""`. */
  function ItemKey(row: QuoteRow): string
  {
    Or(Or(GetVariantId(row.button), GetProductId(row.button)), ElementText(row.title))
  }

  /** The item key falls through variant id, product id and title text, taking the first that is set. */
  lemma {:induction false} ItemKeyPriority(row: QuoteRow)
    ensures GetVariantId(row.button) != "" ==> ItemKey(row) == GetVariantId(row.button)
    ensures GetVariantId(row.button) == "" && GetProductId(row.button) != "" ==> ItemKey(row) == GetProductId(row.button)
    ensures GetVariantId(row.button) == "" && GetProductId(row.button) == "" ==> ItemKey(row) == ElementText(row.title)
  {
  }

  // ---------------------------------------------------------------- the room store of the quote page

  const RoomPrefix: string := "uncap_room_assignments__"

  /** `storageKey`: the prefix followed by the cart id, or by `"unknown"` when there is none. */
  function RoomStorageKey(cartId: string): (k: string)
    ensures |k| > |RoomPrefix| && k[..|RoomPrefix|] == RoomPrefix
    ensures cartId != "" ==> k[|RoomPrefix|..] == cartId
    ensures cartId == "" ==> k[|RoomPrefix|..] == "unknown"
  {
    RoomPrefix + Or(cartId, "unknown")
  }

  /** Two carts share a room map exactly when their ids agree once `""` is read as `"unknown"`. */
  lemma {:induction false} RoomStorageKeyShared(a: string, b: string)
    ensures RoomStorageKey(a) == RoomStorageKey(b) <==> Or(a, "unknown") == Or(b, "unknown")
  {
    if RoomStorageKey(a) == RoomStorageKey(b) {
      assert RoomStorageKey(a)[|RoomPrefix|..] == RoomStorageKey(b)[|RoomPrefix|..];
    }
  }

  /** One item as `parseItemsWithRoom` reads it for printing. */
  datatype PrintItem = PrintItem(title: string, room: string, quantity: string, unit: string, lineTotal: string)

  /** The print item of a row whose room is `room`. */
  function PrintItemOf(row: QuoteRow, room: string): (r: PrintItem)
    ensures r.quantity != [] && AllDigits(r.quantity)
  {
    PrintItem(
      ElementText(row.title),
      room,
      Show(ExtractQty(ElementText(row.qty))),
      MoneyKeepDollar(ElementText(row.unitPrice)),
      ExtractLineTotal(ElementText(row.lineTotal)))
  }

  /** `getGrandTotal`: the second `div` of the summary row as money, `""` without the row or that div. */
  function GrandTotal(summaryDivs: Option<seq<string>>): (r: string)
    ensures summaryDivs.None? ==> r == ""
    ensures summaryDivs.Some? && |summaryDivs.value| < 2 ==> r == ""
    ensures summaryDivs.Some? && |summaryDivs.value| >= 2 ==> r == MoneyKeepDollar(Trim(summaryDivs.value[1]))
  {
    match summaryDivs
    case None => ""
    case Some(divs) => if |divs| >= 2 then MoneyKeepDollar(Trim(divs[1])) else ""
  }

  /** The local-storage entries the quote page reads and writes. */
  class RoomStore {
    var storage: map<string, Slot>

    constructor (initial: map<string, Slot>)
      ensures storage == initial
    {
      storage := initial;
    }

    /** `readRoomMap`: the cart's map, `{}` when missing or unparseable. */
    function ReadRoomMap(cartId: string): map<string, string>
      reads this
    {
      ParseSlot(storage, RoomStorageKey(cartId))
    }

    /** `map[key] || ""`: the room shown for `key`, as the input is filled on mount and as printed. */
    function RoomFor(cartId: string, key: string): (room: string)
      reads this
      ensures key in ReadRoomMap(cartId) ==> room == ReadRoomMap(cartId)[key]
      ensures key !in ReadRoomMap(cartId) ==> room == ""
    {
      NoteIn(ReadRoomMap(cartId), key)
    }

    /**
     * `save` of a row's room input: the row's current item key (or the key
     * chosen when the field was mounted) gets the trimmed input, even when
     * that is empty; the map is written back whole.
     */
    method Save(cartId: string, row: QuoteRow, mountKey: string, input: string)
      modifies this
      ensures var key := Or(ItemKey(row), mountKey);
        storage == old(storage)[RoomStorageKey(cartId) := Entries(old(ReadRoomMap(cartId))[key := Trim(input)])]
      ensures var key := Or(ItemKey(row), mountKey);
        key in ReadRoomMap(cartId) && ReadRoomMap(cartId)[key] == Trim(input)
      ensures var key := Or(ItemKey(row), mountKey);
        forall k | k != key :: RoomFor(cartId, k) == old(RoomFor(cartId, k))
      ensures forall c | Or(c, "unknown") != Or(cartId, "unknown") :: ReadRoomMap(c) == old(ReadRoomMap(c))
    {
      var key := Or(ItemKey(row), mountKey);
      var m := ReadRoomMap(cartId);
      m := m[key := Trim(input)];
      storage := storage[RoomStorageKey(cartId) := Entries(m)];
      ParseSlotStore(old(storage), RoomStorageKey(cartId), m, RoomStorageKey(cartId));
      forall c | Or(c, "unknown") != Or(cartId, "unknown") ensures ReadRoomMap(c) == old(ReadRoomMap(c)) {
        ParseSlotStore(old(storage), RoomStorageKey(cartId), m, RoomStorageKey(c));
        RoomStorageKeyShared(c, cartId);
      }
    }

    /** `parseItemsWithRoom`: one print item per row, in order, and the grand total. */
    method ParseItemsWithRoom(cartId: string, rows: seq<QuoteRow>, summaryDivs: Option<seq<string>>)
      returns (items: seq<PrintItem>, grandTotal: string)
      ensures items == PrintItems(rows, ReadRoomMap(cartId))
      ensures grandTotal == GrandTotal(summaryDivs)
    {
      items := ReadRows(rows, ReadRoomMap(cartId));
      grandTotal := GrandTotal(summaryDivs);
    }
  }

  /** The `forEach` of `parseItemsWithRoom`, pushing one print item per row. */
  method ReadRows(rows: seq<QuoteRow>, rooms: map<string, string>) returns (items: seq<PrintItem>)
    ensures items == PrintItems(rows, rooms)
  {
    var read := RowReader(rooms);
    items := [];
    for i := 0 to |rows|
      invariant items == MapSeq(rows[..i], read)
    {
      assert rows[..i + 1][..i] == rows[..i];
      items := items + [read(rows[i])];
    }
    assert rows[..|rows|] == rows;
  }

  /** How one row is read for printing, the room looked up in `rooms` under the row's item key. */
  function RowReader(rooms: map<string, string>): QuoteRow -> PrintItem {
    row => PrintItemOf(row, NoteIn(rooms, ItemKey(row)))
  }

  /** The print items of the rows, in order. */
  function PrintItems(rows: seq<QuoteRow>, rooms: map<string, string>): seq<PrintItem> {
    MapSeq(rows, RowReader(rooms))
  }

  /** One print item per row, in row order, each read from its own row and its own room. */
  lemma {:induction false} PrintItemsInOrder(rows: seq<QuoteRow>, rooms: map<string, string>)
    ensures |PrintItems(rows, rooms)| == |rows|
    ensures forall k | 0 <= k < |rows| ::
      PrintItems(rows, rooms)[k] == PrintItemOf(rows[k], NoteIn(rooms, ItemKey(rows[k])))
  {
    MapSeqAt(rows, RowReader(rooms));
  }

  // ---------------------------------------------------------------- the intercepted add-to-cart click

  /** What a click on a row's button does: run the original onclick (then reload), or post one item. */
  datatype AddAction =
    | RunOnclick
    | AddItem(id: Option<int>, quantity: nat, properties: map<string, string>)

  /** `(input && input.value ? input.value : "").trim()`. */
  function RoomValue(row: QuoteRow): string {
    Trim(row.roomInput.GetOr(""))
  }

  /**
   * The click handler: without a variant id the original handler runs;
   * otherwise one item is posted with `parseInt` of the variant id, the
   * quantity read from the row and the room as its only property when set.
   */
  function AddToCart(row: QuoteRow): (a: AddAction)
    requires row.button.Some?
    ensures a.RunOnclick? <==> GetVariantId(row.button) == ""
    ensures a.AddItem? ==> a.id == ParseInt(GetVariantId(row.button))
    ensures a.AddItem? ==> a.quantity == ExtractQty(ElementText(row.qty))
    ensures a.AddItem? && RoomValue(row) == "" ==> a.properties == map[]
    ensures a.AddItem? && RoomValue(row) != "" ==>
      a.properties == map[CartSync.RoomProperty := RoomValue(row)]
  {
    var variantId := GetVariantId(row.button);
    if variantId == "" then RunOnclick
    else
      var room := RoomValue(row);
      AddItem(
        ParseInt(variantId),
        ExtractQty(ElementText(row.qty)),
        if room != "" then map[CartSync.RoomProperty := room] else map[])
  }

  /** A numeric variant id in the onclick call is posted as that number with the row's quantity. */
  lemma {:induction false} AddNumericVariant(p: string, n: nat, rest: string, ds: map<string, string>, row: QuoteRow)
    requires p != [] && forall k | 0 <= k < |p| :: p[k] != '\''
    requires row.button == Some(Button(Some(OnclickOf(p, Show(n), rest)), ds))
    ensures AddToCart(row).AddItem?
    ensures AddToCart(row).id == Some(n)
    ensures AddToCart(row).quantity == ExtractQty(ElementText(row.qty))
  {
    OnclickIds(p, Show(n), rest, ds);
    ParseIntRoundTrip(n);
  }

  // ---------------------------------------------------------------- print table rows

  /** An HTML tag with the given body. */
  function Tag(body: string): string {
    "<" + body + ">"
  }

  /** The "Room:" line under the title, present only for a non-empty room. */
  function RoomLine(room: string): string {
    if room != "" then
      RoomHead + EscapeHtml(Some(room)) + Tag("/div")
    else ""
  }

  /** The pieces of the `<tr>` template between its five fields. */
  const RowOpen: string := Tag("tr") + "\n          " + Tag("td") + "\n            "
  const TitleGap: string := "\n            "
  const QtyOpen: string := "\n          " + Tag("/td") + "\n          " + Tag("td style=\"text-align:center\"")
  const CellOpen: string := Tag("/td") + "\n          " + Tag("td style=\"text-align:right\"")
  const RowClose: string := Tag("/td") + "\n        " + Tag("/tr")

  /** The `<tr>` template, with the title, the room line and the three numbers already escaped. */
  function RowHtml(title: string, roomLine: string, quantity: string, unit: string, lineTotal: string): string {
    RowOpen + title + TitleGap + roomLine + QtyOpen + quantity + CellOpen + unit + CellOpen + lineTotal + RowClose
  }

  /** One row of the print table: every field escaped, the room line only for a room that is set. */
  function PrintRow(i: PrintItem): string {
    RowHtml(EscapeHtml(Some(i.title)), RoomLine(i.room), EscapeHtml(Some(i.quantity)),
      EscapeHtml(Some(i.unit)), EscapeHtml(Some(i.lineTotal)))
  }

  /** `data.items.map(...).join("")`. */
  function PrintRows(items: seq<PrintItem>): string {
    Rows(items, PrintRow)
  }

  /** The rows `row` renders for `items`, joined with nothing between them. */
  function Rows(items: seq<PrintItem>, row: PrintItem -> string): string {
    if items == [] then "" else row(items[0]) + Rows(items[1..], row)
  }

  /** The opening `div` of the "Room:" line, with its inline style. */
  const RoomDiv: string := DivStyle + FontSize + Opacity + MarginTop

  const DivStyle: string := "div style=\""
  const FontSize: string := "font-size:12px;"
  const Opacity: string := "opacity:.75;"
  const MarginTop: string := "margin-top:4px\""

  const RoomHead: string := Tag(RoomDiv) + "Room: "

  /** The "Room:" line is empty without a room; otherwise it holds the escaped room, which reads back as the room. */
  lemma {:induction false} RoomLineReadsBack(room: string)
    ensures room == "" <==> RoomLine(room) == ""
    ensures room != "" ==> var line := RoomLine(room);
      && |line| >= |RoomHead| + 6
      && line[..|RoomHead|] == RoomHead
      && Unescape(line[|RoomHead|..|line| - 6]) == room
  {
    if room != "" {
      var line := RoomLine(room);
      assert line == RoomHead + EscapeAll(room) + Tag("/div");
      assert line[|RoomHead|..|line| - 6] == EscapeAll(room);
      EscapeRoundTrip(room);
    }
  }

  /** How many tags, opening or closing, `s` contains: its count of `<`. */
  function TagCount(s: string): nat {
    if s == [] then 0 else (if s[0] == '<' then 1 else 0) + TagCount(s[1..])
  }

  lemma {:induction false} TagCountAppend(a: string, b: string)
    ensures TagCount(a + b) == TagCount(a) + TagCount(b)
  {
    if a == [] {
      assert a + b == b;
    } else {
      assert (a + b)[0] == a[0] && (a + b)[1..] == a[1..] + b;
      TagCountAppend(a[1..], b);
    }
  }

  lemma {:induction false} NoTag(s: string)
    requires '<' !in s
    ensures TagCount(s) == 0
  {
    if s != [] {
      assert s[0] != '<' && '<' !in s[1..];
      NoTag(s[1..]);
    }
  }

  lemma {:induction false} OneTag(body: string)
    requires TagCount(body) == 0
    ensures TagCount(Tag(body)) == 1
  {
    NoTag(">");
    TagCountAppend("<", body);
    TagCountAppend("<" + body, ">");
  }

  lemma {:induction false} PlainTag(body: string)
    requires '<' !in body
    ensures TagCount(Tag(body)) == 1
  {
    NoTag(body);
    OneTag(body);
  }

  lemma {:induction false} RowOpenTags()
    ensures TagCount(RowOpen) == 2
  {
    PlainTag("tr"); PlainTag("td"); NoTag("\n          "); NoTag("\n            ");
    TagCountAppend(Tag("tr"), "\n          ");
    TagCountAppend(Tag("tr") + "\n          ", Tag("td"));
    TagCountAppend(Tag("tr") + "\n          " + Tag("td"), "\n            ");
  }

  lemma {:induction false} QtyOpenTags()
    ensures TagCount(QtyOpen) == 2
  {
    var c := Tag("td style=\"text-align:center\"");
    PlainTag("/td"); PlainTag("td style=\"text-align:center\""); NoTag("\n          ");
    TagCountAppend("\n          ", Tag("/td"));
    TagCountAppend("\n          " + Tag("/td"), "\n          ");
    TagCountAppend("\n          " + Tag("/td") + "\n          ", c);
  }

  lemma {:induction false} CellOpenTags()
    ensures TagCount(CellOpen) == 2
  {
    var c := Tag("td style=\"text-align:right\"");
    PlainTag("/td"); PlainTag("td style=\"text-align:right\""); NoTag("\n          ");
    TagCountAppend(Tag("/td"), "\n          ");
    TagCountAppend(Tag("/td") + "\n          ", c);
  }

  lemma {:induction false} RowCloseTags()
    ensures TagCount(RowClose) == 2
  {
    PlainTag("/td"); PlainTag("/tr"); NoTag("\n        ");
    TagCountAppend(Tag("/td"), "\n        ");
    TagCountAppend(Tag("/td") + "\n        ", Tag("/tr"));
  }

  lemma {:induction false} DivStyleTags() ensures TagCount(DivStyle) == 0 { NoTag(DivStyle); }
  lemma {:induction false} FontSizeTags() ensures TagCount(FontSize) == 0 { NoTag(FontSize); }
  lemma {:induction false} OpacityTags() ensures TagCount(Opacity) == 0 { NoTag(Opacity); }
  lemma {:induction false} MarginTopTags() ensures TagCount(MarginTop) == 0 { NoTag(MarginTop); }

  lemma {:induction false} RoomDivTags()
    ensures TagCount(RoomDiv) == 0
  {
    DivStyleTags(); FontSizeTags(); OpacityTags(); MarginTopTags();
    TagCountAppend(DivStyle, FontSize);
    TagCountAppend(DivStyle + FontSize, Opacity);
    TagCountAppend(DivStyle + FontSize + Opacity, MarginTop);
  }

  lemma {:induction false} RoomHeadTags()
    ensures TagCount(RoomHead) == 1
  {
    RoomDivTags();
    OneTag(RoomDiv);
    NoTag("Room: ");
    TagCountAppend(Tag(RoomDiv), "Room: ");
  }

  /** The room line contains two tags when the room is set, none otherwise. */
  lemma {:induction false} RoomLineTags(room: string)
    ensures TagCount(RoomLine(room)) == if room != "" then 2 else 0
  {
    if room != "" {
      var e := EscapeHtml(Some(room));
      RoomHeadTags();
      NoTag(e);
      PlainTag("/div");
      TagCountAppend(RoomHead, e);
      TagCountAppend(RoomHead + e, Tag("/div"));
    }
  }

  /**
   * Whatever the item's fields hold, its row contains exactly the template's
   * tags: ten, and two more for the "Room:" line when the room is set. No
   * field can inject markup.
   */
  lemma {:induction false} PrintRowTags(i: PrintItem)
    ensures TagCount(PrintRow(i)) == if i.room != "" then 12 else 10
  {
    var t, q := EscapeHtml(Some(i.title)), EscapeHtml(Some(i.quantity));
    var u, l := EscapeHtml(Some(i.unit)), EscapeHtml(Some(i.lineTotal));
    NoTag(t); NoTag(q); NoTag(u); NoTag(l);
    RoomLineTags(i.room);
    RowHtmlTags(t, RoomLine(i.room), q, u, l);
  }

  /** The template contains ten tags of its own, plus those of the room line, when the fields contain none. */
  lemma {:induction false} RowHtmlTags(t: string, r: string, q: string, u: string, l: string)
    requires TagCount(t) == 0 && TagCount(q) == 0 && TagCount(u) == 0 && TagCount(l) == 0
    ensures TagCount(RowHtml(t, r, q, u, l)) == 10 + TagCount(r)
  {
    NoTag(TitleGap);
    RowOpenTags(); QtyOpenTags(); CellOpenTags(); RowCloseTags();
    var s0 := RowOpen + t;
    TagCountAppend(RowOpen, t);
    var s1 := s0 + TitleGap;
    TagCountAppend(s0, TitleGap);
    var s2 := s1 + r;
    TagCountAppend(s1, r);
    var s3 := s2 + QtyOpen;
    TagCountAppend(s2, QtyOpen);
    RowTailTags(s3, q, u, l);
  }

  /** The cells after the room line add six tags of the template's. */
  lemma {:induction false} RowTailTags(s3: string, q: string, u: string, l: string)
    requires TagCount(q) == 0 && TagCount(u) == 0 && TagCount(l) == 0
    ensures TagCount(s3 + q + CellOpen + u + CellOpen + l + RowClose) == TagCount(s3) + 6
  {
    CellOpenTags(); RowCloseTags();
    var s4 := s3 + q;
    TagCountAppend(s3, q);
    var s5 := s4 + CellOpen;
    TagCountAppend(s4, CellOpen);
    var s6 := s5 + u;
    TagCountAppend(s5, u);
    var s7 := s6 + CellOpen;
    TagCountAppend(s6, CellOpen);
    var s8 := s7 + l;
    TagCountAppend(s7, l);
    TagCountAppend(s8, RowClose);
  }


  /** The table of `a + b` is the table of `a` followed by the table of `b`: one row per item, in order. */
  lemma {:induction false} PrintRowsAppend(a: seq<PrintItem>, b: seq<PrintItem>)
    ensures PrintRows(a + b) == PrintRows(a) + PrintRows(b)
  {
    RowsAppend(a, b, PrintRow);
  }

  lemma {:induction false} RowsAppend(a: seq<PrintItem>, b: seq<PrintItem>, row: PrintItem -> string)
    ensures Rows(a + b, row) == Rows(a, row) + Rows(b, row)
  {
    if a == [] {
      assert a + b == b;
    } else {
      assert (a + b)[0] == a[0] && (a + b)[1..] == a[1..] + b;
      RowsAppend(a[1..], b, row);
    }
  }

  /** Each item adds exactly its own row at the end of the table. */
  lemma {:induction false} PrintRowsSnoc(items: seq<PrintItem>, i: PrintItem)
    ensures PrintRows(items + [i]) == PrintRows(items) + PrintRow(i)
  {
    RowsSnoc(items, i, PrintRow);
  }

  lemma {:induction false} RowsSnoc(items: seq<PrintItem>, i: PrintItem, row: PrintItem -> string)
    ensures Rows(items + [i], row) == Rows(items, row) + row(i)
  {
    RowsAppend(items, [i], row);
    assert Rows([i], row) == row(i) + Rows([], row);
  }
}
