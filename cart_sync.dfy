/**
 * `syncCachedNotesIntoCartProperties` of assets/assign-to-rooms.js: from the
 * cached notes of the scope and a snapshot of the cart, the list of
 * per-line property updates, and the sequence of `/cart/change.js`
 * requests that carries them out, one line at a time.
 */
module CartSync {
  import opened Wrappers
  import opened RoomKeys

  const RoomProperty: string := "Assign to Room"

  /** One line of the cart as `/cart.js` returns it; an empty string stands for a missing field. */
  datatype CartItem = CartItem(
    key: string,
    sku: string,
    productTitle: string,
    quantity: int,
    properties: map<string, Option<string>>)

  /** A computed update: the 1-based line and the complete property set it should carry. */
  datatype Update = Update(line: nat, properties: map<string, string>)

  /** The body of one `/cart/change.js` request. */
  datatype ChangeRequest = ChangeRequest(line: nat, quantity: int, properties: map<string, string>)

  // ---------------------------------------------------------------- lookup

  /** The three candidate keys of a line; a missing signal gives `""`. */
  function LineCandidate(item: CartItem): string { if item.key != "" then LineKey(item.key) else "" }
  function SkuCandidate(item: CartItem): string { if item.sku != "" then SkuKey(item.sku) else "" }
  function TitleCandidate(item: CartItem): string { if item.productTitle != "" then TitleKey(item.productTitle) else "" }

  /** `k && map[k]` is truthy: the candidate exists and has a non-empty note. */
  predicate Hit(notes: map<string, string>, k: string) {
    k != "" && k in notes && notes[k] != ""
  }

  /** The cached note of a line: the first hit among line key, SKU key and title key, else `""`. */
  function CachedNote(item: CartItem, notes: map<string, string>): (r: string)
    ensures Hit(notes, LineCandidate(item)) ==> r == notes[LineCandidate(item)]
    ensures !Hit(notes, LineCandidate(item)) && Hit(notes, SkuCandidate(item)) ==>
      r == notes[SkuCandidate(item)]
    ensures !Hit(notes, LineCandidate(item)) && !Hit(notes, SkuCandidate(item)) && Hit(notes, TitleCandidate(item)) ==>
      r == notes[TitleCandidate(item)]
    ensures r == "" <==>
      !Hit(notes, LineCandidate(item)) && !Hit(notes, SkuCandidate(item)) && !Hit(notes, TitleCandidate(item))
  {
    if Hit(notes, LineCandidate(item)) then notes[LineCandidate(item)]
    else if Hit(notes, SkuCandidate(item)) then notes[SkuCandidate(item)]
    else if Hit(notes, TitleCandidate(item)) then notes[TitleCandidate(item)]
    else ""
  }

  /** The value of property `p` of a line; a null or missing property reads as `""`. */
  function Prop(props: map<string, Option<string>>, p: string): (r: string)
    ensures r != "" <==> p in props && props[p].Some? && props[p].value != ""
    ensures r != "" ==> r == props[p].value
  {
    if p in props && props[p].Some? then props[p].value else ""
  }

  /** `m[p]`, a missing key read as `""`. */
  function Get(m: map<string, string>, p: string): string {
    if p in m then m[p] else ""
  }

  /** The line's current "Assign to Room" value. */
  function CurrentRoom(props: map<string, Option<string>>): string {
    Prop(props, RoomProperty)
  }

  /** The existing properties with null and empty values dropped. */
  function KeptProperties(props: map<string, Option<string>>): (r: map<string, string>)
    ensures forall p :: Get(r, p) == Prop(props, p)
    ensures forall p | p in r :: r[p] != ""
  {
    map p | p in props && props[p].Some? && props[p].value != "" :: props[p].value
  }

  /** A line needs an update when it has a cached note that differs from its current value under `norm`. */
  predicate NeedsUpdate(item: CartItem, notes: map<string, string>) {
    CachedNote(item, notes) != "" && Norm(CurrentRoom(item.properties)) != Norm(CachedNote(item, notes))
  }

  /**
   * The complete property set a line should be sent, if it needs an update:
   * every existing non-null, non-empty property unchanged, plus "Assign to
   * Room" set to the cached note.
   */
  function NewProperties(item: CartItem, notes: map<string, string>): (r: Option<map<string, string>>)
    ensures r.Some? <==> NeedsUpdate(item, notes)
    ensures r.Some? ==> Get(r.value, RoomProperty) == CachedNote(item, notes)
    ensures r.Some? ==> forall p | p != RoomProperty :: Get(r.value, p) == Prop(item.properties, p)
    ensures r.Some? ==> forall p | p in r.value :: r.value[p] != ""
  {
    if NeedsUpdate(item, notes) then Some(WithRoom(KeptProperties(item.properties), CachedNote(item, notes)))
    else None
  }

  /** A property set with "Assign to Room" set to `room` and every other property as it was. */
  function WithRoom(props: map<string, string>, room: string): (r: map<string, string>)
    requires room != "" && forall p | p in props :: props[p] != ""
    ensures Get(r, RoomProperty) == room
    ensures forall p | p != RoomProperty :: Get(r, p) == Get(props, p)
    ensures forall p | p in r :: r[p] != ""
  {
    props[RoomProperty := room]
  }

  /** The per-line planner of a synchronisation pass over the cached `notes`. */
  function Planner(notes: map<string, string>): CartItem -> Option<map<string, string>> {
    item => NewProperties(item, notes)
  }

  /** The updates for a cart, in cart order, lines numbered from 1. */
  function Updates(items: seq<CartItem>, notes: map<string, string>): seq<Update> {
    Collect(items, Planner(notes))
  }

  // ---------------------------------------------------------------- the update list, for any planner

  /** Walks the cart in order and emits an update for each line the planner gives a property set. */
  function Collect(items: seq<CartItem>, plan: CartItem -> Option<map<string, string>>): seq<Update>
  {
    if items == [] then []
    else
      var n := |items|;
      Collect(items[..n - 1], plan) + Emit(plan(items[n - 1]), n)
  }

  function Emit(o: Option<map<string, string>>, line: nat): seq<Update> {
    match o case Some(ps) => [Update(line, ps)] case None => []
  }

  /** The line numbers of `us` lie in `1..n` and increase strictly. */
  predicate LinesAscending(us: seq<Update>, n: nat) {
    && (forall k | 0 <= k < |us| :: 1 <= us[k].line <= n)
    && (forall j, k | 0 <= j < k < |us| :: us[j].line < us[k].line)
  }

  lemma {:induction false} AppendAscending(us: seq<Update>, e: seq<Update>, n: nat)
    requires n >= 1 && LinesAscending(us, n - 1)
    requires |e| <= 1 && forall k | 0 <= k < |e| :: e[k].line == n
    ensures LinesAscending(us + e, n)
  {
  }

  /** Updates come in ascending line order, one per line at most, each for a line of the cart. */
  lemma {:induction false} CollectAscending(items: seq<CartItem>, plan: CartItem -> Option<map<string, string>>)
    ensures LinesAscending(Collect(items, plan), |items|)
  {
    if items != [] {
      var n := |items|;
      var p := items[..n - 1];
      CollectAscending(p, plan);
      AppendAscending(Collect(p, plan), Emit(plan(items[n - 1]), n), n);
    }
  }

  /** Every update carries the property set the planner gives its own line. */
  predicate OwnLines(us: seq<Update>, items: seq<CartItem>, plan: CartItem -> Option<map<string, string>>) {
    forall k | 0 <= k < |us| ::
      1 <= us[k].line <= |items| && plan(items[us[k].line - 1]) == Some(us[k].properties)
  }

  lemma {:induction false} CollectOwnLines(items: seq<CartItem>, plan: CartItem -> Option<map<string, string>>)
    ensures OwnLines(Collect(items, plan), items, plan)
  {
    if items != [] {
      var n := |items|;
      var p := items[..n - 1];
      CollectOwnLines(p, plan);
      var us := Collect(p, plan);
      var e := Emit(plan(items[n - 1]), n);
      var all: seq<Update> := us + e;
      forall k | 0 <= k < |all|
        ensures 1 <= all[k].line <= n && plan(items[all[k].line - 1]) == Some(all[k].properties)
      {
        if k < |us| {
          assert all[k] == us[k];
          assert p[us[k].line - 1] == items[us[k].line - 1];
        }
      }
    }
  }

  predicate HasLine(us: seq<Update>, n: nat) {
    exists k | 0 <= k < |us| :: us[k].line == n
  }

  /** A line receives an update exactly when the planner gives it a property set. */
  lemma {:induction false} CollectExactly(items: seq<CartItem>, plan: CartItem -> Option<map<string, string>>)
    ensures forall n | 1 <= n <= |items| :: HasLine(Collect(items, plan), n) <==> plan(items[n - 1]).Some?
  {
    if items != [] {
      var n := |items|;
      var p := items[..n - 1];
      CollectAscending(p, plan);
      CollectExactly(p, plan);
      var us := Collect(p, plan);
      var e := Emit(plan(items[n - 1]), n);
      assert Collect(items, plan) == us + e;
      forall m | 1 <= m <= n
        ensures HasLine(us + e, m) <==> plan(items[m - 1]).Some?
      {
        if m < n {
          assert p[m - 1] == items[m - 1];
          HasLineOld(us, e, m, n);
        } else {
          HasLineNew(us, e, n);
        }
      }
    }
  }

  /** Line `n` receives an update exactly when the planner gives it a property set. */
  lemma {:induction false} CollectExactlyAt(items: seq<CartItem>, plan: CartItem -> Option<map<string, string>>, n: nat)
    requires 1 <= n <= |items|
    ensures HasLine(Collect(items, plan), n) <==> plan(items[n - 1]).Some?
  {
    CollectExactly(items, plan);
  }

  /** Appending updates for line `n` does not change which other lines have one. */
  lemma {:induction false} HasLineOld(us: seq<Update>, e: seq<Update>, m: nat, n: nat)
    requires m != n && forall k | 0 <= k < |e| :: e[k].line == n
    ensures HasLine(us + e, m) <==> HasLine(us, m)
  {
    if HasLine(us + e, m) {
      var k :| 0 <= k < |us + e| && (us + e)[k].line == m;
      assert k < |us| && us[k].line == m;
    }
    if HasLine(us, m) {
      var k :| 0 <= k < |us| && us[k].line == m;
      assert (us + e)[k].line == m;
    }
  }

  /** Line `n`, beyond every earlier update, has an update exactly when one is appended for it. */
  lemma {:induction false} HasLineNew(us: seq<Update>, e: seq<Update>, n: nat)
    requires n >= 1 && LinesAscending(us, n - 1)
    requires forall k | 0 <= k < |e| :: e[k].line == n
    ensures HasLine(us + e, n) <==> e != []
  {
    if HasLine(us + e, n) {
      var k :| 0 <= k < |us + e| && (us + e)[k].line == n;
      assert k >= |us|;
    }
    if e != [] {
      assert (us + e)[|us|].line == n;
    }
  }

  /** A cart whose every line the planner leaves alone yields no updates. */
  lemma {:induction false} CollectNone(items: seq<CartItem>, plan: CartItem -> Option<map<string, string>>)
    requires forall j | 0 <= j < |items| :: plan(items[j]).None?
    ensures Collect(items, plan) == []
  {
    if items != [] {
      CollectNone(items[..|items| - 1], plan);
    }
  }

  // ---------------------------------------------------------------- properties of the updates

  /**
   * The updates of a pass: in ascending line order, each carrying the
   * property set computed for its own line, and a line receives one exactly
   * when it has a cached note that differs from its current value under `norm`.
   */
  lemma {:induction false} UpdatesShape(items: seq<CartItem>, notes: map<string, string>)
    ensures LinesAscending(Updates(items, notes), |items|)
    ensures OwnLines(Updates(items, notes), items, Planner(notes))
    ensures forall n | 1 <= n <= |items| :: HasLine(Updates(items, notes), n) <==> NeedsUpdate(items[n - 1], notes)
  {
    CollectAscending(items, Planner(notes));
    CollectOwnLines(items, Planner(notes));
    CollectExactly(items, Planner(notes));
  }

  /** With nothing cached, no line is updated. */
  lemma {:induction false} NothingCachedNoUpdates(items: seq<CartItem>)
    ensures Updates(items, map[]) == []
  {
    CollectNone(items, Planner(map[]));
  }

  // ---------------------------------------------------------------- requests

  /** The request for one update resends the line's quantity from the same snapshot. */
  function ToRequest(u: Update, items: seq<CartItem>): ChangeRequest
    requires 1 <= u.line <= |items|
  {
    ChangeRequest(u.line, items[u.line - 1].quantity, u.properties)
  }

  /** The `/cart/change.js` requests of one synchronisation pass, in the order they are sent. */
  function Requests(items: seq<CartItem>, plan: CartItem -> Option<map<string, string>>): (rs: seq<ChangeRequest>)
    ensures |rs| == |Collect(items, plan)|
    ensures forall k | 0 <= k < |rs| ::
      && rs[k].line == Collect(items, plan)[k].line
      && 1 <= rs[k].line <= |items|
      && rs[k].quantity == items[rs[k].line - 1].quantity
      && rs[k].properties == Collect(items, plan)[k].properties
  {
    CollectAscending(items, plan);
    ToRequests(Collect(items, plan), items)
  }

  predicate UpdateLinesIn(us: seq<Update>, n: nat) {
    forall k | 0 <= k < |us| :: 1 <= us[k].line <= n
  }

  /** One request per update, in the same order. */
  function ToRequests(us: seq<Update>, items: seq<CartItem>): seq<ChangeRequest>
    requires UpdateLinesIn(us, |items|)
  {
    seq(|us|, k requires 0 <= k < |us| => ToRequest(us[k], items))
  }

  /** The `for` loop that sends the updates one at a time, each with its line's quantity. */
  method SendUpdates(updates: seq<Update>, items: seq<CartItem>) returns (requests: seq<ChangeRequest>)
    requires UpdateLinesIn(updates, |items|)
    ensures requests == ToRequests(updates, items)
  {
    requests := [];
    for i := 0 to |updates|
      invariant |requests| == i
      invariant forall k | 0 <= k < i :: requests[k] == ToRequest(updates[k], items)
    {
      requests := requests + [ToRequest(updates[i], items)];
    }
  }

  /** The loop that fills `updates` by walking the cart in order. */
  method ComputeUpdates(items: seq<CartItem>, notes: map<string, string>) returns (updates: seq<Update>)
    ensures updates == Updates(items, notes)
  {
    if |notes| == 0 {
      assert notes == map[];
      NothingCachedNoUpdates(items);
      return [];
    }
    updates := [];
    for i := 0 to |items|
      invariant updates == Collect(items[..i], Planner(notes))
    {
      assert items[..i + 1][..i] == items[..i];
      match NewProperties(items[i], notes)
      case Some(ps) => updates := updates + [Update(i + 1, ps)];
      case None =>
    }
    assert items[..|items|] == items;
  }

  /**
   * One synchronisation pass: nothing when the cart could not be fetched,
   * otherwise one request per computed update, issued in order.
   */
  method SyncRequests(cart: Option<seq<CartItem>>, notes: map<string, string>) returns (requests: seq<ChangeRequest>)
    ensures cart.None? ==> requests == []
    ensures cart.Some? ==> requests == Requests(cart.value, Planner(notes))
  {
    if cart.None? {
      return [];
    }
    var items := cart.value;
    var updates := ComputeUpdates(items, notes);
    CollectAscending(items, Planner(notes));
    requests := SendUpdates(updates, items);
  }

  // ---------------------------------------------------------------- effect on the cart

  function Lift(props: map<string, string>): map<string, Option<string>> {
    map p | p in props :: Some(props[p])
  }

  /** The cart after the server applied one request: that line gets the sent quantity and property set. */
  function ApplyRequest(items: seq<CartItem>, r: ChangeRequest): (res: seq<CartItem>)
    requires 1 <= r.line <= |items|
    ensures |res| == |items|
  {
    items[r.line - 1 := items[r.line - 1].(quantity := r.quantity, properties := Lift(r.properties))]
  }

  predicate LinesInRange(rs: seq<ChangeRequest>, n: nat) {
    forall k | 0 <= k < |rs| :: 1 <= rs[k].line <= n
  }

  /** The cart after the server applied the requests one after another. */
  function ApplyAll(items: seq<CartItem>, rs: seq<ChangeRequest>): (res: seq<CartItem>)
    requires LinesInRange(rs, |items|)
    ensures |res| == |items|
    decreases |rs|
  {
    if rs == [] then items else ApplyAll(ApplyRequest(items, rs[0]), rs[1..])
  }

  /** A line as a pass leaves it: the planned property set when there is one, else untouched. */
  function Synced(item: CartItem, plan: CartItem -> Option<map<string, string>>): CartItem {
    match plan(item)
    case Some(ps) => item.(properties := Lift(ps))
    case None => item
  }

  /** The requests go to strictly ascending lines. */
  predicate Ascending(rs: seq<ChangeRequest>) {
    forall j, k | 0 <= j < k < |rs| :: rs[j].line < rs[k].line
  }

  /** Each request resends its line's original quantity with the property set planned for that line. */
  predicate Planned(orig: seq<CartItem>, rs: seq<ChangeRequest>, plan: CartItem -> Option<map<string, string>>)
    requires LinesInRange(rs, |orig|)
  {
    forall k | 0 <= k < |rs| ::
      && plan(orig[rs[k].line - 1]) == Some(rs[k].properties)
      && rs[k].quantity == orig[rs[k].line - 1].quantity
  }

  /** Every line a request names still holds its original contents. */
  predicate Pending(cur: seq<CartItem>, orig: seq<CartItem>, rs: seq<ChangeRequest>)
    requires |cur| == |orig| && LinesInRange(rs, |orig|)
  {
    forall k | 0 <= k < |rs| :: cur[rs[k].line - 1] == orig[rs[k].line - 1]
  }

  /** Applying the first request syncs its line and keeps the others. */
  lemma {:induction false} ApplyFirst(orig: seq<CartItem>, cur: seq<CartItem>, rs: seq<ChangeRequest>, plan: CartItem -> Option<map<string, string>>)
    requires |cur| == |orig| && rs != [] && LinesInRange(rs, |orig|)
    requires Planned(orig, rs, plan) && Pending(cur, orig, rs)
    ensures ApplyRequest(cur, rs[0])[rs[0].line - 1] == Synced(orig[rs[0].line - 1], plan)
    ensures forall j | 0 <= j < |orig| && j != rs[0].line - 1 :: ApplyRequest(cur, rs[0])[j] == cur[j]
  {
  }

  lemma {:induction false} LinesInRangeRest(rs: seq<ChangeRequest>, n: nat)
    requires rs != [] && LinesInRange(rs, n)
    ensures LinesInRange(rs[1..], n)
  {
    forall m | 0 <= m < |rs| - 1 ensures 1 <= rs[1..][m].line <= n {
      assert rs[1..][m] == rs[m + 1];
    }
  }

  /** What holds of the requests holds of all but the first, against the cart after the first. */
  lemma {:induction false} ApplyRest(orig: seq<CartItem>, cur: seq<CartItem>, rs: seq<ChangeRequest>, plan: CartItem -> Option<map<string, string>>)
    requires |cur| == |orig| && rs != [] && LinesInRange(rs, |orig|)
    requires Ascending(rs) && Planned(orig, rs, plan) && Pending(cur, orig, rs)
    ensures LinesInRange(rs[1..], |orig|) && Ascending(rs[1..]) && Planned(orig, rs[1..], plan)
    ensures Pending(ApplyRequest(cur, rs[0]), orig, rs[1..])
  {
    ApplyFirst(orig, cur, rs, plan);
    assert forall k | 0 <= k < |rs| - 1 :: rs[1..][k] == rs[k + 1];
  }

  /** No request names line `n`. */
  predicate Unnamed(rs: seq<ChangeRequest>, n: int) {
    forall k | 0 <= k < |rs| :: rs[k].line != n
  }

  /** The first request's line is named by no later request. */
  lemma {:induction false} FirstUnnamedLater(rs: seq<ChangeRequest>)
    requires rs != [] && Ascending(rs)
    ensures Unnamed(rs[1..], rs[0].line)
  {
    forall m | 0 <= m < |rs| - 1 ensures rs[1..][m].line != rs[0].line {
      assert rs[1..][m] == rs[m + 1];
    }
  }

  /** A line every request leaves alone is left alone by all of them but the first, and differs from the first one's. */
  lemma {:induction false} UnnamedRest(rs: seq<ChangeRequest>, n: int)
    requires rs != [] && Unnamed(rs, n)
    ensures Unnamed(rs[1..], n) && rs[0].line != n
  {
    forall m | 0 <= m < |rs| - 1 ensures rs[1..][m].line != n {
      assert rs[1..][m] == rs[m + 1];
    }
  }

  /** Requests that all name other lines leave line `j + 1` as it was. */
  lemma {:induction false} ApplyAllUnnamed(cur: seq<CartItem>, rs: seq<ChangeRequest>, j: nat)
    requires LinesInRange(rs, |cur|) && j < |cur| && Unnamed(rs, j + 1)
    ensures ApplyAll(cur, rs)[j] == cur[j]
    decreases |rs|
  {
    if rs != [] {
      var next := ApplyRequest(cur, rs[0]);
      UnnamedRest(rs, j + 1);
      LinesInRangeRest(rs, |cur|);
      ApplyAllUnnamed(next, rs[1..], j);
    }
  }

  /**
   * Applying requests in strictly ascending line order, each resending its
   * line's quantity with the planned property set, turns the line the k-th
   * request names into its synced form.
   */
  lemma {:induction false} ApplyAllNamed(
    orig: seq<CartItem>, cur: seq<CartItem>, rs: seq<ChangeRequest>,
    plan: CartItem -> Option<map<string, string>>, k: nat)
    requires |cur| == |orig| && LinesInRange(rs, |orig|) && k < |rs|
    requires Ascending(rs) && Planned(orig, rs, plan) && Pending(cur, orig, rs)
    ensures ApplyAll(cur, rs)[rs[k].line - 1] == Synced(orig[rs[k].line - 1], plan)
    decreases |rs|
  {
    var rest, next := rs[1..], ApplyRequest(cur, rs[0]);
    ApplyRest(orig, cur, rs, plan);
    assert ApplyAll(cur, rs) == ApplyAll(next, rest);
    if k == 0 {
      ApplyFirst(orig, cur, rs, plan);
      FirstUnnamedLater(rs);
      ApplyAllUnnamed(next, rest, rs[0].line - 1);
    } else {
      assert rest[k - 1] == rs[k];
      ApplyAllNamed(orig, next, rest, plan, k - 1);
    }
  }

  /**
   * The requests of a pass go to distinct lines in ascending order, and each
   * resends its line's quantity with the property set planned for that line.
   */
  lemma {:induction false} RequestsOrdered(items: seq<CartItem>, plan: CartItem -> Option<map<string, string>>)
    ensures LinesInRange(Requests(items, plan), |items|)
    ensures Ascending(Requests(items, plan))
    ensures Planned(items, Requests(items, plan), plan)
  {
    CollectAscending(items, plan);
    CollectOwnLines(items, plan);
  }

  /** After the requests of a pass, line `j + 1` is in its synced form. */
  lemma {:induction false} SyncedAt(items: seq<CartItem>, plan: CartItem -> Option<map<string, string>>, j: nat)
    requires j < |items|
    ensures LinesInRange(Requests(items, plan), |items|)
    ensures ApplyAll(items, Requests(items, plan))[j] == Synced(items[j], plan)
  {
    var us := Collect(items, plan);
    CollectExactlyAt(items, plan, j + 1);
    if HasLine(us, j + 1) {
      var k := LineIndex(us, j + 1);
      SyncedAtTouched(items, plan, j, k);
    } else {
      SyncedAtUntouched(items, plan, j);
    }
  }

  /** The position of an update for line `n`. */
  lemma {:induction false} LineIndex(us: seq<Update>, n: nat) returns (k: nat)
    requires HasLine(us, n)
    ensures k < |us| && us[k].line == n
  {
    k :| 0 <= k < |us| && us[k].line == n;
  }

  /** A line some request names ends up synced. */
  lemma {:induction false} SyncedAtTouched(items: seq<CartItem>, plan: CartItem -> Option<map<string, string>>, j: nat, k: nat)
    requires j < |items| && k < |Collect(items, plan)| && Collect(items, plan)[k].line == j + 1
    ensures LinesInRange(Requests(items, plan), |items|)
    ensures ApplyAll(items, Requests(items, plan))[j] == Synced(items[j], plan)
  {
    var rs := Requests(items, plan);
    RequestsOrdered(items, plan);
    assert rs[k].line == j + 1;
    ApplyAllNamed(items, items, rs, plan, k);
  }

  /** A line no request names is left as it was, which is its synced form when nothing is planned for it. */
  lemma {:induction false} SyncedAtUntouched(items: seq<CartItem>, plan: CartItem -> Option<map<string, string>>, j: nat)
    requires j < |items| && !HasLine(Collect(items, plan), j + 1) && plan(items[j]).None?
    ensures LinesInRange(Requests(items, plan), |items|)
    ensures ApplyAll(items, Requests(items, plan))[j] == Synced(items[j], plan)
  {
    var us := Collect(items, plan);
    var rs := Requests(items, plan);
    RequestsOrdered(items, plan);
    assert Unnamed(rs, j + 1) by {
      assert forall k | 0 <= k < |rs| :: rs[k].line == us[k].line && us[k].line != j + 1;
    }
    ApplyAllUnnamed(items, rs, j);
  }

  /** After the requests of a pass, every line is in its synced form. */
  lemma {:induction false} ApplyRequestsSyncs(items: seq<CartItem>, plan: CartItem -> Option<map<string, string>>)
    ensures LinesInRange(Requests(items, plan), |items|)
    ensures forall j | 0 <= j < |items| :: ApplyAll(items, Requests(items, plan))[j] == Synced(items[j], plan)
  {
    RequestsOrdered(items, plan);
    forall j | 0 <= j < |items| ensures ApplyAll(items, Requests(items, plan))[j] == Synced(items[j], plan) {
      SyncedAt(items, plan, j);
    }
  }

  /**
   * When the planner leaves every synced line alone, a second pass over the
   * cart the first pass produced plans nothing.
   */
  lemma {:induction false} SecondPassEmpty(items: seq<CartItem>, plan: CartItem -> Option<map<string, string>>)
    requires forall item: CartItem :: plan(Synced(item, plan)).None?
    ensures LinesInRange(Requests(items, plan), |items|)
    ensures Collect(ApplyAll(items, Requests(items, plan)), plan) == []
  {
    ApplyRequestsSyncs(items, plan);
    var after := ApplyAll(items, Requests(items, plan));
    forall j | 0 <= j < |after| ensures plan(after[j]).None? {
      assert after[j] == Synced(items[j], plan);
    }
    CollectNone(after, plan);
  }

  /** Lifting a property set and reading a property back gives the value it holds. */
  lemma {:induction false} PropLift(m: map<string, string>, p: string)
    requires forall q | q in m :: m[q] != ""
    ensures Prop(Lift(m), p) == Get(m, p)
  {
  }

  /** The cached note of a line depends on its identity signals only, not on its properties. */
  lemma {:induction false} CachedNoteIgnoresProperties(item: CartItem, props: map<string, Option<string>>, notes: map<string, string>)
    ensures CachedNote(item.(properties := props), notes) == CachedNote(item, notes)
  {
    var s := item.(properties := props);
    assert s.key == item.key && s.sku == item.sku && s.productTitle == item.productTitle;
  }

  /** A line whose current room is its cached note needs no update. */
  lemma {:induction false} SettledWhenRoomIsCached(item: CartItem, notes: map<string, string>)
    requires CurrentRoom(item.properties) == CachedNote(item, notes)
    ensures !NeedsUpdate(item, notes)
  {
  }

  /** A synced line needs no further update. */
  lemma {:induction false} SyncedIsSettled(item: CartItem, notes: map<string, string>)
    ensures !NeedsUpdate(Synced(item, Planner(notes)), notes)
  {
    var o := NewProperties(item, notes);
    if o.Some? {
      var ps := o.value;
      var s := item.(properties := Lift(ps));
      assert Synced(item, Planner(notes)) == s;
      CachedNoteIgnoresProperties(item, Lift(ps), notes);
      PropLift(ps, RoomProperty);
      SettledWhenRoomIsCached(s, notes);
    }
  }

  /** Recomputing the updates for the cart the requests produced gives none: the pass is idempotent. */
  lemma {:induction false} SyncIdempotent(items: seq<CartItem>, notes: map<string, string>)
    ensures LinesInRange(Requests(items, Planner(notes)), |items|)
    ensures Updates(ApplyAll(items, Requests(items, Planner(notes))), notes) == []
  {
    forall item: CartItem ensures Planner(notes)(Synced(item, Planner(notes))).None? {
      SyncedIsSettled(item, notes);
    }
    SecondPassEmpty(items, Planner(notes));
  }
}
