/**
 * The storefront cart: a sequence of lines, one per ticket type, each with a
 * quantity, one name slot per seat and, for the table product, the table's
 * size and reservation name. The operations replace the cart with an updated
 * copy; checkout validates the cart and builds the order payload.
 */
module CartModel {
  import opened Wrappers
  import opened Text
  import opened Seqs
  import opened Attendees

  /** A catalogue entry. Prices are whole forints. */
  datatype Ticket = Ticket(id: string, title: string, desc: string, price: int)

  const Ball := Ticket("bal", "Báljegy", "Belépő a VorSilvester bálra – zene, tánc, élmény!", 6000)
  const Dinner := Ticket("vacsora", "Vacsorajegy", "Ültetett vacsora az eseményen.", 5000)
  const TableBooking := Ticket(TableTicket, "Asztalfoglalás", "Asztalfoglalás a társaságnak (alapértelmezés 6 fő).", 12000)
  /** The page's `TICKETS` list, in display order. */
  const Catalog := [Ball, Dinner, TableBooking]

  const MaxQty: nat := 10
  const DefaultTableSize := 6

  /**
   * A cart line: the ticket's fields, the quantity, the per-seat names and,
   * on the table line only, `tableSize` and `tableName` (None = field absent).
   */
  datatype Line = Line(
    id: string,
    title: string,
    desc: string,
    price: int,
    qty: nat,
    attendees: seq<string>,
    tableSize: Option<int>,
    tableName: Option<string>)

  function Min(a: int, b: int): int {
    if a <= b then a else b
  }

  /** `Math.max(1, Math.min(10, q))`. */
  function Clamp(q: int): (r: nat)
    ensures 1 <= r <= MaxQty
    ensures 1 <= q <= MaxQty ==> r == q
    ensures q < 1 ==> r == 1
    ensures q > MaxQty ==> r == MaxQty
  {
    if q < 1 then 1 else if q > MaxQty then MaxQty else q
  }

  /** `Number(size || dflt)`: an absent or zero size gives the default. */
  function SizeOr(size: Option<int>, dflt: int): int {
    if size.None? || size.value == 0 then dflt else size.value
  }

  /** `n` empty name slots. */
  function Blanks(n: nat): seq<string> {
    seq(n, _ => "")
  }

  /** `names`, grown with empty slots to at least `n` entries. */
  function Padded(names: seq<string>, n: nat): seq<string> {
    if |names| < n then names + Blanks(n - |names|) else names
  }

  /** `names.slice(0, n)` padded to `n` entries. */
  function Resized(names: seq<string>, n: nat): seq<string> {
    Padded(names[..Min(n, |names|)], n)
  }

  /** The padding loop `while (names.length < n) names.push("")`. */
  method PadNames(names: seq<string>, n: nat) returns (r: seq<string>)
    ensures r == Padded(names, n)
  {
    r := names;
    while |r| < n
      invariant |names| <= |r| <= if |names| < n then n else |names|
      invariant r == names + Blanks(|r| - |names|)
      decreases n - |r|
    {
      r := r + [""];
    }
  }

  /** Resizing keeps the retained prefix, fills new slots with "" and has exactly `n` slots. */
  lemma ResizedShape(names: seq<string>, n: nat)
    ensures |Resized(names, n)| == n
    ensures forall k :: 0 <= k < n && k < |names| ==> Resized(names, n)[k] == names[k]
    ensures forall k :: |names| <= k < n ==> Resized(names, n)[k] == ""
  {
  }

  /** The table fields a quantity change writes: on the table line `Number(tableSize || 6)` and `tableName || ""`. */
  function TableExtra(l: Line): (Option<int>, Option<string>) {
    if l.id == TableTicket
    then (Some(SizeOr(l.tableSize, DefaultTableSize)), Some(l.tableName.GetOr("")))
    else (l.tableSize, l.tableName)
  }

  /** A line with quantity `q`: names resized to `q`, table fields normalised. */
  function WithQty(l: Line, q: nat): Line {
    var extra := TableExtra(l);
    l.(qty := q, attendees := Resized(l.attendees, q), tableSize := extra.0, tableName := extra.1)
  }

  /** `r` is the same ticket as `l`: id, title, description and price are kept. */
  predicate SameTicket(l: Line, r: Line) {
    r.id == l.id && r.title == l.title && r.desc == l.desc && r.price == l.price
  }

  /**
   * The table fields after a quantity change: the table line gets
   * `Number(tableSize || 6)` and `tableName || ""`; any other line keeps its
   * own (absent) table fields.
   */
  predicate TableFieldsNormalised(l: Line, r: Line) {
    if l.id == TableTicket then
      r.tableSize == Some(SizeOr(l.tableSize, DefaultTableSize)) && r.tableName == Some(l.tableName.GetOr(""))
    else
      r.tableSize == l.tableSize && r.tableName == l.tableName
  }

  /** `prev.findIndex(x => x.id === id)`. */
  function FindIndex(lines: seq<Line>, id: string): (i: int)
    ensures -1 <= i < |lines|
    ensures i >= 0 ==> lines[i].id == id && forall j :: 0 <= j < i ==> lines[j].id != id
    ensures i < 0 ==> forall j :: 0 <= j < |lines| ==> lines[j].id != id
  {
    if lines == [] then -1
    else if lines[0].id == id then 0
    else
      var i := FindIndex(lines[1..], id);
      if i < 0 then -1 else i + 1
  }

  /** The line `add` creates for a ticket that is not yet in the cart. */
  function NewLine(t: Ticket): Line {
    var table := t.id == TableTicket;
    Line(t.id, t.title, t.desc, t.price, 1, [""],
         if table then Some(DefaultTableSize) else None,
         if table then Some("") else None)
  }

  /** The cart after `add(t)`. */
  function Added(lines: seq<Line>, t: Ticket): seq<Line> {
    var i := FindIndex(lines, t.id);
    if i >= 0 then lines[i := WithQty(lines[i], Min(MaxQty, lines[i].qty + 1))]
    else lines + [NewLine(t)]
  }

  /** One line after `changeQty(id, d)`. */
  function LineQtyChanged(l: Line, id: string, d: int): Line {
    if l.id != id then l else WithQty(l, Clamp(l.qty + d))
  }

  /** The cart after `changeQty(id, d)`. */
  function QtyChanged(lines: seq<Line>, id: string, d: int): seq<Line> {
    seq(|lines|, k requires 0 <= k < |lines| => LineQtyChanged(lines[k], id, d))
  }

  /** The filter predicate of `removeItem(id)`. */
  function KeepOther(id: string): Line -> bool {
    (l: Line) => l.id != id
  }

  /** The cart after `removeItem(id)`. */
  function Removed(lines: seq<Line>, id: string): seq<Line> {
    Filter(lines, KeepOther(id))
  }

  /**
   * A name list after `setAttendeeName(_, index, value)`: padded to `qty`,
   * then `names[index] = value`. A negative index writes no element; an index
   * past the end extends the list (the holes JavaScript leaves are modelled as "").
   */
  function WithSlot(names: seq<string>, qty: nat, index: int, value: string): seq<string> {
    var padded := Padded(names, qty);
    if index < 0 then padded
    else if index < |padded| then padded[index := value]
    else padded + Blanks(index - |padded|) + [value]
  }

  /** One line after `setAttendeeName(id, index, value)`. */
  function LineNameSet(l: Line, id: string, index: int, value: string): Line {
    if l.id != id then l else l.(attendees := WithSlot(l.attendees, l.qty, index, value))
  }

  /** The cart after `setAttendeeName(id, index, value)`. */
  function NameSet(lines: seq<Line>, id: string, index: int, value: string): seq<Line> {
    seq(|lines|, k requires 0 <= k < |lines| => LineNameSet(lines[k], id, index, value))
  }

  /**
   * The two fields `setTableField` edits. A size input is the number typed
   * (None for an empty input); a name input is stored as typed.
   */
  datatype TableEdit = SizeInput(input: Option<int>) | NameInput(name: string)

  /** One line after `setTableField(id, edit)`: only the table line with that id changes. */
  function LineTableEdited(l: Line, id: string, edit: TableEdit): Line {
    if l.id != id || l.id != TableTicket then l
    else match edit
      case SizeInput(v) => l.(tableSize := Some(if v.GetOr(1) < 1 then 1 else v.GetOr(1)))
      case NameInput(s) => l.(tableName := Some(s))
  }

  /** The cart after `setTableField(id, edit)`. */
  function TableSet(lines: seq<Line>, id: string, edit: TableEdit): seq<Line> {
    seq(|lines|, k requires 0 <= k < |lines| => LineTableEdited(lines[k], id, edit))
  }

  /** What one line adds to the total. */
  function Amount(l: Line): int {
    l.price * l.qty
  }

  /** `cart.reduce((s, x) => s + x.price * x.qty, 0)`. */
  function Total(lines: seq<Line>): int {
    if lines == [] then 0 else Total(lines[..|lines| - 1]) + Amount(lines[|lines| - 1])
  }

  // ---- Cart invariant ----

  /** A line as the operations keep it. */
  predicate LineOk(l: Line) {
    && 1 <= l.qty <= MaxQty
    && |l.attendees| == l.qty
    && (if l.id == TableTicket
        then l.tableSize.Some? && l.tableSize.value >= 1 && l.tableName.Some?
        else l.tableSize.None? && l.tableName.None?)
  }

  predicate DistinctIds(lines: seq<Line>) {
    forall j, k :: 0 <= j < k < |lines| ==> lines[j].id != lines[k].id
  }

  /** The cart invariant: at most one line per ticket, every line well formed. */
  predicate WellFormed(lines: seq<Line>) {
    DistinctIds(lines) && forall k :: 0 <= k < |lines| ==> LineOk(lines[k])
  }

  // ---- Checkout ----

  /** A line that passes the checkout check. */
  predicate LineComplete(l: Line) {
    if l.id != TableTicket then
      |l.attendees| >= l.qty && forall j :: 0 <= j < l.qty ==> HasVisibleChar(l.attendees[j])
    else
      l.tableName.Some? && HasVisibleChar(l.tableName.value) && SizeOr(l.tableSize, 0) >= 1
  }

  /** The order body the client posts. */
  datatype OrderPayload = OrderPayload(
    name: string,
    email: string,
    items: string,
    attendees: seq<Group>,
    note: string,
    total: int,
    createdAt: string)

  /** Why checkout stopped, or the payload it submits. */
  datatype CheckoutOutcome =
    | MissingDetails                       // name, e-mail or at least one line missing
    | MissingNames(at: nat, title: string) // a ticket line with an unnamed seat
    | MissingTableDetails(at: nat)         // the table line without size or name
    | Submit(order: OrderPayload)

  /** `(x.attendees || []).slice(0, x.qty)`. */
  function SeatNames(l: Line): seq<string> {
    l.attendees[..Min(l.qty, |l.attendees|)]
  }

  /** One line of the `items` summary. */
  function ItemText(l: Line): string {
    if l.id == TableTicket then
      l.title + " (" + IntToString(l.qty) + " db, " + IntToString(SizeOr(l.tableSize, DefaultTableSize))
        + " fő, név: " + l.tableName.GetOr("") + ")"
    else
      l.title + " (" + IntToString(l.qty) + " db)"
  }

  /** The attendee group snapshot of one line. */
  function GroupOf(l: Line): Group {
    var table := l.id == TableTicket;
    Group(l.id, l.title, Some(SeatNames(l)), None,
          if table then Some(l.tableName.GetOr("")) else None,
          if table then Some(SizeOr(l.tableSize, DefaultTableSize)) else None)
  }

  /** The order payload `handleCheckout` builds; `now` is the client's current time. */
  function Payload(lines: seq<Line>, name: string, email: string, note: string, now: string): OrderPayload {
    OrderPayload(
      name, email,
      Join(seq(|lines|, k requires 0 <= k < |lines| => ItemText(lines[k])), ", "),
      seq(|lines|, k requires 0 <= k < |lines| => GroupOf(lines[k])),
      note, Total(lines), now)
  }

  // ---- The cart object ----

  class Cart {
    var lines: seq<Line>

    ghost predicate Valid()
      reads this
    {
      WellFormed(lines)
    }

    constructor ()
      ensures lines == [] && Valid()
    {
      lines := [];
    }

    /** `add(t)`. */
    method Add(t: Ticket)
      modifies this
      ensures lines == Added(old(lines), t)
      ensures old(Valid()) ==> Valid()
    {
      var i := FindIndex(lines, t.id);
      if i >= 0 {
        var x := lines[i];
        var newQty := Min(MaxQty, x.qty + 1);
        var names := PadNames(x.attendees[..Min(newQty, |x.attendees|)], newQty);
        var extra := TableExtra(x);
        lines := lines[i := x.(qty := newQty, attendees := names, tableSize := extra.0, tableName := extra.1)];
      } else {
        lines := lines + [NewLine(t)];
      }
      AddPreservesWellFormed(old(lines), t);
    }

    /** `changeQty(id, d)`. */
    method ChangeQty(id: string, d: int)
      modifies this
      ensures lines == QtyChanged(old(lines), id, d)
      ensures old(Valid()) ==> Valid()
    {
      var cur := lines;
      var next: seq<Line> := [];
      for k := 0 to |cur|
        invariant |next| == k
        invariant forall j :: 0 <= j < k ==> next[j] == LineQtyChanged(cur[j], id, d)
      {
        var x := cur[k];
        if x.id != id {
          next := next + [x];
        } else {
          var newQty := Clamp(x.qty + d);
          var names := PadNames(x.attendees[..Min(newQty, |x.attendees|)], newQty);
          var extra := TableExtra(x);
          next := next + [x.(qty := newQty, attendees := names, tableSize := extra.0, tableName := extra.1)];
        }
      }
      lines := next;
      QtyChangedPreservesWellFormed(cur, id, d);
    }

    /** `removeItem(id)`. */
    method RemoveItem(id: string)
      modifies this
      ensures lines == Removed(old(lines), id)
      ensures old(Valid()) ==> Valid()
    {
      lines := Removed(lines, id);
      RemovedPreservesWellFormed(old(lines), id);
    }

    /** `setAttendeeName(id, index, value)`. */
    method SetAttendeeName(id: string, index: int, value: string)
      modifies this
      ensures lines == NameSet(old(lines), id, index, value)
      ensures old(Valid()) && SlotInRange(old(lines), id, index) ==> Valid()
    {
      var cur := lines;
      var next: seq<Line> := [];
      for k := 0 to |cur|
        invariant |next| == k
        invariant forall j :: 0 <= j < k ==> next[j] == LineNameSet(cur[j], id, index, value)
      {
        var x := cur[k];
        if x.id != id {
          next := next + [x];
        } else {
          var names := PadNames(x.attendees, x.qty);
          if 0 <= index < |names| {
            names := names[index := value];
          } else if index >= |names| {
            names := names + Blanks(index - |names|) + [value];
          }
          next := next + [x.(attendees := names)];
        }
      }
      lines := next;
      NameSetPreservesWellFormed(cur, id, index, value);
    }

    /** `setTableField(id, field, value)`. */
    method SetTableField(id: string, edit: TableEdit)
      modifies this
      ensures lines == TableSet(old(lines), id, edit)
      ensures old(Valid()) ==> Valid()
    {
      var cur := lines;
      var next: seq<Line> := [];
      for k := 0 to |cur|
        invariant |next| == k
        invariant forall j :: 0 <= j < k ==> next[j] == LineTableEdited(cur[j], id, edit)
      {
        var x := cur[k];
        if x.id != id || x.id != TableTicket {
          next := next + [x];
        } else {
          match edit
          case SizeInput(v) =>
            var n := v.GetOr(1);
            next := next + [x.(tableSize := Some(if n < 1 then 1 else n))];
          case NameInput(s) =>
            next := next + [x.(tableName := Some(s))];
        }
      }
      lines := next;
      TableSetPreservesWellFormed(cur, id, edit);
    }

    /**
     * `handleCheckout`: rejects a missing name, e-mail or empty cart, then
     * stops at the first incomplete line; otherwise submits the payload.
     */
    method Checkout(name: string, email: string, note: string, now: string) returns (r: CheckoutOutcome)
      ensures r.MissingDetails? <==> email == "" || name == "" || lines == []
      ensures r.MissingNames? ==>
        && r.at < |lines| && lines[r.at].id != TableTicket && r.title == lines[r.at].title
        && !LineComplete(lines[r.at]) && forall j :: 0 <= j < r.at ==> LineComplete(lines[j])
      ensures r.MissingTableDetails? ==>
        && r.at < |lines| && lines[r.at].id == TableTicket
        && !LineComplete(lines[r.at]) && forall j :: 0 <= j < r.at ==> LineComplete(lines[j])
      ensures r.Submit? <==>
        email != "" && name != "" && lines != [] && forall k :: 0 <= k < |lines| ==> LineComplete(lines[k])
      ensures r.Submit? ==> r.order == Payload(lines, name, email, note, now)
    {
      if email == "" || name == "" || |lines| == 0 {
        return MissingDetails;
      }
      for k := 0 to |lines|
        invariant forall j :: 0 <= j < k ==> LineComplete(lines[j])
      {
        var ok := CheckLine(lines[k]);
        if !ok {
          if lines[k].id != TableTicket {
            return MissingNames(k, lines[k].title);
          }
          return MissingTableDetails(k);
        }
      }
      r := Submit(Payload(lines, name, email, note, now));
    }
  }

  /**
   * One pass of `handleCheckout`'s loop: a ticket line needs `qty` name slots,
   * none blank after trimming; the table line needs a non-blank name and a size of at least 1.
   */
  method CheckLine(item: Line) returns (ok: bool)
    ensures ok <==> LineComplete(item)
  {
    if item.id != TableTicket {
      var names := item.attendees[..Min(item.qty, |item.attendees|)];
      if |names| != item.qty {
        return false;
      }
      forall j | 0 <= j < |names| ensures IsBlank(names[j]) <==> !HasVisibleChar(item.attendees[j]) {
        BlankIffNoVisibleChar(names[j]);
      }
      ok := !exists j | 0 <= j < |names| :: IsBlank(names[j]);
    } else {
      var size := SizeOr(item.tableSize, 0);
      if item.tableName.None? {
        return false;
      }
      BlankIffNoVisibleChar(item.tableName.value);
      ok := !IsBlank(item.tableName.value) && size != 0 && size >= 1;
    }
  }

  /** The names of a line that `setAttendeeName` can write without growing the list past `qty`. */
  predicate SlotInRange(lines: seq<Line>, id: string, index: int) {
    forall k :: 0 <= k < |lines| && lines[k].id == id ==> index < lines[k].qty
  }

  // ---- Lemmas: what each operation does ----

  /**
   * A quantity change keeps everything but the quantity, the names and the
   * table fields; the names follow the new quantity, keeping the retained
   * prefix and padding with "".
   */
  lemma WithQtyShape(l: Line, q: nat)
    ensures var r := WithQty(l, q);
      && SameTicket(l, r) && TableFieldsNormalised(l, r)
      && r.qty == q && |r.attendees| == q
      && (forall k :: 0 <= k < q && k < |l.attendees| ==> r.attendees[k] == l.attendees[k])
      && (forall k :: |l.attendees| <= k < q ==> r.attendees[k] == "")
  {
    ResizedShape(l.attendees, q);
  }

  /**
   * `add` on a ticket already in the cart: no new line, positions kept, the
   * line's quantity rises by one but not above 10, its names follow the
   * quantity, and every other line is unchanged.
   */
  lemma AddExisting(lines: seq<Line>, t: Ticket, k: nat)
    requires k < |lines| && lines[k].id == t.id
    requires forall j :: 0 <= j < k ==> lines[j].id != t.id
    ensures var r := Added(lines, t);
      && |r| == |lines|
      && (forall j :: 0 <= j < |lines| && j != k ==> r[j] == lines[j])
      && SameTicket(lines[k], r[k]) && TableFieldsNormalised(lines[k], r[k])
      && r[k].qty == Min(MaxQty, lines[k].qty + 1)
      && |r[k].attendees| == r[k].qty
      && (forall j :: 0 <= j < r[k].qty && j < |lines[k].attendees| ==> r[k].attendees[j] == lines[k].attendees[j])
      && (forall j :: |lines[k].attendees| <= j < r[k].qty ==> r[k].attendees[j] == "")
  {
    assert FindIndex(lines, t.id) == k;
    WithQtyShape(lines[k], Min(MaxQty, lines[k].qty + 1));
  }

  /**
   * `add` on a ticket not in the cart appends exactly one line: quantity 1,
   * one empty name slot, and for the table product size 6 and an empty name.
   */
  lemma AddNew(lines: seq<Line>, t: Ticket)
    requires forall j :: 0 <= j < |lines| ==> lines[j].id != t.id
    ensures var r := Added(lines, t);
      && |r| == |lines| + 1 && r[..|lines|] == lines
      && r[|lines|].id == t.id && r[|lines|].title == t.title && r[|lines|].desc == t.desc
      && r[|lines|].price == t.price
      && r[|lines|].qty == 1 && r[|lines|].attendees == [""]
      && (t.id == TableTicket ==> r[|lines|].tableSize == Some(6) && r[|lines|].tableName == Some(""))
      && (t.id != TableTicket ==> r[|lines|].tableSize.None? && r[|lines|].tableName.None?)
  {
    assert FindIndex(lines, t.id) < 0;
    assert (lines + [NewLine(t)])[..|lines|] == lines;
  }

  /**
   * `changeQty(id, d)`: matching lines get quantity `max(1, min(10, qty + d))`
   * and names of that length, keeping the retained prefix; other lines are unchanged.
   */
  lemma ChangeQtyEffect(lines: seq<Line>, id: string, d: int)
    ensures var r := QtyChanged(lines, id, d);
      && |r| == |lines|
      && (forall k :: 0 <= k < |lines| && lines[k].id != id ==> r[k] == lines[k])
      && (forall k :: 0 <= k < |lines| && lines[k].id == id ==>
            && SameTicket(lines[k], r[k]) && TableFieldsNormalised(lines[k], r[k])
            && r[k].qty == Clamp(lines[k].qty + d) && 1 <= r[k].qty <= MaxQty
            && |r[k].attendees| == r[k].qty
            && (forall j :: 0 <= j < r[k].qty && j < |lines[k].attendees| ==> r[k].attendees[j] == lines[k].attendees[j])
            && (forall j :: |lines[k].attendees| <= j < r[k].qty ==> r[k].attendees[j] == ""))
  {
    forall k | 0 <= k < |lines| && lines[k].id == id
      ensures var r := QtyChanged(lines, id, d);
        && SameTicket(lines[k], r[k]) && TableFieldsNormalised(lines[k], r[k])
        && |r[k].attendees| == r[k].qty
    {
      WithQtyShape(lines[k], Clamp(lines[k].qty + d));
    }
  }

  /** `removeItem(id)` leaves exactly the lines with another id, in their original order. */
  lemma RemoveItemEffect(lines: seq<Line>, id: string, l: Line, a: seq<Line>, b: seq<Line>)
    ensures l in Removed(lines, id) <==> l in lines && l.id != id
    ensures forall k :: 0 <= k < |Removed(lines, id)| ==> Removed(lines, id)[k].id != id
    ensures Removed(a + b, id) == Removed(a, id) + Removed(b, id)
  {
    FilterMembership(lines, KeepOther(id), l);
    FilterAppend(a, b, KeepOther(id));
  }

  /**
   * `setAttendeeName(id, index, value)` on a line whose names already number
   * `qty`, with `0 <= index < qty`: only slot `index` of the matching lines
   * changes; other slots and other lines are unchanged.
   */
  lemma SetAttendeeNameEffect(lines: seq<Line>, id: string, index: int, value: string)
    requires forall k :: 0 <= k < |lines| && lines[k].id == id ==> 0 <= index < lines[k].qty == |lines[k].attendees|
    ensures var r := NameSet(lines, id, index, value);
      && |r| == |lines|
      && (forall k :: 0 <= k < |lines| && lines[k].id != id ==> r[k] == lines[k])
      && (forall k :: 0 <= k < |lines| && lines[k].id == id ==>
            r[k] == lines[k].(attendees := lines[k].attendees[index := value]))
  {
  }

  /**
   * The general case: the names are padded to at least `qty`, a non-negative
   * index gets `value`, and every other existing slot keeps its name.
   */
  lemma WithSlotShape(names: seq<string>, qty: nat, index: int, value: string)
    ensures var r := WithSlot(names, qty, index, value);
      && |r| >= qty && |r| >= |names|
      && (index >= 0 ==> index < |r| && r[index] == value)
      && (forall k :: 0 <= k < |names| && k != index ==> r[k] == names[k])
      && (forall k :: |names| <= k < |r| && k != index ==> r[k] == "")
  {
  }

  /**
   * `setTableField`: lines other than the table line are unchanged; the table
   * line keeps its ticket, quantity and names, a size edit stores the input when
   * it is at least 1 and exactly 1 otherwise, and a name edit stores the name verbatim.
   */
  lemma SetTableFieldEffect(lines: seq<Line>, id: string, edit: TableEdit)
    ensures var r := TableSet(lines, id, edit);
      && |r| == |lines|
      && (forall k :: 0 <= k < |lines| && (lines[k].id != id || lines[k].id != TableTicket) ==> r[k] == lines[k])
      && (forall k :: 0 <= k < |lines| && lines[k].id == id == TableTicket ==>
            && SameTicket(lines[k], r[k])
            && r[k].qty == lines[k].qty && r[k].attendees == lines[k].attendees
            && (edit.SizeInput? ==>
                  r[k].tableName == lines[k].tableName
                  && (edit.input.Some? && edit.input.value >= 1 ==> r[k].tableSize == edit.input)
                  && (edit.input.None? || edit.input.value < 1 ==> r[k].tableSize == Some(1)))
            && (edit.NameInput? ==> r[k].tableSize == lines[k].tableSize && r[k].tableName == Some(edit.name)))
  {
  }

  // ---- Lemmas: the cart invariant is preserved ----

  lemma AddPreservesWellFormed(lines: seq<Line>, t: Ticket)
    ensures WellFormed(lines) ==> WellFormed(Added(lines, t))
  {
    if WellFormed(lines) {
      var i := FindIndex(lines, t.id);
      if i >= 0 {
        WithQtyShape(lines[i], Min(MaxQty, lines[i].qty + 1));
      } else {
        var r := Added(lines, t);
        assert forall k :: 0 <= k < |lines| ==> r[k] == lines[k];
      }
    }
  }

  lemma QtyChangedPreservesWellFormed(lines: seq<Line>, id: string, d: int)
    ensures WellFormed(lines) ==> WellFormed(QtyChanged(lines, id, d))
  {
    ChangeQtyEffect(lines, id, d);
  }

  lemma {:induction false} RemovedPreservesWellFormed(lines: seq<Line>, id: string)
    ensures WellFormed(lines) ==> WellFormed(Removed(lines, id))
  {
    if WellFormed(lines) && lines != [] {
      var rest := lines[1..];
      assert WellFormed(rest) by {
        assert forall k :: 0 <= k < |rest| ==> rest[k] == lines[k + 1];
      }
      RemovedPreservesWellFormed(rest, id);
      var tail := Removed(rest, id);
      forall k | 0 <= k < |tail| ensures tail[k].id != lines[0].id {
        FilterMembership(rest, KeepOther(id), tail[k]);
      }
      assert Removed(lines, id) == (if lines[0].id != id then [lines[0]] else []) + tail;
    }
  }

  lemma NameSetPreservesWellFormed(lines: seq<Line>, id: string, index: int, value: string)
    ensures WellFormed(lines) && SlotInRange(lines, id, index) ==> WellFormed(NameSet(lines, id, index, value))
  {
  }

  lemma TableSetPreservesWellFormed(lines: seq<Line>, id: string, edit: TableEdit)
    ensures WellFormed(lines) ==> WellFormed(TableSet(lines, id, edit))
  {
  }

  // ---- Lemmas: the total ----

  /** The total of a concatenation is the sum of the totals. */
  lemma {:induction false} TotalAppend(a: seq<Line>, b: seq<Line>)
    ensures Total(a + b) == Total(a) + Total(b)
  {
    if b == [] {
      assert a + b == a;
    } else {
      assert (a + b)[..|a + b| - 1] == a + b[..|b| - 1];
      TotalAppend(a, b[..|b| - 1]);
    }
  }

  /** Appending one line adds its amount. */
  lemma TotalSnoc(lines: seq<Line>, l: Line)
    ensures Total(lines + [l]) == Total(lines) + Amount(l)
  {
    assert (lines + [l])[..|lines|] == lines;
  }

  /** Replacing one line changes the total by the difference of the two lines' amounts. */
  lemma TotalUpdate(lines: seq<Line>, i: nat, l: Line)
    requires i < |lines|
    ensures Total(lines[i := l]) == Total(lines) - Amount(lines[i]) + Amount(l)
  {
    var pre, post := lines[..i], lines[i + 1..];
    assert lines == (pre + [lines[i]]) + post;
    assert lines[i := l] == (pre + [l]) + post;
    TotalAppend(pre + [lines[i]], post);
    TotalAppend(pre + [l], post);
    TotalSnoc(pre, lines[i]);
    TotalSnoc(pre, l);
  }

  /**
   * Adding a ticket raises the total by its price, unless its line is already
   * at the maximum quantity of 10, when the total is unchanged.
   */
  lemma TotalAfterAdd(lines: seq<Line>, t: Ticket)
    requires forall k :: 0 <= k < |lines| && lines[k].id == t.id ==> lines[k].price == t.price && lines[k].qty <= MaxQty
    ensures var i := FindIndex(lines, t.id);
      Total(Added(lines, t)) == Total(lines) + (if i >= 0 && lines[i].qty == MaxQty then 0 else t.price)
  {
    var i := FindIndex(lines, t.id);
    if i >= 0 {
      var l := WithQty(lines[i], Min(MaxQty, lines[i].qty + 1));
      assert Added(lines, t) == lines[i := l];
      TotalUpdate(lines, i, l);
      BumpAmount(lines[i]);
    } else {
      TotalSnoc(lines, NewLine(t));
    }
  }

  /** Raising a line's quantity by one, capped at 10, adds its price unless it is at 10 already. */
  lemma BumpAmount(l: Line)
    requires l.qty <= MaxQty
    ensures Amount(WithQty(l, Min(MaxQty, l.qty + 1))) == Amount(l) + (if l.qty == MaxQty then 0 else l.price)
  {
  }

  /** Removing a ticket's line lowers the total by exactly that line's amount. */
  lemma TotalAfterRemove(lines: seq<Line>, k: nat)
    requires DistinctIds(lines) && k < |lines|
    ensures Total(Removed(lines, lines[k].id)) == Total(lines) - Amount(lines[k])
  {
    RemovedSplit(lines, k);
    var pre, post := lines[..k], lines[k + 1..];
    assert lines == (pre + [lines[k]]) + post;
    TotalAppend(pre, post);
    TotalAppend(pre + [lines[k]], post);
    TotalSnoc(pre, lines[k]);
  }

  /** With distinct ids, removing line `k`'s id removes exactly that line. */
  lemma RemovedSplit(lines: seq<Line>, k: nat)
    requires DistinctIds(lines) && k < |lines|
    ensures Removed(lines, lines[k].id) == lines[..k] + lines[k + 1..]
  {
    var id := lines[k].id;
    forall j | 0 <= j < k ensures KeepOther(id)(lines[j]) {
    }
    forall j | k < j < |lines| ensures KeepOther(id)(lines[j]) {
    }
    FilterOmitsOne(lines, k, KeepOther(id));
  }

  /** With non-negative prices the total is never negative. */
  lemma {:induction false} TotalNonNegative(lines: seq<Line>)
    requires forall k :: 0 <= k < |lines| ==> lines[k].price >= 0
    ensures Total(lines) >= 0
  {
    if lines != [] {
      TotalNonNegative(lines[..|lines| - 1]);
    }
  }

  // ---- Lemmas: the payload ----

  /**
   * The payload of a cart that passed checkout: one attendee group per line,
   * in cart order, each with the line's id and title and the line's first
   * `qty` names; every name of a ticket line shows something; `items` is
   * non-empty and `total` is the cart total.
   */
  lemma PayloadOfCompleteCart(lines: seq<Line>, name: string, email: string, note: string, now: string)
    requires lines != []
    requires forall k :: 0 <= k < |lines| ==> LineComplete(lines[k])
    ensures var p := Payload(lines, name, email, note, now);
      && p.name == name && p.email == email && p.note == note && p.total == Total(lines)
      && p.createdAt == now
      && p.items != ""
      && |p.attendees| == |lines|
      && forall k :: 0 <= k < |lines| ==>
           && p.attendees[k].ticketId == lines[k].id && p.attendees[k].title == lines[k].title
           && p.attendees[k].names == Some(lines[k].attendees[..Min(lines[k].qty, |lines[k].attendees|)])
           && (|lines[k].attendees| >= lines[k].qty ==> p.attendees[k].names == Some(lines[k].attendees[..lines[k].qty]))
           && (lines[k].id != TableTicket ==>
                 && |lines[k].attendees| >= lines[k].qty
                 && p.attendees[k].names == Some(lines[k].attendees[..lines[k].qty])
                 && forall j :: 0 <= j < lines[k].qty ==> HasVisibleChar(p.attendees[k].names.value[j]))
           && (lines[k].id == TableTicket ==>
                 && p.attendees[k].tableName == lines[k].tableName
                 && p.attendees[k].tableSize == Some(SizeOr(lines[k].tableSize, DefaultTableSize)))
  {
    var texts := seq(|lines|, k requires 0 <= k < |lines| => ItemText(lines[k]));
    forall k | 0 <= k < |texts| ensures texts[k] != "" {
      assert |ItemText(lines[k])| >= |lines[k].title + " ("|;
    }
    JoinEmptyIff(texts, ", ");
  }
}
