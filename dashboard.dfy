/** The admin dashboard's data: the loader's projection of orders joined with
    their parts, and the status badge configuration. */
module Dashboard {
  import opened Seqs
  import opened Text
  import opened Schema
  import opened Storage
  import opened OrderForm
  import opened OrderSubmit

  /** One row of the dashboard table. */
  datatype ListedOrder = ListedOrder(
    id: int, customerName: string, mechanicName: string, parts: string,
    status: OrderStatus, createdAt: string)

  /** The fetched parts that belong to order `orderId`, in fetch order. */
  function PartsOf(parts: seq<OrderPart>, orderId: int): seq<OrderPart>
  {
    Filter(parts, (p: OrderPart) => p.orderId == orderId)
  }

  /** One part as the table shows it: `name (Nx)`. */
  function RenderPart(p: OrderPart): string
  {
    p.name + " (" + IntToString(p.quantity) + "x)"
  }

  function RenderParts(ps: seq<OrderPart>): (r: seq<string>)
    ensures |r| == |ps| && forall i :: 0 <= i < |ps| ==> r[i] == RenderPart(ps[i])
  {
    if ps == [] then [] else [RenderPart(ps[0])] + RenderParts(ps[1..])
  }

  /** The parts cell: the rendered parts joined by ", ", or "No parts" when the join is empty. */
  function PartsSummary(ps: seq<OrderPart>): string
  {
    var joined := Join(RenderParts(ps), ", ");
    if joined == "" then "No parts" else joined
  }

  /** The table row of one order. */
  function Project(o: Order, parts: seq<OrderPart>): ListedOrder
  {
    ListedOrder(o.id, o.customerName, o.mechanicName, PartsSummary(PartsOf(parts, o.id)), o.status, o.createdAt)
  }

  /** The loader's result: one row per fetched order, in fetch order, whatever
      the number of its parts. */
  function ListOrders(orders: seq<Order>, parts: seq<OrderPart>): (r: seq<ListedOrder>)
    ensures |r| == |orders|
    ensures forall i :: 0 <= i < |orders| ==> r[i] == Project(orders[i], parts)
  {
    if orders == [] then [] else [Project(orders[0], parts)] + ListOrders(orders[1..], parts)
  }

  /** A part's rendering is never empty and ends in "x)". */
  lemma RenderPartShape(p: OrderPart)
    ensures var s := RenderPart(p); |s| >= 2 && s[|s| - 2..] == "x)"
  {
    var s := RenderPart(p);
    assert s == (p.name + " (" + IntToString(p.quantity)) + "x)";
  }

  /** The parts cell reads "No parts" exactly when the order has no part: a
      rendered part never joins to the empty text, nor to "No parts". */
  lemma {:induction false} NoPartsIffEmpty(ps: seq<OrderPart>)
    ensures PartsSummary(ps) == "No parts" <==> ps == []
    ensures ps != [] ==> PartsSummary(ps) == Join(RenderParts(ps), ", ")
  {
    if ps != [] {
      var items := RenderParts(ps);
      var joined := Join(items, ", ");
      var last := items[|items| - 1];
      JoinEndsWithLast(items, ", ");
      RenderPartShape(ps[|ps| - 1]);
      assert joined[|joined| - 2..] == last[|last| - 2..] by {
        assert joined[|joined| - |last|..] == last;
        assert joined[|joined| - 2..] == joined[|joined| - |last|..][|last| - 2..];
      }
      assert "No parts"[6..] == "ts";
      assert joined != "";
    }
  }

  /** The parts cell of a single part is that part's rendering. */
  lemma SinglePartSummary(p: OrderPart)
    ensures PartsSummary([p]) == RenderPart(p)
  {
    NoPartsIffEmpty([p]);
  }

  /** Rendering examples: one part, two parts in fetch order, no part. */
  lemma SummaryExamples()
    ensures PartsSummary([OrderPart(1, 7, "Brake Pad", "front", 2)]) == "Brake Pad (2x)"
    ensures PartsSummary([OrderPart(1, 7, "A", "", 1), OrderPart(2, 7, "B", "", 3)]) == "A (1x), B (3x)"
    ensures PartsSummary([]) == "No parts"
  {
    assert IntToString(2) == "2" && IntToString(1) == "1" && IntToString(3) == "3";
    var a := OrderPart(1, 7, "A", "", 1);
    var b := OrderPart(2, 7, "B", "", 3);
    assert RenderPart(a) == "A (1x)" && RenderPart(b) == "B (3x)";
    assert RenderParts([a, b]) == ["A (1x)", "B (3x)"];
    assert Join(["A (1x)", "B (3x)"], ", ") == "A (1x)" + ", " + "B (3x)";
  }

  /** An order's parts are exactly the fetched parts with its id, in fetch order. */
  lemma PartsOfExactly(parts: seq<OrderPart>, orderId: int, extra: seq<OrderPart>)
    ensures forall p :: p in PartsOf(parts, orderId) <==> p in parts && p.orderId == orderId
    ensures PartsOf(parts + extra, orderId) == PartsOf(parts, orderId) + PartsOf(extra, orderId)
  {
    FilterAppend(parts, extra, (p: OrderPart) => p.orderId == orderId);
  }

  /** Each row copies id, customer name, mechanic name, status and creation time
      from its order, and shows the order's own parts. */
  lemma ListedRowsCopyOrders(orders: seq<Order>, parts: seq<OrderPart>, i: int)
    requires 0 <= i < |orders|
    ensures var row := ListOrders(orders, parts)[i]; var o := orders[i];
      && row.id == o.id && row.customerName == o.customerName && row.mechanicName == o.mechanicName
      && row.status == o.status && row.createdAt == o.createdAt
      && (row.parts == "No parts" <==> !exists p :: p in parts && p.orderId == o.id)
  {
    var ps := PartsOf(parts, orders[i].id);
    NoPartsIffEmpty(ps);
    if ps != [] { assert ps[0] in ps; }
  }

  /** Listing more orders appends their rows. */
  lemma {:induction false} ListOrdersAppend(orders: seq<Order>, more: seq<Order>, parts: seq<OrderPart>)
    ensures ListOrders(orders + more, parts) == ListOrders(orders, parts) + ListOrders(more, parts)
  {
    var l := ListOrders(orders + more, parts);
    var r := ListOrders(orders, parts) + ListOrders(more, parts);
    assert |l| == |r|;
    forall i | 0 <= i < |l| ensures l[i] == r[i] {
      if i < |orders| {
        assert (orders + more)[i] == orders[i];
      } else {
        assert (orders + more)[i] == more[i - |orders|];
      }
    }
  }

  /** Adding an order with a fresh id together with one part of it adds exactly one
      row, showing that part, and leaves every earlier row as it was. */
  lemma ListingAddsFreshOrder(orders: seq<Order>, parts: seq<OrderPart>, o: Order, p: OrderPart)
    requires forall x :: x in orders ==> x.id != o.id
    requires forall q :: q in parts ==> q.orderId != o.id
    requires p.orderId == o.id
    ensures ListOrders(orders + [o], parts + [p]) == ListOrders(orders, parts) +
      [ListedOrder(o.id, o.customerName, o.mechanicName, RenderPart(p), o.status, o.createdAt)]
  {
    ListOrdersAppend(orders, [o], parts + [p]);
    var before := ListOrders(orders, parts + [p]);
    var earlier := ListOrders(orders, parts);
    forall i | 0 <= i < |orders| ensures before[i] == earlier[i] {
      var oi := orders[i];
      assert oi in orders;
      PartsOfExactly(parts, oi.id, [p]);
      assert PartsOf([p], oi.id) == [];
      assert PartsOf(parts + [p], oi.id) == PartsOf(parts, oi.id);
      assert before[i] == Project(oi, parts + [p]);
      assert earlier[i] == Project(oi, parts);
    }
    PartsOfExactly(parts, o.id, [p]);
    FilterKeepsNone(parts, (q: OrderPart) => q.orderId == o.id);
    assert PartsOf([p], o.id) == [p];
    SinglePartSummary(p);
  }

  /** After a committed submission the listing is the old listing plus one row for
      the new order: status pending and parts cell "partName (quantity x)". */
  lemma ListingAfterSubmit(t: Tables, data: FormValues, now: string)
    requires WellFormed(t) && Valid(data)
    ensures var c := Committed(t, data, now);
      ListOrders(c.orders, c.parts) == ListOrders(t.orders, t.parts) + [
        ListedOrder(t.orderSeq + 1, data.name, data.mechanicName,
                    data.partName + " (" + IntToString(data.partQuantity.Floor) + "x)",
                    Pending, now)]
  {
    var c := Committed(t, data, now);
    var id := t.orderSeq + 1;
    CommittedRows(t, data, now);
    FreshOrderId(t);
    var o := c.orders[|t.orders|];
    var p := c.parts[|t.parts|];
    assert c.orders == t.orders + [o];
    assert c.parts == t.parts + [p];
    ListingAddsFreshOrder(t.orders, t.parts, o, p);
  }

  /** The loader: select all orders, select all parts, project. It only reads, so
      with unchanged tables it returns the same listing. */
  method LoadDashboard(db: Database) returns (listing: seq<ListedOrder>)
    ensures |listing| == |db.orders|
    ensures listing == ListOrders(db.orders, db.parts)
  {
    var orders := db.SelectOrders();
    var parts := db.SelectParts();
    listing := ListOrders(orders, parts);
  }

  /** Badge styles of the table's status cell. */
  datatype BadgeVariant = Outline | Secondary | Default

  /** Badge icons of the table's status cell. */
  datatype StatusIcon = LoaderIcon | CheckCircle2Icon

  datatype BadgeConfig = BadgeConfig(caption: string, icon: StatusIcon, variant: BadgeVariant)

  /** `statusConfig`: the badge of each status. */
  function StatusConfig(s: OrderStatus): BadgeConfig
  {
    match s
    case Pending => BadgeConfig("Pending", LoaderIcon, Outline)
    case Reviewing => BadgeConfig("Reviewing", LoaderIcon, Outline)
    case Quoted => BadgeConfig("Quoted", CheckCircle2Icon, Secondary)
    case Completed => BadgeConfig("Completed", CheckCircle2Icon, Default)
  }

  /** The mapping is total and tells the statuses apart: in-progress statuses get an
      outlined badge with the loader icon, quoted a secondary badge, completed the
      default badge; each status has its own label. */
  lemma StatusConfigShape(s: OrderStatus, s': OrderStatus)
    ensures StatusConfig(s).variant == Outline <==> s == Pending || s == Reviewing
    ensures StatusConfig(s).variant == Secondary <==> s == Quoted
    ensures StatusConfig(s).variant == Default <==> s == Completed
    ensures StatusConfig(s).icon == LoaderIcon <==> StatusConfig(s).variant == Outline
    ensures StatusConfig(s).caption == StatusConfig(s').caption ==> s == s'
  {
  }
}
