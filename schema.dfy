/** The relational schema: the four tables, their column defaults and the
    constraints the database engine keeps (primary keys, the one-vehicle-per-order
    UNIQUE column, cascading foreign keys). */
module Schema {
  import opened Wrappers
  import opened Seqs

  /** The order lifecycle; a value of this type is always one of the four statuses. */
  datatype OrderStatus = Pending | Reviewing | Quoted | Completed

  /** A row of `orders`. Nullable columns are `Option`s; the rest are never null. */
  datatype Order = Order(
    id: int,
    customerName: string, customerEmail: string, customerPhone: string,
    mechanicName: string, mechanicPhone: string, mechanicEmail: Option<string>,
    status: OrderStatus,
    customerComments: Option<string>, adminNotes: Option<string>,
    createdAt: string, updatedAt: string)

  /** A row of `vehicles`. */
  datatype Vehicle = Vehicle(id: int, orderId: int, make: string, model: string, year: string, vin: Option<string>)

  /** A row of `order_parts`. */
  datatype OrderPart = OrderPart(id: int, orderId: int, name: string, description: string, quantity: int)

  /** A row of `order_images` (the image bytes are not modelled). */
  datatype OrderImage = OrderImage(id: int, orderPartId: int, mimeType: string, createdAt: string)

  /** The values an insert into `orders` supplies; `None` in `status` means "not supplied". */
  datatype NewOrder = NewOrder(
    customerName: string, customerEmail: string, customerPhone: string,
    mechanicName: string, mechanicPhone: string, mechanicEmail: Option<string>,
    status: Option<OrderStatus>,
    customerComments: Option<string>, adminNotes: Option<string>)

  /** The values an insert into `vehicles` supplies. */
  datatype NewVehicle = NewVehicle(orderId: int, make: string, model: string, year: string, vin: Option<string>)

  /** The values an insert into `order_parts` supplies; `None` in `quantity` means "not supplied". */
  datatype NewPart = NewPart(orderId: int, name: string, description: string, quantity: Option<int>)

  const DefaultStatus: OrderStatus := Pending
  const DefaultQuantity: int := 1

  /** The whole database: the rows of each table in storage order, and for each
      table the last id its AUTOINCREMENT counter handed out. */
  datatype Tables = Tables(
    orders: seq<Order>, vehicles: seq<Vehicle>, parts: seq<OrderPart>, images: seq<OrderImage>,
    orderSeq: nat, vehicleSeq: nat, partSeq: nat, imageSeq: nat)

  const EmptyTables := Tables([], [], [], [], 0, 0, 0, 0)

  function OrderKey(o: Order): int { o.id }
  function VehicleKey(v: Vehicle): int { v.id }
  function VehicleOrderKey(v: Vehicle): int { v.orderId }
  function PartKey(p: OrderPart): int { p.id }
  function ImageKey(im: OrderImage): int { im.id }

  ghost predicate HasOrder(orders: seq<Order>, id: int)
  {
    exists o :: o in orders && o.id == id
  }

  ghost predicate HasVehicle(vehicles: seq<Vehicle>, orderId: int)
  {
    exists v :: v in vehicles && v.orderId == orderId
  }

  ghost predicate HasPartOf(parts: seq<OrderPart>, orderId: int)
  {
    exists p :: p in parts && p.orderId == orderId
  }

  ghost predicate HasPart(parts: seq<OrderPart>, id: int)
  {
    exists p :: p in parts && p.id == id
  }

  /** The constraints of the schema: distinct auto-incremented ids in every table,
      at most one vehicle per order, and every foreign key pointing at an existing row. */
  ghost predicate WellFormed(t: Tables)
  {
    && UniqueKeys(t.orders, OrderKey) && (forall o :: o in t.orders ==> 1 <= o.id <= t.orderSeq)
    && UniqueKeys(t.vehicles, VehicleKey) && (forall v :: v in t.vehicles ==> 1 <= v.id <= t.vehicleSeq)
    && UniqueKeys(t.parts, PartKey) && (forall p :: p in t.parts ==> 1 <= p.id <= t.partSeq)
    && UniqueKeys(t.images, ImageKey) && (forall im :: im in t.images ==> 1 <= im.id <= t.imageSeq)
    && UniqueKeys(t.vehicles, VehicleOrderKey)
    && (forall v :: v in t.vehicles ==> HasOrder(t.orders, v.orderId))
    && (forall p :: p in t.parts ==> HasOrder(t.orders, p.orderId))
    && (forall im :: im in t.images ==> HasPart(t.parts, im.orderPartId))
  }

  /** Every order carries its vehicle and at least one part: what the order
      workflow commits together and what no reader should see broken. */
  ghost predicate Complete(t: Tables)
  {
    forall o :: o in t.orders ==> HasVehicle(t.vehicles, o.id) && HasPartOf(t.parts, o.id)
  }

  /** The row stored for an insert into `orders`, given the generated id and the clock. */
  function OrderRow(n: NewOrder, id: int, now: string): Order
  {
    Order(id, n.customerName, n.customerEmail, n.customerPhone,
          n.mechanicName, n.mechanicPhone, n.mechanicEmail,
          if n.status.Some? then n.status.value else DefaultStatus,
          n.customerComments, n.adminNotes, now, now)
  }

  /** The row stored for an insert into `order_parts`, given the generated id. */
  function PartRow(n: NewPart, id: int): OrderPart
  {
    OrderPart(id, n.orderId, n.name, n.description,
              if n.quantity.Some? then n.quantity.value else DefaultQuantity)
  }

  /** INSERT INTO orders: the counter advances and the new row takes its value as id. */
  function AddOrder(t: Tables, n: NewOrder, now: string): Tables
  {
    t.(orders := t.orders + [OrderRow(n, t.orderSeq + 1, now)], orderSeq := t.orderSeq + 1)
  }

  /** INSERT INTO vehicles. */
  function AddVehicle(t: Tables, n: NewVehicle): Tables
  {
    var id := t.vehicleSeq + 1;
    t.(vehicles := t.vehicles + [Vehicle(id, n.orderId, n.make, n.model, n.year, n.vin)], vehicleSeq := id)
  }

  /** INSERT INTO order_parts. */
  function AddPart(t: Tables, n: NewPart): Tables
  {
    t.(parts := t.parts + [PartRow(n, t.partSeq + 1)], partSeq := t.partSeq + 1)
  }

  /** The counter is above every id in use, so a generated id is fresh. */
  lemma FreshOrderId(t: Tables)
    requires WellFormed(t)
    ensures !HasOrder(t.orders, t.orderSeq + 1)
    ensures !HasVehicle(t.vehicles, t.orderSeq + 1) && !HasPartOf(t.parts, t.orderSeq + 1)
  {
  }

  /** An order insert cannot violate any constraint. */
  lemma AddOrderWellFormed(t: Tables, n: NewOrder, now: string)
    requires WellFormed(t)
    ensures WellFormed(AddOrder(t, n, now))
    ensures HasOrder(AddOrder(t, n, now).orders, t.orderSeq + 1)
  {
    var r := AddOrder(t, n, now);
    var o := OrderRow(n, t.orderSeq + 1, now);
    AppendUniqueKeys(t.orders, o, OrderKey);
    assert o in r.orders;
    forall v | v in r.vehicles ensures HasOrder(r.orders, v.orderId) {
      var w :| w in t.orders && w.id == v.orderId;
      assert w in r.orders;
    }
    forall p | p in r.parts ensures HasOrder(r.orders, p.orderId) {
      var w :| w in t.orders && w.id == p.orderId;
      assert w in r.orders;
    }
  }

  /** A vehicle insert keeps the constraints exactly when its order exists and has no vehicle yet
      (the foreign key and the UNIQUE order_id column). */
  lemma AddVehicleWellFormed(t: Tables, n: NewVehicle)
    requires WellFormed(t)
    ensures WellFormed(AddVehicle(t, n)) <==> HasOrder(t.orders, n.orderId) && !HasVehicle(t.vehicles, n.orderId)
  {
    var r := AddVehicle(t, n);
    var v := r.vehicles[|t.vehicles|];
    assert v in r.vehicles;
    if HasOrder(t.orders, n.orderId) && !HasVehicle(t.vehicles, n.orderId) {
      AppendUniqueKeys(t.vehicles, v, VehicleKey);
      AppendUniqueKeys(t.vehicles, v, VehicleOrderKey);
    } else if HasVehicle(t.vehicles, n.orderId) {
      var w :| w in t.vehicles && w.orderId == n.orderId;
      var k :| 0 <= k < |t.vehicles| && t.vehicles[k] == w;
      assert r.vehicles[k] == w;
      assert !UniqueKeys(r.vehicles, VehicleOrderKey);
    }
  }

  /** A part insert keeps the constraints exactly when its order exists (the foreign key). */
  lemma AddPartWellFormed(t: Tables, n: NewPart)
    requires WellFormed(t)
    ensures WellFormed(AddPart(t, n)) <==> HasOrder(t.orders, n.orderId)
  {
    var r := AddPart(t, n);
    var p := PartRow(n, t.partSeq + 1);
    assert p in r.parts;
    if HasOrder(t.orders, n.orderId) {
      AppendUniqueKeys(t.parts, p, PartKey);
      forall im | im in r.images ensures HasPart(r.parts, im.orderPartId) {
        var q :| q in t.parts && q.id == im.orderPartId;
        assert q in r.parts;
      }
    }
  }

  /** The ids of the parts of order `id`. */
  function PartIdsOf(parts: seq<OrderPart>, id: int): set<int>
  {
    set p | p in parts && p.orderId == id :: p.id
  }

  /** DELETE FROM orders WHERE id = `id`, with the cascades: the order's vehicle and
      parts go with it, and so do the images of those parts. */
  function DeleteOrderCascade(t: Tables, id: int): Tables
  {
    var doomed := PartIdsOf(t.parts, id);
    t.(orders := Filter(t.orders, (o: Order) => o.id != id),
       vehicles := Filter(t.vehicles, (v: Vehicle) => v.orderId != id),
       parts := Filter(t.parts, (p: OrderPart) => p.orderId != id),
       images := Filter(t.images, (im: OrderImage) => im.orderPartId !in doomed))
  }

  /** DELETE FROM order_parts WHERE id = `id`, with the cascade to its images. */
  function DeletePartCascade(t: Tables, id: int): Tables
  {
    t.(parts := Filter(t.parts, (p: OrderPart) => p.id != id),
       images := Filter(t.images, (im: OrderImage) => im.orderPartId != id))
  }

  /** Deleting an order keeps the constraints, leaves nothing that refers to it
      (no vehicle, no part, and transitively no image of one of its parts),
      and keeps every row that did not belong to it. */
  lemma DeleteOrderCascadeSound(t: Tables, id: int)
    requires WellFormed(t)
    ensures var r := DeleteOrderCascade(t, id);
      && WellFormed(r)
      && !HasOrder(r.orders, id) && !HasVehicle(r.vehicles, id) && !HasPartOf(r.parts, id)
      && (forall im :: im in r.images ==> im.orderPartId !in PartIdsOf(t.parts, id))
      && (forall o :: o in t.orders && o.id != id ==> o in r.orders)
      && (forall v :: v in t.vehicles && v.orderId != id ==> v in r.vehicles)
      && (forall p :: p in t.parts && p.orderId != id ==> p in r.parts)
      && (forall im :: im in t.images && im.orderPartId !in PartIdsOf(t.parts, id) ==> im in r.images)
  {
    var r := DeleteOrderCascade(t, id);
    var doomed := PartIdsOf(t.parts, id);
    FilterUniqueKeys(t.orders, (o: Order) => o.id != id, OrderKey);
    FilterUniqueKeys(t.vehicles, (v: Vehicle) => v.orderId != id, VehicleKey);
    FilterUniqueKeys(t.vehicles, (v: Vehicle) => v.orderId != id, VehicleOrderKey);
    FilterUniqueKeys(t.parts, (p: OrderPart) => p.orderId != id, PartKey);
    FilterUniqueKeys(t.images, (im: OrderImage) => im.orderPartId !in doomed, ImageKey);
    forall v | v in r.vehicles ensures HasOrder(r.orders, v.orderId) {
      var o :| o in t.orders && o.id == v.orderId;
      assert o in r.orders;
    }
    forall p | p in r.parts ensures HasOrder(r.orders, p.orderId) {
      var o :| o in t.orders && o.id == p.orderId;
      assert o in r.orders;
    }
    forall im | im in r.images ensures HasPart(r.parts, im.orderPartId) {
      var p :| p in t.parts && p.id == im.orderPartId;
      assert p.orderId != id;
      assert p in r.parts;
    }
  }

  /** Deleting an order that does not exist changes nothing. */
  lemma DeleteMissingOrder(t: Tables, id: int)
    requires WellFormed(t) && !HasOrder(t.orders, id)
    ensures DeleteOrderCascade(t, id) == t
  {
    FilterKeepsAll(t.orders, (o: Order) => o.id != id);
    FilterKeepsAll(t.vehicles, (v: Vehicle) => v.orderId != id);
    FilterKeepsAll(t.parts, (p: OrderPart) => p.orderId != id);
    assert PartIdsOf(t.parts, id) == {};
    FilterKeepsAll(t.images, (im: OrderImage) => im.orderPartId !in PartIdsOf(t.parts, id));
  }

  /** Deleting a whole order keeps every remaining order complete. */
  lemma DeleteOrderCascadeComplete(t: Tables, id: int)
    requires Complete(t)
    ensures Complete(DeleteOrderCascade(t, id))
  {
    var r := DeleteOrderCascade(t, id);
    forall o | o in r.orders ensures HasVehicle(r.vehicles, o.id) && HasPartOf(r.parts, o.id) {
      var v :| v in t.vehicles && v.orderId == o.id;
      assert v in r.vehicles;
      var p :| p in t.parts && p.orderId == o.id;
      assert p in r.parts;
    }
  }

  /** Deleting a part keeps the constraints, removes the part and every image of it,
      and keeps all other parts and images. */
  lemma DeletePartCascadeSound(t: Tables, id: int)
    requires WellFormed(t)
    ensures var r := DeletePartCascade(t, id);
      && WellFormed(r)
      && !HasPart(r.parts, id)
      && (forall im :: im in r.images ==> im.orderPartId != id)
      && (forall p :: p in t.parts && p.id != id ==> p in r.parts)
      && (forall im :: im in t.images && im.orderPartId != id ==> im in r.images)
  {
    var r := DeletePartCascade(t, id);
    FilterUniqueKeys(t.parts, (p: OrderPart) => p.id != id, PartKey);
    FilterUniqueKeys(t.images, (im: OrderImage) => im.orderPartId != id, ImageKey);
    forall im | im in r.images ensures HasPart(r.parts, im.orderPartId) {
      var p :| p in t.parts && p.id == im.orderPartId;
      assert p in r.parts;
    }
  }
}
