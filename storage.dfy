/** The database handle: the four tables held in place, changed by inserts,
    cascading deletes and transaction rollback, read by selects. */
module Storage {
  import opened Wrappers
  import opened Schema

  class Database {
    var orders: seq<Order>
    var vehicles: seq<Vehicle>
    var parts: seq<OrderPart>
    var images: seq<OrderImage>
    var orderSeq: nat
    var vehicleSeq: nat
    var partSeq: nat
    var imageSeq: nat

    /** The current contents, as a value. */
    function Snapshot(): Tables
      reads this
    {
      Tables(orders, vehicles, parts, images, orderSeq, vehicleSeq, partSeq, imageSeq)
    }

    /** The schema's constraints hold. */
    ghost predicate Valid()
      reads this
    {
      WellFormed(Snapshot())
    }

    /** A fresh, empty database. */
    constructor ()
      ensures Valid() && Snapshot() == EmptyTables
    {
      orders, vehicles, parts, images := [], [], [], [];
      orderSeq, vehicleSeq, partSeq, imageSeq := 0, 0, 0, 0;
    }

    /** `SELECT * FROM orders`. */
    method SelectOrders() returns (rows: seq<Order>)
      ensures rows == orders
    {
      rows := orders;
    }

    /** `SELECT * FROM order_parts`. */
    method SelectParts() returns (rows: seq<OrderPart>)
      ensures rows == parts
    {
      rows := parts;
    }

    /** `INSERT INTO orders ... RETURNING id`. The row is stored under the next
        counter value; whether the driver reports that id back is outside the
        model (`reportsId`). */
    method InsertOrder(n: NewOrder, now: string, reportsId: bool) returns (returned: Option<int>)
      requires Valid()
      modifies this
      ensures Valid()
      ensures Snapshot() == AddOrder(old(Snapshot()), n, now)
      ensures returned == if reportsId then Some(old(orderSeq) + 1) else None
      ensures HasOrder(orders, old(orderSeq) + 1)
    {
      AddOrderWellFormed(Snapshot(), n, now);
      orderSeq := orderSeq + 1;
      orders := orders + [OrderRow(n, orderSeq, now)];
      returned := if reportsId then Some(orderSeq) else None;
    }

    /** `INSERT INTO vehicles`; the engine refuses a missing order or a second vehicle for one. */
    method InsertVehicle(n: NewVehicle)
      requires Valid()
      requires HasOrder(orders, n.orderId) && !HasVehicle(vehicles, n.orderId)
      modifies this
      ensures Valid()
      ensures Snapshot() == AddVehicle(old(Snapshot()), n)
    {
      AddVehicleWellFormed(Snapshot(), n);
      vehicleSeq := vehicleSeq + 1;
      vehicles := vehicles + [Vehicle(vehicleSeq, n.orderId, n.make, n.model, n.year, n.vin)];
    }

    /** `INSERT INTO order_parts`; the engine refuses a missing order. */
    method InsertPart(n: NewPart)
      requires Valid()
      requires HasOrder(orders, n.orderId)
      modifies this
      ensures Valid()
      ensures Snapshot() == AddPart(old(Snapshot()), n)
    {
      AddPartWellFormed(Snapshot(), n);
      partSeq := partSeq + 1;
      parts := parts + [PartRow(n, partSeq)];
    }

    /** `DELETE FROM orders WHERE id = ...` with its cascades. */
    method DeleteOrder(id: int)
      requires Valid()
      modifies this
      ensures Valid()
      ensures Snapshot() == DeleteOrderCascade(old(Snapshot()), id)
    {
      DeleteOrderCascadeSound(Snapshot(), id);
      var r := DeleteOrderCascade(Snapshot(), id);
      orders, vehicles, parts, images := r.orders, r.vehicles, r.parts, r.images;
    }

    /** `DELETE FROM order_parts WHERE id = ...` with its cascade. */
    method DeletePart(id: int)
      requires Valid()
      modifies this
      ensures Valid()
      ensures Snapshot() == DeletePartCascade(old(Snapshot()), id)
    {
      DeletePartCascadeSound(Snapshot(), id);
      var r := DeletePartCascade(Snapshot(), id);
      parts, images := r.parts, r.images;
    }

    /** Transaction rollback: every table, counters included, returns to the saved contents. */
    method Rollback(saved: Tables)
      modifies this
      ensures Snapshot() == saved
    {
      orders, vehicles, parts, images := saved.orders, saved.vehicles, saved.parts, saved.images;
      orderSeq, vehicleSeq, partSeq, imageSeq := saved.orderSeq, saved.vehicleSeq, saved.partSeq, saved.imageSeq;
    }
  }
}
