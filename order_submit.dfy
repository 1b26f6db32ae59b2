/** The order workflow's server side: an order, its vehicle and its single part
    written in one transaction. */
module OrderSubmit {
  import opened Wrappers
  import opened Text
  import opened Schema
  import opened Storage
  import opened OrderForm

  /** JavaScript's `value || null` on an optional string: absent or blank becomes null. */
  function OrNull(s: Option<string>): Option<string>
  {
    if s.None? || s.value == "" then None else s
  }

  /** The stored year: the digit string read as a number (`Number(...)`) and kept in a text column. */
  function YearText(year: string): string
    requires AllDigits(year)
  {
    NatToString(DigitsValue(year))
  }

  /** The stored year has the submitted year's value, and is the submitted text
      itself unless that starts with a zero. */
  lemma YearTextKeepsYear(year: string)
    requires AllDigits(year)
    ensures AllDigits(YearText(year)) && DigitsValue(YearText(year)) == DigitsValue(year)
    ensures |year| > 0 && year[0] != '0' ==> YearText(year) == year
  {
    DigitsValueOfNatToString(DigitsValue(year));
    if |year| > 0 && year[0] != '0' {
      NatToStringOfDigitsValue(year);
    }
  }

  /** The values of the order insert. */
  function OrderValues(data: FormValues): NewOrder
  {
    NewOrder(data.name, data.email, data.phoneNumber,
             data.mechanicName, data.mechanicPhone, OrNull(data.mechanicEmail),
             Some(Pending), OrNull(data.comments), None)
  }

  /** The values of the vehicle insert. */
  function VehicleValues(data: FormValues, orderId: int): NewVehicle
    requires AllDigits(data.vehicleYear)
  {
    NewVehicle(orderId, data.vehicleBrand, data.vehicleModel, YearText(data.vehicleYear), OrNull(Some(data.vehicleVin)))
  }

  /** The values of the part insert. */
  function PartValues(data: FormValues, orderId: int): NewPart
  {
    NewPart(orderId, data.partName, data.partDescription, Some(data.partQuantity.Floor))
  }

  /** The database after a committed submission of `data` at time `now`. */
  function Committed(t: Tables, data: FormValues, now: string): Tables
    requires AllDigits(data.vehicleYear)
  {
    var id := t.orderSeq + 1;
    AddPart(AddVehicle(AddOrder(t, OrderValues(data), now), VehicleValues(data, id)), PartValues(data, id))
  }

  /** A committed submission keeps the schema's constraints. */
  lemma CommittedWellFormed(t: Tables, data: FormValues, now: string)
    requires WellFormed(t) && Valid(data)
    ensures WellFormed(Committed(t, data, now))
  {
    var id := t.orderSeq + 1;
    var t1 := AddOrder(t, OrderValues(data), now);
    AddOrderWellFormed(t, OrderValues(data), now);
    FreshOrderId(t);
    assert t1.vehicles == t.vehicles;
    AddVehicleWellFormed(t1, VehicleValues(data, id));
    var t2 := AddVehicle(t1, VehicleValues(data, id));
    assert t2.orders == t1.orders;
    AddPartWellFormed(t2, PartValues(data, id));
  }

  /** A committed submission adds exactly one row to each of orders, vehicles and
      order_parts, all three tied to the fresh order id, and touches nothing else.
      The order is `pending`, has no admin notes, stores a blank mechanic email or
      blank comments as null; the vehicle stores a blank VIN as null and any other
      VIN as submitted; the part
      carries the requested quantity. */
  lemma CommittedRows(t: Tables, data: FormValues, now: string)
    requires WellFormed(t) && Valid(data)
    ensures var c := Committed(t, data, now); var id := t.orderSeq + 1;
      && !HasOrder(t.orders, id) && id >= 1
      && |c.orders| == |t.orders| + 1 && c.orders[..|t.orders|] == t.orders
      && |c.vehicles| == |t.vehicles| + 1 && c.vehicles[..|t.vehicles|] == t.vehicles
      && |c.parts| == |t.parts| + 1 && c.parts[..|t.parts|] == t.parts
      && c.images == t.images
      && var o := c.orders[|t.orders|]; var v := c.vehicles[|t.vehicles|]; var p := c.parts[|t.parts|];
      && o.id == id && v.orderId == id && p.orderId == id
      && o.status == Pending && o.adminNotes.None?
      && o.customerName == data.name && o.customerEmail == data.email && o.customerPhone == data.phoneNumber
      && o.mechanicName == data.mechanicName && o.mechanicPhone == data.mechanicPhone
      && o.mechanicEmail == data.mechanicEmail
      && (o.customerComments.None? <==> data.comments.None? || data.comments == Some(""))
      && (o.customerComments.Some? ==> o.customerComments == data.comments)
      && v.make == data.vehicleBrand && v.model == data.vehicleModel
      && DigitsValue(v.year) == DigitsValue(data.vehicleYear)
      && (v.vin.None? <==> data.vehicleVin == "")
      && (v.vin.Some? ==> v.vin == Some(data.vehicleVin))
      && p.name == data.partName && p.description == data.partDescription
      && p.quantity >= 1 && p.quantity as real == data.partQuantity
  {
    FreshOrderId(t);
    ValidFormats(data);
    YearTextKeepsYear(data.vehicleYear);
  }

  /** A committed submission keeps every order complete: the new order arrives with
      its vehicle and its part. */
  lemma CommittedComplete(t: Tables, data: FormValues, now: string)
    requires WellFormed(t) && Complete(t) && Valid(data)
    ensures Complete(Committed(t, data, now))
  {
    var c := Committed(t, data, now);
    var id := t.orderSeq + 1;
    CommittedRows(t, data, now);
    forall o | o in c.orders ensures HasVehicle(c.vehicles, o.id) && HasPartOf(c.parts, o.id) {
      if o.id == id {
        assert c.vehicles[|t.vehicles|] in c.vehicles;
        assert c.parts[|t.parts|] in c.parts;
      } else {
        assert o in t.orders by {
          var k :| 0 <= k < |c.orders| && c.orders[k] == o;
          assert k < |t.orders|;
          assert t.orders[k] == o;
        }
        var v :| v in t.vehicles && v.orderId == o.id;
        assert v in c.vehicles by { assert c.vehicles == t.vehicles + [c.vehicles[|t.vehicles|]]; }
        var p :| p in t.parts && p.orderId == o.id;
        assert p in c.parts by { assert c.parts == t.parts + [c.parts[|t.parts|]]; }
      }
    }
  }

  /** Engine size and other part information are accepted by the form but never stored. */
  lemma UnstoredFieldsIgnored(t: Tables, data: FormValues, now: string, engine: Option<string>, info: Option<string>)
    requires AllDigits(data.vehicleYear)
    ensures Committed(t, data.(engineSize := engine, partOtherInformation := info), now) == Committed(t, data, now)
  {
  }

  /** `submitOrderToDb`: inside one transaction insert the order, read back its id,
      then insert the vehicle and the part under that id. A missing or zero id
      throws "Failed to create order" and the transaction rolls back. The form has
      already been validated by the caller; the server accepts the value as is. */
  method SubmitOrderToDb(db: Database, data: FormValues, now: string, reportsId: bool) returns (r: Result<int, string>)
    requires db.Valid() && Valid(data)
    modifies db
    ensures db.Valid()
    ensures r.Success? <==> reportsId
    ensures r.Success? ==> r.value == old(db.orderSeq) + 1 && db.Snapshot() == Committed(old(db.Snapshot()), data, now)
    ensures r.Failure? ==> r.error == "Failed to create order" && db.Snapshot() == old(db.Snapshot())
  {
    var saved := db.Snapshot();
    var returned := db.InsertOrder(OrderValues(data), now, reportsId);
    if returned.None? || returned.value == 0 {
      db.Rollback(saved);
      return Failure("Failed to create order");
    }
    var orderId := returned.value;
    FreshOrderId(saved);
    db.InsertVehicle(VehicleValues(data, orderId));
    db.InsertPart(PartValues(data, orderId));
    r := Success(orderId);
  }
}
