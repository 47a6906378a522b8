/**
 * The CRM organisation seen as an abstract store: the attribute names the generator
 * writes, the values it stores in them, the reference records it reads and a `Service`
 * object that accepts the rents and transfer reports it creates.
 */
module Crm {
  import opened Enums

  /** Logical entity names that references point to. */
  datatype Kind = CarClassKind | CarKind | ContactKind | ReportKind

  /** Attribute logical names used on `new_rent` and `new_cartransferreport`. */
  datatype Field =
    | Name               // new_name
    | StatusCode         // statuscode
    | StateCode          // statecode
    | ReservedPickup     // new_reservedpickup
    | ReservedHandover   // new_reservedhandover
    | ActualPickup       // new_actualpickup
    | ActualReturn       // new_actualreturn
    | CarClassId         // new_carclassid
    | CarId              // new_carid (rent and report)
    | PickupLocation     // new_pickuplocation
    | ReturnLocation     // new_returnlocation
    | Price              // new_price
    | CustomerRef        // new_customer
    | Paid               // new_paid
    | PickupReportId     // new_pickupreportid
    | ReturnReport       // new_returnreport
    | TransferDate       // new_date
    | TransferKind       // new_transfertype
    | Description        // new_description
    | Damages            // new_damages
    | DamagesDescription // new_damagesdescription

  /** Attribute values; dates are whole day numbers, money an integer amount. */
  datatype Value =
    | Text(text: string)
    | Status(status: RentStatusReason)
    | OptionCode(code: int)
    | Day(day: int)
    | Ref(kind: Kind, id: nat)
    | Money(amount: int)
    | Flag(flag: bool)
    | Transfer(transfer: TransferType)

  /** An entity is the set of attributes assigned to it so far. */
  type Entity = map<Field, Value>

  /** Reference data: an active car class with its price per day. */
  datatype CarClass = CarClass(id: nat, price: int)

  /** Reference data: an active contact. */
  datatype Customer = Customer(id: nat)

  /** A car of the store, with its class and whether its state is active. */
  datatype Car = Car(id: nat, classId: nat, active: bool)

  /**
   * The store. Cars are fixed for a generation run; rents and transfer reports are
   * appended by `Create` calls and never changed afterwards. A created record's
   * identifier is its position in its list.
   */
  class Service {
    const cars: seq<Car>
    var rents: seq<Entity>
    var reports: seq<Entity>

    constructor (cars: seq<Car>, rents: seq<Entity>)
      ensures this.cars == cars && this.rents == rents && reports == []
    {
      this.cars := cars;
      this.rents := rents;
      reports := [];
    }

    /** Creates a rent record and returns its identifier. */
    method CreateRent(e: Entity) returns (id: nat)
      modifies this`rents
      ensures rents == old(rents) + [e]
      ensures id == |old(rents)| && rents[id] == e
    {
      id := |rents|;
      rents := rents + [e];
    }

    /** Creates a transfer report record and returns its identifier. */
    method CreateReport(e: Entity) returns (id: nat)
      modifies this`reports
      ensures reports == old(reports) + [e]
      ensures id == |old(reports)| && reports[id] == e
    {
      id := |reports|;
      reports := reports + [e];
    }
  }
}
