/**
 * The sample loop of the program: for each sample number, draft a rent from random
 * draws, retry while the chosen car is not available, then finish the rent, create its
 * transfer reports and store it. One `rent` entity per sample is filled in place and is
 * not cleared between attempts.
 */
module Generator {
  import opened Wrappers
  import opened Enums
  import opened Crm
  import opened Sampler
  import opened Overlap
  import opened Reports
  import opened Naming

  /** Number of rents the program generates. */
  const TotalSamples := 40000

  /** 2019-01-01 as day 0 of the window. */
  const BaseStart := 0

  /** 2020-12-31: 365 + 365 days after 2019-01-01. */
  const BaseEnd := 730

  /** Length of the date window in days. */
  const MaxDuration := BaseEnd - BaseStart

  /** Reference data loaded once before generation. */
  datatype Reference = Reference(classes: seq<CarClass>, customers: seq<Customer>, locations: seq<int>)

  /** The random draws of one attempt, in the order the program makes them. */
  datatype Draws = Draws(
    status: int,          // rand.Next(1, 20)
    duration: int,        // rand.Next(1, 30)
    dayOffset: int,       // rand.Next(MaxDuration - duration + 1)
    classIndex: int,      // rand.Next(CarClassList.Count)
    carIndex: int,        // rand.Next(selectedCars.Count)
    pickupLocation: int,  // rand.Next(TransferLocation.Count)
    returnLocation: int,  // rand.Next(TransferLocation.Count)
    customer: int,        // rand.Next(CustomerList.Count)
    paid: int,            // rand.Next(1, 10000)
    pickupDamage: int,    // rand.Next(1, 20) in the pickup report
    returnDamage: int)    // rand.Next(1, 20) in the return report

  /** Reserved pickup and handover days of a draft. */
  datatype Window = Window(pickup: int, handover: int)

  /** Pickup drawn in the window so that the whole rental fits; handover `duration` days later. */
  function Schedule(duration: int, dayOffset: int): (w: Window)
    requires 1 <= duration <= 29 && 0 <= dayOffset <= MaxDuration - duration
    ensures BaseStart <= w.pickup && w.handover <= BaseEnd
    ensures w.handover - w.pickup == duration
  {
    var pickup := RandomDay(BaseStart, MaxDuration - duration, dayOffset);
    Window(pickup, pickup + duration)
  }

  /** Active cars of a class, in store order (the car query of `GetRandomCarRespClass`). */
  function ActiveCarsOf(cars: seq<Car>, classId: nat): (r: seq<Car>)
    ensures forall c :: c in r <==> c in cars && c.classId == classId && c.active
    ensures |r| <= |cars|
  {
    if cars == [] then []
    else (if cars[0].classId == classId && cars[0].active then [cars[0]] else []) + ActiveCarsOf(cars[1..], classId)
  }

  /** The draws made before the availability check lie in their ranges. */
  predicate DraftInRange(a: Draws, ref: Reference)
  {
    && 1 <= a.status < 20
    && 1 <= a.duration < 30
    && 0 <= a.dayOffset <= MaxDuration - a.duration
    && 0 <= a.classIndex < |ref.classes|
  }

  /** Every draw of an attempt lies in its range; the car list of the drawn class is non-empty. */
  predicate InRange(a: Draws, ref: Reference, cars: seq<Car>)
  {
    && DraftInRange(a, ref)
    && 0 <= a.carIndex < |ActiveCarsOf(cars, ref.classes[a.classIndex].id)|
    && 0 <= a.pickupLocation < |ref.locations|
    && 0 <= a.returnLocation < |ref.locations|
    && 0 <= a.customer < |ref.customers|
    && 1 <= a.paid < 10000
    && 1 <= a.pickupDamage < 20
    && 1 <= a.returnDamage < 20
  }

  /** Whether a status is one under which the car has been picked up. */
  predicate PickedUp(s: RentStatusReason)
  {
    s == Renting || s == Returned
  }

  /** Attribute f is present in `after` exactly when in `before`, with the same value. */
  predicate Keeps(before: Entity, after: Entity, f: Field)
  {
    (f in before <==> f in after) && (f in before ==> after[f] == before[f])
  }

  /** The rent as created for sample n, before any attempt. */
  function Fresh(n: nat): Entity
  {
    map[Name := Text(SampleName(n))]
  }

  /** The attributes one attempt writes before the availability check. */
  function Draft(rent: Entity, a: Draws, ref: Reference): (e: Entity)
    requires DraftInRange(a, ref)
    ensures Keeps(rent, e, Name) && Keeps(rent, e, CarId)
    ensures Keeps(rent, e, PickupLocation) && Keeps(rent, e, ReturnLocation) && Keeps(rent, e, Price)
    ensures Keeps(rent, e, CustomerRef) && Keeps(rent, e, Paid)
    ensures Keeps(rent, e, PickupReportId) && Keeps(rent, e, ReturnReport)
  {
    var s := StatusReason(a.status);
    var w := Schedule(a.duration, a.dayOffset);
    var r1 := rent[StatusCode := Status(s)][StateCode := OptionCode(StatusState(s))]
                  [ReservedPickup := Day(w.pickup)][ReservedHandover := Day(w.handover)];
    var r2 := if s == Renting || s == Returned then r1[ActualPickup := Day(w.pickup)] else r1;
    var r3 := if s == Returned then r2[ActualReturn := Day(w.handover)] else r2;
    r3[CarClassId := Ref(CarClassKind, ref.classes[a.classIndex].id)]
  }

  /** The draws of every attempt made before the check lie in their ranges. */
  predicate Draftable(attempts: seq<Draws>, ref: Reference)
  {
    forall k :: 0 <= k < |attempts| ==> DraftInRange(attempts[k], ref)
  }

  /** Every draw of every attempt lies in its range. */
  predicate Proper(attempts: seq<Draws>, ref: Reference, cars: seq<Car>)
  {
    Draftable(attempts, ref) && forall k :: 0 <= k < |attempts| ==> InRange(attempts[k], ref, cars)
  }

  /** The rent after drafting the first m attempts in turn, starting from `rent`. */
  function Drafted(rent: Entity, attempts: seq<Draws>, m: nat, ref: Reference): Entity
    requires m <= |attempts| && Draftable(attempts, ref)
  {
    if m == 0 then rent
    else Draft(Drafted(rent, attempts, m - 1, ref), attempts[m - 1], ref)
  }

  /** The car an attempt proposes. */
  function SelectedCar(a: Draws, ref: Reference, cars: seq<Car>): (c: Car)
    requires InRange(a, ref, cars)
    ensures c in cars && c.active && c.classId == ref.classes[a.classIndex].id
  {
    Pick(ActiveCarsOf(cars, ref.classes[a.classIndex].id), a.carIndex)
  }

  /** Whether the store's rents let an attempt through the availability check. */
  predicate Passes(a: Draws, ref: Reference, cars: seq<Car>, rents: seq<Entity>)
    requires InRange(a, ref, cars)
  {
    var w := Schedule(a.duration, a.dayOffset);
    CheckCarRental(rents, SelectedCar(a, ref, cars).id, w.pickup, w.handover)
  }

  /** None of the first m attempts passes the availability check. */
  predicate AllRejected(attempts: seq<Draws>, m: nat, ref: Reference, cars: seq<Car>, rents: seq<Entity>)
    requires m <= |attempts| && Proper(attempts, ref, cars)
  {
    m == 0 || (AllRejected(attempts, m - 1, ref, cars, rents) && !Passes(attempts[m - 1], ref, cars, rents))
  }

  /** `AllRejected` says of each of the first m attempts that it fails the check. */
  lemma {:induction false} AllRejectedEach(attempts: seq<Draws>, m: nat, ref: Reference, cars: seq<Car>, rents: seq<Entity>, k: nat)
    requires m <= |attempts| && Proper(attempts, ref, cars)
    requires AllRejected(attempts, m, ref, cars, rents) && k < m
    ensures !Passes(attempts[k], ref, cars, rents)
  {
    if k < m - 1 {
      AllRejectedEach(attempts, m - 1, ref, cars, rents, k);
    }
  }

  /** A transfer report of kind t for the car on the given day. */
  predicate ReportOf(report: Entity, t: TransferType, carId: nat, day: int)
  {
    && TransferKind in report && report[TransferKind] == Transfer(t)
    && CarId in report && report[CarId] == Ref(CarKind, carId)
    && TransferDate in report && report[TransferDate] == Day(day)
  }

  /** The transfer reports an accepted attempt creates, in creation order. */
  function NewReports(a: Draws, ref: Reference, cars: seq<Car>, shortDate: int -> string): (r: seq<Entity>)
    requires InRange(a, ref, cars)
    ensures var s, w, car := StatusReason(a.status), Schedule(a.duration, a.dayOffset), SelectedCar(a, ref, cars);
            && |r| == (if PickedUp(s) then 1 else 0) + (if s == Returned then 1 else 0)
            && (PickedUp(s) ==> ReportOf(r[0], Pickup, car.id, w.pickup))
            && (s == Returned ==> ReportOf(r[1], Return, car.id, w.handover))
  {
    var s := StatusReason(a.status);
    var w := Schedule(a.duration, a.dayOffset);
    var car := SelectedCar(a, ref, cars);
    (if PickedUp(s) then [ReportFields(Pickup, w.pickup, car.id, a.pickupDamage, shortDate(w.pickup))] else [])
    + (if s == Returned then [ReportFields(Return, w.handover, car.id, a.returnDamage, shortDate(w.handover))] else [])
  }

  /**
   * The attributes an accepted attempt writes after the check; the reports it creates
   * get identifiers `reportBase` (pickup) and `reportBase + 1` (return).
   */
  function Finish(rent: Entity, a: Draws, ref: Reference, cars: seq<Car>, reportBase: nat): (e: Entity)
    requires InRange(a, ref, cars)
    ensures Keeps(rent, e, Name) && Keeps(rent, e, StatusCode) && Keeps(rent, e, StateCode)
    ensures Keeps(rent, e, ReservedPickup) && Keeps(rent, e, ReservedHandover)
    ensures Keeps(rent, e, ActualPickup) && Keeps(rent, e, ActualReturn) && Keeps(rent, e, CarClassId)
  {
    var s := StatusReason(a.status);
    var carClass := ref.classes[a.classIndex];
    var r1 := rent[CarId := Ref(CarKind, SelectedCar(a, ref, cars).id)]
                  [PickupLocation := OptionCode(ref.locations[a.pickupLocation])]
                  [ReturnLocation := OptionCode(ref.locations[a.returnLocation])]
                  [Price := Money(carClass.price * a.duration)]
                  [CustomerRef := Ref(ContactKind, ref.customers[a.customer].id)]
                  [Paid := Flag(PaidStatus(s, a.paid))];
    var r2 := if s == Renting || s == Returned then r1[PickupReportId := Ref(ReportKind, reportBase)] else r1;
    if s == Returned then r2[ReturnReport := Ref(ReportKind, reportBase + 1)] else r2
  }

  /** The rent's status reason, when it has one. */
  function StatusOf(e: Entity): Option<RentStatusReason>
  {
    if StatusCode in e && e[StatusCode].Status? then Some(e[StatusCode].status) else None
  }

  /** The state code agrees with the status reason. */
  predicate StateAgrees(e: Entity)
  {
    StatusOf(e).Some? && StateCode in e && e[StateCode] == OptionCode(StatusState(StatusOf(e).value))
  }

  /** The reserved days lie in the window and are 1 to 29 days apart. */
  predicate InWindow(e: Entity)
  {
    && ReservedPickup in e && e[ReservedPickup].Day?
    && ReservedHandover in e && e[ReservedHandover].Day?
    && BaseStart <= e[ReservedPickup].day
    && e[ReservedHandover].day <= BaseEnd
    && 1 <= e[ReservedHandover].day - e[ReservedPickup].day <= 29
  }

  /** Class `i` is booked: its price per day times the rental days is the price, and the car is an active car of it. */
  predicate BookedClass(e: Entity, ref: Reference, cars: seq<Car>, i: int)
    requires InWindow(e)
  {
    && 0 <= i < |ref.classes|
    && CarClassId in e && e[CarClassId] == Ref(CarClassKind, ref.classes[i].id)
    && Price in e && e[Price] == Money(ref.classes[i].price * (e[ReservedHandover].day - e[ReservedPickup].day))
    && CarId in e && e[CarId].Ref?
    && exists c :: c in cars && c.active && c.classId == ref.classes[i].id && e[CarId] == Ref(CarKind, c.id)
  }

  /** Only confirmed, renting and returned rents can be paid. */
  predicate PaidAgrees(e: Entity)
  {
    && StatusOf(e).Some? && Paid in e && e[Paid].Flag?
    && (e[Paid].flag ==> StatusOf(e).value in {Confirmed, Renting, Returned})
  }

  /** Report references follow the status exactly; actual days are set where the status needs them. */
  predicate TransfersAgree(e: Entity)
  {
    && StatusOf(e).Some? && InWindow(e)
    && (PickupReportId in e <==> PickedUp(StatusOf(e).value))
    && (ReturnReport in e <==> StatusOf(e).value == Returned)
    && (PickedUp(StatusOf(e).value) ==> ActualPickup in e && e[ActualPickup] == e[ReservedPickup])
    && (StatusOf(e).value == Returned ==> ActualReturn in e && e[ActualReturn] == e[ReservedHandover])
  }

  /** Pickup and return locations are transfer locations and the customer is one of the customers. */
  predicate FromReference(e: Entity, ref: Reference)
  {
    && PickupLocation in e && e[PickupLocation].OptionCode? && e[PickupLocation].code in ref.locations
    && ReturnLocation in e && e[ReturnLocation].OptionCode? && e[ReturnLocation].code in ref.locations
    && CustomerRef in e && e[CustomerRef].Ref? && e[CustomerRef].kind == ContactKind
    && exists c :: c in ref.customers && c.id == e[CustomerRef].id
  }

  /** What every stored rent of sample n satisfies. */
  predicate Consistent(e: Entity, n: nat, ref: Reference, cars: seq<Car>)
  {
    && Name in e && e[Name] == Text(SampleName(n))
    && StateAgrees(e) && InWindow(e) && PaidAgrees(e) && TransfersAgree(e) && FromReference(e, ref)
    && exists i :: 0 <= i < |ref.classes| && BookedClass(e, ref, cars, i)
  }

  /** Drafting keeps the name and never sets the car or the report references. */
  lemma {:induction false} DraftedShape(n: nat, attempts: seq<Draws>, m: nat, ref: Reference)
    requires m <= |attempts| && Draftable(attempts, ref)
    ensures var r := Drafted(Fresh(n), attempts, m, ref);
            Name in r && r[Name] == Text(SampleName(n))
            && CarId !in r && PickupReportId !in r && ReturnReport !in r
  {
    if m > 0 {
      DraftedShape(n, attempts, m - 1, ref);
      DraftWrites(Drafted(Fresh(n), attempts, m - 1, ref), attempts[m - 1], ref);
    }
  }

  /**
   * What a draft writes: the status, state, reserved days and class, plus the actual days
   * the status calls for; actual days the status does not call for stay as they were.
   */
  lemma DraftWrites(rent: Entity, a: Draws, ref: Reference)
    requires DraftInRange(a, ref)
    ensures var e, s, w := Draft(rent, a, ref), StatusReason(a.status), Schedule(a.duration, a.dayOffset);
            && StatusCode in e && e[StatusCode] == Status(s)
            && StateCode in e && e[StateCode] == OptionCode(StatusState(s))
            && ReservedPickup in e && e[ReservedPickup] == Day(w.pickup)
            && ReservedHandover in e && e[ReservedHandover] == Day(w.handover)
            && CarClassId in e && e[CarClassId] == Ref(CarClassKind, ref.classes[a.classIndex].id)
            && (PickedUp(s) ==> ActualPickup in e && e[ActualPickup] == Day(w.pickup))
            && (s == Returned ==> ActualReturn in e && e[ActualReturn] == Day(w.handover))
            && (!PickedUp(s) ==> Keeps(rent, e, ActualPickup))
            && (s != Returned ==> Keeps(rent, e, ActualReturn))
  {
  }

  /**
   * What finishing writes: car, locations, price, customer, paid flag and the references to
   * the reports the status calls for; report references the status does not call for stay.
   */
  lemma FinishWrites(rent: Entity, a: Draws, ref: Reference, cars: seq<Car>, reportBase: nat)
    requires InRange(a, ref, cars)
    ensures var e, s := Finish(rent, a, ref, cars, reportBase), StatusReason(a.status);
            && CarId in e && e[CarId] == Ref(CarKind, SelectedCar(a, ref, cars).id)
            && PickupLocation in e && e[PickupLocation] == OptionCode(ref.locations[a.pickupLocation])
            && ReturnLocation in e && e[ReturnLocation] == OptionCode(ref.locations[a.returnLocation])
            && Price in e && e[Price] == Money(ref.classes[a.classIndex].price * a.duration)
            && CustomerRef in e && e[CustomerRef] == Ref(ContactKind, ref.customers[a.customer].id)
            && Paid in e && e[Paid] == Flag(PaidStatus(s, a.paid))
            && (PickedUp(s) ==> PickupReportId in e && e[PickupReportId] == Ref(ReportKind, reportBase))
            && (!PickedUp(s) ==> Keeps(rent, e, PickupReportId))
            && (s == Returned ==> ReturnReport in e && e[ReturnReport] == Ref(ReportKind, reportBase + 1))
            && (s != Returned ==> Keeps(rent, e, ReturnReport))
  {
  }

  /** The rent an accepted attempt leaves behind is consistent, whatever rejected attempts came before. */
  lemma AcceptedConsistent(n: nat, rent: Entity, a: Draws, ref: Reference, cars: seq<Car>, reportBase: nat)
    requires Name in rent && rent[Name] == Text(SampleName(n))
    requires CarId !in rent && PickupReportId !in rent && ReturnReport !in rent
    requires InRange(a, ref, cars)
    ensures Consistent(Finish(Draft(rent, a, ref), a, ref, cars, reportBase), n, ref, cars)
  {
    var r1 := Draft(rent, a, ref);
    DraftWrites(rent, a, ref);
    var e := Finish(r1, a, ref, cars, reportBase);
    FinishWrites(r1, a, ref, cars, reportBase);
    FinishFromReference(r1, a, ref, cars, reportBase);
    AcceptedBooked(rent, a, ref, cars, reportBase);
  }

  /** An accepted attempt books its drawn class: class price times days, an active car of the class. */
  lemma AcceptedBooked(rent: Entity, a: Draws, ref: Reference, cars: seq<Car>, reportBase: nat)
    requires InRange(a, ref, cars)
    ensures var e := Finish(Draft(rent, a, ref), a, ref, cars, reportBase);
            InWindow(e) && BookedClass(e, ref, cars, a.classIndex)
  {
    var drafted := Draft(rent, a, ref);
    var e := Finish(drafted, a, ref, cars, reportBase);
    DraftWrites(rent, a, ref);
    FinishWrites(drafted, a, ref, cars, reportBase);
    var w := Schedule(a.duration, a.dayOffset);
    assert e[ReservedHandover].day - e[ReservedPickup].day == a.duration;
    var c := SelectedCar(a, ref, cars);
    assert c in cars && e[CarId] == Ref(CarKind, c.id);
  }

  /** The locations and the customer an accepted attempt writes come from the reference lists. */
  lemma FinishFromReference(rent: Entity, a: Draws, ref: Reference, cars: seq<Car>, reportBase: nat)
    requires InRange(a, ref, cars)
    ensures FromReference(Finish(rent, a, ref, cars, reportBase), ref)
  {
    FinishWrites(rent, a, ref, cars, reportBase);
    assert ref.customers[a.customer] in ref.customers;
  }

  /**
   * Each report reference of the rent points at a report of the store for the rent's car:
   * the pickup report on the reserved pickup day, the return report on the handover day.
   */
  predicate ReportsLinked(e: Entity, reports: seq<Entity>)
  {
    && (PickupReportId in e ==>
          && CarId in e && e[CarId].Ref? && ReservedPickup in e && e[ReservedPickup].Day?
          && e[PickupReportId].Ref? && e[PickupReportId].kind == ReportKind && e[PickupReportId].id < |reports|
          && ReportOf(reports[e[PickupReportId].id], Pickup, e[CarId].id, e[ReservedPickup].day))
    && (ReturnReport in e ==>
          && CarId in e && e[CarId].Ref? && ReservedHandover in e && e[ReservedHandover].Day?
          && e[ReturnReport].Ref? && e[ReturnReport].kind == ReportKind && e[ReturnReport].id < |reports|
          && ReportOf(reports[e[ReturnReport].id], Return, e[CarId].id, e[ReservedHandover].day))
  }

  /**
   * The accepted rent's report references point at the reports the attempt appended after
   * the first `reportBase` reports.
   */
  lemma AcceptedLinked(rent: Entity, a: Draws, ref: Reference, cars: seq<Car>, reportBase: nat,
                       reports: seq<Entity>, shortDate: int -> string)
    requires InRange(a, ref, cars) && PickupReportId !in rent && ReturnReport !in rent
    requires reportBase <= |reports| && reports[reportBase..] == NewReports(a, ref, cars, shortDate)
    ensures ReportsLinked(Finish(Draft(rent, a, ref), a, ref, cars, reportBase), reports)
  {
    var r1 := Draft(rent, a, ref);
    DraftWrites(rent, a, ref);
    FinishWrites(r1, a, ref, cars, reportBase);
    var added := NewReports(a, ref, cars, shortDate);
    if PickedUp(StatusReason(a.status)) {
      assert reports[reportBase] == added[0];
    }
    if StatusReason(a.status) == Returned {
      assert reports[reportBase + 1] == added[1];
    }
  }

  /** The accepted rent carries the car, pickup and handover that passed the check. */
  predicate Admitted(e: Entity, rents: seq<Entity>)
  {
    BookingOf(e).Some? && CheckCarRental(rents, BookingOf(e).value.carId, BookingOf(e).value.pickup, BookingOf(e).value.handover)
  }

  /** An accepted rent carries the car and days of the attempt that passed the check. */
  lemma AcceptedAdmitted(rent: Entity, a: Draws, ref: Reference, cars: seq<Car>, rents: seq<Entity>, reportBase: nat)
    requires InRange(a, ref, cars) && Passes(a, ref, cars, rents)
    ensures Admitted(Finish(Draft(rent, a, ref), a, ref, cars, reportBase), rents)
  {
    DraftWrites(rent, a, ref);
    FinishWrites(Draft(rent, a, ref), a, ref, cars, reportBase);
  }

  /**
   * After any number of rejected drafts, the rent an accepted attempt finishes is consistent,
   * admitted, and linked to the reports the attempt appended.
   */
  lemma SampleAccepted(e: Entity, n: nat, attempts: seq<Draws>, m: nat, ref: Reference, cars: seq<Car>,
                       rents: seq<Entity>, prior: seq<Entity>, reports: seq<Entity>, shortDate: int -> string)
    requires m < |attempts| && Proper(attempts, ref, cars) && Passes(attempts[m], ref, cars, rents)
    requires e == Finish(Draft(Drafted(Fresh(n), attempts, m, ref), attempts[m], ref), attempts[m], ref, cars, |prior|)
    requires reports == prior + NewReports(attempts[m], ref, cars, shortDate)
    ensures Storable(e, n, ref, cars, rents, reports)
  {
    assert InRange(attempts[m], ref, cars);
    var drafted := Drafted(Fresh(n), attempts, m, ref);
    DraftedShape(n, attempts, m, ref);
    AcceptedConsistent(n, drafted, attempts[m], ref, cars, |prior|);
    AcceptedAdmitted(drafted, attempts[m], ref, cars, rents, |prior|);
    assert reports[|prior|..] == NewReports(attempts[m], ref, cars, shortDate);
    AcceptedLinked(drafted, attempts[m], ref, cars, |prior|, reports, shortDate);
  }

  /**
   * The part of one attempt before the availability check: status, state, reserved days,
   * actual days where the status calls for them and the car class, written over `rent`;
   * also the car proposed and the reserved days to check.
   */
  method DraftAttempt(rent: Entity, a: Draws, ref: Reference, cars: seq<Car>)
    returns (drafted: Entity, car: Car, pickup: int, handover: int)
    requires InRange(a, ref, cars)
    ensures drafted == Draft(rent, a, ref)
    ensures car == SelectedCar(a, ref, cars) && Window(pickup, handover) == Schedule(a.duration, a.dayOffset)
  {
    drafted := rent;
    var status := StatusReason(a.status);
    drafted := drafted[StatusCode := Status(status)];
    drafted := drafted[StateCode := OptionCode(StatusState(status))];
    var duration := a.duration;
    pickup := RandomDay(BaseStart, MaxDuration - duration, a.dayOffset);
    drafted := drafted[ReservedPickup := Day(pickup)];
    handover := pickup + duration;
    drafted := drafted[ReservedHandover := Day(handover)];
    if status == Renting || status == Returned {
      drafted := drafted[ActualPickup := Day(pickup)];
    }
    if status == Returned {
      drafted := drafted[ActualReturn := Day(handover)];
    }
    var carClass := Pick(ref.classes, a.classIndex);
    assert carClass == ref.classes[a.classIndex];
    drafted := drafted[CarClassId := Ref(CarClassKind, carClass.id)];
    car := Pick(ActiveCarsOf(cars, carClass.id), a.carIndex);
  }

  /**
   * The part of an accepted attempt after the check: car, locations, price, customer and
   * paid flag, then the pickup and return reports the status calls for, created in the store.
   */
  method FinishAttempt(service: Service, rent: Entity, a: Draws, ref: Reference, car: Car, pickup: int, handover: int,
                       shortDate: int -> string) returns (finished: Entity)
    requires InRange(a, ref, service.cars)
    requires car == SelectedCar(a, ref, service.cars) && Window(pickup, handover) == Schedule(a.duration, a.dayOffset)
    modifies service`reports
    ensures finished == Finish(rent, a, ref, service.cars, |old(service.reports)|)
    ensures service.reports == old(service.reports) + NewReports(a, ref, service.cars, shortDate)
  {
    var status := StatusReason(a.status);
    var carClass := ref.classes[a.classIndex];
    finished := rent[CarId := Ref(CarKind, car.id)];
    var pickupLocation := Pick(ref.locations, a.pickupLocation);
    finished := finished[PickupLocation := OptionCode(pickupLocation)];
    var returnLocation := Pick(ref.locations, a.returnLocation);
    finished := finished[ReturnLocation := OptionCode(returnLocation)];
    finished := finished[Price := Money(carClass.price * a.duration)];
    var customer := Pick(ref.customers, a.customer);
    finished := finished[CustomerRef := Ref(ContactKind, customer.id)];
    assert pickupLocation == ref.locations[a.pickupLocation] && returnLocation == ref.locations[a.returnLocation];
    assert customer == ref.customers[a.customer];
    finished := finished[Paid := Flag(PaidStatus(status, a.paid))];
    if status == Renting || status == Returned {
      var report := CreateReport(service, Pickup, pickup, car.id, a.pickupDamage, shortDate);
      finished := finished[PickupReportId := report];
    }
    if status == Returned {
      var report := CreateReport(service, Return, handover, car.id, a.returnDamage, shortDate);
      finished := finished[ReturnReport := report];
    }
  }

  /**
   * One attempt at a sample: draft over `rent`, then, when the proposed car is free in
   * `stored`, finish the rent and create its reports; a rejected attempt leaves the draft.
   */
  method Attempt(service: Service, rent: Entity, a: Draws, ref: Reference, stored: seq<Entity>,
                 shortDate: int -> string) returns (next: Entity, ok: bool)
    requires InRange(a, ref, service.cars)
    modifies service`reports
    ensures ok == Passes(a, ref, service.cars, stored)
    ensures !ok ==> next == Draft(rent, a, ref) && service.reports == old(service.reports)
    ensures ok ==>
              && next == Finish(Draft(rent, a, ref), a, ref, service.cars, |old(service.reports)|)
              && service.reports == old(service.reports) + NewReports(a, ref, service.cars, shortDate)
  {
    var car, pickup, handover;
    next, car, pickup, handover := DraftAttempt(rent, a, ref, service.cars);
    if !CheckCarRental(stored, car.id, pickup, handover) {
      return next, false;
    }
    next := FinishAttempt(service, next, a, ref, car, pickup, handover, shortDate);
    ok := true;
  }

  /**
   * One sample: attempts are drawn until one passes the availability check or the given
   * draws run out. `used` is the number of attempts made.
   */
  method BuildSample(service: Service, ref: Reference, n: nat, attempts: seq<Draws>, shortDate: int -> string)
    returns (rent: Entity, accepted: bool, used: nat)
    requires Proper(attempts, ref, service.cars)
    modifies service`reports
    ensures used <= |attempts| && (accepted ==> 1 <= used)
    ensures AllRejected(attempts, if accepted then used - 1 else used, ref, service.cars, service.rents)
    ensures !accepted ==>
              && used == |attempts| && service.reports == old(service.reports)
              && rent == Drafted(Fresh(n), attempts, |attempts|, ref)
    ensures accepted ==>
              && 1 <= used && Passes(attempts[used - 1], ref, service.cars, service.rents)
              && rent == Finish(Draft(Drafted(Fresh(n), attempts, used - 1, ref), attempts[used - 1], ref),
                                attempts[used - 1], ref, service.cars, |old(service.reports)|)
              && service.reports == old(service.reports) + NewReports(attempts[used - 1], ref, service.cars, shortDate)
  {
    var stored := service.rents;
    rent := Fresh(n);
    accepted := false;
    used := 0;
    ghost var reportBase := |service.reports|;
    while !accepted && used < |attempts|
      invariant used <= |attempts|
      invariant accepted ==> 1 <= used
      invariant AllRejected(attempts, if accepted then used - 1 else used, ref, service.cars, stored)
      invariant !accepted ==>
                  && service.reports == old(service.reports)
                  && rent == Drafted(Fresh(n), attempts, used, ref)
      invariant accepted ==>
                  && 1 <= used && Passes(attempts[used - 1], ref, service.cars, stored)
                  && rent == Finish(Draft(Drafted(Fresh(n), attempts, used - 1, ref), attempts[used - 1], ref),
                                    attempts[used - 1], ref, service.cars, reportBase)
                  && service.reports == old(service.reports) + NewReports(attempts[used - 1], ref, service.cars, shortDate)
      decreases |attempts| - used, if accepted then 0 else 1
    {
      var a := attempts[used];
      assert InRange(a, ref, service.cars);
      used := used + 1;
      rent, accepted := Attempt(service, rent, a, ref, stored, shortDate);
    }
  }

  /**
   * A rent of sample n that may be stored over `rents`, whose report references point at
   * reports of the store.
   */
  predicate Storable(e: Entity, n: nat, ref: Reference, cars: seq<Car>, rents: seq<Entity>, reports: seq<Entity>)
  {
    Consistent(e, n, ref, cars) && Admitted(e, rents) && ReportsLinked(e, reports)
  }

  /** Stored reports never become unlinked when more reports are created. */
  lemma LinkedGrow(e: Entity, reports: seq<Entity>, more: seq<Entity>)
    requires ReportsLinked(e, reports)
    ensures ReportsLinked(e, reports + more)
  {
    if PickupReportId in e {
      assert (reports + more)[e[PickupReportId].id] == reports[e[PickupReportId].id];
    }
    if ReturnReport in e {
      assert (reports + more)[e[ReturnReport].id] == reports[e[ReturnReport].id];
    }
  }

  /**
   * The `count` rents stored from position `base` on are the samples 1 to `count`: each is
   * consistent and was admitted against every rent stored before it.
   */
  predicate Stored(rents: seq<Entity>, base: nat, count: nat, ref: Reference, cars: seq<Car>, reports: seq<Entity>)
    requires base + count <= |rents|
  {
    forall k :: base <= k < base + count ==>
      Storable(rents[k], k - base + 1, ref, cars, rents[..k], reports)
  }

  /** Creating more reports keeps every stored sample linked to its reports. */
  lemma StoredGrow(rents: seq<Entity>, base: nat, count: nat, ref: Reference, cars: seq<Car>,
                   reports: seq<Entity>, more: seq<Entity>)
    requires base + count <= |rents| && Stored(rents, base, count, ref, cars, reports)
    ensures Stored(rents, base, count, ref, cars, reports + more)
  {
    forall k | base <= k < base + count
      ensures ReportsLinked(rents[k], reports + more)
    {
      LinkedGrow(rents[k], reports, more);
    }
  }

  /** Storing one more admitted, consistent sample extends `Stored` by one. */
  lemma StoredExtend(rents: seq<Entity>, base: nat, count: nat, ref: Reference, cars: seq<Car>,
                     reports: seq<Entity>, e: Entity)
    requires base + count == |rents| && Stored(rents, base, count, ref, cars, reports)
    requires Storable(e, count + 1, ref, cars, rents, reports)
    ensures Stored(rents + [e], base, count + 1, ref, cars, reports)
  {
    var next := rents + [e];
    assert next[..base + count] == rents;
    forall k | base <= k < base + count
      ensures next[k] == rents[k] && next[..k] == rents[..k]
    {
    }
  }

  /**
   * Storing the rent of an accepted sample, after the reports its attempt created, extends
   * `Stored` by one.
   */
  lemma StoreAccepted(rents: seq<Entity>, base: nat, count: nat, ref: Reference, cars: seq<Car>,
                      prior: seq<Entity>, reports: seq<Entity>, e: Entity, attempts: seq<Draws>, m: nat,
                      shortDate: int -> string)
    requires base + count == |rents| && Stored(rents, base, count, ref, cars, prior)
    requires m < |attempts| && Proper(attempts, ref, cars) && Passes(attempts[m], ref, cars, rents)
    requires e == Finish(Draft(Drafted(Fresh(count + 1), attempts, m, ref), attempts[m], ref), attempts[m], ref, cars, |prior|)
    requires reports == prior + NewReports(attempts[m], ref, cars, shortDate)
    ensures Stored(rents + [e], base, count + 1, ref, cars, reports)
  {
    SampleAccepted(e, count + 1, attempts, m, ref, cars, rents, prior, reports, shortDate);
    StoredGrow(rents, base, count, ref, cars, prior, NewReports(attempts[m], ref, cars, shortDate));
    StoredExtend(rents, base, count, ref, cars, reports, e);
  }

  /** Appending keeps every prefix of what was there. */
  lemma PrefixOfAppend(s: seq<Entity>, t: seq<Entity>, k: nat)
    requires k <= |s|
    ensures (s + t)[..k] == s[..k]
  {
  }

  /** A prefix of a prefix is a prefix. */
  lemma PrefixOfPrefix(s: seq<Entity>, t: seq<Entity>, k: nat)
    requires |t| <= |s| && s[..|t|] == t && k <= |t|
    ensures s[..k] == t[..k]
  {
    assert s[..k] == s[..|t|][..k];
  }

  /**
   * One sample of the generation run: its attempts are made and, when one passes, the rent
   * is stored after the `count` rents the run has stored from position `base` on.
   */
  method StoreSample(service: Service, ref: Reference, base: nat, count: nat, attempts: seq<Draws>,
                     shortDate: int -> string) returns (accepted: bool)
    requires Proper(attempts, ref, service.cars)
    requires base + count == |service.rents| && Stored(service.rents, base, count, ref, service.cars, service.reports)
    modifies service`rents, service`reports
    ensures |old(service.reports)| <= |service.reports| && service.reports[..|old(service.reports)|] == old(service.reports)
    ensures !accepted ==>
              && service.rents == old(service.rents) && service.reports == old(service.reports)
              && AllRejected(attempts, |attempts|, ref, service.cars, service.rents)
    ensures accepted ==>
              && |service.rents| == |old(service.rents)| + 1 && service.rents[..|old(service.rents)|] == old(service.rents)
              && Stored(service.rents, base, count + 1, ref, service.cars, service.reports)
  {
    ghost var reportsBefore := service.reports;
    var rent, used;
    rent, accepted, used := BuildSample(service, ref, count + 1, attempts, shortDate);
    if accepted {
      ghost var before := service.rents;
      StoreAccepted(before, base, count, ref, service.cars, reportsBefore, service.reports,
                    rent, attempts, used - 1, shortDate);
      PrefixOfAppend(reportsBefore, NewReports(attempts[used - 1], ref, service.cars, shortDate), |reportsBefore|);
      var id := service.CreateRent(rent);
      PrefixOfAppend(before, [rent], |before|);
    }
  }

  /**
   * The generation run: samples 1 to `TotalSamples` in turn, each built from its own
   * attempts and stored in the service. When the attempts of a sample run out before one
   * passes, the run stops there; `created` counts the rents stored. Reports are only
   * appended, and every stored rent points at its own reports.
   */
  method Generate(service: Service, ref: Reference, draws: seq<seq<Draws>>, shortDate: int -> string)
    returns (created: nat)
    requires |draws| == TotalSamples
    requires forall j :: 0 <= j < |draws| ==> Proper(draws[j], ref, service.cars)
    modifies service`rents, service`reports
    ensures created <= TotalSamples
    ensures |service.rents| == |old(service.rents)| + created
    ensures service.rents[..|old(service.rents)|] == old(service.rents)
    ensures |old(service.reports)| <= |service.reports| && service.reports[..|old(service.reports)|] == old(service.reports)
    ensures Stored(service.rents, |old(service.rents)|, created, ref, service.cars, service.reports)
    ensures created < TotalSamples ==>
              AllRejected(draws[created], |draws[created]|, ref, service.cars, service.rents)
  {
    var base := |service.rents|;
    created := 0;
    var exhausted := false;
    while created < TotalSamples && !exhausted
      invariant created <= TotalSamples
      invariant |service.rents| == base + created && service.rents[..base] == old(service.rents)
      invariant |old(service.reports)| <= |service.reports| && service.reports[..|old(service.reports)|] == old(service.reports)
      invariant Stored(service.rents, base, created, ref, service.cars, service.reports)
      invariant exhausted ==>
                  created < TotalSamples && AllRejected(draws[created], |draws[created]|, ref, service.cars, service.rents)
      decreases TotalSamples - created, if exhausted then 0 else 1
    {
      ghost var rentsBefore, reportsBefore := service.rents, service.reports;
      var accepted := StoreSample(service, ref, base, created, draws[created], shortDate);
      PrefixOfPrefix(service.reports, reportsBefore, |old(service.reports)|);
      if !accepted {
        exhausted := true;
      } else {
        PrefixOfPrefix(service.rents, rentsBefore, base);
        created := created + 1;
      }
    }
  }

  /** One car class, one customer, one location. */
  function SmallReference(): Reference
  {
    Reference([CarClass(1, 10)], [Customer(1)], [1])
  }

  /** One active car of class 1. */
  function SmallFleet(): seq<Car>
  {
    [Car(1, 1, true)]
  }

  /** A stored canceled rent of car 1 over days 0..1. */
  function BlockingRent(): Entity
  {
    map[StatusCode := Status(Canceled), CarId := Ref(CarKind, 1), ReservedPickup := Day(0), ReservedHandover := Day(1)]
  }

  /** A returned attempt over days 0..1, then a created attempt over days 5..6, both for car 1. */
  function ReturnedThenCreated(): seq<Draws>
  {
    [Draws(4, 1, 0, 0, 0, 0, 0, 0, 1, 2, 2), Draws(1, 1, 5, 0, 0, 0, 0, 0, 1, 2, 2)]
  }

  /** Against a store holding `BlockingRent`, the first attempt is rejected and the second passes. */
  lemma RejectedThenAccepted()
    ensures Proper(ReturnedThenCreated(), SmallReference(), SmallFleet())
    ensures AllRejected(ReturnedThenCreated(), 1, SmallReference(), SmallFleet(), [BlockingRent()])
    ensures Passes(ReturnedThenCreated()[1], SmallReference(), SmallFleet(), [BlockingRent()])
  {
    var ref, cars, attempts := SmallReference(), SmallFleet(), ReturnedThenCreated();
    assert ActiveCarsOf(cars, 1) == [Car(1, 1, true)];
    assert SelectedCar(attempts[0], ref, cars) == Car(1, 1, true);
    assert Schedule(1, 0) == Window(0, 1);
    assert BookingOf(BlockingRent()) == Some(Booking(Canceled, 1, 0, 1));
    assert Blocks(BlockingRent(), 1, 0, 1);
    assert [BlockingRent()][0] == BlockingRent();
    assert !Passes(attempts[0], ref, cars, [BlockingRent()]);
    assert AllRejected(attempts, 0, ref, cars, [BlockingRent()]);
    assert Schedule(1, 5) == Window(5, 6);
  }

  /**
   * As written: with the first attempt rejected and the second accepted (`RejectedThenAccepted`),
   * the rent stored for the sample is "Created" yet carries the actual pickup and return days
   * the rejected "Returned" attempt wrote.
   */
  lemma StaleActualDays()
    ensures var ref, attempts := SmallReference(), ReturnedThenCreated();
            var e := Finish(Draft(Drafted(Fresh(1), attempts, 1, ref), attempts[1], ref), attempts[1], ref, SmallFleet(), 0);
            && StatusOf(e) == Some(Created)
            && ActualPickup in e && e[ActualPickup] == Day(0)
            && ActualReturn in e && e[ActualReturn] == Day(1)
  {
    var ref, cars, attempts := SmallReference(), SmallFleet(), ReturnedThenCreated();
    RejectedThenAccepted();
    assert Schedule(1, 0) == Window(0, 1);
    var first := Draft(Fresh(1), attempts[0], ref);
    DraftWrites(Fresh(1), attempts[0], ref);
    var second := Draft(first, attempts[1], ref);
    DraftWrites(first, attempts[1], ref);
  }

  /**
   * Corrected: when every attempt drafts over a rent that holds only the sample's name,
   * the actual days are present exactly when the accepted status calls for them.
   */
  lemma FreshAttemptActualDays(n: nat, a: Draws, ref: Reference, cars: seq<Car>, reportBase: nat)
    requires InRange(a, ref, cars)
    ensures var e, s := Finish(Draft(Fresh(n), a, ref), a, ref, cars, reportBase), StatusReason(a.status);
            && (ActualPickup in e <==> PickedUp(s))
            && (ActualReturn in e <==> s == Returned)
  {
    DraftWrites(Fresh(n), a, ref);
  }
}
