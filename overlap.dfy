/**
 * `CheckCarRental`: whether a car is free for a date range, judged from the rents
 * already in the store. The store-side query is modelled as a predicate over the
 * stored rent entities; a rent lacking one of the attributes the query compares does
 * not match it.
 */
module Overlap {
  import opened Wrappers
  import opened Enums
  import opened Crm

  /** The attributes of a stored rent that the availability query looks at. */
  datatype Booking = Booking(status: RentStatusReason, carId: nat, pickup: int, handover: int)

  /** The booking view of a stored rent, when it has all the attributes the query reads. */
  function BookingOf(e: Entity): (b: Option<Booking>)
    ensures b.Some? ==> StatusCode in e && e[StatusCode] == Status(b.value.status)
    ensures b.Some? ==> CarId in e && e[CarId].Ref? && e[CarId].id == b.value.carId
    ensures b.Some? ==> ReservedPickup in e && e[ReservedPickup] == Day(b.value.pickup)
    ensures b.Some? ==> ReservedHandover in e && e[ReservedHandover] == Day(b.value.handover)
  {
    if && StatusCode in e && e[StatusCode].Status?
       && CarId in e && e[CarId].Ref?
       && ReservedPickup in e && e[ReservedPickup].Day?
       && ReservedHandover in e && e[ReservedHandover].Day?
    then Some(Booking(e[StatusCode].status, e[CarId].id, e[ReservedPickup].day, e[ReservedHandover].day))
    else None
  }

  /** Case 1: the existing range covers the whole candidate range. */
  predicate FullyLeased(b: Booking, pickup: int, handover: int)
  {
    b.pickup <= pickup && b.handover >= handover
  }

  /** Case 2: the existing range starts inside the candidate and ends at or after its end. */
  predicate OverlapsEnd(b: Booking, pickup: int, handover: int)
  {
    b.pickup >= pickup && b.pickup <= handover && b.handover >= handover
  }

  /** Case 3: the existing range starts at or before the candidate and ends inside it. */
  predicate OverlapsStart(b: Booking, pickup: int, handover: int)
  {
    b.pickup <= pickup && b.handover >= pickup && b.handover <= handover
  }

  /** The query's condition on one stored booking, as written. */
  predicate Matches(b: Booking, carId: nat, pickup: int, handover: int)
    ensures Matches(b, carId, pickup, handover) ==>
              b.status == Canceled && b.carId == carId && !StrictlyInside(b, pickup, handover)
    ensures Matches(b, carId, pickup, handover) && pickup <= handover ==>
              Intersect(b.pickup, b.handover, pickup, handover)
  {
    && b.status == Canceled
    && (FullyLeased(b, pickup, handover) || OverlapsEnd(b, pickup, handover) || OverlapsStart(b, pickup, handover))
    && b.carId == carId
  }

  /** Whether a stored rent is returned by the availability query. */
  predicate Blocks(e: Entity, carId: nat, pickup: int, handover: int)
  {
    BookingOf(e).Some? && Matches(BookingOf(e).value, carId, pickup, handover)
  }

  /** `CheckCarRental`: true (free) exactly when the query returns no stored rent. */
  predicate CheckCarRental(rents: seq<Entity>, carId: nat, pickup: int, handover: int)
    ensures rents == [] ==> CheckCarRental(rents, carId, pickup, handover)
  {
    forall i :: 0 <= i < |rents| ==> !Blocks(rents[i], carId, pickup, handover)
  }

  /** The closed day ranges [p1, h1] and [p2, h2] share a day. */
  predicate Intersect(p1: int, h1: int, p2: int, h2: int)
  {
    p1 <= h2 && p2 <= h1
  }

  /** The existing range lies strictly inside the candidate range. */
  predicate StrictlyInside(b: Booking, pickup: int, handover: int)
  {
    b.pickup > pickup && b.handover < handover
  }

  /**
   * The three cases together say exactly: the ranges intersect and the existing one
   * does not lie strictly inside the candidate.
   */
  lemma CasesCharacterised(b: Booking, pickup: int, handover: int)
    requires pickup <= handover
    ensures (FullyLeased(b, pickup, handover) || OverlapsEnd(b, pickup, handover) || OverlapsStart(b, pickup, handover))
        <==> Intersect(b.pickup, b.handover, pickup, handover) && !StrictlyInside(b, pickup, handover)
  {
  }

  /** A matching booking always shares a day with the candidate range. */
  lemma MatchIntersects(b: Booking, carId: nat, pickup: int, handover: int)
    requires pickup <= handover
    requires Matches(b, carId, pickup, handover)
    ensures Intersect(b.pickup, b.handover, pickup, handover)
  {
    CasesCharacterised(b, pickup, handover);
  }

  /** A booking strictly inside the candidate range never matches, although the ranges intersect. */
  lemma StrictlyInsideMissed(b: Booking, carId: nat, pickup: int, handover: int)
    requires StrictlyInside(b, pickup, handover)
    ensures !Matches(b, carId, pickup, handover)
  {
  }

  /** The check answers false exactly when a canceled rent of the same car matches one of the cases. */
  lemma CheckCarRentalIff(rents: seq<Entity>, carId: nat, pickup: int, handover: int)
    requires pickup <= handover
    ensures !CheckCarRental(rents, carId, pickup, handover) <==>
      exists i :: 0 <= i < |rents| && BookingOf(rents[i]).Some?
        && BookingOf(rents[i]).value.status == Canceled
        && BookingOf(rents[i]).value.carId == carId
        && Intersect(BookingOf(rents[i]).value.pickup, BookingOf(rents[i]).value.handover, pickup, handover)
        && !StrictlyInside(BookingOf(rents[i]).value, pickup, handover)
  {
    if !CheckCarRental(rents, carId, pickup, handover) {
      var i :| 0 <= i < |rents| && Blocks(rents[i], carId, pickup, handover);
      CasesCharacterised(BookingOf(rents[i]).value, pickup, handover);
    }
    forall i | 0 <= i < |rents| && BookingOf(rents[i]).Some?
      ensures Matches(BookingOf(rents[i]).value, carId, pickup, handover) <==>
        BookingOf(rents[i]).value.status == Canceled && BookingOf(rents[i]).value.carId == carId
        && Intersect(BookingOf(rents[i]).value.pickup, BookingOf(rents[i]).value.handover, pickup, handover)
        && !StrictlyInside(BookingOf(rents[i]).value, pickup, handover)
    {
      CasesCharacterised(BookingOf(rents[i]).value, pickup, handover);
    }
  }

  // ---------------------------------------------------------------------------
  // The intended check: a candidate is refused by every intersecting booking.

  /** Blocking bookings as the query intends them: same status filter, any intersection. */
  predicate Conflicts(b: Booking, carId: nat, pickup: int, handover: int)
  {
    b.status == Canceled && b.carId == carId && Intersect(b.pickup, b.handover, pickup, handover)
  }

  /** The corrected availability check. */
  predicate IsAvailable(rents: seq<Entity>, carId: nat, pickup: int, handover: int)
  {
    forall i :: 0 <= i < |rents| ==>
      BookingOf(rents[i]).None? || !Conflicts(BookingOf(rents[i]).value, carId, pickup, handover)
  }

  /** No two stored bookings under the status filter share a car and a day. */
  predicate NoOverlap(rents: seq<Entity>)
  {
    forall i, j :: 0 <= i < j < |rents| && BookingOf(rents[i]).Some? && BookingOf(rents[j]).Some? ==>
      var bi, bj := BookingOf(rents[i]).value, BookingOf(rents[j]).value;
      !(bj.status == Canceled && Conflicts(bi, bj.carId, bj.pickup, bj.handover))
  }

  /** Storing a rent that passed the corrected check keeps the store free of overlaps. */
  lemma AvailablePreservesNoOverlap(rents: seq<Entity>, e: Entity)
    requires NoOverlap(rents)
    requires BookingOf(e).Some?
    requires IsAvailable(rents, BookingOf(e).value.carId, BookingOf(e).value.pickup, BookingOf(e).value.handover)
    ensures NoOverlap(rents + [e])
  {
    var rs := rents + [e];
    forall i, j | 0 <= i < j < |rs| && BookingOf(rs[i]).Some? && BookingOf(rs[j]).Some?
      ensures var bi, bj := BookingOf(rs[i]).value, BookingOf(rs[j]).value;
              !(bj.status == Canceled && Conflicts(bi, bj.carId, bj.pickup, bj.handover))
    {
      assert rs[i] == rents[i];
      if j < |rents| {
        assert rs[j] == rents[j];
      }
    }
  }

  /** The corrected check refuses at least what the written one refuses. */
  lemma AvailableImpliesCheck(rents: seq<Entity>, carId: nat, pickup: int, handover: int)
    requires pickup <= handover
    requires IsAvailable(rents, carId, pickup, handover)
    ensures CheckCarRental(rents, carId, pickup, handover)
  {
    forall i | 0 <= i < |rents| && BookingOf(rents[i]).Some?
      ensures !Matches(BookingOf(rents[i]).value, carId, pickup, handover)
    {
      CasesCharacterised(BookingOf(rents[i]).value, pickup, handover);
    }
  }

  /** A canceled rent of car 7 over days 5..7 in the store. */
  function InnerRent(): Entity
  {
    map[StatusCode := Status(Canceled), CarId := Ref(CarKind, 7), ReservedPickup := Day(5), ReservedHandover := Day(7)]
  }

  /**
   * The written check lets a candidate over days 1..10 for car 7 through although the stored
   * rent over days 5..7 intersects it, so storing the candidate creates an overlap.
   */
  lemma WrittenCheckAdmitsOverlap()
    ensures NoOverlap([InnerRent()])
    ensures CheckCarRental([InnerRent()], 7, 1, 10)
    ensures !IsAvailable([InnerRent()], 7, 1, 10)
    ensures !NoOverlap([InnerRent(), InnerRent()[ReservedPickup := Day(1)][ReservedHandover := Day(10)]])
  {
    var outer := InnerRent()[ReservedPickup := Day(1)][ReservedHandover := Day(10)];
    assert BookingOf(InnerRent()) == Some(Booking(Canceled, 7, 5, 7));
    assert BookingOf(outer) == Some(Booking(Canceled, 7, 1, 10));
    assert [InnerRent(), outer][0] == InnerRent();
    assert [InnerRent(), outer][1] == outer;
  }
}
