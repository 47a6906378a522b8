/**
 * The two option sets of the rental solution that the generator writes.
 * Their numeric codes are not part of this model; only their distinctness matters,
 * which datatype constructors give for free.
 */
module Enums {
  /** Status reason of a rent (option set `statuscode` of `new_rent`). */
  datatype RentStatusReason = Created | Confirmed | Renting | Returned | Canceled

  /** Kind of car transfer recorded by a transfer report. */
  datatype TransferType = Pickup | Return
}
