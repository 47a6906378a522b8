/**
 * The random draws of the generator, with each `rand.Next` result passed in as a
 * parameter. `rand.Next(lo, hi)` yields a value in [lo, hi - 1] and `rand.Next(n)` one
 * in [0, n - 1]. Distributions are stated as counts over the draw domain.
 */
module Sampler {
  import opened Enums

  /** Status reason chosen by a status draw from [1, 19]. */
  function StatusReason(draw: int): (s: RentStatusReason)
    ensures s == Created <==> draw == 1
    ensures s == Confirmed <==> draw == 2
    ensures s == Renting <==> draw == 3
    ensures s == Returned <==> 4 <= draw <= 18
    ensures s == Canceled <==> draw < 1 || draw > 18
  {
    if draw == 1 then Created
    else if draw == 2 then Confirmed
    else if draw == 3 then Renting
    else if 4 <= draw <= 18 then Returned
    else Canceled
  }

  /** State code that goes with a status reason: 1 (inactive) or 0 (active). */
  function StatusState(s: RentStatusReason): (code: int)
    ensures code == 0 || code == 1
    ensures code == 1 <==> s == Returned || s == Canceled
  {
    if s == Returned || s == Canceled then 1 else 0
  }

  /** Whether a rent is paid, given its status and a paid draw from [1, 9999]. */
  function PaidStatus(s: RentStatusReason, draw: int): (paid: bool)
    ensures paid ==> s == Confirmed || s == Renting || s == Returned
    ensures paid ==> draw <= 9998
    ensures 1 <= draw ==> (paid <==> draw <= PaidWeight(s))
  {
    if s == Confirmed then draw <= 9000
    else if s == Renting then draw <= 9990
    else if s == Returned then draw <= 9998
    else false
  }

  /** Whether a transfer report records damage, given a damage draw from [1, 19]. */
  function Damaged(draw: int): (damaged: bool)
    ensures damaged ==> 1 <= draw <= 19
    ensures draw == 1 ==> damaged
  {
    draw == 1
  }

  /** Pick of a list element by an index draw from [0, |s| - 1] (`list[rand.Next(list.Count)]`). */
  function Pick<T>(s: seq<T>, index: int): (x: T)
    requires 0 <= index < |s|
    ensures x in s
  {
    s[index]
  }

  /** `GetRandomDay`: the start date moved forward by a draw from [0, span]. */
  function RandomDay(start: int, span: int, draw: int): (day: int)
    requires 0 <= draw <= span
    ensures start <= day <= start + span
  {
    start + draw
  }

  /** Number of draws d in [lo, hi] for which p(d) holds. */
  function CountDraws(lo: int, hi: int, p: int -> bool): (n: nat)
    ensures n <= if lo <= hi then hi - lo + 1 else 0
    decreases hi - lo
  {
    if hi < lo then 0 else (if p(lo) then 1 else 0) + CountDraws(lo + 1, hi, p)
  }

  /** Size of the intersection of the integer intervals [lo, hi] and [a, b]. */
  function Common(lo: int, hi: int, a: int, b: int): nat
  {
    var first := if lo < a then a else lo;
    var last := if hi < b then hi else b;
    if last < first then 0 else last - first + 1
  }

  /** A predicate that holds exactly on the band [a, b] is met by as many draws as the bands share. */
  lemma {:induction false} CountBand(lo: int, hi: int, a: int, b: int, p: int -> bool)
    requires forall d :: lo <= d <= hi ==> (p(d) <==> a <= d <= b)
    ensures CountDraws(lo, hi, p) == Common(lo, hi, a, b)
    decreases hi - lo
  {
    if lo <= hi {
      CountBand(lo + 1, hi, a, b, p);
    }
  }

  /** Draws out of 19 that yield each status: 5%, 5%, 5%, 79% and 5%. */
  function StatusWeight(s: RentStatusReason): nat
  {
    match s
    case Created => 1
    case Confirmed => 1
    case Renting => 1
    case Returned => 15
    case Canceled => 1
  }

  /** Of the 19 possible status draws, exactly StatusWeight(s) give status s. */
  lemma StatusDistribution(s: RentStatusReason)
    ensures CountDraws(1, 19, d => StatusReason(d) == s) == StatusWeight(s)
  {
    var p := d => StatusReason(d) == s;
    match s
    case Created => CountBand(1, 19, 1, 1, p);
    case Confirmed => CountBand(1, 19, 2, 2, p);
    case Renting => CountBand(1, 19, 3, 3, p);
    case Returned => CountBand(1, 19, 4, 18, p);
    case Canceled => CountBand(1, 19, 19, 19, p);
  }

  /** 16 of the 19 status draws give an inactive state (Returned or Canceled). */
  lemma InactiveDistribution()
    ensures CountDraws(1, 19, d => StatusState(StatusReason(d)) == 1) == 16
  {
    CountBand(1, 19, 4, 19, d => StatusState(StatusReason(d)) == 1);
  }

  /** Paid draws out of 9999 that mark a rent of status s as paid. */
  function PaidWeight(s: RentStatusReason): nat
  {
    match s
    case Confirmed => 9000
    case Renting => 9990
    case Returned => 9998
    case _ => 0
  }

  /** Of the 9999 possible paid draws, exactly PaidWeight(s) mark status s as paid. */
  lemma PaidDistribution(s: RentStatusReason)
    ensures CountDraws(1, 9999, d => PaidStatus(s, d)) == PaidWeight(s)
  {
    var p := d => PaidStatus(s, d);
    match s
    case Confirmed => CountBand(1, 9999, 1, 9000, p);
    case Renting => CountBand(1, 9999, 1, 9990, p);
    case Returned => CountBand(1, 9999, 1, 9998, p);
    case _ => CountBand(1, 9999, 1, 0, p);
  }

  /** Exactly one of the 19 damage draws records damage. */
  lemma DamageDistribution()
    ensures CountDraws(1, 19, d => Damaged(d)) == 1
  {
    CountBand(1, 19, 1, 1, d => Damaged(d));
  }
}
