/**
 * `CreateReport`: the car transfer report created when a generated rent has been picked
 * up or returned. The culture-dependent short date text is supplied by the caller.
 */
module Reports {
  import opened Wrappers
  import opened Enums
  import opened Crm
  import Sampler

  /** Description prefix: "Pickup " for pickups, "Return" for returns, before the joining space. */
  function Prefix(t: TransferType): string
  {
    if t == Pickup then "Pickup " else "Return"
  }

  /** The report description: the prefix, one space, then the date text. */
  function Describe(t: TransferType, dateText: string): (d: string)
    ensures t == Pickup ==> d == "Pickup  " + dateText
    ensures t == Return ==> d == "Return " + dateText
  {
    Prefix(t) + " " + dateText
  }

  /** Reads the transfer type and date text back from a report description. */
  function ParseDescription(d: string): Option<(TransferType, string)>
  {
    if |d| >= 8 && d[..8] == "Pickup  " then Some((Pickup, d[8..]))
    else if |d| >= 7 && d[..7] == "Return " then Some((Return, d[7..]))
    else None
  }

  /** A description determines the transfer type and the date text it was built from. */
  lemma DescribeRoundTrip(t: TransferType, dateText: string)
    ensures ParseDescription(Describe(t, dateText)) == Some((t, dateText))
  {
    var d := Describe(t, dateText);
    if t == Pickup {
      assert d[..8] == "Pickup  ";
      assert d[8..] == dateText;
    } else {
      if |d| >= 8 {
        assert d[..8][0] == 'R';
      }
      assert d[..7] == "Return ";
      assert d[7..] == dateText;
    }
  }

  /** Placeholder text stored with a damaged transfer. */
  const DamageText := "damage"

  /** The attributes of a transfer report, given the damage draw from [1, 19]. */
  function ReportFields(t: TransferType, date: int, carId: nat, damageDraw: int, dateText: string): (r: Entity)
    ensures r.Keys >= {TransferDate, TransferKind, CarId, Description, Damages}
    ensures r[TransferDate] == Day(date) && r[TransferKind] == Transfer(t) && r[CarId] == Ref(CarKind, carId)
    ensures r[Description] == Text(Describe(t, dateText))
    ensures r[Damages] == Flag(damageDraw == 1)
    ensures DamagesDescription in r <==> damageDraw == 1
    ensures DamagesDescription in r ==> r[DamagesDescription] == Text(DamageText)
  {
    var base := map[TransferDate := Day(date), TransferKind := Transfer(t), CarId := Ref(CarKind, carId),
                     Description := Text(Describe(t, dateText))];
    if Sampler.Damaged(damageDraw) then base[Damages := Flag(true)][DamagesDescription := Text(DamageText)]
    else base[Damages := Flag(false)]
  }

  /** Creates the transfer report in the store and returns a reference to it. */
  method CreateReport(service: Service, t: TransferType, date: int, carId: nat, damageDraw: int,
                      shortDate: int -> string) returns (ref: Value)
    modifies service`reports
    ensures service.reports == old(service.reports) + [ReportFields(t, date, carId, damageDraw, shortDate(date))]
    ensures ref == Ref(ReportKind, |old(service.reports)|)
  {
    var report := ReportFields(t, date, carId, damageDraw, shortDate(date));
    var id := service.CreateReport(report);
    ref := Ref(ReportKind, id);
  }
}
