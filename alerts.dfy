/** The alert classifier of the monitoring hook (`generateModelAlert`): a fixed table
    from the model's class index to a severity and an (Indonesian) message. The
    alert's timestamp is not modelled. */
module Alerts {
  import opened Common

  datatype Severity = Success | Warning | Danger

  datatype Alert = Alert(severity: Severity, message: string)

  const Stable: Alert := Alert(Success, "Teknik CPR stabil! Pertahankan ritme ini.")
  const Unstable: Alert := Alert(Danger, "Teknik CPR tidak stabil! Perbaiki konsistensi.")
  const TrendingShallow: Alert := Alert(Warning, "Kompresi cenderung dangkal. Tekan lebih dalam.")
  const TrendingDeep: Alert := Alert(Warning, "Kompresi cenderung terlalu dalam. Kurangi tekanan.")
  /** The default branch: no usable classification yet. */
  const Awaiting: Alert := Alert(Warning, "Menunggu analisis teknik CPR...")

  /** `generateModelAlert`: total over every integer; only the index decides. */
  function ModelAlert(classIndex: int): (a: Alert)
    ensures a.severity == Success <==> classIndex == 0
    ensures a.severity == Danger <==> classIndex == 1
    ensures a.severity == Warning <==> classIndex != 0 && classIndex != 1
    ensures !(0 <= classIndex <= 3) ==> a == Awaiting
  {
    match classIndex
    case 0 => Stable
    case 1 => Unstable
    case 2 => TrendingShallow
    case 3 => TrendingDeep
    case _ => Awaiting
  }

  /** Reads the class back from an alert of the table; `None` for the default alert
      and for any alert not in the table. */
  function ClassOf(a: Alert): (c: Option<int>)
    ensures c.Some? ==> 0 <= c.value <= 3
  {
    if a == Stable then Some(0)
    else if a == Unstable then Some(1)
    else if a == TrendingShallow then Some(2)
    else if a == TrendingDeep then Some(3)
    else None
  }

  /** The four classes get four different alerts, and every other index the
      default one, so the alert shown identifies the class that produced it. */
  lemma AlertIdentifiesClass(classIndex: int)
    ensures ClassOf(ModelAlert(classIndex)) == if 0 <= classIndex <= 3 then Some(classIndex) else None
  {
  }
}
