/**
  `_estado_contrato`: the expiry status of a contract from its end date, the
  current date and a notice threshold in days. The current date, which the
  source reads from the clock, is the parameter `hoy`.
 */
module Estado {
  import opened Wrappers
  import opened Calendar
  import opened IsoDate

  datatype Estado = SinFechaFin | Vencido | PorVencer | Vigente

  /** The value of the "estado" key. */
  function Name(e: Estado): string {
    match e
    case SinFechaFin => "sin_fecha_fin"
    case Vencido => "vencido"
    case PorVencer => "por_vencer"
    case Vigente => "vigente"
  }

  /** The dict `_estado_contrato` returns: "dias_restantes", "estado", "requiere_aviso_60d". */
  datatype Classification = Classification(diasRestantes: Option<int>, estado: Estado, requiereAviso60d: bool)

  /** The threshold the routes fall back to, and the one the plain listing uses. */
  const DEFAULT_UMBRAL_DIAS := 60

  /** The case split of `_estado_contrato` once the end date is known or known to be missing. */
  function Classify(fin: Option<CalDate>, hoy: CalDate, umbralDias: int): (c: Classification)
    ensures c.estado == SinFechaFin <==> fin.None?
    ensures fin.None? ==> c.diasRestantes.None? && !c.requiereAviso60d
    ensures fin.Some? ==> c.diasRestantes == Some(DaysBetween(hoy, fin.value))
    ensures c.estado == Vencido <==> fin.Some? && DaysBetween(hoy, fin.value) < 0
    ensures c.estado == PorVencer <==> fin.Some? && 0 <= DaysBetween(hoy, fin.value) <= umbralDias
    ensures c.estado == Vigente <==> fin.Some? && DaysBetween(hoy, fin.value) >= 0 && DaysBetween(hoy, fin.value) > umbralDias
    ensures c.requiereAviso60d <==> c.estado == PorVencer
  {
    match fin
    case None => Classification(None, SinFechaFin, false)
    case Some(f) =>
      var dias := DaysBetween(hoy, f);
      if dias < 0 then Classification(Some(dias), Vencido, false)
      else if dias <= umbralDias then Classification(Some(dias), PorVencer, true)
      else Classification(Some(dias), Vigente, false)
  }

  /** `_estado_contrato(fecha_fin_iso, umbral_dias)` on the day `hoy`. */
  function EstadoContrato(fechaFinIso: Option<string>, hoy: CalDate, umbralDias: int): (c: Classification)
    ensures fechaFinIso.None? || fechaFinIso == Some("") ==> c == Classification(None, SinFechaFin, false)
    ensures c.requiereAviso60d <==> c.estado == PorVencer
  {
    Classify(ParseIsoDate(fechaFinIso), hoy, umbralDias)
  }

  /** A contract is "vencido" exactly when its end date is an earlier calendar day than today. */
  lemma VencidoIffEndedBefore(fin: CalDate, hoy: CalDate, umbralDias: int)
    ensures Classify(Some(fin), hoy, umbralDias).estado == Vencido <==> Before(fin, hoy)
  {
    OrdinalOrder(fin, hoy);
  }

  /** A contract ending today is "por_vencer" with 0 days left for every threshold that is not negative. */
  lemma DueTodayIsPorVencer(hoy: CalDate, umbralDias: int)
    requires umbralDias >= 0
    ensures Classify(Some(hoy), hoy, umbralDias) == Classification(Some(0), PorVencer, true)
  {
  }

  /** A text that spells no calendar date gives "sin_fecha_fin", and only such a text does. */
  lemma SinFechaFinIffNoDate(s: string, hoy: CalDate, umbralDias: int)
    ensures EstadoContrato(Some(s), hoy, umbralDias).estado == SinFechaFin
        <==> forall y, m, d :: Spells(s, y, m, d) ==> !IsValid(Date(y, m, d))
  {
    ParseIsoDateRejects(s);
  }

  /** Classifying `str(fin)` is classifying fin itself. */
  lemma EstadoOfFormatted(fin: CalDate, hoy: CalDate, umbralDias: int)
    ensures EstadoContrato(Some(FormatIso(fin)), hoy, umbralDias) == Classify(Some(fin), hoy, umbralDias)
  {
    FormatIsoRoundTrip(fin);
  }

  /** The order in which a contract passes through the dated states as days go by. */
  function Stage(e: Estado): nat {
    match e
    case SinFechaFin => 0
    case Vigente => 0
    case PorVencer => 1
    case Vencido => 2
  }

  /**
    From one day to the next, "dias_restantes" drops by exactly one and the
    state never goes back: vigente, then por_vencer, then vencido (a negative
    threshold skips por_vencer).
   */
  lemma NextDayAdvances(fin: CalDate, hoy: CalDate, umbralDias: int)
    requires hoy != Date(MAX_YEAR, 12, 31)
    ensures var before, after := Classify(Some(fin), hoy, umbralDias), Classify(Some(fin), NextDay(hoy), umbralDias);
      after.diasRestantes == Some(before.diasRestantes.value - 1) && Stage(before.estado) <= Stage(after.estado)
  {
    NextDayOrdinal(hoy);
  }
}
