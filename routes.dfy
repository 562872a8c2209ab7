/**
  The list routes of the contracts API, as decisions over the rows the
  database returns: GET /api/contracts (`listar_contratos`), GET
  /api/contracts/list (`listar_contratos_enriquecidos`) and GET
  /api/alerts/contracts (`alertas_contratos_por_vencer`). Each route builds
  its result by appending to a list while it walks the rows; each is a
  method with that loop, proved equal to a function over the rows, and the
  lemmas below say what those functions keep, drop and preserve.
 */
module Routes {
  import opened Wrappers
  import opened Calendar
  import opened IsoDate
  import opened Estado
  import PyInt

  // ---------------------------------------------------------------------------
  // The `umbral` query parameter

  /**
    `int(request.args.get("umbral", default="60"))`, falling back to 60 on
    ValueError.
   */
  function ParseUmbral(arg: Option<string>): int {
    var s := if arg.None? then "60" else arg.value;
    match PyInt.Parse(s)
    case Some(n) => n
    case None => DEFAULT_UMBRAL_DIAS
  }

  /** Without the parameter the threshold is 60. */
  lemma UmbralDefault()
    ensures ParseUmbral(None) == 60
  {
    assert PyInt.Format(60) == "60";
    PyInt.RoundTrip(60);
  }

  /** A parameter that `int` rejects (empty, "abc", "1.5", "1__0") falls back to 60. */
  lemma UmbralFallback(s: string)
    requires PyInt.Parse(s).None?
    ensures ParseUmbral(Some(s)) == 60
  {
  }

  /** `int` does not strip the separator \x1c, so "\x1c5" falls back to 60 rather than reading 5. */
  lemma UmbralSeparatorFallback()
    ensures ParseUmbral(Some([28 as char] + "5")) == 60
  {
    assert PyInt.Strip([28 as char] + "5") == [28 as char] + "5";
  }

  /** A decimal integer, with whitespace around it, is read as that integer, negative ones included. */
  lemma UmbralOfInteger(w1: string, n: int, w2: string)
    requires PyInt.AllSpace(w1) && PyInt.AllSpace(w2)
    ensures ParseUmbral(Some(w1 + PyInt.Format(n) + w2)) == n
  {
    PyInt.ParseIgnoresSpace(w1, PyInt.Format(n), w2);
    PyInt.RoundTrip(n);
  }

  // ---------------------------------------------------------------------------
  // Contracts and the items the enriched list and the alerts return

  /** A dict of `listar_contratos_bd`: the contratos columns with the dates as ISO text or None. */
  datatype Contract = Contract(
    id: int,
    inmobiliaria: Option<string>,
    inquilino: Option<string>,
    propietario: Option<string>,
    fechaInicio: Option<string>,
    fechaFin: Option<string>,
    decisionRenovacion: Option<string>,
    diasAviso: Option<int>)

  /** `{**c, **calc}`: the contract's keys with the classification's keys added. */
  datatype Item = Item(contract: Contract, calculo: Classification)

  function Enrich(c: Contract, hoy: CalDate, umbral: int): Item {
    Item(c, EstadoContrato(c.fechaFin, hoy, umbral))
  }

  function ContractsOf(items: seq<Item>): (cs: seq<Contract>)
    ensures |cs| == |items|
  {
    if items == [] then [] else ContractsOf(items[..|items| - 1]) + [items[|items| - 1].contract]
  }

  /** a is b with some elements left out and the rest in their order. */
  ghost predicate IsSublist<T>(a: seq<T>, b: seq<T>)
    decreases |b|
  {
    if a == [] then true
    else if b == [] then false
    else (a[|a| - 1] == b[|b| - 1] && IsSublist(a[..|a| - 1], b[..|b| - 1])) || IsSublist(a, b[..|b| - 1])
  }

  lemma SublistExtend<T>(a: seq<T>, b: seq<T>, x: T, kept: bool)
    requires IsSublist(a, b)
    ensures IsSublist(if kept then a + [x] else a, b + [x])
  {
    assert (b + [x])[..|b|] == b;
    if kept {
      assert (a + [x])[..|a|] == a;
    }
  }

  // ---------------------------------------------------------------------------
  // GET /api/contracts/list

  /** The `only` filter: unset or empty keeps every item, otherwise only items whose "estado" is that text. */
  predicate Keeps(only: Option<string>, e: Estado) {
    only.None? || only.value == "" || Name(e) == only.value
  }

  /** The items of the enriched list for the contracts cs. */
  function EnrichedItems(cs: seq<Contract>, hoy: CalDate, umbral: int, only: Option<string>): seq<Item>
    decreases |cs|
  {
    if cs == [] then []
    else
      var item := Enrich(cs[|cs| - 1], hoy, umbral);
      EnrichedItems(cs[..|cs| - 1], hoy, umbral, only) + (if Keeps(only, item.calculo.estado) then [item] else [])
  }

  /** `listar_contratos_enriquecidos`: the "items" and "umbral_dias" of its response. */
  method ListarContratosEnriquecidos(contratos: seq<Contract>, umbralArg: Option<string>, only: Option<string>, hoy: CalDate)
    returns (items: seq<Item>, umbral: int)
    ensures umbral == ParseUmbral(umbralArg)
    ensures items == EnrichedItems(contratos, hoy, umbral, only)
  {
    umbral := ParseUmbral(umbralArg);
    items := [];
    for i := 0 to |contratos|
      invariant items == EnrichedItems(contratos[..i], hoy, umbral, only)
    {
      assert contratos[..i + 1][..i] == contratos[..i];
      var c := contratos[i];
      var calculo := EstadoContrato(c.fechaFin, hoy, umbral);
      var item := Item(c, calculo);
      if only.Some? && only.value != "" && Name(item.calculo.estado) != only.value {
        continue;
      }
      items := items + [item];
    }
    assert contratos[..|contratos|] == contratos;
  }

  lemma ContractsOfAppend(items: seq<Item>, kept: seq<Item>)
    requires |kept| <= 1
    ensures ContractsOf(items + kept) == ContractsOf(items) + ContractsOf(kept)
  {
    if kept == [] {
      assert items + kept == items;
    } else {
      assert (items + kept)[..|items|] == items;
      assert kept[..0] == [];
    }
  }

  /** The enriched list keeps the input's order: its contracts are a sublist of the input. */
  lemma {:induction false} EnrichedOrdered(cs: seq<Contract>, hoy: CalDate, umbral: int, only: Option<string>)
    ensures IsSublist(ContractsOf(EnrichedItems(cs, hoy, umbral, only)), cs)
    decreases |cs|
  {
    if cs != [] {
      var init, c := cs[..|cs| - 1], cs[|cs| - 1];
      EnrichedOrdered(init, hoy, umbral, only);
      var prev := EnrichedItems(init, hoy, umbral, only);
      var item := Enrich(c, hoy, umbral);
      assert cs == init + [c];
      if Keeps(only, item.calculo.estado) {
        assert EnrichedItems(cs, hoy, umbral, only) == prev + [item];
        ContractsOfAppend(prev, [item]);
        SublistExtend(ContractsOf(prev), init, c, true);
      } else {
        assert EnrichedItems(cs, hoy, umbral, only) == prev + [];
        assert prev + [] == prev;
        SublistExtend(ContractsOf(prev), init, c, false);
      }
    }
  }

  /** Each item carries its own contract's classification and passes the `only` filter. */
  predicate EnrichedAndKept(items: seq<Item>, hoy: CalDate, umbral: int, only: Option<string>) {
    forall k :: 0 <= k < |items| ==>
      items[k] == Enrich(items[k].contract, hoy, umbral) && Keeps(only, items[k].calculo.estado)
  }

  /**
    Every item of the enriched list is a contract with its own
    classification and passes the `only` filter, so with `only` set its
    "estado" is `only`.
   */
  lemma {:induction false} EnrichedSound(cs: seq<Contract>, hoy: CalDate, umbral: int, only: Option<string>)
    ensures EnrichedAndKept(EnrichedItems(cs, hoy, umbral, only), hoy, umbral, only)
    decreases |cs|
  {
    if cs != [] {
      var init := cs[..|cs| - 1];
      EnrichedSound(init, hoy, umbral, only);
      var prev := EnrichedItems(init, hoy, umbral, only);
      var item := Enrich(cs[|cs| - 1], hoy, umbral);
      if Keeps(only, item.calculo.estado) {
        assert EnrichedItems(cs, hoy, umbral, only) == prev + [item];
        SoundExtend(prev, item, hoy, umbral, only);
      } else {
        assert EnrichedItems(cs, hoy, umbral, only) == prev + [] == prev;
      }
    }
  }

  lemma SoundExtend(prev: seq<Item>, item: Item, hoy: CalDate, umbral: int, only: Option<string>)
    requires EnrichedAndKept(prev, hoy, umbral, only)
    requires item == Enrich(item.contract, hoy, umbral) && Keeps(only, item.calculo.estado)
    ensures EnrichedAndKept(prev + [item], hoy, umbral, only)
  {
    var items := prev + [item];
    forall k | 0 <= k < |items|
      ensures items[k] == Enrich(items[k].contract, hoy, umbral) && Keeps(only, items[k].calculo.estado)
    {
      if k < |prev| {
        assert items[k] == prev[k];
      }
    }
  }

  /** With `only` set to a non-empty text, every item's "estado" is that text. */
  lemma EnrichedOnlyMatches(cs: seq<Contract>, hoy: CalDate, umbral: int, only: string)
    requires only != ""
    ensures forall item :: item in EnrichedItems(cs, hoy, umbral, Some(only)) ==> Name(item.calculo.estado) == only
  {
    EnrichedSound(cs, hoy, umbral, Some(only));
  }

  /** Every contract whose classification passes the `only` filter is in the enriched list. */
  lemma {:induction false} EnrichedComplete(cs: seq<Contract>, hoy: CalDate, umbral: int, only: Option<string>, j: int)
    requires 0 <= j < |cs| && Keeps(only, Enrich(cs[j], hoy, umbral).calculo.estado)
    ensures Enrich(cs[j], hoy, umbral) in EnrichedItems(cs, hoy, umbral, only)
    decreases |cs|
  {
    if j < |cs| - 1 {
      EnrichedComplete(cs[..|cs| - 1], hoy, umbral, only, j);
    }
  }

  /** With `only` unset or empty, every contract appears once, in order, with its classification. */
  lemma {:induction false} EnrichedUnfiltered(cs: seq<Contract>, hoy: CalDate, umbral: int, only: Option<string>)
    requires only.None? || only == Some("")
    ensures var items := EnrichedItems(cs, hoy, umbral, only);
      |items| == |cs| && forall i :: 0 <= i < |cs| ==> items[i] == Enrich(cs[i], hoy, umbral)
    decreases |cs|
  {
    if cs != [] {
      var init := cs[..|cs| - 1];
      var item := Enrich(cs[|cs| - 1], hoy, umbral);
      EnrichedUnfiltered(init, hoy, umbral, only);
      assert Keeps(only, item.calculo.estado);
      var prev := EnrichedItems(init, hoy, umbral, only);
      assert EnrichedItems(cs, hoy, umbral, only) == prev + [item];
      forall i | 0 <= i < |cs|
        ensures (prev + [item])[i] == Enrich(cs[i], hoy, umbral)
      {
        if i < |init| {
          assert (prev + [item])[i] == prev[i] == Enrich(init[i], hoy, umbral);
          assert cs[i] == init[i];
          assert (prev + [item])[i] == Enrich(cs[i], hoy, umbral);
        } else {
          assert i == |init|;
          assert (prev + [item])[i] == item;
          assert (prev + [item])[i] == Enrich(cs[i], hoy, umbral);
        }
      }
    }
  }

  /** An `only` that names no state ("PorVencer", "expired") leaves the list empty. */
  lemma {:induction false} EnrichedUnknownOnly(cs: seq<Contract>, hoy: CalDate, umbral: int, only: Option<string>)
    requires only.Some? && only.value != ""
    requires forall e: Estado :: Name(e) != only.value
    ensures EnrichedItems(cs, hoy, umbral, only) == []
    decreases |cs|
  {
    if cs != [] {
      EnrichedUnknownOnly(cs[..|cs| - 1], hoy, umbral, only);
    }
  }

  lemma ContractsOfSnoc(items: seq<Item>, item: Item, b: bool)
    ensures ContractsOf(items + (if b then [item] else [])) == ContractsOf(items) + (if b then [item.contract] else [])
  {
    if b {
      assert (items + [item])[..|items|] == items;
    } else {
      assert items + [] == items;
    }
  }

  /** The elements of xs whose flag in keep is set, in order: a filter taken from the front. */
  function Select<T>(xs: seq<T>, keep: seq<bool>): seq<T>
    requires |keep| == |xs|
    decreases |xs|
  {
    if xs == [] then []
    else (if keep[0] then [xs[0]] else []) + Select(xs[1..], keep[1..])
  }

  lemma {:induction false} SelectSnoc<T>(xs: seq<T>, keep: seq<bool>)
    requires |keep| == |xs| > 0
    ensures Select(xs, keep)
      == Select(xs[..|xs| - 1], keep[..|xs| - 1]) + (if keep[|xs| - 1] then [xs[|xs| - 1]] else [])
    decreases |xs|
  {
    var n := |xs|;
    var first, last := (if keep[0] then [xs[0]] else []), (if keep[n - 1] then [xs[n - 1]] else []);
    if n == 1 {
      assert xs[1..] == [] && xs[..0] == [];
      assert Select(xs, keep) == first + [];
    } else {
      var t, k := xs[1..], keep[1..];
      var init, kinit := xs[..n - 1], keep[..n - 1];
      SelectSnoc(t, k);
      assert t[..n - 2] == init[1..] && k[..n - 2] == kinit[1..];
      assert t[n - 2] == xs[n - 1] && k[n - 2] == keep[n - 1];
      assert Select(init, kinit) == first + Select(init[1..], kinit[1..]);
      assert first + (Select(init[1..], kinit[1..]) + last) == (first + Select(init[1..], kinit[1..])) + last;
    }
  }

  /** For each contract of cs, whether the `only` filter keeps it. */
  function KeepFlags(cs: seq<Contract>, hoy: CalDate, umbral: int, only: Option<string>): (f: seq<bool>)
    ensures |f| == |cs|
  {
    seq(|cs|, i requires 0 <= i < |cs| => Keeps(only, Enrich(cs[i], hoy, umbral).calculo.estado))
  }

  /** The contracts of cs the `only` filter keeps, in order: a reference definition, taken from the front. */
  function KeptContracts(cs: seq<Contract>, hoy: CalDate, umbral: int, only: Option<string>): seq<Contract> {
    Select(cs, KeepFlags(cs, hoy, umbral, only))
  }

  /**
    The enriched list holds exactly the contracts whose classification
    passes the `only` filter, in order and each as often as in the input.
   */
  lemma {:induction false} EnrichedIsFilter(cs: seq<Contract>, hoy: CalDate, umbral: int, only: Option<string>)
    ensures ContractsOf(EnrichedItems(cs, hoy, umbral, only)) == KeptContracts(cs, hoy, umbral, only)
    decreases |cs|
  {
    if cs != [] {
      EnrichedIsFilter(cs[..|cs| - 1], hoy, umbral, only);
      EnrichedFilterStep(cs, hoy, umbral, only);
    }
  }

  lemma EnrichedFilterStep(cs: seq<Contract>, hoy: CalDate, umbral: int, only: Option<string>)
    requires cs != []
    requires ContractsOf(EnrichedItems(cs[..|cs| - 1], hoy, umbral, only)) == KeptContracts(cs[..|cs| - 1], hoy, umbral, only)
    ensures ContractsOf(EnrichedItems(cs, hoy, umbral, only)) == KeptContracts(cs, hoy, umbral, only)
  {
    var init, c := cs[..|cs| - 1], cs[|cs| - 1];
    var item := Enrich(c, hoy, umbral);
    var b := Keeps(only, item.calculo.estado);
    assert EnrichedItems(cs, hoy, umbral, only) == EnrichedItems(init, hoy, umbral, only) + (if b then [item] else []);
    ContractsOfSnoc(EnrichedItems(init, hoy, umbral, only), item, b);
    var flags := KeepFlags(cs, hoy, umbral, only);
    SelectSnoc(cs, flags);
    assert flags[..|cs| - 1] == KeepFlags(init, hoy, umbral, only);
    assert flags[|cs| - 1] == b;
  }

  // ---------------------------------------------------------------------------
  // GET /api/alerts/contracts

  /** No renewal decision has been recorded: `decision_renovacion in (None, "PENDIENTE")`. */
  predicate Pending(c: Contract) {
    c.decisionRenovacion.None? || c.decisionRenovacion == Some("PENDIENTE")
  }

  /** The alert test of `alertas_contratos_por_vencer` on an item already classified. */
  predicate Alerts(item: Item) {
    Pending(item.contract) && item.calculo.estado == PorVencer && item.calculo.requiereAviso60d
  }

  /** The alerts for the contracts cs. */
  function AlertItems(cs: seq<Contract>, hoy: CalDate, umbral: int): seq<Item>
    decreases |cs|
  {
    if cs == [] then []
    else
      var item := Enrich(cs[|cs| - 1], hoy, umbral);
      AlertItems(cs[..|cs| - 1], hoy, umbral) + (if Alerts(item) then [item] else [])
  }

  /** `alertas_contratos_por_vencer`: the "items", "umbral_dias" and "total" of its response. */
  method AlertasContratosPorVencer(contratos: seq<Contract>, umbralArg: Option<string>, hoy: CalDate)
    returns (alertas: seq<Item>, umbral: int, total: nat)
    ensures umbral == ParseUmbral(umbralArg)
    ensures alertas == AlertItems(contratos, hoy, umbral)
    ensures total == |alertas|
  {
    umbral := ParseUmbral(umbralArg);
    alertas := [];
    for i := 0 to |contratos|
      invariant alertas == AlertItems(contratos[..i], hoy, umbral)
    {
      assert contratos[..i + 1][..i] == contratos[..i];
      var c := contratos[i];
      if !(c.decisionRenovacion.None? || c.decisionRenovacion == Some("PENDIENTE")) {
        continue;
      }
      var calculo := EstadoContrato(c.fechaFin, hoy, umbral);
      if calculo.estado == PorVencer && calculo.requiereAviso60d {
        alertas := alertas + [Item(c, calculo)];
      }
    }
    assert contratos[..|contratos|] == contratos;
    total := |alertas|;
  }

  /** The alerts keep the input's order: their contracts are a sublist of the input. */
  lemma {:induction false} AlertsOrdered(cs: seq<Contract>, hoy: CalDate, umbral: int)
    ensures IsSublist(ContractsOf(AlertItems(cs, hoy, umbral)), cs)
    decreases |cs|
  {
    if cs != [] {
      var init, c := cs[..|cs| - 1], cs[|cs| - 1];
      AlertsOrdered(init, hoy, umbral);
      var prev := AlertItems(init, hoy, umbral);
      var item := Enrich(c, hoy, umbral);
      assert cs == init + [c];
      if Alerts(item) {
        assert AlertItems(cs, hoy, umbral) == prev + [item];
        ContractsOfAppend(prev, [item]);
        SublistExtend(ContractsOf(prev), init, c, true);
      } else {
        assert AlertItems(cs, hoy, umbral) == prev + [];
        assert prev + [] == prev;
        SublistExtend(ContractsOf(prev), init, c, false);
      }
    }
  }

  /** Each item carries its own contract's classification, is pending and is "por_vencer". */
  predicate AllAlerts(items: seq<Item>, hoy: CalDate, umbral: int) {
    forall k :: 0 <= k < |items| ==>
      items[k] == Enrich(items[k].contract, hoy, umbral) && Pending(items[k].contract) && items[k].calculo.estado == PorVencer
  }

  lemma AlertsExtend(prev: seq<Item>, item: Item, hoy: CalDate, umbral: int)
    requires AllAlerts(prev, hoy, umbral)
    requires item == Enrich(item.contract, hoy, umbral) && Pending(item.contract) && item.calculo.estado == PorVencer
    ensures AllAlerts(prev + [item], hoy, umbral)
  {
    var items := prev + [item];
    forall k | 0 <= k < |items|
      ensures items[k] == Enrich(items[k].contract, hoy, umbral)
      ensures Pending(items[k].contract) && items[k].calculo.estado == PorVencer
    {
      if k < |prev| {
        assert items[k] == prev[k];
      }
    }
  }

  /**
    Every alert is a pending contract that classifies as "por_vencer" under
    the threshold, with that classification.
   */
  lemma {:induction false} AlertsSound(cs: seq<Contract>, hoy: CalDate, umbral: int)
    ensures AllAlerts(AlertItems(cs, hoy, umbral), hoy, umbral)
    decreases |cs|
  {
    if cs != [] {
      var init := cs[..|cs| - 1];
      AlertsSound(init, hoy, umbral);
      var prev := AlertItems(init, hoy, umbral);
      var item := Enrich(cs[|cs| - 1], hoy, umbral);
      if Alerts(item) {
        assert AlertItems(cs, hoy, umbral) == prev + [item];
        AlertsExtend(prev, item, hoy, umbral);
      } else {
        assert AlertItems(cs, hoy, umbral) == prev + [] == prev;
      }
    }
  }

  /** Every pending contract that classifies as "por_vencer" is alerted. */
  lemma {:induction false} AlertsComplete(cs: seq<Contract>, hoy: CalDate, umbral: int, j: int)
    requires 0 <= j < |cs| && Pending(cs[j])
    requires EstadoContrato(cs[j].fechaFin, hoy, umbral).estado == PorVencer
    ensures Enrich(cs[j], hoy, umbral) in AlertItems(cs, hoy, umbral)
    decreases |cs|
  {
    if j < |cs| - 1 {
      AlertsComplete(cs[..|cs| - 1], hoy, umbral, j);
    }
  }

  /** For each contract of cs, whether it is alerted. */
  function DueFlags(cs: seq<Contract>, hoy: CalDate, umbral: int): (f: seq<bool>)
    ensures |f| == |cs|
  {
    seq(|cs|, i requires 0 <= i < |cs| => Alerts(Enrich(cs[i], hoy, umbral)))
  }

  /** The contracts of cs that are alerted (pending and "por_vencer"), in order: a reference definition, taken from the front. */
  function DueContracts(cs: seq<Contract>, hoy: CalDate, umbral: int): seq<Contract> {
    Select(cs, DueFlags(cs, hoy, umbral))
  }

  /**
    The alerts hold exactly the pending contracts classified "por_vencer",
    in order and each as often as in the input.
   */
  lemma {:induction false} AlertsAreFilter(cs: seq<Contract>, hoy: CalDate, umbral: int)
    ensures ContractsOf(AlertItems(cs, hoy, umbral)) == DueContracts(cs, hoy, umbral)
    decreases |cs|
  {
    if cs != [] {
      AlertsAreFilter(cs[..|cs| - 1], hoy, umbral);
      AlertsFilterStep(cs, hoy, umbral);
    }
  }

  lemma AlertsFilterStep(cs: seq<Contract>, hoy: CalDate, umbral: int)
    requires cs != []
    requires ContractsOf(AlertItems(cs[..|cs| - 1], hoy, umbral)) == DueContracts(cs[..|cs| - 1], hoy, umbral)
    ensures ContractsOf(AlertItems(cs, hoy, umbral)) == DueContracts(cs, hoy, umbral)
  {
    var init, c := cs[..|cs| - 1], cs[|cs| - 1];
    var item := Enrich(c, hoy, umbral);
    var b := Alerts(item);
    assert AlertItems(cs, hoy, umbral) == AlertItems(init, hoy, umbral) + (if b then [item] else []);
    ContractsOfSnoc(AlertItems(init, hoy, umbral), item, b);
    var flags := DueFlags(cs, hoy, umbral);
    SelectSnoc(cs, flags);
    assert flags[..|cs| - 1] == DueFlags(init, hoy, umbral);
    assert flags[|cs| - 1] == b;
  }


  /** A contract with a recorded decision ("RENUEVA", "NO_RENUEVA") is never alerted. */
  lemma AlertsNeverDecided(cs: seq<Contract>, hoy: CalDate, umbral: int)
    ensures forall item :: item in AlertItems(cs, hoy, umbral) ==>
      item.contract.decisionRenovacion != Some("RENUEVA") && item.contract.decisionRenovacion != Some("NO_RENUEVA")
  {
    AlertsSound(cs, hoy, umbral);
  }

  function PendingOnly(items: seq<Item>): seq<Item>
    decreases |items|
  {
    if items == [] then []
    else PendingOnly(items[..|items| - 1]) + (if Pending(items[|items| - 1].contract) then [items[|items| - 1]] else [])
  }

  /** The alerts are the pending items of the enriched list filtered with only=por_vencer. */
  lemma {:induction false} AlertsArePendingPorVencer(cs: seq<Contract>, hoy: CalDate, umbral: int)
    ensures AlertItems(cs, hoy, umbral) == PendingOnly(EnrichedItems(cs, hoy, umbral, Some("por_vencer")))
    decreases |cs|
  {
    if cs != [] {
      var init := cs[..|cs| - 1];
      var prev := EnrichedItems(init, hoy, umbral, Some("por_vencer"));
      var item := Enrich(cs[|cs| - 1], hoy, umbral);
      AlertsArePendingPorVencer(init, hoy, umbral);
      assert AlertItems(cs, hoy, umbral) == AlertItems(init, hoy, umbral) + (if Alerts(item) then [item] else []);
      if Keeps(Some("por_vencer"), item.calculo.estado) {
        assert EnrichedItems(cs, hoy, umbral, Some("por_vencer")) == prev + [item];
        assert (prev + [item])[..|prev|] == prev;
        assert PendingOnly(prev + [item]) == PendingOnly(prev) + (if Pending(item.contract) then [item] else []);
      } else {
        assert EnrichedItems(cs, hoy, umbral, Some("por_vencer")) == prev + [];
        assert prev + [] == prev;
        assert !Alerts(item);
      }
    }
  }

  // ---------------------------------------------------------------------------
  // GET /api/contracts

  /** A `fecha_fin` or `fecha_inicio` cell as the driver returns it: NULL, a date object or text. */
  datatype RawDate = Null | NativeDate(date: CalDate) | Text(text: string)

  /** A row of the query in `listar_contratos`. */
  datatype Row = Row(
    id: int,
    inmobiliaria: Option<string>,
    inquilino: Option<string>,
    propietario: Option<string>,
    fechaInicio: RawDate,
    fechaFin: RawDate,
    decisionRenovacion: Option<string>)

  /** An element of the list `listar_contratos` returns. */
  datatype PlainItem = PlainItem(
    id: int,
    inmobiliaria: Option<string>,
    inquilino: Option<string>,
    propietario: Option<string>,
    fechaInicio: Option<string>,
    fechaFin: Option<string>,
    diasRestantes: Option<int>,
    porVencer: bool,
    decisionRenovacion: Option<string>)

  /** `str(x) if x else None` on a cell. */
  function AsText(r: RawDate): Option<string> {
    match r
    case Null => None
    case NativeDate(d) => Some(FormatIso(d))
    case Text(s) => if s == "" then None else Some(s)
  }

  /** The end date `listar_contratos` works with: a date object as it is, text through strptime. */
  function EndDate(r: RawDate): Option<CalDate> {
    match r
    case Null => None
    case NativeDate(d) => Some(d)
    case Text(s) => if s == "" then None else Strptime(s)
  }

  /** Whatever form the driver returns, the end date is the one `_parse_iso_date` reads from the cell's text. */
  lemma EndDateIsParsedText(r: RawDate)
    ensures EndDate(r) == ParseIsoDate(AsText(r))
  {
    if r.NativeDate? {
      FormatIsoRoundTrip(r.date);
    }
  }

  /**
    One element of `listar_contratos`. Its "dias_restantes" and "por_vencer"
    are what the classifier gives for the cell's text at the fixed threshold
    of 60 days.
   */
  function PlainItemOf(r: Row, hoy: CalDate): (p: PlainItem)
    ensures p.diasRestantes == EstadoContrato(AsText(r.fechaFin), hoy, DEFAULT_UMBRAL_DIAS).diasRestantes
    ensures p.porVencer <==> EstadoContrato(AsText(r.fechaFin), hoy, DEFAULT_UMBRAL_DIAS).estado == PorVencer
    ensures p.id == r.id && p.inmobiliaria == r.inmobiliaria && p.inquilino == r.inquilino
    ensures p.propietario == r.propietario && p.decisionRenovacion == r.decisionRenovacion
    ensures p.fechaInicio == AsText(r.fechaInicio) && p.fechaFin == AsText(r.fechaFin)
  {
    EndDateIsParsedText(r.fechaFin);
    var fin := EndDate(r.fechaFin);
    var dias := if fin.Some? then Some(DaysBetween(hoy, fin.value)) else None;
    PlainItem(
      r.id, r.inmobiliaria, r.inquilino, r.propietario,
      AsText(r.fechaInicio), AsText(r.fechaFin),
      dias, dias.Some? && 0 <= dias.value <= 60,
      r.decisionRenovacion)
  }

  /** `listar_contratos`: one element per row, in the rows' order. */
  method ListarContratos(rows: seq<Row>, hoy: CalDate) returns (contratos: seq<PlainItem>)
    ensures |contratos| == |rows|
    ensures forall i :: 0 <= i < |rows| ==> contratos[i] == PlainItemOf(rows[i], hoy)
  {
    contratos := [];
    for i := 0 to |rows|
      invariant |contratos| == i
      invariant forall k :: 0 <= k < i ==> contratos[k] == PlainItemOf(rows[k], hoy)
    {
      var r := rows[i];
      var fin: Option<CalDate> := None;
      match r.fechaFin {
        case Null =>
        case NativeDate(d) => fin := Some(d);
        case Text(s) => if s != "" { fin := Strptime(s); }
      }
      assert fin == EndDate(r.fechaFin);
      var diasRestantes := if fin.Some? then Some(DaysBetween(hoy, fin.value)) else None;
      var porVencer := diasRestantes.Some? && 0 <= diasRestantes.value <= 60;
      var item := PlainItem(
        r.id, r.inmobiliaria, r.inquilino, r.propietario,
        AsText(r.fechaInicio), AsText(r.fechaFin),
        diasRestantes, porVencer, r.decisionRenovacion);
      assert item == PlainItemOf(r, hoy);
      contratos := contratos + [item];
    }
  }
}
