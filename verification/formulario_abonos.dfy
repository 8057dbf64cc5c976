/**
 * The form that schedules provider payments (`AbonosForm`): the client
 * selector, the checklist of that client's active debts, the running total of
 * the selected debts' provider costs, and the submission that adds an abono
 * to the store.
 *
 * The store is passed in explicitly; the current instant (`new Date()`) and
 * the id the store will draw are parameters.
 */
module FormularioAbonos {
  import opened Wrappers
  import opened Lists
  import opened Modelo
  import opened Vistas
  import opened Almacen

  /** The form's state besides the selected client. */
  datatype DatosFormulario = DatosFormulario(frecuencia: Frecuencia, deudasSeleccionadas: seq<string>, notas: string)

  /** Monthly, nothing selected, no notes. */
  const FormularioInicial: DatosFormulario := DatosFormulario(Frecuencia.Mensual, [], "")

  datatype ErrorAbono =
    | SeleccionIncompleta  // no client, or no debt selected
    | ClienteNoEncontrado  // the selected id names no client; the form gives up without a message

  /** The checklist: the selected client's debts that are not `Pagada`, or none without a client. */
  function DeudasDelCliente(deudas: seq<Deuda>, clienteSeleccionado: string): (r: seq<Deuda>)
    ensures clienteSeleccionado == "" ==> r == []
    ensures clienteSeleccionado != "" ==>
      forall d :: d in r <==> d in deudas && d.clienteId == clienteSeleccionado && Activa(d)
  {
    if clienteSeleccionado == "" then [] else DeudasActivasDe(deudas, clienteSeleccionado)
  }

  /** The checklist lists the client's debts in their store order. */
  lemma DeudasDelClienteConservaOrden(a: seq<Deuda>, b: seq<Deuda>, clienteSeleccionado: string)
    ensures DeudasDelCliente(a + b, clienteSeleccionado) ==
      DeudasDelCliente(a, clienteSeleccionado) + DeudasDelCliente(b, clienteSeleccionado)
  {
    if clienteSeleccionado != "" {
      DeudasActivasDeConcatena(a, b, clienteSeleccionado);
    }
  }

  function MismoId(deudaId: string): Deuda -> bool
  {
    (d: Deuda) => d.id == deudaId
  }

  /** The provider cost of the first debt with this id, or 0 when there is none. */
  function CostoDe(deudas: seq<Deuda>, deudaId: string): (r: int)
    ensures (forall d :: d in deudas ==> d.id != deudaId) ==> r == 0
    ensures forall i :: EsPrimero(deudas, MismoId(deudaId), i) ==> r == deudas[i].costoProveedor
  {
    match Find(deudas, MismoId(deudaId))
    case Some(d) => d.costoProveedor
    case None => 0
  }

  function CostoSegun(deudas: seq<Deuda>): string -> int
  {
    (deudaId: string) => CostoDe(deudas, deudaId)
  }

  /** `montoTotal`: the provider costs of the selected debts, added in selection order. */
  function MontoTotal(seleccion: seq<string>, deudas: seq<Deuda>): (r: int)
    ensures seleccion == [] ==> r == 0
    ensures |seleccion| == 1 ==> r == CostoDe(deudas, seleccion[0])
  {
    var costo := CostoSegun(deudas);
    assert |seleccion| == 1 ==> Sum(seleccion, costo) == costo(seleccion[0]) + Sum(seleccion[1..], costo) && seleccion[1..] == [];
    Sum(seleccion, costo)
  }

  /** Ids that name no debt add nothing: such a selection totals zero. */
  lemma {:induction false} MontoTotalSinDeudas(seleccion: seq<string>, deudas: seq<Deuda>)
    requires forall id :: id in seleccion ==> forall d :: d in deudas ==> d.id != id
    ensures MontoTotal(seleccion, deudas) == 0
  {
    if seleccion != [] {
      assert seleccion[0] in seleccion;
      assert forall id :: id in seleccion[1..] ==> id in seleccion;
      MontoTotalSinDeudas(seleccion[1..], deudas);
    }
  }

  /** The total of a selection is the sum of the totals of its parts. */
  lemma MontoTotalConcatena(a: seq<string>, b: seq<string>, deudas: seq<Deuda>)
    ensures MontoTotal(a + b, deudas) == MontoTotal(a, deudas) + MontoTotal(b, deudas)
  {
    SumAppend(a, b, CostoSegun(deudas));
  }

  /** With no negative provider cost in the store, the total is never negative. */
  lemma MontoTotalNoNegativo(seleccion: seq<string>, deudas: seq<Deuda>)
    requires forall d :: d in deudas ==> d.costoProveedor >= 0
    ensures MontoTotal(seleccion, deudas) >= 0
  {
    forall x ensures CostoSegun(deudas)(x) >= 0 {
      var f := Find(deudas, MismoId(x));
      assert f.Some? ==> f.value in deudas;
    }
    SumNonNegative(seleccion, CostoSegun(deudas));
  }

  /** The number of days each frequency schedules ahead. */
  function DiasFrecuencia(f: Frecuencia): nat
  {
    match f
    case Diario => 1
    case Semanal => 7
    case Quincenal => 15
    case Mensual => 30
  }

  /**
   * `calcularFechaProximoPago`: the next payment is a whole number of days
   * after `hoy`, at least one and at most thirty.
   */
  function CalcularFechaProximoPago(f: Frecuencia, hoy: int): (r: int)
    ensures hoy + MsPorDia <= r <= hoy + 30 * MsPorDia
    ensures (r - hoy) % MsPorDia == 0
    ensures (r - hoy) / MsPorDia == DiasFrecuencia(f)
  {
    hoy + DiasFrecuencia(f) * MsPorDia
  }

  /**
   * For the same instant, a longer period schedules the next payment strictly
   * later, and the scheduled date tells which frequency was chosen.
   */
  lemma FechaProximoPagoSegunFrecuencia(f: Frecuencia, g: Frecuencia, hoy: int)
    ensures CalcularFechaProximoPago(f, hoy) < CalcularFechaProximoPago(g, hoy) <==> DiasFrecuencia(f) < DiasFrecuencia(g)
    ensures CalcularFechaProximoPago(f, hoy) == CalcularFechaProximoPago(g, hoy) ==> f == g
  {
  }

  /** `toggleDeudaSeleccionada`: remove the id when selected, otherwise append it. */
  function Alternar(seleccion: seq<string>, deudaId: string): (r: seq<string>)
    ensures deudaId !in seleccion ==> r == seleccion + [deudaId]
    ensures deudaId in seleccion ==> deudaId !in r && |r| < |seleccion|
    ensures forall x :: x != deudaId ==> (x in r <==> x in seleccion)
  {
    if deudaId in seleccion then Without(seleccion, deudaId) else seleccion + [deudaId]
  }

  /** Ticking an unselected debt and unticking it again restores the selection. */
  lemma AlternarDosVecesRestaura(seleccion: seq<string>, deudaId: string)
    requires deudaId !in seleccion
    ensures Alternar(Alternar(seleccion, deudaId), deudaId) == seleccion
  {
    WithoutAppendFresh(seleccion, deudaId);
  }

  /** Ticking an unselected debt adds exactly its provider cost to the total. */
  lemma MontoTotalAlMarcar(seleccion: seq<string>, deudas: seq<Deuda>, deudaId: string)
    requires deudaId !in seleccion
    ensures MontoTotal(Alternar(seleccion, deudaId), deudas) == MontoTotal(seleccion, deudas) + CostoDe(deudas, deudaId)
  {
    MontoTotalConcatena(seleccion, [deudaId], deudas);
    assert [deudaId][1..] == [];
    assert MontoTotal([deudaId], deudas) == CostoSegun(deudas)(deudaId) + Sum([], CostoSegun(deudas));
  }

  /** Toggling keeps a selection free of repeated ids. */
  lemma AlternarSinDuplicados(seleccion: seq<string>, deudaId: string)
    requires NoDuplicates(seleccion)
    ensures NoDuplicates(Alternar(seleccion, deudaId))
  {
    if deudaId !in seleccion {
      AppendFreshNoDuplicates(seleccion, deudaId);
    }
  }

  /** `abonoData`: the record the form submits for a found client. */
  function DatosDelAbono(cliente: Cliente, f: DatosFormulario, deudas: seq<Deuda>, ahora: int): (d: DatosAbono)
    ensures d.clienteId == cliente.id && d.cliente == cliente.nombre && d.deudasIncluidas == f.deudasSeleccionadas
    ensures d.frecuencia == f.frecuencia && d.montoTotal == MontoTotal(f.deudasSeleccionadas, deudas)
    ensures d.fechaProximoPago == CalcularFechaProximoPago(f.frecuencia, ahora)
    ensures d.estado == EstadoAbono.Pendiente && d.fechaCreacion == ahora
    ensures d.notas.None? <==> f.notas == ""
    ensures d.notas.Some? ==> d.notas.value == f.notas
  {
    DatosAbono(cliente.id, cliente.nombre, f.frecuencia, f.deudasSeleccionadas,
               MontoTotal(f.deudasSeleccionadas, deudas), ahora,
               CalcularFechaProximoPago(f.frecuencia, ahora), EstadoAbono.Pendiente,
               if f.notas == "" then None else Some(f.notas))
  }

  class Formulario {
    var clienteSeleccionado: string
    var formData: DatosFormulario

    constructor ()
      ensures clienteSeleccionado == "" && formData == FormularioInicial
    {
      clienteSeleccionado := "";
      formData := FormularioInicial;
    }

    /** `resetForm`. */
    method ResetForm()
      modifies this
      ensures clienteSeleccionado == "" && formData == FormularioInicial
    {
      clienteSeleccionado := "";
      formData := FormularioInicial;
    }

    /** The client selector; the debts already ticked stay ticked. */
    method SeleccionarCliente(clienteId: string)
      modifies this
      ensures clienteSeleccionado == clienteId && formData == old(formData)
    {
      clienteSeleccionado := clienteId;
    }

    method ToggleDeudaSeleccionada(deudaId: string)
      modifies this
      ensures formData == old(formData).(deudasSeleccionadas := Alternar(old(formData.deudasSeleccionadas), deudaId))
      ensures clienteSeleccionado == old(clienteSeleccionado)
    {
      formData := formData.(deudasSeleccionadas := Alternar(formData.deudasSeleccionadas, deudaId));
    }

    /**
     * `handleSubmit`: rejects a submission without a client or without a
     * selected debt, gives up when the selected client does not exist, and
     * otherwise adds a pending abono for the selected debts and resets the form.
     */
    method HandleSubmit(store: Cobranzas, ahora: int, idNuevo: string) returns (r: Outcome<ErrorAbono>, creado: Option<Abono>)
      modifies this, store
      ensures r == Fail(SeleccionIncompleta) <==>
        old(clienteSeleccionado) == "" || |old(formData.deudasSeleccionadas)| == 0
      ensures r == Fail(ClienteNoEncontrado) <==>
        old(clienteSeleccionado) != "" && |old(formData.deudasSeleccionadas)| != 0 &&
        forall c :: c in old(store.clientes) ==> c.id != old(clienteSeleccionado)
      ensures r.Fail? ==> creado.None? && clienteSeleccionado == old(clienteSeleccionado) && formData == old(formData)
      ensures r.Fail? ==> store.abonos == old(store.abonos)
      ensures r.Pass? ==> creado.Some? && store.abonos == old(store.abonos) + [creado.value]
      ensures r.Pass? ==> var a := creado.value;
        a.id == idNuevo && a.clienteId == old(clienteSeleccionado) &&
        a.frecuencia == old(formData.frecuencia) &&
        a.deudasIncluidas == old(formData.deudasSeleccionadas) &&
        a.montoTotal == MontoTotal(old(formData.deudasSeleccionadas), old(store.deudas)) &&
        a.fechaCreacion == ahora &&
        a.fechaProximoPago == CalcularFechaProximoPago(old(formData.frecuencia), ahora) &&
        a.estado == EstadoAbono.Pendiente &&
        a.notas == (if old(formData.notas) == "" then None else Some(old(formData.notas)))
      ensures r.Pass? ==> forall i :: PrimeroConId(old(store.clientes), old(clienteSeleccionado), i) ==>
        creado.value.cliente == old(store.clientes)[i].nombre
      ensures r.Pass? ==> clienteSeleccionado == "" && formData == FormularioInicial
      ensures store.clientes == old(store.clientes) && store.deudas == old(store.deudas)
      ensures store.configuracionCorreo == old(store.configuracionCorreo)
    {
      if clienteSeleccionado == "" || |formData.deudasSeleccionadas| == 0 {
        return Fail(SeleccionIncompleta), None;
      }
      var cliente := Find(store.clientes, MismoCliente(clienteSeleccionado));
      if cliente.None? {
        return Fail(ClienteNoEncontrado), None;
      }
      var datos := DatosDelAbono(cliente.value, formData, store.deudas, ahora);
      var nuevo := store.AgregarAbono(datos, idNuevo);
      ResetForm();
      return Pass, Some(nuevo);
    }

    /** `handleMarcarPagado`. */
    method HandleMarcarPagado(store: Cobranzas, abono: Abono)
      modifies store
      ensures store.abonos == MarcarPagado(old(store.abonos), abono.id)
      ensures store.clientes == old(store.clientes) && store.deudas == old(store.deudas)
      ensures store.configuracionCorreo == old(store.configuracionCorreo)
    {
      store.MarcarAbonoPagado(abono.id);
    }
  }
}
