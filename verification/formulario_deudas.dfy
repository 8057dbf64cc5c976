/**
 * The debts form and table (`DeudasForm`): the add/edit dialog with its
 * validation, the delete button, and what each table row shows for a debt:
 * its profit colour, the days left before it falls due, and its status badge.
 *
 * The form keeps its numbers and date as typed text; `parseFloat` and
 * `new Date(text)` are outside the model, so `HandleSubmit` receives the
 * parsed values as parameters.
 */
module FormularioDeudas {
  import opened Wrappers
  import opened Lists
  import opened Texto
  import opened Modelo
  import opened Vistas
  import opened Almacen

  /** The dialog's fields as typed. */
  datatype DatosFormulario = DatosFormulario(
    clienteId: string,
    cliente: string,
    fechaVencimiento: string,
    monto: string,
    costoProveedor: string,
    estado: EstadoDeuda,
    descripcion: string)

  const FormularioVacio: DatosFormulario := DatosFormulario("", "", "", "", "", EstadoDeuda.Pendiente, "")

  datatype ErrorDeuda =
    | CamposObligatorios   // client, due date, amount or cost left empty
    | ClienteNoEncontrado  // the chosen id names no client

  /** The two checks of `handleSubmit`, in order; on success, the first client with the chosen id. */
  function Validar(f: DatosFormulario, clientes: seq<Cliente>): (r: Result<Cliente, ErrorDeuda>)
    ensures r == Failure(CamposObligatorios) <==>
      f.clienteId == "" || f.fechaVencimiento == "" || f.monto == "" || f.costoProveedor == ""
    ensures r == Failure(ClienteNoEncontrado) <==>
      f.clienteId != "" && f.fechaVencimiento != "" && f.monto != "" && f.costoProveedor != "" &&
      forall c :: c in clientes ==> c.id != f.clienteId
    ensures r.Success? ==> r.value in clientes && r.value.id == f.clienteId
    ensures r.Success? ==> forall i :: PrimeroConId(clientes, f.clienteId, i) ==> r.value == clientes[i]
  {
    if f.clienteId == "" || f.fechaVencimiento == "" || f.monto == "" || f.costoProveedor == "" then
      Failure(CamposObligatorios)
    else
      match Find(clientes, MismoCliente(f.clienteId))
      case None => Failure(ClienteNoEncontrado)
      case Some(c) => Success(c)
  }

  /**
   * `deudaData`: the client's current name is copied in, and an empty
   * description is stored as no description.
   */
  function DatosDeDeuda(f: DatosFormulario, cliente: Cliente, fecha: int, monto: int, costo: int): (d: DatosDeuda)
    ensures d.clienteId == f.clienteId && d.cliente == cliente.nombre && d.estado == f.estado
    ensures d.fechaVencimiento == fecha && d.monto == monto && d.costoProveedor == costo
    ensures d.descripcion.None? <==> f.descripcion == ""
    ensures d.descripcion.Some? ==> d.descripcion.value == f.descripcion
  {
    DatosDeuda(f.clienteId, cliente.nombre, fecha, monto, costo, f.estado,
               if f.descripcion == "" then None else Some(f.descripcion))
  }

  /** `actualizarDeuda(id, deudaData)`: every key but the id is present in the update. */
  function CambiosCompletos(d: DatosDeuda): CambiosDeuda
  {
    CambiosDeuda(None, Some(d.clienteId), Some(d.cliente), Some(d.fechaVencimiento), Some(d.monto),
                 Some(d.costoProveedor), Some(d.estado), Some(d.descripcion))
  }

  /** Saving an edit rewrites every field of the edited debt and keeps its id. */
  lemma EdicionReescribeDeuda(vieja: Deuda, d: DatosDeuda)
    ensures AplicarDeuda(vieja, CambiosCompletos(d)) == DeudaNueva(d, vieja.id)
  {
  }

  /**
   * A debt added through the form names an existing client, so the form never
   * breaks the store's client references.
   */
  lemma AgregarDesdeFormularioConservaReferencias(clientes: seq<Cliente>, deudas: seq<Deuda>,
      f: DatosFormulario, fecha: int, monto: int, costo: int, id: string)
    requires ReferenciasValidas(clientes, deudas)
    requires Validar(f, clientes).Success?
    ensures ReferenciasValidas(clientes, deudas + [DeudaNueva(DatosDeDeuda(f, Validar(f, clientes).value, fecha, monto, costo), id)])
  {
    var c := Validar(f, clientes).value;
    var nueva := DeudaNueva(DatosDeDeuda(f, c, fecha, monto, costo), id);
    assert nueva.clienteId == c.id && c in clientes;
  }

  /** An edit made through the form keeps the store's client references valid too. */
  lemma EditarDesdeFormularioConservaReferencias(clientes: seq<Cliente>, deudas: seq<Deuda>,
      f: DatosFormulario, fecha: int, monto: int, costo: int, id: string)
    requires ReferenciasValidas(clientes, deudas)
    requires Validar(f, clientes).Success?
    ensures ReferenciasValidas(clientes,
      ActualizarDeudas(deudas, id, CambiosCompletos(DatosDeDeuda(f, Validar(f, clientes).value, fecha, monto, costo))))
  {
    var c := Validar(f, clientes).value;
    var r := ActualizarDeudas(deudas, id, CambiosCompletos(DatosDeDeuda(f, c, fecha, monto, costo)));
    forall d | d in r ensures exists k :: k in clientes && k.id == d.clienteId {
      var i :| 0 <= i < |r| && r[i] == d;
      if deudas[i].id == id {
        assert d.clienteId == c.id;
      } else {
        assert d == deudas[i] && deudas[i] in deudas;
      }
    }
  }

  class Formulario {
    var formData: DatosFormulario
    var deudaEditando: Option<Deuda>

    constructor ()
      ensures formData == FormularioVacio && deudaEditando == None
    {
      formData := FormularioVacio;
      deudaEditando := None;
    }

    /** `resetForm`: an empty dialog in add mode. */
    method ResetForm()
      modifies this
      ensures formData == FormularioVacio && deudaEditando == None
    {
      formData := FormularioVacio;
      deudaEditando := None;
    }

    /** The client selector: the id and the name of the first client with it, or no name. */
    method SeleccionarCliente(clientes: seq<Cliente>, clienteId: string)
      modifies this
      ensures formData == old(formData).(clienteId := clienteId, cliente := formData.cliente)
      ensures (forall c :: c in clientes ==> c.id != clienteId) ==> formData.cliente == ""
      ensures forall i :: PrimeroConId(clientes, clienteId, i) ==> formData.cliente == clientes[i].nombre
      ensures deudaEditando == old(deudaEditando)
    {
      var nombre := match Find(clientes, MismoCliente(clienteId)) case Some(c) => c.nombre case None => "";
      formData := formData.(clienteId := clienteId, cliente := nombre);
    }

    /**
     * `handleEdit`: edit mode for the debt, with its fields written back as
     * text; `fechaTexto` is its due date as `YYYY-MM-DD`.
     */
    method HandleEdit(deuda: Deuda, fechaTexto: string)
      modifies this
      ensures deudaEditando == Some(deuda)
      ensures formData == DatosFormulario(deuda.clienteId, deuda.cliente, fechaTexto,
        IntToString(deuda.monto), IntToString(deuda.costoProveedor), deuda.estado, deuda.descripcion.GetOr(""))
    {
      deudaEditando := Some(deuda);
      formData := DatosFormulario(deuda.clienteId, deuda.cliente, fechaTexto,
        IntToString(deuda.monto), IntToString(deuda.costoProveedor), deuda.estado, deuda.descripcion.GetOr(""));
    }

    /**
     * `handleSubmit`: after validation, updates the debt being edited or adds
     * a new one, then resets the dialog. A rejected submission changes nothing.
     */
    method HandleSubmit(store: Cobranzas, fecha: int, monto: int, costo: int, idNuevo: string) returns (r: Outcome<ErrorDeuda>)
      modifies this, store
      ensures r.Fail? <==> Validar(old(formData), old(store.clientes)).Failure?
      ensures r.Fail? ==> r.error == Validar(old(formData), old(store.clientes)).error
      ensures r.Fail? ==> formData == old(formData) && deudaEditando == old(deudaEditando) && store.deudas == old(store.deudas)
      ensures r.Pass? ==>
        var datos := DatosDeDeuda(old(formData), Validar(old(formData), old(store.clientes)).value, fecha, monto, costo);
        match old(deudaEditando)
        case Some(e) => store.deudas == ActualizarDeudas(old(store.deudas), e.id, CambiosCompletos(datos))
        case None => store.deudas == old(store.deudas) + [DeudaNueva(datos, idNuevo)]
      ensures r.Pass? ==> formData == FormularioVacio && deudaEditando == None
      ensures store.clientes == old(store.clientes) && store.abonos == old(store.abonos)
      ensures store.configuracionCorreo == old(store.configuracionCorreo)
    {
      match Validar(formData, store.clientes)
      case Failure(e) =>
        return Fail(e);
      case Success(cliente) =>
        var datos := DatosDeDeuda(formData, cliente, fecha, monto, costo);
        match deudaEditando {
          case Some(editada) =>
            store.ActualizarDeuda(editada.id, CambiosCompletos(datos));
          case None =>
            var nueva := store.AgregarDeuda(datos, idNuevo);
        }
        ResetForm();
        return Pass;
    }

    /** `handleDelete`: removes the debt only when the user confirms. */
    method HandleDelete(store: Cobranzas, deuda: Deuda, confirmado: bool)
      modifies store
      ensures store.deudas == if confirmado then SinDeuda(old(store.deudas), deuda.id) else old(store.deudas)
      ensures store.clientes == old(store.clientes) && store.abonos == old(store.abonos)
      ensures store.configuracionCorreo == old(store.configuracionCorreo)
    {
      if confirmado {
        store.EliminarDeuda(deuda.id);
      }
    }
  }

  /** The profit cell's colour: green unless the provider cost exceeds the amount. */
  function ColorGanancia(d: Deuda): (color: string)
    ensures color == "text-red-600" <==> d.monto < d.costoProveedor
    ensures color == "text-green-600" <==> Ganancia(d) >= 0
  {
    if Ganancia(d) >= 0 then "text-green-600" else "text-red-600"
  }

  /**
   * `diasVencimiento`: the time to the due date rounded up to whole days, as
   * `Math.ceil` of the difference in days; negative once it is a day overdue.
   */
  function DiasVencimiento(fechaVencimiento: int, ahora: int): (r: int)
    ensures (r - 1) * MsPorDia < fechaVencimiento - ahora <= r * MsPorDia
  {
    -((ahora - fechaVencimiento) / MsPorDia)
  }

  /** Rounding up to whole days is the only way to meet `DiasVencimiento`'s bounds. */
  lemma DiasVencimientoUnico(fechaVencimiento: int, ahora: int, n: int)
    requires (n - 1) * MsPorDia < fechaVencimiento - ahora <= n * MsPorDia
    ensures n == DiasVencimiento(fechaVencimiento, ahora)
  {
  }

  /** The line under a due date in the table. */
  datatype EtiquetaVencimiento =
    | VencidaHace(dias: nat)  // "Vencida hace n día(s)"
    | VenceHoy                // "Vence hoy"
    | VenceManana             // "Vence mañana"
    | EnDias(dias: nat)       // "En n día(s)"

  function Etiqueta(dias: int): (r: EtiquetaVencimiento)
    ensures r.VencidaHace? <==> dias < 0
    ensures r.VencidaHace? ==> r.dias == -dias
    ensures r == VenceHoy <==> dias == 0
    ensures r == VenceManana <==> dias == 1
    ensures r.EnDias? <==> dias > 1
    ensures r.EnDias? ==> r.dias == dias
  {
    if dias < 0 then VencidaHace(-dias)
    else if dias == 0 then VenceHoy
    else if dias == 1 then VenceManana
    else EnDias(dias)
  }

  /**
   * Which label a debt gets, in terms of instants: "today" covers the day
   * before `ahora` up to `ahora`, "tomorrow" the day after it.
   */
  lemma EtiquetaSegunInstantes(f: int, ahora: int)
    ensures Etiqueta(DiasVencimiento(f, ahora)).VencidaHace? <==> f <= ahora - MsPorDia
    ensures Etiqueta(DiasVencimiento(f, ahora)) == VenceHoy <==> ahora - MsPorDia < f <= ahora
    ensures Etiqueta(DiasVencimiento(f, ahora)) == VenceManana <==> ahora < f <= ahora + MsPorDia
    ensures Etiqueta(DiasVencimiento(f, ahora)).EnDias? <==> ahora + MsPorDia < f
    ensures Etiqueta(DiasVencimiento(f, ahora)).VencidaHace? ==>
      Etiqueta(DiasVencimiento(f, ahora)).dias * MsPorDia <= ahora - f < (Etiqueta(DiasVencimiento(f, ahora)).dias + 1) * MsPorDia
  {
    var r := DiasVencimiento(f, ahora);
    if r < 0 {
      assert r * MsPorDia <= -MsPorDia;
    } else if r > 1 {
      assert (r - 1) * MsPorDia >= MsPorDia;
    }
  }

  /**
   * The row label and the dashboard's "due today" list measure days
   * differently: at 01:00 a debt due at 23:00 the same day is in the
   * dashboard's list for today while its row says "Vence mañana".
   */
  lemma EtiquetaDifiereDeVencenHoy()
    ensures var ahora, f := 3600000, 82800000;
      DiaDe(f) == DiaDe(ahora) && Etiqueta(DiasVencimiento(f, ahora)) == VenceManana
  {
  }

  /** `getEstadoBadgeVariant`. */
  function VarianteEstado(e: EstadoDeuda): (r: string)
    ensures r == "default" <==> e == EstadoDeuda.Pagada
    ensures r == "secondary" <==> e == EstadoDeuda.Pendiente
    ensures r == "destructive" <==> e == Vencida
    ensures r == "outline" <==> e == EnProceso
  {
    match e
    case Pagada => "default"
    case Pendiente => "secondary"
    case Vencida => "destructive"
    case EnProceso => "outline"
  }

  /** `getEstadoColor`. */
  function ColorEstado(e: EstadoDeuda): (r: string)
    ensures r == "text-green-600" <==> e == EstadoDeuda.Pagada
    ensures r == "text-blue-600" <==> e == EstadoDeuda.Pendiente
    ensures r == "text-red-600" <==> e == Vencida
    ensures r == "text-yellow-600" <==> e == EnProceso
  {
    match e
    case Pagada => "text-green-600"
    case Pendiente => "text-blue-600"
    case Vencida => "text-red-600"
    case EnProceso => "text-yellow-600"
  }

  /** Each status has its own badge variant and its own colour. */
  lemma EstadosDistinguibles(a: EstadoDeuda, b: EstadoDeuda)
    ensures VarianteEstado(a) == VarianteEstado(b) ==> a == b
    ensures ColorEstado(a) == ColorEstado(b) ==> a == b
  {
  }
}
