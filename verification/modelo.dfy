/**
 * The records of the collection dashboard: clients, their debts, the
 * scheduled provider payments ("abonos") and the mail configuration.
 *
 * Amounts are integers. Instants are integer milliseconds since the epoch,
 * as `Date.prototype.getTime()` returns them.
 */
module Modelo {
  import opened Wrappers
  import opened Lists

  /** 24 * 60 * 60 * 1000: the length of a day in milliseconds. */
  const MsPorDia: int := 86400000

  datatype EstadoDeuda = Pendiente | Vencida | Pagada | EnProceso

  datatype EstadoAbono = Pendiente | Pagado

  datatype Frecuencia = Diario | Semanal | Quincenal | Mensual

  datatype Cliente = Cliente(
    id: string,
    nombre: string,
    email: string,
    telefono: string,
    fechaCreacion: int)

  /** A debt keeps a copy of its client's name taken when it was written. */
  datatype Deuda = Deuda(
    id: string,
    clienteId: string,
    cliente: string,
    fechaVencimiento: int,
    monto: int,
    costoProveedor: int,
    estado: EstadoDeuda,
    descripcion: Option<string>)

  /** A scheduled payment to the provider; `deudasIncluidas` holds debt ids. */
  datatype Abono = Abono(
    id: string,
    clienteId: string,
    cliente: string,
    frecuencia: Frecuencia,
    deudasIncluidas: seq<string>,
    montoTotal: int,
    fechaCreacion: int,
    fechaProximoPago: int,
    estado: EstadoAbono,
    notas: Option<string>)

  datatype ConfiguracionCorreo = ConfiguracionCorreo(
    servidorSMTP: string,
    puerto: int,
    usuario: string,
    contrasena: string,
    correoRemitente: string,
    correosDestino: seq<string>,
    horaEnvioReporte: string,
    habilitarNotificaciones: bool)

  /** The mail configuration the store starts with. */
  const ConfiguracionInicial: ConfiguracionCorreo :=
    ConfiguracionCorreo("", 587, "", "", "", [], "08:00", true)

  /** `Omit<Cliente, 'id' | 'fechaCreacion'>`: what a caller supplies to add a client. */
  datatype DatosCliente = DatosCliente(nombre: string, email: string, telefono: string)

  /** `Omit<Deuda, 'id'>`. */
  datatype DatosDeuda = DatosDeuda(
    clienteId: string,
    cliente: string,
    fechaVencimiento: int,
    monto: int,
    costoProveedor: int,
    estado: EstadoDeuda,
    descripcion: Option<string>)

  /** `Omit<Abono, 'id'>`. */
  datatype DatosAbono = DatosAbono(
    clienteId: string,
    cliente: string,
    frecuencia: Frecuencia,
    deudasIncluidas: seq<string>,
    montoTotal: int,
    fechaCreacion: int,
    fechaProximoPago: int,
    estado: EstadoAbono,
    notas: Option<string>)

  /** `{ ...cliente, id, fechaCreacion }`. */
  function ClienteNuevo(d: DatosCliente, id: string, ahora: int): Cliente
  {
    Cliente(id, d.nombre, d.email, d.telefono, ahora)
  }

  /** `{ ...deuda, id }`. */
  function DeudaNueva(d: DatosDeuda, id: string): Deuda
  {
    Deuda(id, d.clienteId, d.cliente, d.fechaVencimiento, d.monto, d.costoProveedor, d.estado, d.descripcion)
  }

  /** `{ ...abono, id }`. */
  function AbonoNuevo(d: DatosAbono, id: string): Abono
  {
    Abono(id, d.clienteId, d.cliente, d.frecuencia, d.deudasIncluidas, d.montoTotal,
          d.fechaCreacion, d.fechaProximoPago, d.estado, d.notas)
  }

  /**
   * `Partial<Cliente>`: `Some` for each key present in the update object.
   * The id is a key like the others, so an update may rename a record.
   */
  datatype CambiosCliente = CambiosCliente(
    id: Option<string>,
    nombre: Option<string>,
    email: Option<string>,
    telefono: Option<string>,
    fechaCreacion: Option<int>)

  /**
   * `Partial<Deuda>`. An optional field is `Some(None)` when the key is present
   * with the value `undefined`, which clears the field when spread.
   */
  datatype CambiosDeuda = CambiosDeuda(
    id: Option<string>,
    clienteId: Option<string>,
    cliente: Option<string>,
    fechaVencimiento: Option<int>,
    monto: Option<int>,
    costoProveedor: Option<int>,
    estado: Option<EstadoDeuda>,
    descripcion: Option<Option<string>>)

  /** `Partial<Abono>`. */
  datatype CambiosAbono = CambiosAbono(
    id: Option<string>,
    clienteId: Option<string>,
    cliente: Option<string>,
    frecuencia: Option<Frecuencia>,
    deudasIncluidas: Option<seq<string>>,
    montoTotal: Option<int>,
    fechaCreacion: Option<int>,
    fechaProximoPago: Option<int>,
    estado: Option<EstadoAbono>,
    notas: Option<Option<string>>)

  /** `{ ...cliente, ...cambios }`. */
  function AplicarCliente(c: Cliente, p: CambiosCliente): Cliente
  {
    Cliente(p.id.GetOr(c.id), p.nombre.GetOr(c.nombre), p.email.GetOr(c.email),
            p.telefono.GetOr(c.telefono), p.fechaCreacion.GetOr(c.fechaCreacion))
  }

  /** `{ ...deuda, ...cambios }`. */
  function AplicarDeuda(d: Deuda, p: CambiosDeuda): Deuda
  {
    Deuda(p.id.GetOr(d.id), p.clienteId.GetOr(d.clienteId), p.cliente.GetOr(d.cliente),
          p.fechaVencimiento.GetOr(d.fechaVencimiento), p.monto.GetOr(d.monto),
          p.costoProveedor.GetOr(d.costoProveedor), p.estado.GetOr(d.estado),
          p.descripcion.GetOr(d.descripcion))
  }

  /** `{ ...abono, ...cambios }`. */
  function AplicarAbono(a: Abono, p: CambiosAbono): Abono
  {
    Abono(p.id.GetOr(a.id), p.clienteId.GetOr(a.clienteId), p.cliente.GetOr(a.cliente),
          p.frecuencia.GetOr(a.frecuencia), p.deudasIncluidas.GetOr(a.deudasIncluidas),
          p.montoTotal.GetOr(a.montoTotal), p.fechaCreacion.GetOr(a.fechaCreacion),
          p.fechaProximoPago.GetOr(a.fechaProximoPago), p.estado.GetOr(a.estado),
          p.notas.GetOr(a.notas))
  }

  /** Profit of a debt, `monto - costoProveedor`; it may be negative. */
  function Ganancia(d: Deuda): int
  {
    d.monto - d.costoProveedor
  }

  /** A debt counts as active, for every total and view, unless it is `Pagada`. */
  predicate Activa(d: Deuda)
  {
    d.estado != EstadoDeuda.Pagada
  }

  /** `c => c.id === clienteId`, the lookup the forms pass to `clientes.find`. */
  function MismoCliente(clienteId: string): Cliente -> bool
  {
    (c: Cliente) => c.id == clienteId
  }

  /** `clientes[i]` is the client `clientes.find(c => c.id === id)` returns. */
  predicate PrimeroConId(clientes: seq<Cliente>, id: string, i: int)
  {
    EsPrimero(clientes, MismoCliente(id), i)
  }
}
