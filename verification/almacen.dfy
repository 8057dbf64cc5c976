/**
 * The record store behind `useCobranzas`: four state slots (clients, debts,
 * scheduled payments, mail configuration) and the operations that replace
 * them. Each new slot value is built by append, update-by-id or filter; those
 * constructions are the functions below, and the class methods assign them.
 *
 * Fresh ids (`Date.now().toString()`) and creation instants (`new Date()`) are
 * parameters; nothing assumes that a fresh id is unused.
 */
module Almacen {
  import opened Lists
  import opened Modelo

  /** `prev.map(c => c.id === id ? { ...c, ...cambios } : c)`. */
  function ActualizarClientes(clientes: seq<Cliente>, id: string, cambios: CambiosCliente): (r: seq<Cliente>)
    ensures |r| == |clientes|
    ensures forall i :: 0 <= i < |clientes| && clientes[i].id == id ==> r[i] == AplicarCliente(clientes[i], cambios)
    ensures forall i :: 0 <= i < |clientes| && clientes[i].id != id ==> r[i] == clientes[i]
  {
    MapWhere(clientes, (c: Cliente) => c.id == id, (c: Cliente) => AplicarCliente(c, cambios))
  }

  /** `prev.map(d => d.id === id ? { ...d, ...cambios } : d)`. */
  function ActualizarDeudas(deudas: seq<Deuda>, id: string, cambios: CambiosDeuda): (r: seq<Deuda>)
    ensures |r| == |deudas|
    ensures forall i :: 0 <= i < |deudas| && deudas[i].id == id ==> r[i] == AplicarDeuda(deudas[i], cambios)
    ensures forall i :: 0 <= i < |deudas| && deudas[i].id != id ==> r[i] == deudas[i]
  {
    MapWhere(deudas, (d: Deuda) => d.id == id, (d: Deuda) => AplicarDeuda(d, cambios))
  }

  /** `prev.map(a => a.id === id ? { ...a, ...cambios } : a)`. */
  function ActualizarAbonos(abonos: seq<Abono>, id: string, cambios: CambiosAbono): (r: seq<Abono>)
    ensures |r| == |abonos|
    ensures forall i :: 0 <= i < |abonos| && abonos[i].id == id ==> r[i] == AplicarAbono(abonos[i], cambios)
    ensures forall i :: 0 <= i < |abonos| && abonos[i].id != id ==> r[i] == abonos[i]
  {
    MapWhere(abonos, (a: Abono) => a.id == id, (a: Abono) => AplicarAbono(a, cambios))
  }

  /** An update addressed to an id that no record has leaves every collection as it was. */
  lemma ActualizarIdDesconocido(clientes: seq<Cliente>, deudas: seq<Deuda>, abonos: seq<Abono>, id: string,
                                cc: CambiosCliente, cd: CambiosDeuda, ca: CambiosAbono)
    requires forall c :: c in clientes ==> c.id != id
    requires forall d :: d in deudas ==> d.id != id
    requires forall a :: a in abonos ==> a.id != id
    ensures ActualizarClientes(clientes, id, cc) == clientes
    ensures ActualizarDeudas(deudas, id, cd) == deudas
    ensures ActualizarAbonos(abonos, id, ca) == abonos
  {
    MapWhereMissesAll(clientes, (c: Cliente) => c.id == id, (c: Cliente) => AplicarCliente(c, cc));
    MapWhereMissesAll(deudas, (d: Deuda) => d.id == id, (d: Deuda) => AplicarDeuda(d, cd));
    MapWhereMissesAll(abonos, (a: Abono) => a.id == id, (a: Abono) => AplicarAbono(a, ca));
  }

  /** `prev.map(a => a.id === id ? { ...a, estado: 'Pagado' } : a)`. */
  function MarcarPagado(abonos: seq<Abono>, id: string): (r: seq<Abono>)
    ensures |r| == |abonos|
    ensures forall i :: 0 <= i < |abonos| && abonos[i].id == id ==>
      r[i] == abonos[i].(estado := EstadoAbono.Pagado)
    ensures forall i :: 0 <= i < |abonos| && abonos[i].id != id ==> r[i] == abonos[i]
  {
    MapWhere(abonos, (a: Abono) => a.id == id, (a: Abono) => a.(estado := EstadoAbono.Pagado))
  }

  /** Marking a payment paid a second time changes nothing. */
  lemma MarcarPagadoIdempotente(abonos: seq<Abono>, id: string)
    ensures MarcarPagado(MarcarPagado(abonos, id), id) == MarcarPagado(abonos, id)
  {
    MapWhereIdempotent(abonos, (a: Abono) => a.id == id, (a: Abono) => a.(estado := EstadoAbono.Pagado));
  }

  /** After marking, every payment with that id is `Pagado` and nothing else differs from before. */
  lemma MarcarPagadoSoloCambiaEstado(abonos: seq<Abono>, id: string)
    ensures forall a :: a in MarcarPagado(abonos, id) && a.id == id ==> a.estado == EstadoAbono.Pagado
    ensures forall i :: 0 <= i < |abonos| ==>
      MarcarPagado(abonos, id)[i].(estado := abonos[i].estado) == abonos[i]
  {
    var r := MarcarPagado(abonos, id);
    forall a | a in r && a.id == id
      ensures a.estado == EstadoAbono.Pagado
    {
      var i :| 0 <= i < |r| && r[i] == a;
    }
  }

  function OtroCliente(id: string): Cliente -> bool
  {
    (c: Cliente) => c.id != id
  }

  function DeOtroCliente(clienteId: string): Deuda -> bool
  {
    (d: Deuda) => d.clienteId != clienteId
  }

  function DelCliente(clienteId: string): Deuda -> bool
  {
    (d: Deuda) => d.clienteId == clienteId
  }

  function OtraDeuda(id: string): Deuda -> bool
  {
    (d: Deuda) => d.id != id
  }

  function OtroAbono(id: string): Abono -> bool
  {
    (a: Abono) => a.id != id
  }

  /** `prev.filter(c => c.id !== id)`. */
  function SinCliente(clientes: seq<Cliente>, id: string): (r: seq<Cliente>)
    ensures forall c :: c in r <==> c in clientes && c.id != id
  {
    Filter(clientes, OtroCliente(id))
  }

  /** `prev.filter(d => d.clienteId !== id)`: the cascade of a client's deletion. */
  function SinDeudasDelCliente(deudas: seq<Deuda>, clienteId: string): (r: seq<Deuda>)
    ensures forall d :: d in r <==> d in deudas && d.clienteId != clienteId
  {
    Filter(deudas, DeOtroCliente(clienteId))
  }

  /** `prev.filter(d => d.id !== id)`. */
  function SinDeuda(deudas: seq<Deuda>, id: string): (r: seq<Deuda>)
    ensures forall d :: d in r <==> d in deudas && d.id != id
  {
    Filter(deudas, OtraDeuda(id))
  }

  /** `prev.filter(a => a.id !== id)`. */
  function SinAbono(abonos: seq<Abono>, id: string): (r: seq<Abono>)
    ensures forall a :: a in r <==> a in abonos && a.id != id
  {
    Filter(abonos, OtroAbono(id))
  }

  /**
   * The deletions keep the surviving records in their order: deleting from a
   * concatenation is deleting from each part.
   */
  lemma EliminarConservaOrden(c1: seq<Cliente>, c2: seq<Cliente>, d1: seq<Deuda>, d2: seq<Deuda>,
                              a1: seq<Abono>, a2: seq<Abono>, id: string)
    ensures SinCliente(c1 + c2, id) == SinCliente(c1, id) + SinCliente(c2, id)
    ensures SinDeudasDelCliente(d1 + d2, id) == SinDeudasDelCliente(d1, id) + SinDeudasDelCliente(d2, id)
    ensures SinDeuda(d1 + d2, id) == SinDeuda(d1, id) + SinDeuda(d2, id)
    ensures SinAbono(a1 + a2, id) == SinAbono(a1, id) + SinAbono(a2, id)
  {
    FilterAppend(c1, c2, OtroCliente(id));
    FilterAppend(d1, d2, DeOtroCliente(id));
    FilterAppend(d1, d2, OtraDeuda(id));
    FilterAppend(a1, a2, OtroAbono(id));
  }

  /**
   * The cascade removes exactly the client's debts: as many debts disappear
   * as the client had, and none of the client's debts is left.
   */
  lemma CascadaEliminaDeudasDelCliente(deudas: seq<Deuda>, clienteId: string)
    ensures |SinDeudasDelCliente(deudas, clienteId)| + |Filter(deudas, DelCliente(clienteId))| == |deudas|
    ensures forall d :: d in SinDeudasDelCliente(deudas, clienteId) ==> d.clienteId != clienteId
  {
    FilterPartition(deudas, DeOtroCliente(clienteId), DelCliente(clienteId));
  }

  /** Every debt names a client that is in the store. */
  ghost predicate ReferenciasValidas(clientes: seq<Cliente>, deudas: seq<Deuda>)
  {
    forall d :: d in deudas ==> exists c :: c in clientes && c.id == d.clienteId
  }

  /** Deleting a client together with its debts never leaves a debt without its client. */
  lemma EliminarClienteConservaReferencias(clientes: seq<Cliente>, deudas: seq<Deuda>, id: string)
    requires ReferenciasValidas(clientes, deudas)
    ensures ReferenciasValidas(SinCliente(clientes, id), SinDeudasDelCliente(deudas, id))
  {
    var cs, ds := SinCliente(clientes, id), SinDeudasDelCliente(deudas, id);
    forall d | d in ds
      ensures exists c :: c in cs && c.id == d.clienteId
    {
      var c :| c in clientes && c.id == d.clienteId;
      assert c in cs;
    }
  }

  /** The store: the four state slots of the hook. */
  class Cobranzas {
    var clientes: seq<Cliente>
    var deudas: seq<Deuda>
    var abonos: seq<Abono>
    var configuracionCorreo: ConfiguracionCorreo

    /** The hook's initial state: the seed collections and the default mail configuration. */
    constructor (clientesIniciales: seq<Cliente>, deudasIniciales: seq<Deuda>, abonosIniciales: seq<Abono>)
      ensures clientes == clientesIniciales && deudas == deudasIniciales && abonos == abonosIniciales
      ensures configuracionCorreo == ConfiguracionInicial
    {
      clientes := clientesIniciales;
      deudas := deudasIniciales;
      abonos := abonosIniciales;
      configuracionCorreo := ConfiguracionInicial;
    }

    method AgregarCliente(datos: DatosCliente, id: string, ahora: int) returns (nuevo: Cliente)
      modifies this
      ensures nuevo.id == id && nuevo.fechaCreacion == ahora
      ensures nuevo.nombre == datos.nombre && nuevo.email == datos.email && nuevo.telefono == datos.telefono
      ensures clientes == old(clientes) + [nuevo]
      ensures deudas == old(deudas) && abonos == old(abonos) && configuracionCorreo == old(configuracionCorreo)
    {
      nuevo := ClienteNuevo(datos, id, ahora);
      clientes := clientes + [nuevo];
    }

    method ActualizarCliente(id: string, cambios: CambiosCliente)
      modifies this
      ensures clientes == ActualizarClientes(old(clientes), id, cambios)
      ensures deudas == old(deudas) && abonos == old(abonos) && configuracionCorreo == old(configuracionCorreo)
    {
      clientes := ActualizarClientes(clientes, id, cambios);
    }

    /** Deletes the client and, in the same step, its debts; its payments stay. */
    method EliminarCliente(id: string)
      modifies this
      ensures clientes == SinCliente(old(clientes), id)
      ensures deudas == SinDeudasDelCliente(old(deudas), id)
      ensures abonos == old(abonos) && configuracionCorreo == old(configuracionCorreo)
    {
      clientes := SinCliente(clientes, id);
      deudas := SinDeudasDelCliente(deudas, id);
    }

    method AgregarDeuda(datos: DatosDeuda, id: string) returns (nueva: Deuda)
      modifies this
      ensures nueva == DeudaNueva(datos, id)
      ensures deudas == old(deudas) + [nueva]
      ensures clientes == old(clientes) && abonos == old(abonos) && configuracionCorreo == old(configuracionCorreo)
    {
      nueva := DeudaNueva(datos, id);
      deudas := deudas + [nueva];
    }

    method ActualizarDeuda(id: string, cambios: CambiosDeuda)
      modifies this
      ensures deudas == ActualizarDeudas(old(deudas), id, cambios)
      ensures clientes == old(clientes) && abonos == old(abonos) && configuracionCorreo == old(configuracionCorreo)
    {
      deudas := ActualizarDeudas(deudas, id, cambios);
    }

    method EliminarDeuda(id: string)
      modifies this
      ensures deudas == SinDeuda(old(deudas), id)
      ensures clientes == old(clientes) && abonos == old(abonos) && configuracionCorreo == old(configuracionCorreo)
    {
      deudas := SinDeuda(deudas, id);
    }

    method AgregarAbono(datos: DatosAbono, id: string) returns (nuevo: Abono)
      modifies this
      ensures nuevo == AbonoNuevo(datos, id)
      ensures abonos == old(abonos) + [nuevo]
      ensures clientes == old(clientes) && deudas == old(deudas) && configuracionCorreo == old(configuracionCorreo)
    {
      nuevo := AbonoNuevo(datos, id);
      abonos := abonos + [nuevo];
    }

    method ActualizarAbono(id: string, cambios: CambiosAbono)
      modifies this
      ensures abonos == ActualizarAbonos(old(abonos), id, cambios)
      ensures clientes == old(clientes) && deudas == old(deudas) && configuracionCorreo == old(configuracionCorreo)
    {
      abonos := ActualizarAbonos(abonos, id, cambios);
    }

    method EliminarAbono(id: string)
      modifies this
      ensures abonos == SinAbono(old(abonos), id)
      ensures clientes == old(clientes) && deudas == old(deudas) && configuracionCorreo == old(configuracionCorreo)
    {
      abonos := SinAbono(abonos, id);
    }

    method MarcarAbonoPagado(id: string)
      modifies this
      ensures abonos == MarcarPagado(old(abonos), id)
      ensures clientes == old(clientes) && deudas == old(deudas) && configuracionCorreo == old(configuracionCorreo)
    {
      abonos := MarcarPagado(abonos, id);
    }

    /** Replaces the whole configuration; nothing is merged. */
    method ActualizarConfiguracionCorreo(config: ConfiguracionCorreo)
      modifies this
      ensures configuracionCorreo == config
      ensures clientes == old(clientes) && deudas == old(deudas) && abonos == old(abonos)
    {
      configuracionCorreo := config;
    }
  }
}
