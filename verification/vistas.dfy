/**
 * The derived views of the store: the dashboard totals, the clients with
 * active debts, and the debts due today and tomorrow. Each is recomputed from
 * the debts (and clients) it is given.
 *
 * Calendar days are UTC days: `setHours(0, 0, 0, 0)` truncates an instant to
 * the start of its day, which is `InicioDelDia` below.
 */
module Vistas {
  import opened Lists
  import opened Modelo

  function Monto(d: Deuda): int
  {
    d.monto
  }

  function Costo(d: Deuda): int
  {
    d.costoProveedor
  }

  /** `deudas.filter(d => d.estado !== 'Pagada')`. */
  function DeudasPendientes(deudas: seq<Deuda>): (r: seq<Deuda>)
    ensures forall d :: d in r <==> d in deudas && Activa(d)
  {
    Filter(deudas, Activa)
  }

  /** The dashboard summary (`gananciaToral` is the source's own spelling). */
  datatype Resumen = Resumen(totalACobrar: int, totalCostos: int, gananciaToral: int, totalDeudas: nat)

  /**
   * `resumen`: amounts and costs summed over the debts that are not `Pagada`,
   * their difference as profit (never clamped) and their number.
   */
  function CalcularResumen(deudas: seq<Deuda>): (r: Resumen)
    ensures r.gananciaToral == r.totalACobrar - r.totalCostos
    ensures r.gananciaToral == Sum(DeudasPendientes(deudas), Ganancia)
    ensures r.totalDeudas <= |deudas|
  {
    var p := DeudasPendientes(deudas);
    SumDifference(p, Monto, Costo, Ganancia);
    Resumen(Sum(p, Monto), Sum(p, Costo), Sum(p, Monto) - Sum(p, Costo), |p|)
  }

  /**
   * Adding a debt moves every total by exactly that debt when it is active,
   * and leaves the summary as it was when it is `Pagada`.
   */
  lemma ResumenAlAgregar(deudas: seq<Deuda>, d: Deuda)
    ensures var antes, despues := CalcularResumen(deudas), CalcularResumen(deudas + [d]);
      if Activa(d) then
        despues == Resumen(antes.totalACobrar + d.monto, antes.totalCostos + d.costoProveedor,
                           antes.gananciaToral + Ganancia(d), antes.totalDeudas + 1)
      else
        despues == antes
  {
    var p := DeudasPendientes(deudas);
    FilterAppend(deudas, [d], Activa);
    assert Filter([d], Activa) == if Activa(d) then [d] else [];
    SumAppend(p, Filter([d], Activa), Monto);
    SumAppend(p, Filter([d], Activa), Costo);
  }

  /** With no active debt every total is zero. */
  lemma ResumenSinDeudasActivas(deudas: seq<Deuda>)
    requires forall d :: d in deudas ==> !Activa(d)
    ensures CalcularResumen(deudas) == Resumen(0, 0, 0, 0)
  {
    FilterDropsAll(deudas, Activa);
  }

  /** A client of `clientesConDeudas`: the client with its count and sum of active debts. */
  datatype ClienteConDeudas = ClienteConDeudas(cliente: Cliente, deudasActivas: nat, totalDeuda: int)

  /** `d => d.clienteId === clienteId && d.estado !== 'Pagada'`. */
  function DeClienteActiva(clienteId: string): Deuda -> bool
  {
    (d: Deuda) => d.clienteId == clienteId && Activa(d)
  }

  /** The debts of one client that are not `Pagada`, in their order. */
  function DeudasActivasDe(deudas: seq<Deuda>, clienteId: string): (r: seq<Deuda>)
    ensures forall d :: d in r <==> d in deudas && d.clienteId == clienteId && Activa(d)
  {
    Filter(deudas, DeClienteActiva(clienteId))
  }

  /** The per-client filter keeps the debts in their store order. */
  lemma DeudasActivasDeConcatena(a: seq<Deuda>, b: seq<Deuda>, clienteId: string)
    ensures DeudasActivasDe(a + b, clienteId) == DeudasActivasDe(a, clienteId) + DeudasActivasDe(b, clienteId)
  {
    FilterAppend(a, b, DeClienteActiva(clienteId));
  }

  function ResumirCliente(deudas: seq<Deuda>): Cliente -> ClienteConDeudas
  {
    (c: Cliente) => var ds := DeudasActivasDe(deudas, c.id); ClienteConDeudas(c, |ds|, Sum(ds, Monto))
  }

  predicate ConDeudas(e: ClienteConDeudas)
  {
    e.deudasActivas > 0
  }

  /**
   * `clientesConDeudas`: every client with at least one active debt, in the
   * order of `clientes`, each with the count and the amount of those debts.
   */
  function ClientesConDeudas(clientes: seq<Cliente>, deudas: seq<Deuda>): (r: seq<ClienteConDeudas>)
    ensures |r| <= |clientes|
    ensures forall e :: e in r ==>
      e.cliente in clientes && e.deudasActivas > 0 && e == ResumirCliente(deudas)(e.cliente)
    ensures forall c :: c in clientes && (exists d :: d in deudas && d.clienteId == c.id && Activa(d)) ==>
      ResumirCliente(deudas)(c) in r
  {
    var todos := Map(clientes, ResumirCliente(deudas));
    assert forall e :: e in todos ==> exists i :: 0 <= i < |clientes| && e == todos[i];
    forall c | c in clientes && (exists d :: d in deudas && d.clienteId == c.id && Activa(d))
      ensures ResumirCliente(deudas)(c) in todos && ConDeudas(ResumirCliente(deudas)(c))
    {
      var i :| 0 <= i < |clientes| && clientes[i] == c;
      assert todos[i] == ResumirCliente(deudas)(c);
      var d :| d in deudas && d.clienteId == c.id && Activa(d);
      assert d in DeudasActivasDe(deudas, c.id);
    }
    Filter(todos, ConDeudas)
  }

  /** The clients are summarised one by one, so the view of a concatenation is the concatenation of the views. */
  lemma ClientesConDeudasConcatena(a: seq<Cliente>, b: seq<Cliente>, deudas: seq<Deuda>)
    ensures ClientesConDeudas(a + b, deudas) == ClientesConDeudas(a, deudas) + ClientesConDeudas(b, deudas)
  {
    var f := ResumirCliente(deudas);
    MapAppend(a, b, f);
    FilterAppend(Map(a, f), Map(b, f), ConDeudas);
  }

  /** The calendar day of an instant. */
  function DiaDe(ms: int): int
  {
    ms / MsPorDia
  }

  /** `setHours(0, 0, 0, 0)`: the first millisecond of the instant's day. */
  function InicioDelDia(ms: int): int
  {
    DiaDe(ms) * MsPorDia
  }

  /** The next calendar day starts one day after this one (`setDate(getDate() + 1)`). */
  lemma DiaSiguiente(ms: int)
    ensures DiaDe(ms + MsPorDia) == DiaDe(ms) + 1
  {
  }

  /** A day start lies in `[desde, desde + 1 day)` exactly when it is the same day. */
  lemma MismoDia(ms: int, f: int)
    ensures InicioDelDia(ms) <= InicioDelDia(f) < InicioDelDia(ms) + MsPorDia <==> DiaDe(f) == DiaDe(ms)
  {
  }

  /** `d => truncated due date in [desde, hasta) && d.estado !== 'Pagada'`. */
  function VenceEntre(desde: int, hasta: int): Deuda -> bool
  {
    (d: Deuda) => desde <= InicioDelDia(d.fechaVencimiento) < hasta && Activa(d)
  }

  /** `deudasVencenHoy`: the active debts whose due date falls on the current calendar day. */
  function DeudasVencenHoy(deudas: seq<Deuda>, ahora: int): (r: seq<Deuda>)
    ensures forall d :: d in r <==> d in deudas && Activa(d) && DiaDe(d.fechaVencimiento) == DiaDe(ahora)
  {
    var hoy := InicioDelDia(ahora);
    forall d: Deuda ensures VenceEntre(hoy, hoy + MsPorDia)(d) <==> Activa(d) && DiaDe(d.fechaVencimiento) == DiaDe(ahora) {
      MismoDia(ahora, d.fechaVencimiento);
    }
    Filter(deudas, VenceEntre(hoy, hoy + MsPorDia))
  }

  /** `deudasVencenMañana`: the active debts whose due date falls on the next calendar day. */
  function DeudasVencenManana(deudas: seq<Deuda>, ahora: int): (r: seq<Deuda>)
    ensures forall d :: d in r <==> d in deudas && Activa(d) && DiaDe(d.fechaVencimiento) == DiaDe(ahora) + 1
  {
    var manana := InicioDelDia(ahora + MsPorDia);
    DiaSiguiente(ahora);
    forall d: Deuda ensures VenceEntre(manana, manana + MsPorDia)(d) <==> Activa(d) && DiaDe(d.fechaVencimiento) == DiaDe(ahora) + 1 {
      MismoDia(ahora + MsPorDia, d.fechaVencimiento);
    }
    Filter(deudas, VenceEntre(manana, manana + MsPorDia))
  }

  /** No debt is both due today and due tomorrow. */
  lemma VencimientosDisjuntos(deudas: seq<Deuda>, ahora: int)
    ensures forall d :: d in DeudasVencenHoy(deudas, ahora) ==> d !in DeudasVencenManana(deudas, ahora)
  {
  }

  /**
   * Both lists are filters of `deudas`: the list for a concatenation is the
   * concatenation of the lists, so the debts keep their relative order.
   */
  lemma VencimientosConservanOrden(a: seq<Deuda>, b: seq<Deuda>, ahora: int)
    ensures DeudasVencenHoy(a + b, ahora) == DeudasVencenHoy(a, ahora) + DeudasVencenHoy(b, ahora)
    ensures DeudasVencenManana(a + b, ahora) == DeudasVencenManana(a, ahora) + DeudasVencenManana(b, ahora)
  {
    var hoy := InicioDelDia(ahora);
    var manana := InicioDelDia(ahora + MsPorDia);
    FilterAppend(a, b, VenceEntre(hoy, hoy + MsPorDia));
    FilterAppend(a, b, VenceEntre(manana, manana + MsPorDia));
  }
}
