/**
 * The seed data the root copy of the store starts with: one client per name,
 * one to four debts per client, and a scheduled payment for each of the first
 * eighteen clients.
 *
 * `Math.random()` is the parameter `azar`: its k-th value is the k-th draw,
 * and each generator consumes draws in the order the code makes them,
 * starting at index `k0`. Reals are exact, so the IEEE rounding of the
 * products is not modelled. `Date.now()` is the parameter `ahora`.
 */
module Semillas {
  import opened Wrappers
  import opened Lists
  import opened Texto
  import opened Modelo
  import opened Vistas
  import opened Almacen

  const Nombres: seq<string> := [
    "Juan Pérez", "María García", "Carlos López", "Ana Martínez", "Luis Rodríguez",
    "Carmen Sánchez", "José González", "Isabel Fernández", "Manuel Díaz", "Rosa Torres",
    "Antonio Ruiz", "Francisca Moreno", "Francisco Jiménez", "Teresa Álvarez", "Rafael Romero",
    "Pilar Navarro", "Miguel Ramos", "Dolores Gil", "Pedro Serrano", "Concepción Blanco",
    "Jesús Vega", "Josefa Molina", "Ángel Castro", "Mercedes Ortega", "Daniel Delgado",
    "María José Herrera", "David Peña", "Antonia Guerrero", "Alejandro Prieto", "Encarnación Méndez",
    "Javier Cruz", "Cristina Iglesias", "Pablo Vargas", "Amparo Calvo", "Adrián Rubio",
    "Esperanza Santana", "Iván Aguilar", "Inmaculada Campos", "Rubén Vázquez", "Milagros León",
    "Sergio Cabrera", "Remedios Ramírez", "Fernando Garrido", "Soledad Morales", "Alberto Marín",
    "Araceli Domínguez", "Roberto Santos", "Manuela Soto", "Eduardo Herrero", "Concepción Lorenzo",
    "Víctor Hidalgo", "Estrella Montero", "Ricardo Ibáñez", "Victoria Durán", "Ignacio Moya",
    "Purificación Ferrer", "Raúl Santiago", "Begoña Caballero", "Gabriel Carrasco", "Natividad Nieto",
    "Emilio Cano", "Rocío Reyes", "Gonzalo Cortés", "Virtudes Lozano", "Marcos Gutiérrez",
    "Ascensión Benítez", "Enrique Valdés", "Angustias Moreno", "Tomás Castillo", "Sagrario Suárez",
    "Lorenzo Hernández", "Guillermo Román", "Nieves Velasco", "César Medina", "Amparo Sanz",
    "Salvador Silva", "Luz Crespo", "Joaquín Molina", "Consolación Montoya", "Andrés Galván",
    "Rosario Pascual", "Hugo Carmona", "Milagros Villanueva", "Arturo Mesa", "Guadalupe Herrera",
    "Nicolás Espinosa", "Remedios López", "Alfredo Rojas", "Esperanza Aguilera", "Jaime Flores",
    "Visitación Muñoz", "Rodrigo Peña", "Rosario Miranda", "Félix Gallego", "Nieves Contreras"
  ]

  const Dominios: seq<string> := ["gmail.com", "hotmail.com", "yahoo.com", "outlook.com", "empresa.com", "negocio.net"]

  const Servicios: seq<string> := [
    "Hosting web mensual", "Dominio anual", "Desarrollo web", "Mantenimiento web",
    "Diseño gráfico", "Marketing digital", "SEO mensual", "Tienda online",
    "Aplicación móvil", "Consultoría IT", "Backup en la nube", "SSL certificado",
    "Optimización web", "Campaña publicitaria", "Rediseño website", "E-commerce",
    "Soporte técnico", "Migración de datos", "Integración API", "Sistema CRM"
  ]

  /** `new Date('2024-01-01')`: midnight UTC. */
  const FechaBase: int := 1704067200000

  /** Every draw of `Math.random()` lies in [0, 1). */
  ghost predicate Azar01(azar: nat -> real)
  {
    forall k :: 0.0 <= azar(k) < 1.0
  }

  /** `Math.floor(r * n)` for a draw `r`: a uniform index below `n`. */
  function Sorteo(r: real, n: nat): (k: nat)
    requires 0.0 <= r < 1.0 && n > 0
    ensures k < n
    ensures k as real <= r * n as real < k as real + 1.0
  {
    assert r * n as real < n as real by {
      assert (1.0 - r) * n as real > 0.0;
    }
    (r * n as real).Floor
  }

  /** The integer part of an instant given to `new Date(x)`: rounded toward zero. */
  function Truncar(x: real): (t: int)
    ensures x >= 0.0 ==> t as real <= x < t as real + 1.0
    ensures x < 0.0 ==> x <= t as real < x + 1.0
  {
    if x >= 0.0 then x.Floor else -((-x).Floor)
  }

  /** `+52 55 dddd-dddd` from two draws. */
  function Telefono(r1: real, r2: real): (t: string)
    requires 0.0 <= r1 < 1.0 && 0.0 <= r2 < 1.0
    ensures |t| == 16 && t[..7] == "+52 55 " && t[11] == '-'
    ensures forall i :: 7 <= i < 11 || 12 <= i < 16 ==> EsDigito(t[i])
    ensures 1000 <= ParseDigits(t[7..11]) <= 9999 && 1000 <= ParseDigits(t[12..]) <= 9999
  {
    var a := NatToString(1000 + Sorteo(r1, 9000));
    var b := NatToString(1000 + Sorteo(r2, 9000));
    CuatroCifras(1000 + Sorteo(r1, 9000));
    CuatroCifras(1000 + Sorteo(r2, 9000));
    var t := "+52 55 " + a + "-" + b;
    assert t[7..11] == a && t[12..] == b;
    t
  }

  /** A number from 1000 to 9999 is written with four digits. */
  lemma CuatroCifras(n: nat)
    requires 1000 <= n <= 9999
    ensures |NatToString(n)| == 4 && ParseDigits(NatToString(n)) == n
  {
    ParseNatToString(n);
    assert |NatToString(n / 1000)| == 1;
    assert |NatToString(n / 100)| == 2;
    assert |NatToString(n / 10)| == 3;
  }

  /** The email of the client at 0-based position `index`. */
  function Email(nombre: string, index: nat): string
  {
    Normalizar(nombre) + NatToString(index) + "@" + Dominios[index % |Dominios|]
  }

  /**
   * The email of a name without '@' has exactly one '@': it separates the
   * normalised name followed by the index from the domain at `index mod 6`.
   */
  lemma EmailBienFormado(nombre: string, index: nat)
    requires '@' !in nombre
    ensures var local := Normalizar(nombre) + NatToString(index);
      var e := Email(nombre, index);
      |e| > |local| && e[..|local|] == local && e[|local|] == '@' &&
      e[|local| + 1..] == Dominios[index % 6] &&
      forall p :: 0 <= p < |e| && p != |local| ==> e[p] != '@'
  {
    var local := Normalizar(nombre) + NatToString(index);
    var dominio := Dominios[index % |Dominios|];
    var e := Email(nombre, index);
    assert e == local + ['@'] + dominio;
    assert '@' !in Normalizar(nombre);
    assert '@' !in NatToString(index) by {
      var s := NatToString(index);
      forall p | 0 <= p < |s| ensures s[p] != '@' {
        assert EsDigito(s[p]);
      }
    }
    assert '@' !in local;
    assert '@' !in dominio;
    forall p | 0 <= p < |e| && p != |local| ensures e[p] != '@' {
      if p < |local| {
        assert e[p] == local[p];
      } else {
        assert e[p] == dominio[p - |local| - 1];
      }
    }
  }

  /** The client `generarClientes` builds from the name at `index`, using draws `k0`, `k0 + 1`, `k0 + 2`. */
  function ClienteSemilla(nombre: string, index: nat, azar: nat -> real, k0: nat): (c: Cliente)
    requires Azar01(azar)
    ensures c.id == NatToString(index + 1) && c.nombre == nombre && c.email == Email(nombre, index)
    ensures FechaBase <= c.fechaCreacion < FechaBase + 365 * MsPorDia
  {
    var anio := (365 * MsPorDia) as real;
    var desplazamiento := azar(k0 + 2) * anio;
    assert 0.0 <= desplazamiento < anio by {
      assert anio - desplazamiento == (1.0 - azar(k0 + 2)) * anio;
    }
    Cliente(NatToString(index + 1), nombre, Email(nombre, index), Telefono(azar(k0), azar(k0 + 1)),
            Truncar(FechaBase as real + desplazamiento))
  }

  /**
   * `generarClientes`: the names mapped in order, three draws per client.
   * Ids count from "1", and the creation dates fall in the year after `FechaBase`.
   */
  function GenerarClientes(nombres: seq<string>, azar: nat -> real, k0: nat): (r: seq<Cliente>)
    requires Azar01(azar)
    ensures |r| == |nombres|
    ensures forall i :: 0 <= i < |r| ==>
      r[i].id == NatToString(i + 1) && r[i].nombre == nombres[i] && r[i].email == Email(nombres[i], i)
    ensures forall i :: 0 <= i < |r| ==> FechaBase <= r[i].fechaCreacion < FechaBase + 365 * MsPorDia
  {
    seq(|nombres|, i requires 0 <= i < |nombres| => ClienteSemilla(nombres[i], i, azar, k0 + 3 * i))
  }

  /** No two generated clients share an id. */
  lemma ClientesIdsDistintos(nombres: seq<string>, azar: nat -> real, k0: nat)
    requires Azar01(azar)
    ensures var r := GenerarClientes(nombres, azar, k0);
      forall i, j :: 0 <= i < j < |r| ==> r[i].id != r[j].id
  {
    var r := GenerarClientes(nombres, azar, k0);
    forall i, j | 0 <= i < j < |r| ensures r[i].id != r[j].id {
      NatToStringInjective(i + 1, j + 1);
    }
  }

  /** The status rule of `generarDeudas`: which statuses a debt `dias` days from its due date may get. */
  predicate EstadoCoherente(dias: int, e: EstadoDeuda)
  {
    (dias < -7 ==> e == EstadoDeuda.Vencida || e == EstadoDeuda.EnProceso) &&
    (-7 <= dias < 0 ==> e == EstadoDeuda.Vencida || e == EstadoDeuda.Pendiente) &&
    (0 <= dias ==> e == EstadoDeuda.Pendiente || e == EstadoDeuda.Pagada)
  }

  /** The status drawn for a debt due in `dias` days, with the draw `r`. */
  function EstadoSemilla(dias: int, r: real): (e: EstadoDeuda)
    ensures EstadoCoherente(dias, e)
    ensures e == EstadoDeuda.Pagada ==> dias >= 0 && r > 0.8
    ensures e == EstadoDeuda.EnProceso ==> dias < -7 && r <= 0.3
  {
    if dias < -7 then
      if r > 0.3 then EstadoDeuda.Vencida else EstadoDeuda.EnProceso
    else if dias < 0 then
      if r > 0.5 then EstadoDeuda.Vencida else EstadoDeuda.Pendiente
    else if r > 0.8 then EstadoDeuda.Pagada
    else EstadoDeuda.Pendiente
  }

  /**
   * `Math.floor(costoBase * (1 + margen))` with `margen = 0.3 + r * 0.5`: a
   * margin of 30% to 80% rounded down, so the amount is always above the cost.
   */
  function MontoSemilla(costoBase: nat, r: real): (monto: int)
    requires 0.0 <= r < 1.0 && costoBase > 0
    ensures 13 * costoBase < 10 * monto + 10 && 10 * monto < 18 * costoBase
  {
    var c := costoBase as real;
    var rc := r * c;
    var x := c * (1.0 + (0.3 + r * 0.5));
    assert x == 1.3 * c + 0.5 * rc;
    assert 0.0 <= rc < c by {
      assert c - rc == (1.0 - r) * c;
      assert (1.0 - r) * c > 0.0;
    }
    assert (10 * x.Floor) as real <= 10.0 * x < 18.0 * c;
    x.Floor
  }

  /** What `generarDeudas` promises about the `j`-th debt, owned by `cliente`. */
  ghost predicate DeudaGenerada(d: Deuda, j: nat, cliente: Cliente, ahora: int)
  {
    var dias := (d.fechaVencimiento - ahora) / MsPorDia;
    d.id == NatToString(j + 1) && d.clienteId == cliente.id && d.cliente == cliente.nombre &&
    500 <= d.costoProveedor <= 8499 &&
    13 * d.costoProveedor < 10 * d.monto + 10 && 10 * d.monto < 18 * d.costoProveedor &&
    d.fechaVencimiento == ahora + dias * MsPorDia && -30 <= dias <= 29 &&
    EstadoCoherente(dias, d.estado) &&
    d.descripcion.Some? && d.descripcion.value in Servicios
  }

  /**
   * The body of the inner loop of `generarDeudas`: the debt numbered `deudaId`
   * for `cliente`, from the draws `k` to `k + 4` (service, cost, margin, day
   * offset, status).
   */
  function DeudaSemilla(cliente: Cliente, deudaId: nat, azar: nat -> real, k: nat, ahora: int): (d: Deuda)
    requires Azar01(azar) && deudaId >= 1
    ensures DeudaGenerada(d, deudaId - 1, cliente, ahora)
  {
    var servicio := Servicios[Sorteo(azar(k), |Servicios|)];
    var costoBase := Sorteo(azar(k + 1), 8000) + 500;
    var monto := MontoSemilla(costoBase, azar(k + 2));
    var diasBase := Sorteo(azar(k + 3), 60) - 30;
    var fechaVencimiento := ahora + diasBase * MsPorDia;
    var estado := EstadoSemilla(diasBase, azar(k + 4));
    var d := Deuda(NatToString(deudaId), cliente.id, cliente.nombre, fechaVencimiento, monto, costoBase, estado, Some(servicio));
    assert (d.fechaVencimiento - ahora) / MsPorDia == diasBase;
    d
  }

  /**
   * The inner loop of `generarDeudas`: `numDeudas` debts for one client,
   * numbered from `deudaId`, five draws each starting at `k0`.
   */
  method GenerarDeudasDeCliente(cliente: Cliente, numDeudas: nat, deudaId: nat, azar: nat -> real, k0: nat, ahora: int)
      returns (nuevas: seq<Deuda>, k: nat)
    requires Azar01(azar) && deudaId >= 1
    ensures |nuevas| == numDeudas && k == k0 + 5 * numDeudas
    ensures forall i :: 0 <= i < numDeudas ==> DeudaGenerada(nuevas[i], deudaId - 1 + i, cliente, ahora)
  {
    nuevas := [];
    k := k0;
    var i := 0;
    while i < numDeudas
      invariant i <= numDeudas && |nuevas| == i && k == k0 + 5 * i
      invariant forall j :: 0 <= j < i ==> DeudaGenerada(nuevas[j], deudaId - 1 + j, cliente, ahora)
    {
      nuevas := nuevas + [DeudaSemilla(cliente, deudaId + i, azar, k, ahora)];
      k := k + 5;
      i := i + 1;
    }
  }

  /** The debts from `desde` up to `hasta` are the ones generated for `cliente`. */
  ghost predicate BloqueGenerado(deudas: seq<Deuda>, desde: int, hasta: int, cliente: Cliente, ahora: int)
  {
    0 <= desde < hasta <= |deudas| && hasta - desde <= 4 &&
    forall j :: desde <= j < hasta ==> DeudaGenerada(deudas[j], j, cliente, ahora)
  }

  /**
   * `generarDeudas`: for each client in order, one to four debts with
   * consecutive ids from "1"; one draw for the count, then five per debt.
   * The debts of the client at position `c` are those from `inicio[c]` up to
   * `inicio[c + 1]`.
   */
  method GenerarDeudas(clientes: seq<Cliente>, azar: nat -> real, k0: nat, ahora: int)
      returns (deudas: seq<Deuda>, k: nat, ghost inicio: seq<int>)
    requires Azar01(azar)
    ensures k == k0 + |clientes| + 5 * |deudas|
    ensures |inicio| == |clientes| + 1 && inicio[0] == 0 && inicio[|clientes|] == |deudas|
    ensures forall c :: 0 <= c < |clientes| ==> BloqueGenerado(deudas, inicio[c], inicio[c + 1], clientes[c], ahora)
    ensures |clientes| <= |deudas| <= 4 * |clientes|
  {
    deudas := [];
    k := k0;
    inicio := [0];
    var deudaId: nat := 1;
    var c: nat := 0;
    while c < |clientes|
      invariant c <= |clientes|
      invariant deudaId == |deudas| + 1
      invariant k == k0 + c + 5 * |deudas|
      invariant |inicio| == c + 1 && inicio[0] == 0 && inicio[c] == |deudas|
      invariant forall x :: 0 <= x < c ==> BloqueGenerado(deudas, inicio[x], inicio[x + 1], clientes[x], ahora)
      invariant c <= |deudas| <= 4 * c
    {
      var numDeudas := Sorteo(azar(k), 4) + 1;
      var nuevas;
      nuevas, k := GenerarDeudasDeCliente(clientes[c], numDeudas, deudaId, azar, k + 1, ahora);
      ghost var antes := deudas;
      deudas := deudas + nuevas;
      inicio := inicio + [|deudas|];
      deudaId := deudaId + numDeudas;
      c := c + 1;
      assert forall j :: 0 <= j < |antes| ==> deudas[j] == antes[j];
      assert forall j :: |antes| <= j < |deudas| ==> deudas[j] == nuevas[j - |antes|];
    }
  }

  /** The order of `frecuencias` in `generarAbonosIniciales`. */
  const Frecuencias: seq<Frecuencia> := [Frecuencia.Diario, Frecuencia.Semanal, Frecuencia.Quincenal, Frecuencia.Mensual]

  /** A frequency as the interface writes it. */
  function NombreFrecuencia(f: Frecuencia): string
  {
    match f
    case Diario => "Diario"
    case Semanal => "Semanal"
    case Quincenal => "Quincenal"
    case Mensual => "Mensual"
  }

  /** The note of a generated abono: the frequency in lower case inside a fixed sentence. */
  function NotaSemilla(f: Frecuencia): string
  {
    "Abono " + Minusculas(NombreFrecuencia(f)) + " configurado automáticamente"
  }

  /** What `generarAbonosIniciales` promises about the abono at position `j`, for `cliente`. */
  ghost predicate AbonoGenerado(a: Abono, j: nat, cliente: Cliente, ahora: int)
  {
    var dias := (a.fechaProximoPago - ahora) / MsPorDia;
    a.id == NatToString(j + 1) && a.clienteId == cliente.id && a.cliente == cliente.nombre &&
    a.deudasIncluidas == ["1", "2"] && 1000 <= a.montoTotal <= 5999 &&
    a.fechaProximoPago == ahora + dias * MsPorDia && -5 <= dias <= 9 &&
    ahora - 30 * MsPorDia <= a.fechaCreacion <= ahora &&
    a.estado == EstadoAbono.Pendiente && a.notas == Some(NotaSemilla(a.frecuencia))
  }

  /**
   * The loop body of `generarAbonosIniciales` for the client at `index`, from
   * the draws `k` to `k + 3` (frequency, amount, day offset, creation time).
   */
  function AbonoSemilla(cliente: Cliente, index: nat, azar: nat -> real, k: nat, ahora: int): (a: Abono)
    requires Azar01(azar)
    ensures AbonoGenerado(a, index, cliente, ahora)
  {
    var frecuencia := Frecuencias[Sorteo(azar(k), |Frecuencias|)];
    var montoTotal := Sorteo(azar(k + 1), 5000) + 1000;
    var diasHastaProximo := Sorteo(azar(k + 2), 15) - 5;
    var fechaProximoPago := ahora + diasHastaProximo * MsPorDia;
    var estado := if diasHastaProximo < -2 then EstadoAbono.Pendiente else EstadoAbono.Pendiente;
    var atras := azar(k + 3) * (30 * MsPorDia) as real;
    assert 0.0 <= atras < (30 * MsPorDia) as real by {
      assert (30 * MsPorDia) as real - atras == (1.0 - azar(k + 3)) * (30 * MsPorDia) as real;
    }
    var fechaCreacion := Truncar(ahora as real - atras);
    assert (fechaProximoPago - ahora) / MsPorDia == diasHastaProximo;
    Abono(NatToString(index + 1), cliente.id, cliente.nombre, frecuencia, ["1", "2"], montoTotal,
          fechaCreacion, fechaProximoPago, estado, Some(NotaSemilla(frecuencia)))
  }

  /** Appending the abono generated for the next client extends a generated prefix. */
  lemma AbonosGeneradosCrecen(abonos: seq<Abono>, nuevo: Abono, clientes: seq<Cliente>, ahora: int)
    requires |abonos| < |clientes|
    requires forall j :: 0 <= j < |abonos| ==> AbonoGenerado(abonos[j], j, clientes[j], ahora)
    requires AbonoGenerado(nuevo, |abonos|, clientes[|abonos|], ahora)
    ensures forall j :: 0 <= j < |abonos| + 1 ==> AbonoGenerado((abonos + [nuevo])[j], j, clientes[j], ahora)
  {
    forall j | 0 <= j < |abonos| + 1
      ensures AbonoGenerado((abonos + [nuevo])[j], j, clientes[j], ahora)
    {
      if j < |abonos| {
        assert (abonos + [nuevo])[j] == abonos[j];
      } else {
        assert (abonos + [nuevo])[j] == nuevo;
      }
    }
  }

  /**
   * `generarAbonosIniciales`: one pending abono for each of the first eighteen
   * clients (all of them when there are fewer), ids "1" onwards, four draws each.
   */
  method GenerarAbonosIniciales(clientes: seq<Cliente>, azar: nat -> real, k0: nat, ahora: int)
      returns (abonos: seq<Abono>, k: nat)
    requires Azar01(azar)
    ensures |abonos| == if |clientes| < 18 then |clientes| else 18
    ensures k == k0 + 4 * |abonos|
    ensures forall j :: 0 <= j < |abonos| ==> AbonoGenerado(abonos[j], j, clientes[j], ahora)
  {
    var n := if |clientes| < 18 then |clientes| else 18;  // `clientes.slice(0, 18)`
    abonos := [];
    k := k0;
    var index := 0;
    while index < n
      invariant index <= n && |abonos| == index && k == k0 + 4 * index
      invariant forall j :: 0 <= j < index ==> AbonoGenerado(abonos[j], j, clientes[j], ahora)
    {
      var nuevo := AbonoSemilla(clientes[index], index, azar, k, ahora);
      AbonosGeneradosCrecen(abonos, nuevo, clientes, ahora);
      abonos := abonos + [nuevo];
      k := k + 4;
      index := index + 1;
    }
  }

  /** Strictly increasing block bounds never decrease over a range of clients. */
  lemma {:induction false} BordesCrecientes(inicio: seq<int>, n: nat, a: nat, b: nat)
    requires |inicio| == n + 1 && a <= b <= n
    requires forall x :: 0 <= x < n ==> inicio[x] < inicio[x + 1]
    ensures inicio[a] <= inicio[b]
    decreases b - a
  {
    if a < b {
      BordesCrecientes(inicio, n, a + 1, b);
    }
  }

  /**
   * Strictly increasing block bounds cover every debt: each one lies in the
   * block of exactly one client.
   */
  lemma BloqueDe(inicio: seq<int>, n: nat, j: int) returns (c: nat)
    requires |inicio| == n + 1 && inicio[0] == 0 && 0 <= j < inicio[n]
    requires forall x :: 0 <= x < n ==> inicio[x] < inicio[x + 1]
    ensures c < n && inicio[c] <= j < inicio[c + 1]
    ensures forall o :: 0 <= o < n && o != c ==> !(inicio[o] <= j < inicio[o + 1])
  {
    c := 0;
    while inicio[c + 1] <= j
      invariant c < n && inicio[c] <= j
      decreases n - c
    {
      c := c + 1;
    }
    forall o | 0 <= o < n && o != c
      ensures !(inicio[o] <= j < inicio[o + 1])
    {
      if o < c {
        BordesCrecientes(inicio, n, o + 1, c);
      } else {
        BordesCrecientes(inicio, n, c + 1, o);
      }
    }
  }

  /**
   * The debts `generarDeudas` returns are numbered "1", "2", ... in order and
   * each names an existing client.
   */
  lemma DeudasGeneradasValidas(clientes: seq<Cliente>, deudas: seq<Deuda>, inicio: seq<int>, ahora: int)
    requires |inicio| == |clientes| + 1 && inicio[0] == 0 && inicio[|clientes|] == |deudas|
    requires forall c :: 0 <= c < |clientes| ==> BloqueGenerado(deudas, inicio[c], inicio[c + 1], clientes[c], ahora)
    ensures forall j :: 0 <= j < |deudas| ==> deudas[j].id == NatToString(j + 1)
    ensures ReferenciasValidas(clientes, deudas)
  {
    forall j | 0 <= j < |deudas|
      ensures deudas[j].id == NatToString(j + 1)
      ensures exists c :: c in clientes && c.id == deudas[j].clienteId
    {
      var c := BloqueDe(inicio, |clientes|, j);
      assert BloqueGenerado(deudas, inicio[c], inicio[c + 1], clientes[c], ahora);
      assert DeudaGenerada(deudas[j], j, clientes[c], ahora);
      assert clientes[c] in clientes;
    }
  }

  /** Debts "1" and "2", which every generated abono lists, exist once there are two debts numbered in order. */
  lemma AbonosReferencianDeudas(clientes: seq<Cliente>, deudas: seq<Deuda>, abonos: seq<Abono>, ahora: int)
    requires |deudas| >= 2 && forall j :: 0 <= j < |deudas| ==> deudas[j].id == NatToString(j + 1)
    requires |abonos| <= |clientes| && forall j :: 0 <= j < |abonos| ==> AbonoGenerado(abonos[j], j, clientes[j], ahora)
    ensures forall a, id :: a in abonos && id in a.deudasIncluidas ==> exists d :: d in deudas && d.id == id
  {
    assert NatToString(1) == "1" && NatToString(2) == "2";
    assert deudas[0].id == "1" && deudas[1].id == "2";
    forall a, id | a in abonos && id in a.deudasIncluidas ensures exists d :: d in deudas && d.id == id {
      var j :| 0 <= j < |abonos| && abonos[j] == a;
      assert AbonoGenerado(abonos[j], j, clientes[j], ahora);
      assert deudas[0] in deudas && deudas[1] in deudas;
    }
  }

  /**
   * The module-level seed: 95 clients, their debts and eighteen abonos, drawn
   * in that order from `azar`, at the instant `ahora`, handed to a new store.
   * Every generated debt names a generated client, and the debt ids each
   * abono lists exist.
   */
  method CobranzasIniciales(azar: nat -> real, ahora: int) returns (store: Cobranzas)
    requires Azar01(azar)
    ensures fresh(store)
    ensures store.clientes == GenerarClientes(Nombres, azar, 0) && |store.clientes| == 95
    ensures 95 <= |store.deudas| <= 380 && |store.abonos| == 18
    ensures ReferenciasValidas(store.clientes, store.deudas)
    ensures forall a, id :: a in store.abonos && id in a.deudasIncluidas ==> exists d :: d in store.deudas && d.id == id
    ensures store.configuracionCorreo == ConfiguracionInicial
  {
    var clientes := GenerarClientes(Nombres, azar, 0);
    var deudas, k, inicio := GenerarDeudas(clientes, azar, 3 * |Nombres|, ahora);
    var abonos, _ := GenerarAbonosIniciales(clientes, azar, k, ahora);
    DeudasGeneradasValidas(clientes, deudas, inicio, ahora);
    AbonosReferencianDeudas(clientes, deudas, abonos, ahora);
    store := new Cobranzas(clientes, deudas, abonos);
  }

  /** The three sample clients of `src/hooks/useCobranzas.ts`. */
  const ClientesEjemplo: seq<Cliente> := [
    Cliente("1", "Juan Pérez", "juan.perez@email.com", "+1234567890", 1705276800000),
    Cliente("2", "María García", "maria.garcia@email.com", "+1234567891", 1707523200000),
    Cliente("3", "Carlos López", "carlos.lopez@email.com", "+1234567892", 1709596800000)
  ]

  /** The four sample debts, due now, in one day, in seven days and one day ago. */
  function DeudasEjemplo(ahora: int): seq<Deuda>
  {
    [ Deuda("1", "1", "Juan Pérez", ahora, 1500, 1000, EstadoDeuda.Vencida, Some("Servicio de hosting mensual")),
      Deuda("2", "2", "María García", ahora + MsPorDia, 2500, 1800, EstadoDeuda.Pendiente, Some("Desarrollo web personalizado")),
      Deuda("3", "3", "Carlos López", ahora + 7 * MsPorDia, 800, 500, EstadoDeuda.Pendiente, Some("Mantenimiento mensual")),
      Deuda("4", "1", "Juan Pérez", ahora - MsPorDia, 1200, 800, EstadoDeuda.Vencida, Some("Dominio anual")) ]
  }

  /** Every sample debt names a sample client. */
  lemma EjemploReferenciasValidas(ahora: int)
    ensures ReferenciasValidas(ClientesEjemplo, DeudasEjemplo(ahora))
  {
    assert ClientesEjemplo[0] in ClientesEjemplo && ClientesEjemplo[1] in ClientesEjemplo;
    assert ClientesEjemplo[2] in ClientesEjemplo;
  }

  /** No sample debt is paid, so the dashboard shows 6000 to collect, 4100 of costs and 1900 of profit over four debts. */
  lemma EjemploResumen(ahora: int)
    ensures CalcularResumen(DeudasEjemplo(ahora)) == Resumen(6000, 4100, 1900, 4)
  {
    var ds := DeudasEjemplo(ahora);
    FilterKeepsAll(ds, Activa);
    assert ds[1..][1..][1..][1..] == [];
    assert Sum(ds[3..], Monto) == 1200 && Sum(ds[3..], Costo) == 800;
    assert Sum(ds[2..], Monto) == 2000 && Sum(ds[2..], Costo) == 1300;
    assert Sum(ds[1..], Monto) == 4500 && Sum(ds[1..], Costo) == 3100;
  }

  /** The first sample debt is the only one due today, and the second the only one due tomorrow. */
  lemma EjemploVencimientos(ahora: int)
    ensures DeudasVencenHoy(DeudasEjemplo(ahora), ahora) == DeudasEjemplo(ahora)[..1]
    ensures DeudasVencenManana(DeudasEjemplo(ahora), ahora) == DeudasEjemplo(ahora)[1..2]
  {
    var ds := DeudasEjemplo(ahora);
    var hoy := InicioDelDia(ahora);
    var manana := InicioDelDia(ahora + MsPorDia);
    var vencenHoy := VenceEntre(hoy, hoy + MsPorDia);
    var vencenManana := VenceEntre(manana, manana + MsPorDia);
    DiaSiguiente(ahora);
    DiaSiguiente(ahora - MsPorDia);
    assert vencenHoy(ds[0]) && !vencenManana(ds[0]);
    assert !vencenHoy(ds[1]) && vencenManana(ds[1]);
    assert DiaDe(ahora + 7 * MsPorDia) == DiaDe(ahora) + 7;
    assert !vencenHoy(ds[2]) && !vencenManana(ds[2]);
    assert !vencenHoy(ds[3]) && !vencenManana(ds[3]);
    FilterDropsAll(ds[1..], vencenHoy);
    FilterDropsAll(ds[2..], vencenManana);
    assert Filter(ds, vencenHoy) == [ds[0]] + Filter(ds[1..], vencenHoy);
    assert Filter(ds, vencenManana) == Filter(ds[1..], vencenManana);
    assert ds[1..][1..] == ds[2..];
  }
}
