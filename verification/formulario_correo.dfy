/**
 * The mail settings form (`ConfiguracionCorreo`): a local copy of the store's
 * configuration that the user edits, the list of report recipients with its
 * add and remove buttons, and the save button that writes the copy back.
 */
module FormularioCorreo {
  import opened Wrappers
  import opened Lists
  import opened Modelo
  import opened Almacen

  datatype ErrorCorreo =
    | CorreoInvalido      // empty, or without '@'
    | CorreoRepetido      // already a recipient
    | CamposObligatorios  // server, user or sender missing on save

  /**
   * `agregarCorreoDestino` on the recipient list: an address must be non-empty
   * and contain '@', must not be in the list yet, and is then appended.
   */
  function AgregarCorreo(lista: seq<string>, nuevo: string): (r: Result<seq<string>, ErrorCorreo>)
    ensures r == Failure(CorreoInvalido) <==> nuevo == "" || '@' !in nuevo
    ensures r == Failure(CorreoRepetido) <==> nuevo != "" && '@' in nuevo && nuevo in lista
    ensures r.Success? ==> r.value == lista + [nuevo] && nuevo !in lista
  {
    if nuevo == "" || '@' !in nuevo then Failure(CorreoInvalido)
    else if nuevo in lista then Failure(CorreoRepetido)
    else Success(lista + [nuevo])
  }

  /** `eliminarCorreoDestino`: every occurrence of the address removed, the rest in order. */
  function EliminarCorreo(lista: seq<string>, correo: string): (r: seq<string>)
    ensures correo !in r
    ensures forall c :: c != correo ==> (c in r <==> c in lista)
    ensures correo in lista ==> |r| < |lista|
  {
    Without(lista, correo)
  }

  /** The remaining addresses keep their order. */
  lemma EliminarCorreoConservaOrden(a: seq<string>, b: seq<string>, correo: string)
    ensures EliminarCorreo(a + b, correo) == EliminarCorreo(a, correo) + EliminarCorreo(b, correo)
  {
    WithoutAppend(a, b, correo);
  }

  /** Removing an address that is not listed leaves the list as it was. */
  lemma EliminarCorreoAusente(lista: seq<string>, correo: string)
    requires correo !in lista
    ensures EliminarCorreo(lista, correo) == lista
  {
    WithoutAbsent(lista, correo);
  }

  /** Every address the form ever lets in contains '@' and is not repeated. */
  ghost predicate ListaValida(lista: seq<string>)
  {
    NoDuplicates(lista) && forall c :: c in lista ==> '@' in c
  }

  /** Adding keeps the recipient list valid. */
  lemma AgregarConservaValidez(lista: seq<string>, nuevo: string)
    requires ListaValida(lista)
    ensures AgregarCorreo(lista, nuevo).Success? ==> ListaValida(AgregarCorreo(lista, nuevo).value)
  {
    if AgregarCorreo(lista, nuevo).Success? {
      AppendFreshNoDuplicates(lista, nuevo);
    }
  }

  /** Removing keeps the recipient list valid. */
  lemma EliminarConservaValidez(lista: seq<string>, correo: string)
    requires ListaValida(lista)
    ensures ListaValida(EliminarCorreo(lista, correo))
  {
  }

  /** Removing an address just added gives back the list as it was. */
  lemma AgregarYEliminarRestaura(lista: seq<string>, nuevo: string)
    requires AgregarCorreo(lista, nuevo).Success?
    ensures EliminarCorreo(AgregarCorreo(lista, nuevo).value, nuevo) == lista
  {
    WithoutAppendFresh(lista, nuevo);
  }

  /** The three fields `handleSubmit` requires. */
  predicate CamposCompletos(c: ConfiguracionCorreo)
  {
    c.servidorSMTP != "" && c.usuario != "" && c.correoRemitente != ""
  }

  class Formulario {
    var formData: ConfiguracionCorreo
    var nuevoCorreo: string

    /** The form starts from the store's configuration and an empty address box. */
    constructor (store: Cobranzas)
      ensures formData == store.configuracionCorreo && nuevoCorreo == ""
    {
      formData := store.configuracionCorreo;
      nuevoCorreo := "";
    }

    /** What the user types in the address box. */
    method EscribirCorreo(texto: string)
      modifies this
      ensures nuevoCorreo == texto && formData == old(formData)
    {
      nuevoCorreo := texto;
    }

    /** `agregarCorreoDestino`: on success the address is appended and the box cleared. */
    method AgregarCorreoDestino() returns (r: Outcome<ErrorCorreo>)
      modifies this
      ensures match AgregarCorreo(old(formData.correosDestino), old(nuevoCorreo))
        case Failure(e) => r == Fail(e) && formData == old(formData) && nuevoCorreo == old(nuevoCorreo)
        case Success(lista) => r == Pass && formData == old(formData).(correosDestino := lista) && nuevoCorreo == ""
    {
      match AgregarCorreo(formData.correosDestino, nuevoCorreo)
      case Failure(e) =>
        r := Fail(e);
      case Success(lista) =>
        formData := formData.(correosDestino := lista);
        nuevoCorreo := "";
        r := Pass;
    }

    /** `eliminarCorreoDestino`. */
    method EliminarCorreoDestino(correo: string)
      modifies this
      ensures formData == old(formData).(correosDestino := EliminarCorreo(old(formData.correosDestino), correo))
      ensures nuevoCorreo == old(nuevoCorreo)
    {
      formData := formData.(correosDestino := EliminarCorreo(formData.correosDestino, correo));
    }

    /**
     * `handleSubmit`: with server, user and sender filled in, the whole form
     * replaces the store's configuration; otherwise nothing is saved.
     */
    method HandleSubmit(store: Cobranzas) returns (r: Outcome<ErrorCorreo>)
      modifies store
      ensures r.Pass? <==> CamposCompletos(formData)
      ensures r.Fail? ==> r.error == CamposObligatorios && store.configuracionCorreo == old(store.configuracionCorreo)
      ensures r.Pass? ==> store.configuracionCorreo == formData
      ensures store.clientes == old(store.clientes) && store.deudas == old(store.deudas)
      ensures store.abonos == old(store.abonos)
    {
      if !CamposCompletos(formData) {
        return Fail(CamposObligatorios);
      }
      store.ActualizarConfiguracionCorreo(formData);
      return Pass;
    }
  }
}
