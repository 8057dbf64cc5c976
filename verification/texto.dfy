/**
 * The string operations the seed data and the forms rely on: JavaScript's
 * `Number.prototype.toString()` on integers, `String.prototype.toLowerCase()`
 * restricted to the Latin-1 block, the `\s` character class of JavaScript
 * regular expressions, and the accent stripping of `generarClientes`.
 */
module Texto {
  import opened Lists

  predicate EsDigito(c: char)
  {
    '0' <= c <= '9'
  }

  function DigitChar(d: nat): (c: char)
    requires d < 10
    ensures EsDigito(c)
  {
    ('0' as int + d) as char
  }

  /** `n.toString()` for a non-negative integer: decimal digits without a leading zero. */
  function NatToString(n: nat): (s: string)
    ensures |s| >= 1
    ensures forall i :: 0 <= i < |s| ==> EsDigito(s[i])
    ensures s[0] == '0' ==> n == 0
    decreases n
  {
    if n < 10 then [DigitChar(n)] else NatToString(n / 10) + [DigitChar(n % 10)]
  }

  /** The value of a string of decimal digits (`parseInt` on digits only). */
  function ParseDigits(s: string): nat
    requires forall i :: 0 <= i < |s| ==> EsDigito(s[i])
  {
    if s == [] then 0
    else
      assert EsDigito(s[|s| - 1]);
      10 * ParseDigits(s[..|s| - 1]) + (s[|s| - 1] as int - '0' as int)
  }

  /** Reading back the decimal rendering of a number gives the number. */
  lemma {:induction false} ParseNatToString(n: nat)
    ensures ParseDigits(NatToString(n)) == n
  {
    if n >= 10 {
      var s := NatToString(n);
      assert s[..|s| - 1] == NatToString(n / 10);
      ParseNatToString(n / 10);
    }
  }

  /** Distinct numbers have distinct decimal renderings, so counters give distinct ids. */
  lemma NatToStringInjective(m: nat, n: nat)
    ensures NatToString(m) == NatToString(n) ==> m == n
  {
    ParseNatToString(m);
    ParseNatToString(n);
  }

  /** `x.toString()` for an integer: a minus sign before the digits of a negative number. */
  function IntToString(x: int): (s: string)
    ensures |s| >= 1
    ensures x < 0 <==> s[0] == '-'
    ensures x >= 0 ==> (forall i :: 0 <= i < |s| ==> EsDigito(s[i])) && ParseDigits(s) == x
    ensures x < 0 ==> (forall i :: 1 <= i < |s| ==> EsDigito(s[i])) && ParseDigits(s[1..]) == -x
  {
    if x < 0 then
      ParseNatToString(-x);
      assert ("-" + NatToString(-x))[1..] == NatToString(-x);
      "-" + NatToString(-x)
    else
      ParseNatToString(x);
      NatToString(x)
  }

  /** The upper-case letters of the Latin-1 block: `A`-`Z` and `À`-`Þ` except `×`. */
  predicate EsMayuscula(c: char)
  {
    'A' <= c <= 'Z' || ('\U{C0}' <= c <= '\U{DE}' && c != '\U{D7}')
  }

  /** `toLowerCase` on one character of the Latin-1 block; every other character is kept. */
  function Minuscula(c: char): (l: char)
    ensures !EsMayuscula(l)
    ensures !EsMayuscula(c) ==> l == c
  {
    if EsMayuscula(c) then (c as int + 32) as char else c
  }

  /** `s.toLowerCase()`. */
  function Minusculas(s: string): (r: string)
    ensures |r| == |s|
    ensures forall i :: 0 <= i < |s| ==> r[i] == Minuscula(s[i])
  {
    Map(s, Minuscula)
  }

  /** The characters matched by `\s` in a JavaScript regular expression. */
  predicate EsEspacio(c: char)
  {
    c == ' ' || c == '\t' || c == '\n' || c == '\U{B}' || c == '\U{C}' || c == '\r'
    || c == '\U{A0}' || c == '\U{1680}' || ('\U{2000}' <= c <= '\U{200A}')
    || c == '\U{2028}' || c == '\U{2029}' || c == '\U{202F}' || c == '\U{205F}'
    || c == '\U{3000}' || c == '\U{FEFF}'
  }

  predicate NoEsEspacio(c: char)
  {
    !EsEspacio(c)
  }

  /** `s.replace(/\s+/g, '')`: every whitespace character removed, the rest in order. */
  function SinEspacios(s: string): (r: string)
    ensures forall c :: c in r <==> c in s && !EsEspacio(c)
  {
    Filter(s, NoEsEspacio)
  }

  /** Whitespace is removed where it stands: the rest keep their order. */
  lemma SinEspaciosConcatena(a: string, b: string)
    ensures SinEspacios(a + b) == SinEspacios(a) + SinEspacios(b)
  {
    FilterAppend(a, b, NoEsEspacio);
  }

  /** A string without whitespace is kept whole, character for character. */
  lemma SinEspaciosSinCambio(s: string)
    requires forall i :: 0 <= i < |s| ==> !EsEspacio(s[i])
    ensures SinEspacios(s) == s
  {
    FilterKeepsAll(s, NoEsEspacio);
  }

  /** The five accented vowels `generarClientes` rewrites. */
  predicate EsVocalAcentuada(c: char)
  {
    c == 'á' || c == 'é' || c == 'í' || c == 'ó' || c == 'ú'
  }

  /** The replacement of `/[áéíóú]/g` by the plain vowel; every other character is kept. */
  function SinAcento(c: char): (r: char)
    ensures !EsVocalAcentuada(r)
    ensures !EsVocalAcentuada(c) ==> r == c
    ensures !EsMayuscula(c) ==> !EsMayuscula(r)
    ensures !EsEspacio(c) ==> !EsEspacio(r)
  {
    match c
    case 'á' => 'a'
    case 'é' => 'e'
    case 'í' => 'i'
    case 'ó' => 'o'
    case 'ú' => 'u'
    case _ => c
  }

  function SinAcentos(s: string): (r: string)
    ensures |r| == |s|
    ensures forall i :: 0 <= i < |s| ==> r[i] == SinAcento(s[i])
  {
    Map(s, SinAcento)
  }

  /** A character that none of the three steps of `Normalizar` rewrites or removes. */
  predicate Normalizado(c: char)
  {
    !EsMayuscula(c) && !EsEspacio(c) && !EsVocalAcentuada(c)
  }

  /**
   * The local part of a generated email before the index: the name lowercased,
   * with whitespace removed and the accents of á é í ó ú stripped, in that order.
   */
  function Normalizar(nombre: string): (r: string)
    ensures forall i :: 0 <= i < |r| ==> Normalizado(r[i])
    ensures '@' in r ==> '@' in nombre
  {
    NormalizarPasos(nombre);
    SinAcentos(SinEspacios(Minusculas(nombre)))
  }

  /** The three steps of `Normalizar`, one character at a time. */
  lemma NormalizarPasos(nombre: string)
    ensures var r := SinAcentos(SinEspacios(Minusculas(nombre)));
      (forall i :: 0 <= i < |r| ==> Normalizado(r[i])) && ('@' in r ==> '@' in nombre)
  {
    var bajas := Minusculas(nombre);
    var juntas := SinEspacios(bajas);
    var r := SinAcentos(juntas);
    forall i | 0 <= i < |r|
      ensures Normalizado(r[i])
    {
      assert juntas[i] in bajas;
      var j :| 0 <= j < |bajas| && bajas[j] == juntas[i];
      assert !EsMayuscula(juntas[i]);
    }
    if '@' in r {
      var i :| 0 <= i < |r| && r[i] == '@';
      assert juntas[i] == '@';
      var j :| 0 <= j < |bajas| && bajas[j] == '@';
      assert nombre[j] == '@';
    }
  }

  /** A string made of normalised characters is left as it is by `Normalizar`. */
  lemma NormalizarFijo(s: string)
    requires forall i :: 0 <= i < |s| ==> Normalizado(s[i])
    ensures Normalizar(s) == s
  {
    assert Minusculas(s) == s;
    SinEspaciosSinCambio(s);
    assert SinAcentos(s) == s;
  }

  /** Normalising a name twice gives the same local part as normalising it once. */
  lemma NormalizarIdempotente(nombre: string)
    ensures Normalizar(Normalizar(nombre)) == Normalizar(nombre)
  {
    NormalizarFijo(Normalizar(nombre));
  }
}
