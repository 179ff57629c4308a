/**
 * The request validators that guard the HTTP routes. Each field runs a chain
 * of checks; every failing check contributes one error. A chain's
 * `withMessage` names the error of the check just before it; a failing check
 * without one reports the library's default text `"Invalid value"`.
 *
 * Numeric body fields are checked on their text (the validator library
 * works on the string form of a value), so they are modelled as strings; the
 * JSON integer `n` reaches the check as `IntText(n)`.
 */
module Validation {
  import opened Text
  import Models

  const DefaultMessage: string := "Invalid value"

  predicate IsDigit(c: char) {
    '0' <= c <= '9'
  }

  predicate IsUpperLetter(c: char) {
    'A' <= c <= 'Z'
  }

  predicate AllDigits(s: string) {
    forall i :: 0 <= i < |s| ==> IsDigit(s[i])
  }

  predicate AllUpperLetters(s: string) {
    forall i :: 0 <= i < |s| ==> IsUpperLetter(s[i])
  }

  /** `isLength({ min: lo, max: hi })`. */
  predicate LengthBetween(s: string, lo: nat, hi: nat) {
    lo <= |s| <= hi
  }

  /** `isNumeric()`, read as: one or more decimal digits. */
  predicate IsNumeric(s: string) {
    |s| > 0 && AllDigits(s)
  }

  // -------------------------------------------------------------------- DNI

  /** The DNI chain, used on bodies and on route parameters alike: no trim,
      7 to 8 characters, numeric. */
  predicate DniOk(s: string) {
    LengthBetween(s, 7, 8) && IsNumeric(s)
  }

  function DniErrors(s: string): (errors: seq<string>)
    ensures errors == [] <==> DniOk(s)
    ensures DefaultMessage in errors <==> !LengthBetween(s, 7, 8)
    ensures "DNI must be 7-8 digits" in errors <==> !IsNumeric(s)
  {
    (if LengthBetween(s, 7, 8) then [] else [DefaultMessage]) +
    (if IsNumeric(s) then [] else ["DNI must be 7-8 digits"])
  }

  // ---------------------------------------------------------------- patente

  /** The language of the pattern `^[A-Z]{3}[0-9]{3,4}$`: three capital
      letters followed by three or four digits. */
  ghost predicate InPatenteLanguage(s: string) {
    exists k :: 0 <= k <= |s| && |s[..k]| == 3 && AllUpperLetters(s[..k]) && 3 <= |s[k..]| <= 4 && AllDigits(s[k..])
  }

  /** A matcher for that pattern. */
  predicate MatchesPatente(s: string) {
    |s| >= 3 && AllUpperLetters(s[..3]) && 3 <= |s| - 3 <= 4 && AllDigits(s[3..])
  }

  lemma MatchesPatenteIffInLanguage(s: string)
    ensures MatchesPatente(s) <==> InPatenteLanguage(s)
  {
    if MatchesPatente(s) {
      assert |s[..3]| == 3 && 3 <= |s[3..]| <= 4;
    }
    if InPatenteLanguage(s) {
      var k :| 0 <= k <= |s| && |s[..k]| == 3 && AllUpperLetters(s[..k]) && 3 <= |s[k..]| <= 4 && AllDigits(s[k..]);
      assert k == 3;
    }
  }

  /** Whatever the pattern accepts is 6 or 7 characters long, so the chain's
      `isLength({ min: 6, max: 7 })` never rejects a plate the pattern
      accepts. */
  lemma PatenteLengthFollowsFromPattern(s: string)
    requires InPatenteLanguage(s)
    ensures LengthBetween(s, 6, 7)
  {
    var k :| 0 <= k <= |s| && |s[..k]| == 3 && AllUpperLetters(s[..k]) && 3 <= |s[k..]| <= 4 && AllDigits(s[k..]);
    assert |s| == |s[..k]| + |s[k..]|;
  }

  /** The plate chain: trim, 6 to 7 characters, the pattern. */
  predicate PatenteOk(s: string) {
    var t := Trim(s);
    LengthBetween(t, 6, 7) && MatchesPatente(t)
  }

  function PatenteErrors(s: string): (errors: seq<string>)
    ensures errors == [] <==> PatenteOk(s)
    ensures DefaultMessage in errors <==> !LengthBetween(Trim(s), 6, 7)
    ensures "Invalid patente format" in errors <==> !MatchesPatente(Trim(s))
  {
    var t := Trim(s);
    (if LengthBetween(t, 6, 7) then [] else [DefaultMessage]) +
    (if MatchesPatente(t) then [] else ["Invalid patente format"])
  }

  /** A plate is accepted exactly when its trimmed text is in the pattern's
      language; the length check adds nothing. */
  lemma PatenteOkIffPattern(s: string)
    ensures PatenteOk(s) <==> InPatenteLanguage(Trim(s))
  {
    MatchesPatenteIffInLanguage(Trim(s));
    if InPatenteLanguage(Trim(s)) {
      PatenteLengthFollowsFromPattern(Trim(s));
    }
  }

  /** A plate that passed the route's check and was then upper-cased by the
      controller is already what the schema's setters would store, so looking
      it up finds the record created under it. */
  lemma AcceptedPatenteIsStoredForm(s: string)
    requires PatenteOk(s)
    ensures Models.TrimUpper(ToUpper(Trim(s))) == Trim(s)
  {
    var t := Trim(s);
    assert forall i :: 0 <= i < |t| ==> !IsLower(t[i]) by {
      forall i | 0 <= i < |t|
        ensures !IsLower(t[i])
      {
        if i < 3 { assert t[..3][i] == t[i]; } else { assert t[3..][i - 3] == t[i]; }
      }
    }
    assert ToUpper(t) == t;
    TrimIdempotent(s);
    assert Trim(ToUpper(t)) == t;
  }

  // ---------------------------------------------------------------- strings

  /** `trim().isLength({ min: lo, max: hi })`. */
  predicate TrimmedLengthBetween(s: string, lo: nat, hi: nat) {
    LengthBetween(Trim(s), lo, hi)
  }

  /** nombre, apellido and modelo: 2 to 50 characters after trim. */
  predicate NameOk(s: string) {
    TrimmedLengthBetween(s, 2, 50)
  }

  /** licencia: 8 to 10 characters after trim. */
  predicate LicenciaOk(s: string) {
    TrimmedLengthBetween(s, 8, 10)
  }

  // --------------------------------------------------------------- integers

  function DigitValue(c: char): nat
    requires IsDigit(c)
  {
    c as int - '0' as int
  }

  function DigitChar(d: nat): (c: char)
    requires d < 10
    ensures IsDigit(c) && DigitValue(c) == d
  {
    ('0' as int + d) as char
  }

  /** The value of a string of decimal digits. */
  function DigitsValue(s: string): nat
    requires AllDigits(s)
  {
    if s == [] then 0 else 10 * DigitsValue(s[..|s| - 1]) + DigitValue(s[|s| - 1])
  }

  /** The integer syntax of `isInt()`: an optional sign, then one or more
      digits (leading zeroes allowed). */
  predicate IsIntLiteral(s: string) {
    if |s| > 0 && (s[0] == '+' || s[0] == '-') then IsNumeric(s[1..]) else IsNumeric(s)
  }

  function IntValue(s: string): int
    requires IsIntLiteral(s)
  {
    if s[0] == '-' then -(DigitsValue(s[1..]) as int)
    else if s[0] == '+' then DigitsValue(s[1..])
    else DigitsValue(s)
  }

  /** `isInt({ min: lo, max: hi })`. */
  predicate IntBetween(s: string, lo: int, hi: int) {
    IsIntLiteral(s) && lo <= IntValue(s) <= hi
  }

  /** The decimal text of a natural number. */
  function NatText(n: nat): (s: string)
    ensures IsNumeric(s) && DigitsValue(s) == n
  {
    if n < 10 then
      var s := [DigitChar(n)];
      assert s[..0] == [];
      s
    else
      var p := NatText(n / 10);
      var s := p + [DigitChar(n % 10)];
      assert s[..|s| - 1] == p;
      s
  }

  /** The text of a JSON integer, as the validator sees it. */
  function IntText(n: int): (s: string)
    ensures IsIntLiteral(s) && IntValue(s) == n
  {
    if n < 0 then
      var d := NatText(-n);
      var s := "-" + d;
      assert s[1..] == d;
      s
    else
      NatText(n)
  }

  predicate EdadOk(s: string) {
    IntBetween(s, 3, 18)
  }

  predicate CapacidadOk(s: string) {
    IntBetween(s, 10, 50)
  }

  /** An integer age is accepted exactly when it lies within the schema's
      bounds for `edad`. */
  lemma EdadAcceptedIff(n: int)
    ensures EdadOk(IntText(n)) <==> Models.MinEdad <= n <= Models.MaxEdad
  {
  }

  /** An integer capacity is accepted exactly when it lies within the
      schema's bounds for `capacidad`. */
  lemma CapacidadAcceptedIff(n: int)
    ensures CapacidadOk(IntText(n)) <==> Models.MinCapacidad <= n <= Models.MaxCapacidad
  {
  }

  // --------------------------------------------------------- request bodies

  datatype ChicoBody = ChicoBody(dni: string, nombre: string, apellido: string, edad: string)
  datatype MicroBody = MicroBody(patente: string, modelo: string, capacidad: string)
  datatype ChoferBody = ChoferBody(dni: string, nombre: string, apellido: string, licencia: string)

  /** Errors reported for a `POST /chicos` body; empty exactly when every
      field passes. */
  function ValidateChico(b: ChicoBody): (errors: seq<string>)
    ensures errors == [] <==> DniOk(b.dni) && NameOk(b.nombre) && NameOk(b.apellido) && EdadOk(b.edad)
    ensures DefaultMessage in errors <==> !LengthBetween(b.dni, 7, 8)
    ensures "DNI must be 7-8 digits" in errors <==> !IsNumeric(b.dni)
    ensures "Name must be 2-50 characters" in errors <==> !NameOk(b.nombre)
    ensures "Lastname must be 2-50 characters" in errors <==> !NameOk(b.apellido)
    ensures "Age must be between 3 and 18" in errors <==> !EdadOk(b.edad)
  {
    DniErrors(b.dni) +
    (if NameOk(b.nombre) then [] else ["Name must be 2-50 characters"]) +
    (if NameOk(b.apellido) then [] else ["Lastname must be 2-50 characters"]) +
    (if EdadOk(b.edad) then [] else ["Age must be between 3 and 18"])
  }

  /** Errors reported for a `POST /micros` body; empty exactly when every
      field passes. */
  function ValidateMicro(b: MicroBody): (errors: seq<string>)
    ensures errors == [] <==> PatenteOk(b.patente) && NameOk(b.modelo) && CapacidadOk(b.capacidad)
    ensures "Model must be 2-50 characters" in errors <==> !NameOk(b.modelo)
    ensures "Capacity must be between 10 and 50" in errors <==> !CapacidadOk(b.capacidad)
  {
    PatenteErrors(b.patente) +
    (if NameOk(b.modelo) then [] else ["Model must be 2-50 characters"]) +
    (if CapacidadOk(b.capacidad) then [] else ["Capacity must be between 10 and 50"])
  }

  /** Errors reported for a `POST /choferes` body; empty exactly when every
      field passes. */
  function ValidateChofer(b: ChoferBody): (errors: seq<string>)
    ensures errors == [] <==> DniOk(b.dni) && NameOk(b.nombre) && NameOk(b.apellido) && LicenciaOk(b.licencia)
    ensures DefaultMessage in errors <==> !LengthBetween(b.dni, 7, 8)
    ensures "DNI must be 7-8 digits" in errors <==> !IsNumeric(b.dni)
    ensures "Name must be 2-50 characters" in errors <==> !NameOk(b.nombre)
    ensures "Lastname must be 2-50 characters" in errors <==> !NameOk(b.apellido)
    ensures "License must be 8-10 characters" in errors <==> !LicenciaOk(b.licencia)
  {
    DniErrors(b.dni) +
    (if NameOk(b.nombre) then [] else ["Name must be 2-50 characters"]) +
    (if NameOk(b.apellido) then [] else ["Lastname must be 2-50 characters"]) +
    (if LicenciaOk(b.licencia) then [] else ["License must be 8-10 characters"])
  }

  /** The `:dni` route parameter check. */
  function ValidateDni(dni: string): (errors: seq<string>)
    ensures errors == [] <==> DniOk(dni)
  {
    DniErrors(dni)
  }

  /** The `:patente` route parameter check. */
  function ValidatePatente(patente: string): (errors: seq<string>)
    ensures errors == [] <==> InPatenteLanguage(Trim(patente))
  {
    PatenteOkIffPattern(patente);
    PatenteErrors(patente)
  }
}
