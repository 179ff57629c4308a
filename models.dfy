/**
 * The three record kinds (vehicle `Micro`, child `Chico`, driver `Chofer`),
 * the request shapes that create and partially update them, and what their
 * schemas add: the `trim`/`uppercase` setters applied to every stored value,
 * the `null` default of the link field, and the `required`/`min`/`max`
 * constraints checked when a record is saved or an update is validated.
 *
 * A link is held as the business key of the record it points at: a child's
 * or driver's `microId` is the vehicle's plate, a vehicle's `choferId` is the
 * driver's DNI. The request types carry no key and no link, so an update
 * never changes either and these keys identify records as well as the
 * store's internal ids do.
 */
module Models {
  import opened Text
  import opened Outcomes

  const MinCapacidad: int := 10
  const MaxCapacidad: int := 50
  const MinEdad: int := 3
  const MaxEdad: int := 18

  datatype Micro = Micro(patente: string, modelo: string, capacidad: int, choferId: Option<string>)

  datatype Chico = Chico(dni: string, nombre: string, apellido: string, edad: int, microId: Option<string>)

  datatype Chofer = Chofer(dni: string, nombre: string, apellido: string, licencia: string, microId: Option<string>)

  datatype CreateMicroDto = CreateMicroDto(patente: string, modelo: string, capacidad: int)
  datatype UpdateMicroDto = UpdateMicroDto(modelo: Option<string>, capacidad: Option<int>)

  datatype CreateChicoDto = CreateChicoDto(dni: string, nombre: string, apellido: string, edad: int)
  datatype UpdateChicoDto = UpdateChicoDto(nombre: Option<string>, apellido: Option<string>, edad: Option<int>)

  datatype CreateChoferDto = CreateChoferDto(dni: string, nombre: string, apellido: string, licencia: string)
  datatype UpdateChoferDto = UpdateChoferDto(nombre: Option<string>, apellido: Option<string>, licencia: Option<string>)

  // ---------------------------------------------------------------- setters

  /** The setter chain of a `trim: true, uppercase: true` field (the plate and
      the licence). The schema library runs it on stored values and on the
      values of query filters alike, so a plate is always looked up as
      `TrimUpper(plate)`. */
  function TrimUpper(s: string): (r: string)
    ensures IsTrimmed(r) && NoLower(r)
    ensures |r| == |Trim(s)|
  {
    ToUpper(Trim(s))
  }

  lemma TrimUpperIdempotent(s: string)
    ensures TrimUpper(TrimUpper(s)) == TrimUpper(s)
  {
    TrimmedIsFixpoint(TrimUpper(s));
    ToUpperIdempotent(Trim(s));
  }

  /** The form every stored plate and licence has: no surrounding whitespace
      and no lower-case letter. */
  predicate IsTrimUpper(s: string) {
    IsTrimmed(s) && NoLower(s)
  }

  /** The stored forms are exactly the values the setters leave unchanged. */
  lemma StoredFormsAreFixpoints(s: string)
    ensures IsTrimmed(s) <==> Trim(s) == s
    ensures IsTrimUpper(s) <==> TrimUpper(s) == s
  {
    if IsTrimmed(s) {
      TrimmedIsFixpoint(s);
    }
    if IsTrimUpper(s) {
      assert ToUpper(s) == s;
    }
  }

  // ------------------------------------------------------------------ Micro

  predicate MicroNormalized(m: Micro) {
    IsTrimUpper(m.patente) && IsTrimmed(m.modelo)
  }

  /** `required` on a string rejects the empty string; it is checked after the
      setters have run. */
  predicate MicroSchemaValid(m: Micro) {
    m.patente != [] && m.modelo != [] && MinCapacidad <= m.capacidad <= MaxCapacidad
  }

  predicate MicroStored(m: Micro) {
    MicroNormalized(m) && MicroSchemaValid(m)
  }

  /** `new Micro(microData)`: the setters run and the driver link starts out
      `null`. */
  function NewMicro(d: CreateMicroDto): (m: Micro)
    ensures m.choferId == None
    ensures MicroNormalized(m)
    ensures m.capacidad == d.capacidad
    ensures MicroSchemaValid(m) <==>
              Trim(d.patente) != [] && Trim(d.modelo) != [] && MinCapacidad <= d.capacidad <= MaxCapacidad
  {
    Micro(TrimUpper(d.patente), Trim(d.modelo), d.capacidad, None)
  }

  /** What the update validators accept: every supplied field meets its
      schema constraint. */
  predicate MicroUpdateValid(u: UpdateMicroDto) {
    && (u.modelo.Some? ==> Trim(u.modelo.value) != [])
    && (u.capacidad.Some? ==> MinCapacidad <= u.capacidad.value <= MaxCapacidad)
  }

  /** The record after a partial update: supplied fields are replaced (through
      their setters), every other field is kept. */
  function ApplyMicroUpdate(m: Micro, u: UpdateMicroDto): (r: Micro)
    ensures r.patente == m.patente && r.choferId == m.choferId
    ensures r.modelo == if u.modelo.Some? then Trim(u.modelo.value) else m.modelo
    ensures r.capacidad == if u.capacidad.Some? then u.capacidad.value else m.capacidad
    ensures MicroStored(m) && MicroUpdateValid(u) ==> MicroStored(r)
  {
    m.(modelo := if u.modelo.Some? then Trim(u.modelo.value) else m.modelo,
       capacidad := if u.capacidad.Some? then u.capacidad.value else m.capacidad)
  }

  lemma ApplyMicroUpdateIdempotent(m: Micro, u: UpdateMicroDto)
    ensures ApplyMicroUpdate(ApplyMicroUpdate(m, u), u) == ApplyMicroUpdate(m, u)
  {
    if u.modelo.Some? { TrimIdempotent(u.modelo.value); }
  }

  /** The update validators accept exactly the updates that leave a
      schema-valid record schema-valid. */
  lemma MicroUpdateValidIff(m: Micro, u: UpdateMicroDto)
    requires MicroSchemaValid(m)
    ensures MicroUpdateValid(u) <==> MicroSchemaValid(ApplyMicroUpdate(m, u))
  {
  }

  // ------------------------------------------------------------------ Chico

  predicate ChicoNormalized(c: Chico) {
    IsTrimmed(c.dni) && IsTrimmed(c.nombre) && IsTrimmed(c.apellido)
  }

  predicate ChicoSchemaValid(c: Chico) {
    c.dni != [] && c.nombre != [] && c.apellido != [] && MinEdad <= c.edad <= MaxEdad
  }

  predicate ChicoStored(c: Chico) {
    ChicoNormalized(c) && ChicoSchemaValid(c)
  }

  /** `new Chico(chicoData)`: the setters run and the vehicle link starts out
      `null`. */
  function NewChico(d: CreateChicoDto): (c: Chico)
    ensures c.microId == None
    ensures ChicoNormalized(c)
    ensures c.edad == d.edad
    ensures ChicoSchemaValid(c) <==>
              Trim(d.dni) != [] && Trim(d.nombre) != [] && Trim(d.apellido) != [] && MinEdad <= d.edad <= MaxEdad
  {
    Chico(Trim(d.dni), Trim(d.nombre), Trim(d.apellido), d.edad, None)
  }

  predicate ChicoUpdateValid(u: UpdateChicoDto) {
    && (u.nombre.Some? ==> Trim(u.nombre.value) != [])
    && (u.apellido.Some? ==> Trim(u.apellido.value) != [])
    && (u.edad.Some? ==> MinEdad <= u.edad.value <= MaxEdad)
  }

  function ApplyChicoUpdate(c: Chico, u: UpdateChicoDto): (r: Chico)
    ensures r.dni == c.dni && r.microId == c.microId
    ensures r.nombre == if u.nombre.Some? then Trim(u.nombre.value) else c.nombre
    ensures r.apellido == if u.apellido.Some? then Trim(u.apellido.value) else c.apellido
    ensures r.edad == if u.edad.Some? then u.edad.value else c.edad
    ensures ChicoStored(c) && ChicoUpdateValid(u) ==> ChicoStored(r)
  {
    c.(nombre := if u.nombre.Some? then Trim(u.nombre.value) else c.nombre,
       apellido := if u.apellido.Some? then Trim(u.apellido.value) else c.apellido,
       edad := if u.edad.Some? then u.edad.value else c.edad)
  }

  lemma ApplyChicoUpdateIdempotent(c: Chico, u: UpdateChicoDto)
    ensures ApplyChicoUpdate(ApplyChicoUpdate(c, u), u) == ApplyChicoUpdate(c, u)
  {
    if u.nombre.Some? { TrimIdempotent(u.nombre.value); }
    if u.apellido.Some? { TrimIdempotent(u.apellido.value); }
  }

  /** The update validators accept exactly the updates that leave a
      schema-valid record schema-valid. */
  lemma ChicoUpdateValidIff(c: Chico, u: UpdateChicoDto)
    requires ChicoSchemaValid(c)
    ensures ChicoUpdateValid(u) <==> ChicoSchemaValid(ApplyChicoUpdate(c, u))
  {
  }

  // ----------------------------------------------------------------- Chofer

  predicate ChoferNormalized(c: Chofer) {
    IsTrimmed(c.dni) && IsTrimmed(c.nombre) && IsTrimmed(c.apellido) && IsTrimUpper(c.licencia)
  }

  predicate ChoferSchemaValid(c: Chofer) {
    c.dni != [] && c.nombre != [] && c.apellido != [] && c.licencia != []
  }

  predicate ChoferStored(c: Chofer) {
    ChoferNormalized(c) && ChoferSchemaValid(c)
  }

  /** `new Chofer(choferData)`: the setters run (the licence is upper-cased)
      and the vehicle link starts out `null`. */
  function NewChofer(d: CreateChoferDto): (c: Chofer)
    ensures c.microId == None
    ensures ChoferNormalized(c)
    ensures ChoferSchemaValid(c) <==>
              Trim(d.dni) != [] && Trim(d.nombre) != [] && Trim(d.apellido) != [] && Trim(d.licencia) != []
  {
    Chofer(Trim(d.dni), Trim(d.nombre), Trim(d.apellido), TrimUpper(d.licencia), None)
  }

  predicate ChoferUpdateValid(u: UpdateChoferDto) {
    && (u.nombre.Some? ==> Trim(u.nombre.value) != [])
    && (u.apellido.Some? ==> Trim(u.apellido.value) != [])
    && (u.licencia.Some? ==> Trim(u.licencia.value) != [])
  }

  function ApplyChoferUpdate(c: Chofer, u: UpdateChoferDto): (r: Chofer)
    ensures r.dni == c.dni && r.microId == c.microId
    ensures r.nombre == if u.nombre.Some? then Trim(u.nombre.value) else c.nombre
    ensures r.apellido == if u.apellido.Some? then Trim(u.apellido.value) else c.apellido
    ensures r.licencia == if u.licencia.Some? then TrimUpper(u.licencia.value) else c.licencia
    ensures ChoferStored(c) && ChoferUpdateValid(u) ==> ChoferStored(r)
  {
    c.(nombre := if u.nombre.Some? then Trim(u.nombre.value) else c.nombre,
       apellido := if u.apellido.Some? then Trim(u.apellido.value) else c.apellido,
       licencia := if u.licencia.Some? then TrimUpper(u.licencia.value) else c.licencia)
  }

  lemma ApplyChoferUpdateIdempotent(c: Chofer, u: UpdateChoferDto)
    ensures ApplyChoferUpdate(ApplyChoferUpdate(c, u), u) == ApplyChoferUpdate(c, u)
  {
    if u.nombre.Some? { TrimIdempotent(u.nombre.value); }
    if u.apellido.Some? { TrimIdempotent(u.apellido.value); }
    if u.licencia.Some? { TrimUpperIdempotent(u.licencia.value); }
  }

  /** The update validators accept exactly the updates that leave a
      schema-valid record schema-valid. */
  lemma ChoferUpdateValidIff(c: Chofer, u: UpdateChoferDto)
    requires ChoferSchemaValid(c)
    ensures ChoferUpdateValid(u) <==> ChoferSchemaValid(ApplyChoferUpdate(c, u))
  {
  }
}
