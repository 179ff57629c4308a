/**
 * The child service: create, update and delete children, and put a child on
 * a vehicle or take it off. A child is looked up by its trimmed DNI (the
 * `dni` setter runs on the query too) and a vehicle by its trimmed,
 * upper-cased plate. A failing guard raises its error and writes nothing.
 */
module ChicoService {
  import opened Text
  import opened Outcomes
  import opened Models
  import opened Store

  /** `findByDni`: the child filed under the trimmed DNI. */
  method FindByDni(db: Db, dni: string) returns (r: Option<Chico>)
    ensures r.None? <==> Trim(dni) !in db.chicos
    ensures r.Some? ==> r.value == db.chicos[Trim(dni)]
    ensures db.Sound() && r.Some? ==> r.value.dni == Trim(dni)
  {
    var key := Trim(dni);
    if key in db.chicos {
      r := Some(db.chicos[key]);
    } else {
      r := None;
    }
  }

  /** `create`: a duplicate DNI is refused first; then the schema validates
      the new record, which starts out unassigned. */
  method Create(db: Db, dto: CreateChicoDto) returns (r: Result<Chico>)
    modifies db
    ensures var key := Trim(dto.dni);
      if key in old(db.chicos) then r == Err(DniAlreadyExists) && unchanged(db)
      else if !ChicoSchemaValid(NewChico(dto)) then r == Err(ValidationFailed) && unchanged(db)
      else
        && r == Ok(NewChico(dto))
        && db.chicos == old(db.chicos)[key := NewChico(dto)]
        && db.micros == old(db.micros) && db.choferes == old(db.choferes)
    ensures r.Ok? ==> |db.chicos| == |old(db.chicos)| + 1
    ensures old(db.Sound()) ==> db.Sound()
    ensures old(db.Valid()) ==> db.Valid()
  {
    var key := Trim(dto.dni);
    if key in db.chicos {
      return Err(DniAlreadyExists);
    }
    var chico := NewChico(dto);
    if !ChicoSchemaValid(chico) {
      return Err(ValidationFailed);
    }
    ghost var before := db.chicos;
    db.chicos := db.chicos[key := chico];
    r := Ok(chico);
    if Structural(db.micros, before, db.choferes) {
      StructuralAfterChicoCreate(db.micros, before, db.choferes, key, chico);
    }
  }

  /** `update`: the update validators run first, then the child is looked up
      and only the supplied fields are replaced; the link is kept. */
  method Update(db: Db, dni: string, dto: UpdateChicoDto) returns (r: Result<Chico>)
    modifies db
    ensures var key := Trim(dni);
      if !ChicoUpdateValid(dto) then r == Err(ValidationFailed) && unchanged(db)
      else if key !in old(db.chicos) then r == Err(ChicoNotFound) && unchanged(db)
      else
        var updated := ApplyChicoUpdate(old(db.chicos)[key], dto);
        && r == Ok(updated)
        && db.chicos == old(db.chicos)[key := updated]
        && db.micros == old(db.micros) && db.choferes == old(db.choferes)
    ensures old(db.Sound()) ==> db.Sound()
    ensures old(db.Valid()) ==> db.Valid()
  {
    var key := Trim(dni);
    if !ChicoUpdateValid(dto) {
      return Err(ValidationFailed);
    }
    if key !in db.chicos {
      return Err(ChicoNotFound);
    }
    var chico := ApplyChicoUpdate(db.chicos[key], dto);
    ghost var before := db.chicos;
    db.chicos := db.chicos[key := chico];
    r := Ok(chico);
    if Structural(db.micros, before, db.choferes) {
      StructuralAfterChicoWrite(db.micros, before, db.choferes, key, chico);
    }
  }

  /** `delete`: an assigned child is first taken off its vehicle through
      `RemoveFromMicro`, then removed; nothing else changes. */
  method Delete(db: Db, dni: string) returns (r: Result<()>)
    modifies db
    ensures var key := Trim(dni);
      if key !in old(db.chicos) then r == Err(ChicoNotFound) && unchanged(db)
      else
        && r == Ok(())
        && db.chicos == old(db.chicos) - {key}
        && db.micros == old(db.micros) && db.choferes == old(db.choferes)
    ensures old(db.Sound()) ==> db.Sound()
    ensures old(db.Valid()) ==> db.Valid()
  {
    var key := Trim(dni);
    if key !in db.chicos {
      return Err(ChicoNotFound);
    }
    if db.chicos[key].microId.Some? {
      var removed := RemoveFromMicro(db, dni);
      assert removed.Ok?;
    }
    ghost var before := db.chicos;
    db.chicos := db.chicos - {key};
    r := Ok(());
    if Structural(db.micros, before, db.choferes) {
      StructuralAfterChicoDelete(db.micros, before, db.choferes, key);
    }
  }

  /** `assignToMicro`: the guards run child first (missing, already
      assigned), then vehicle (missing, full: occupancy at or above
      capacity); success links the child and adds exactly one to the
      vehicle's occupancy. */
  method AssignToMicro(db: Db, dni: string, patente: string) returns (r: Result<Chico>)
    modifies db
    ensures var key := Trim(dni); var plate := TrimUpper(patente);
      if key !in old(db.chicos) then r == Err(ChicoNotFound) && unchanged(db)
      else if old(db.chicos)[key].microId.Some? then r == Err(ChicoAlreadyAssigned) && unchanged(db)
      else if plate !in old(db.micros) then r == Err(MicroNotFound) && unchanged(db)
      else if Occupancy(old(db.chicos), plate) >= old(db.micros)[plate].capacidad then
        r == Err(MicroAtCapacity) && unchanged(db)
      else
        var chico := old(db.chicos)[key].(microId := Some(plate));
        && r == Ok(chico)
        && db.chicos == old(db.chicos)[key := chico]
        && db.micros == old(db.micros) && db.choferes == old(db.choferes)
    ensures r.Ok? ==>
      var plate := TrimUpper(patente);
      && Occupancy(db.chicos, plate) == Occupancy(old(db.chicos), plate) + 1
      && Occupancy(db.chicos, plate) <= db.micros[plate].capacidad
      && forall p :: p != plate ==> Occupancy(db.chicos, p) == Occupancy(old(db.chicos), p)
    ensures old(db.Sound()) ==> db.Sound()
    ensures old(db.Valid()) ==> db.Valid()
  {
    var key := Trim(dni);
    if key !in db.chicos {
      return Err(ChicoNotFound);
    }
    var chico := db.chicos[key];
    if chico.microId.Some? {
      return Err(ChicoAlreadyAssigned);
    }
    var plate := TrimUpper(patente);
    if plate !in db.micros {
      return Err(MicroNotFound);
    }
    var micro := db.micros[plate];
    var count := Occupancy(db.chicos, plate);
    if count >= micro.capacidad {
      return Err(MicroAtCapacity);
    }
    ghost var before := db.chicos;
    chico := chico.(microId := Some(plate));
    db.chicos := db.chicos[key := chico];
    r := Ok(chico);
    forall p
      ensures Occupancy(db.chicos, p) == if p == plate then Occupancy(before, p) + 1 else Occupancy(before, p)
    {
      OccupancyAfterLink(before, key, plate, p);
    }
    if Structural(db.micros, before, db.choferes) {
      StructuralAfterChildLink(db.micros, before, db.choferes, key, plate);
    }
  }

  /** `removeFromMicro`: fails on a missing or unassigned child; otherwise
      the link is cleared and the former vehicle loses exactly one child. */
  method RemoveFromMicro(db: Db, dni: string) returns (r: Result<Chico>)
    modifies db
    ensures var key := Trim(dni);
      if key !in old(db.chicos) then r == Err(ChicoNotFound) && unchanged(db)
      else if old(db.chicos)[key].microId.None? then r == Err(ChicoNotAssigned) && unchanged(db)
      else
        var chico := old(db.chicos)[key].(microId := None);
        && r == Ok(chico)
        && db.chicos == old(db.chicos)[key := chico]
        && db.micros == old(db.micros) && db.choferes == old(db.choferes)
    ensures r.Ok? ==>
      var former := old(db.chicos)[Trim(dni)].microId.value;
      && Occupancy(db.chicos, former) == Occupancy(old(db.chicos), former) - 1
      && forall p :: p != former ==> Occupancy(db.chicos, p) == Occupancy(old(db.chicos), p)
    ensures old(db.Sound()) ==> db.Sound()
    ensures old(db.Valid()) ==> db.Valid()
  {
    var key := Trim(dni);
    if key !in db.chicos {
      return Err(ChicoNotFound);
    }
    var chico := db.chicos[key];
    if chico.microId.None? {
      return Err(ChicoNotAssigned);
    }
    ghost var before := db.chicos;
    chico := chico.(microId := None);
    db.chicos := db.chicos[key := chico];
    r := Ok(chico);
    forall p
      ensures Occupancy(db.chicos, p) ==
        if p == before[key].microId.value then Occupancy(before, p) - 1 else Occupancy(before, p)
    {
      OccupancyAfterUnlink(before, key, p);
    }
    if Structural(db.micros, before, db.choferes) {
      StructuralAfterChildUnlink(db.micros, before, db.choferes, key);
    }
  }
}
