/**
 * The driver service: create, update and delete drivers, and link a driver
 * to a vehicle or unlink it. A driver is looked up by its trimmed DNI and a
 * vehicle by its trimmed, upper-cased plate. Both sides of the
 * driver-vehicle link are written together, and clearing the vehicle side
 * always comes first. A failing guard raises its error and writes nothing.
 */
module ChoferService {
  import opened Text
  import opened Outcomes
  import opened Models
  import opened Store

  /** `findByDni`: the driver filed under the trimmed DNI. */
  method FindByDni(db: Db, dni: string) returns (r: Option<Chofer>)
    ensures r.None? <==> Trim(dni) !in db.choferes
    ensures r.Some? ==> r.value == db.choferes[Trim(dni)]
    ensures db.Sound() && r.Some? ==> r.value.dni == Trim(dni)
  {
    var key := Trim(dni);
    if key in db.choferes {
      r := Some(db.choferes[key]);
    } else {
      r := None;
    }
  }

  /** `create`: a duplicate DNI is refused first; then the schema validates
      the new record, which starts out without a vehicle. */
  method Create(db: Db, dto: CreateChoferDto) returns (r: Result<Chofer>)
    modifies db
    ensures var key := Trim(dto.dni);
      if key in old(db.choferes) then r == Err(DniAlreadyExists) && unchanged(db)
      else if !ChoferSchemaValid(NewChofer(dto)) then r == Err(ValidationFailed) && unchanged(db)
      else
        && r == Ok(NewChofer(dto))
        && db.choferes == old(db.choferes)[key := NewChofer(dto)]
        && db.micros == old(db.micros) && db.chicos == old(db.chicos)
    ensures r.Ok? ==> |db.choferes| == |old(db.choferes)| + 1
    ensures old(db.Sound()) ==> db.Sound()
    ensures old(db.Valid()) ==> db.Valid()
  {
    var key := Trim(dto.dni);
    if key in db.choferes {
      return Err(DniAlreadyExists);
    }
    var chofer := NewChofer(dto);
    if !ChoferSchemaValid(chofer) {
      return Err(ValidationFailed);
    }
    ghost var before := db.choferes;
    db.choferes := db.choferes[key := chofer];
    r := Ok(chofer);
    if Structural(db.micros, db.chicos, before) {
      StructuralAfterChoferCreate(db.micros, db.chicos, before, key, chofer);
    }
  }

  /** `update`: the update validators run first, then the driver is looked
      up and only the supplied fields are replaced; the link is kept. */
  method Update(db: Db, dni: string, dto: UpdateChoferDto) returns (r: Result<Chofer>)
    modifies db
    ensures var key := Trim(dni);
      if !ChoferUpdateValid(dto) then r == Err(ValidationFailed) && unchanged(db)
      else if key !in old(db.choferes) then r == Err(ChoferNotFound) && unchanged(db)
      else
        var updated := ApplyChoferUpdate(old(db.choferes)[key], dto);
        && r == Ok(updated)
        && db.choferes == old(db.choferes)[key := updated]
        && db.micros == old(db.micros) && db.chicos == old(db.chicos)
    ensures old(db.Sound()) ==> db.Sound()
    ensures old(db.Valid()) ==> db.Valid()
  {
    var key := Trim(dni);
    if !ChoferUpdateValid(dto) {
      return Err(ValidationFailed);
    }
    if key !in db.choferes {
      return Err(ChoferNotFound);
    }
    var chofer := ApplyChoferUpdate(db.choferes[key], dto);
    ghost var before := db.choferes;
    db.choferes := db.choferes[key := chofer];
    r := Ok(chofer);
    if Structural(db.micros, db.chicos, before) {
      StructuralAfterChoferWrite(db.micros, db.chicos, before, key, chofer);
    }
  }

  /** `delete`: a linked driver's vehicle has its `choferId` cleared first,
      then the driver alone is removed, so no vehicle is left naming it. */
  method Delete(db: Db, dni: string) returns (r: Result<()>)
    modifies db
    ensures var key := Trim(dni);
      if key !in old(db.choferes) then r == Err(ChoferNotFound) && unchanged(db)
      else
        var link := old(db.choferes)[key].microId;
        && r == Ok(())
        && db.choferes == old(db.choferes) - {key}
        && db.micros == (if link.Some? then ClearMicroLink(old(db.micros), link.value) else old(db.micros))
        && db.chicos == old(db.chicos)
    ensures old(db.Sound()) && r.Ok? ==>
      forall p :: p in db.micros ==> db.micros[p].choferId != Some(Trim(dni))
    ensures old(db.Sound()) ==> db.Sound()
    ensures old(db.Valid()) ==> db.Valid()
  {
    var key := Trim(dni);
    if key !in db.choferes {
      return Err(ChoferNotFound);
    }
    var chofer := db.choferes[key];
    ghost var before := db.micros;
    if chofer.microId.Some? {
      db.micros := ClearMicroLink(db.micros, chofer.microId.value);
    }
    ghost var drivers := db.choferes;
    db.choferes := db.choferes - {key};
    r := Ok(());
    if Structural(before, db.chicos, drivers) {
      StructuralAfterChoferDelete(before, db.chicos, drivers, key);
    }
  }

  /** `assignToMicro`: the guards run driver first (missing, already
      driving), then vehicle (missing, already driven) -- the reverse of
      `MicroService.AssignChofer`; success links both sides. */
  method AssignToMicro(db: Db, dni: string, patente: string) returns (r: Result<Chofer>)
    modifies db
    ensures var key := Trim(dni); var plate := TrimUpper(patente);
      if key !in old(db.choferes) then r == Err(ChoferNotFound) && unchanged(db)
      else if old(db.choferes)[key].microId.Some? then r == Err(ChoferAlreadyAssigned) && unchanged(db)
      else if plate !in old(db.micros) then r == Err(MicroNotFound) && unchanged(db)
      else if old(db.micros)[plate].choferId.Some? then r == Err(MicroAlreadyHasChofer) && unchanged(db)
      else
        var chofer := old(db.choferes)[key].(microId := Some(plate));
        && r == Ok(chofer)
        && db.choferes == old(db.choferes)[key := chofer]
        && db.micros == old(db.micros)[plate := old(db.micros)[plate].(choferId := Some(key))]
        && db.chicos == old(db.chicos)
    ensures old(db.Sound()) ==> db.Sound()
    ensures old(db.Valid()) ==> db.Valid()
  {
    var key := Trim(dni);
    if key !in db.choferes {
      return Err(ChoferNotFound);
    }
    var chofer := db.choferes[key];
    if chofer.microId.Some? {
      return Err(ChoferAlreadyAssigned);
    }
    var plate := TrimUpper(patente);
    if plate !in db.micros {
      return Err(MicroNotFound);
    }
    var micro := db.micros[plate];
    if micro.choferId.Some? {
      return Err(MicroAlreadyHasChofer);
    }
    ghost var vehicles, drivers := db.micros, db.choferes;
    chofer := chofer.(microId := Some(plate));
    micro := micro.(choferId := Some(key));
    db.micros := db.micros[plate := micro];
    db.choferes := db.choferes[key := chofer];
    r := Ok(chofer);
    if Structural(vehicles, db.chicos, drivers) {
      StructuralAfterDriverLink(vehicles, db.chicos, drivers, plate, key);
    }
  }

  /** `removeFromMicro`: fails on a missing or unlinked driver; otherwise the
      vehicle's `choferId` is cleared, then the driver's `microId`. */
  method RemoveFromMicro(db: Db, dni: string) returns (r: Result<Chofer>)
    modifies db
    ensures var key := Trim(dni);
      if key !in old(db.choferes) then r == Err(ChoferNotFound) && unchanged(db)
      else if old(db.choferes)[key].microId.None? then r == Err(ChoferNotAssigned) && unchanged(db)
      else
        var chofer := old(db.choferes)[key].(microId := None);
        && r == Ok(chofer)
        && db.choferes == old(db.choferes)[key := chofer]
        && db.micros == ClearMicroLink(old(db.micros), old(db.choferes)[key].microId.value)
        && db.chicos == old(db.chicos)
    ensures old(db.Sound()) ==> db.Sound()
    ensures old(db.Valid()) ==> db.Valid()
  {
    var key := Trim(dni);
    if key !in db.choferes {
      return Err(ChoferNotFound);
    }
    var chofer := db.choferes[key];
    if chofer.microId.None? {
      return Err(ChoferNotAssigned);
    }
    ghost var vehicles, drivers := db.micros, db.choferes;
    db.micros := ClearMicroLink(db.micros, chofer.microId.value);
    chofer := chofer.(microId := None);
    db.choferes := db.choferes[key := chofer];
    r := Ok(chofer);
    if Structural(vehicles, db.chicos, drivers) {
      StructuralAfterDriverUnlink(vehicles, db.chicos, drivers, drivers[key].microId.value, key);
    }
  }
}
