/**
 * The vehicle service: create, update and delete vehicles, link and unlink a
 * vehicle's driver, and list a vehicle's children. Every operation is a
 * sequence of lookups and guards followed by writes to the store; a failing
 * guard raises its error and writes nothing, except in `Update`, which
 * writes before its capacity guard.
 *
 * Each method states its whole effect on the store, and that it keeps the
 * store's invariants: `Sound()` always, `Valid()` (which adds the capacity
 * bound) whenever it held before, `Update` on its capacity error excepted.
 */
module MicroService {
  import opened Outcomes
  import opened Models
  import opened Store

  /** `findByPatente`: the vehicle filed under the normalised plate. */
  method FindByPatente(db: Db, patente: string) returns (r: Option<Micro>)
    ensures r.None? <==> TrimUpper(patente) !in db.micros
    ensures r.Some? ==> r.value == db.micros[TrimUpper(patente)]
    ensures db.Sound() && r.Some? ==> r.value.patente == TrimUpper(patente)
  {
    var key := TrimUpper(patente);
    if key in db.micros {
      r := Some(db.micros[key]);
    } else {
      r := None;
    }
  }

  method Create(db: Db, dto: CreateMicroDto) returns (r: Result<Micro>)
    modifies db
    ensures var key := TrimUpper(dto.patente);
      if key in old(db.micros) then r == Err(PatenteAlreadyExists) && unchanged(db)
      else if !MicroSchemaValid(NewMicro(dto)) then r == Err(ValidationFailed) && unchanged(db)
      else
        && r == Ok(NewMicro(dto))
        && db.micros == old(db.micros)[key := NewMicro(dto)]
        && db.chicos == old(db.chicos) && db.choferes == old(db.choferes)
    ensures r.Ok? ==> |db.micros| == |old(db.micros)| + 1
    ensures old(db.Sound()) ==> db.Sound()
    ensures old(db.Valid()) ==> db.Valid()
  {
    var key := TrimUpper(dto.patente);
    if key in db.micros {
      return Err(PatenteAlreadyExists);
    }
    var micro := NewMicro(dto);
    if !MicroSchemaValid(micro) {
      return Err(ValidationFailed);
    }
    ghost var before := db.micros;
    db.micros := db.micros[key := micro];
    r := Ok(micro);
    if Structural(before, db.chicos, db.choferes) {
      StructuralAfterMicroCreate(before, db.chicos, db.choferes, key, micro);
    }
  }

  /** `update` as written: the partial update is written first and the
      capacity is compared with the occupancy afterwards, so the capacity
      error leaves the new capacity in the store. */
  method Update(db: Db, patente: string, dto: UpdateMicroDto) returns (r: Result<Micro>)
    modifies db
    ensures var key := TrimUpper(patente);
      if !MicroUpdateValid(dto) then r == Err(ValidationFailed) && unchanged(db)
      else if key !in old(db.micros) then r == Err(MicroNotFound) && unchanged(db)
      else
        var updated := ApplyMicroUpdate(old(db.micros)[key], dto);
        && db.micros == old(db.micros)[key := updated]
        && db.chicos == old(db.chicos) && db.choferes == old(db.choferes)
        && r == if dto.capacidad.Some? && Occupancy(db.chicos, key) > dto.capacidad.value
                then Err(CapacityBelowOccupancy) else Ok(updated)
    ensures old(db.Sound()) ==> db.Sound()
    ensures old(db.Valid()) ==> (db.Valid() <==> r != Err(CapacityBelowOccupancy))
  {
    var key := TrimUpper(patente);
    if !MicroUpdateValid(dto) {
      return Err(ValidationFailed);
    }
    if key !in db.micros {
      return Err(MicroNotFound);
    }
    var micro := ApplyMicroUpdate(db.micros[key], dto);
    ghost var before := db.micros;
    db.micros := db.micros[key := micro];
    if Structural(before, db.chicos, db.choferes) {
      StructuralAfterMicroWrite(before, db.chicos, db.choferes, key, micro);
    }
    if CapacityRespected(before, db.chicos) {
      CapacityAfterMicroWrite(before, db.chicos, key, micro);
    }
    // `if (microData.capacidad)`: a present, non-zero capacity
    if dto.capacidad.Some? && dto.capacidad.value != 0 {
      var count := Occupancy(db.chicos, key);
      if count > dto.capacidad.value {
        return Err(CapacityBelowOccupancy);
      }
    }
    r := Ok(micro);
  }

  /** `update` with the capacity guard before the write, as its error message
      intends: the error leaves the store unchanged, so the capacity bound is
      kept on every path. */
  method UpdateChecked(db: Db, patente: string, dto: UpdateMicroDto) returns (r: Result<Micro>)
    modifies db
    ensures var key := TrimUpper(patente);
      if !MicroUpdateValid(dto) then r == Err(ValidationFailed) && unchanged(db)
      else if key !in old(db.micros) then r == Err(MicroNotFound) && unchanged(db)
      else if dto.capacidad.Some? && Occupancy(old(db.chicos), key) > dto.capacidad.value then
        r == Err(CapacityBelowOccupancy) && unchanged(db)
      else
        var updated := ApplyMicroUpdate(old(db.micros)[key], dto);
        && r == Ok(updated)
        && db.micros == old(db.micros)[key := updated]
        && db.chicos == old(db.chicos) && db.choferes == old(db.choferes)
    ensures old(db.Sound()) ==> db.Sound()
    ensures old(db.Valid()) ==> db.Valid()
  {
    var key := TrimUpper(patente);
    if !MicroUpdateValid(dto) {
      return Err(ValidationFailed);
    }
    if key !in db.micros {
      return Err(MicroNotFound);
    }
    if dto.capacidad.Some? && dto.capacidad.value != 0 {
      var count := Occupancy(db.chicos, key);
      if count > dto.capacidad.value {
        return Err(CapacityBelowOccupancy);
      }
    }
    var micro := ApplyMicroUpdate(db.micros[key], dto);
    db.micros := db.micros[key := micro];
    r := Ok(micro);
  }

  /** `delete`: refused while any child rides the vehicle; otherwise its
      driver's link is cleared first and then the vehicle alone is removed. */
  method Delete(db: Db, patente: string) returns (r: Result<()>)
    modifies db
    ensures var key := TrimUpper(patente);
      if key !in old(db.micros) then r == Err(MicroNotFound) && unchanged(db)
      else if Occupancy(old(db.chicos), key) > 0 then r == Err(MicroHasStudents) && unchanged(db)
      else
        var driver := old(db.micros)[key].choferId;
        && r == Ok(())
        && db.micros == old(db.micros) - {key}
        && db.chicos == old(db.chicos)
        && db.choferes == if driver.Some? then ClearChoferLink(old(db.choferes), driver.value) else old(db.choferes)
    ensures old(db.Sound()) && r.Ok? ==>
      forall d :: d in db.choferes ==> db.choferes[d].microId != Some(TrimUpper(patente))
    ensures old(db.Sound()) ==> db.Sound()
    ensures old(db.Valid()) ==> db.Valid()
  {
    var key := TrimUpper(patente);
    if key !in db.micros {
      return Err(MicroNotFound);
    }
    var micro := db.micros[key];
    var count := Occupancy(db.chicos, key);
    if count > 0 {
      return Err(MicroHasStudents);
    }
    OccupancyZeroIff(db.chicos, key);
    if micro.choferId.Some? {
      db.choferes := ClearChoferLink(db.choferes, micro.choferId.value);
    }
    db.micros := db.micros - {key};
    r := Ok(());
  }

  /** `assignChofer`: the guards run vehicle first (missing, already driven),
      then driver (missing, already driving); success links both sides. */
  method AssignChofer(db: Db, patente: string, choferDni: string) returns (r: Result<Micro>)
    modifies db
    ensures var key := TrimUpper(patente); var dni := Text.Trim(choferDni);
      if key !in old(db.micros) then r == Err(MicroNotFound) && unchanged(db)
      else if old(db.micros)[key].choferId.Some? then r == Err(MicroAlreadyHasChofer) && unchanged(db)
      else if dni !in old(db.choferes) then r == Err(ChoferNotFound) && unchanged(db)
      else if old(db.choferes)[dni].microId.Some? then r == Err(ChoferAssignedToAnotherMicro) && unchanged(db)
      else
        var micro := old(db.micros)[key].(choferId := Some(dni));
        && r == Ok(micro)
        && db.micros == old(db.micros)[key := micro]
        && db.choferes == old(db.choferes)[dni := old(db.choferes)[dni].(microId := Some(key))]
        && db.chicos == old(db.chicos)
    ensures old(db.Sound()) ==> db.Sound()
    ensures old(db.Valid()) ==> db.Valid()
  {
    var key := TrimUpper(patente);
    if key !in db.micros {
      return Err(MicroNotFound);
    }
    var micro := db.micros[key];
    if micro.choferId.Some? {
      return Err(MicroAlreadyHasChofer);
    }
    var dni := Text.Trim(choferDni);
    if dni !in db.choferes {
      return Err(ChoferNotFound);
    }
    var chofer := db.choferes[dni];
    if chofer.microId.Some? {
      return Err(ChoferAssignedToAnotherMicro);
    }
    micro := micro.(choferId := Some(dni));
    chofer := chofer.(microId := Some(key));
    db.choferes := db.choferes[dni := chofer];
    db.micros := db.micros[key := micro];
    r := Ok(micro);
  }

  /** `removeChofer`: fails on a missing vehicle or one without a driver;
      otherwise both sides of the link are cleared. */
  method RemoveChofer(db: Db, patente: string) returns (r: Result<Micro>)
    modifies db
    ensures var key := TrimUpper(patente);
      if key !in old(db.micros) then r == Err(MicroNotFound) && unchanged(db)
      else if old(db.micros)[key].choferId.None? then r == Err(MicroHasNoChofer) && unchanged(db)
      else
        var micro := old(db.micros)[key].(choferId := None);
        && r == Ok(micro)
        && db.micros == old(db.micros)[key := micro]
        && db.choferes == ClearChoferLink(old(db.choferes), old(db.micros)[key].choferId.value)
        && db.chicos == old(db.chicos)
    ensures old(db.Sound()) ==> db.Sound()
    ensures old(db.Valid()) ==> db.Valid()
  {
    var key := TrimUpper(patente);
    if key !in db.micros {
      return Err(MicroNotFound);
    }
    var micro := db.micros[key];
    if micro.choferId.None? {
      return Err(MicroHasNoChofer);
    }
    db.choferes := ClearChoferLink(db.choferes, micro.choferId.value);
    micro := micro.(choferId := None);
    db.micros := db.micros[key := micro];
    r := Ok(micro);
  }

  /** `getChicos`: exactly the children whose link names the vehicle. */
  method GetChicos(db: Db, patente: string) returns (r: Result<set<Chico>>)
    ensures TrimUpper(patente) !in db.micros ==> r == Err(MicroNotFound)
    ensures TrimUpper(patente) in db.micros ==>
      r.Ok? && forall c :: c in r.value <==> c in db.chicos.Values && c.microId == Some(TrimUpper(patente))
    ensures db.Sound() && r.Ok? ==> |r.value| == Occupancy(db.chicos, TrimUpper(patente))
  {
    var key := TrimUpper(patente);
    if key !in db.micros {
      return Err(MicroNotFound);
    }
    var children := RecordsOf(db.chicos, ChildrenOf(db.chicos, key));
    if db.Sound() {
      RecordsOfCount(db.chicos, ChildrenOf(db.chicos, key));
    }
    r := Ok(children);
  }
}
