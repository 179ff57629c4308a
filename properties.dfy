/**
 * Properties that relate several service calls: an assignment undone by the
 * matching removal, an assignment repeated, the two ways of linking a
 * driver, a driver handover, and the store the unguarded vehicle update
 * leaves behind.
 */
module Properties {
  import opened Text
  import opened Outcomes
  import opened Models
  import opened Store
  import MicroService
  import ChicoService
  import ChoferService

  /** Putting a child on a vehicle and taking it off again gives back the
      store exactly as it was, and the removal returns the original child. */
  method ChildAssignThenRemove(db: Db, dni: string, patente: string) returns (assignment: Result<Chico>, removal: Result<Chico>)
    modifies db
    ensures assignment.Ok? ==>
      && Trim(dni) in old(db.chicos)
      && removal == Ok(old(db.chicos)[Trim(dni)])
      && db.chicos == old(db.chicos) && db.micros == old(db.micros) && db.choferes == old(db.choferes)
    ensures assignment.Err? ==> removal == assignment && unchanged(db)
  {
    assignment := ChicoService.AssignToMicro(db, dni, patente);
    if assignment.Ok? {
      ghost var before := old(db.chicos);
      removal := ChicoService.RemoveFromMicro(db, dni);
      assert db.chicos == before[Trim(dni) := before[Trim(dni)]];
    } else {
      removal := assignment;
    }
  }

  /** A child that was just assigned cannot be assigned again, to any
      vehicle, and the refused second call changes nothing. */
  method ChildAssignTwice(db: Db, dni: string, patente: string, other: string) returns (first: Result<Chico>, second: Result<Chico>)
    modifies db
    ensures first.Ok? ==> second == Err(ChicoAlreadyAssigned)
    ensures first.Ok? ==>
      && first.value.microId == Some(TrimUpper(patente))
      && db.chicos == old(db.chicos)[Trim(dni) := first.value]
      && db.micros == old(db.micros) && db.choferes == old(db.choferes)
  {
    first := ChicoService.AssignToMicro(db, dni, patente);
    second := ChicoService.AssignToMicro(db, dni, other);
  }

  /** Linking a driver from the vehicle side and unlinking it from the driver
      side gives back the store exactly as it was. */
  method DriverLinkByMicroUnlinkByChofer(db: Db, patente: string, dni: string) returns (linked: Result<Micro>, unlinked: Result<Chofer>)
    modifies db
    ensures linked.Ok? ==>
      && Trim(dni) in old(db.choferes)
      && unlinked == Ok(old(db.choferes)[Trim(dni)])
      && db.micros == old(db.micros) && db.choferes == old(db.choferes) && db.chicos == old(db.chicos)
  {
    linked := MicroService.AssignChofer(db, patente, dni);
    if linked.Ok? {
      ghost var micros, choferes := old(db.micros), old(db.choferes);
      unlinked := ChoferService.RemoveFromMicro(db, dni);
      assert db.micros == micros[TrimUpper(patente) := micros[TrimUpper(patente)]];
      assert db.choferes == choferes[Trim(dni) := choferes[Trim(dni)]];
    } else {
      unlinked := Err(linked.error);
    }
  }

  /** Linking a driver from the driver side and unlinking it from the
      vehicle side gives back the store exactly as it was. */
  method DriverLinkByChoferUnlinkByMicro(db: Db, dni: string, patente: string) returns (linked: Result<Chofer>, unlinked: Result<Micro>)
    modifies db
    ensures linked.Ok? ==>
      && TrimUpper(patente) in old(db.micros)
      && unlinked == Ok(old(db.micros)[TrimUpper(patente)])
      && db.micros == old(db.micros) && db.choferes == old(db.choferes) && db.chicos == old(db.chicos)
  {
    linked := ChoferService.AssignToMicro(db, dni, patente);
    if linked.Ok? {
      ghost var micros, choferes := old(db.micros), old(db.choferes);
      unlinked := MicroService.RemoveChofer(db, patente);
      assert db.micros == micros[TrimUpper(patente) := micros[TrimUpper(patente)]];
      assert db.choferes == choferes[Trim(dni) := choferes[Trim(dni)]];
    } else {
      unlinked := Err(linked.error);
    }
  }

  /** When the vehicle already has a driver and the driver's DNI is unknown,
      the two ways of linking report different errors: the vehicle side
      finds the taken seat first, the driver side the missing driver. */
  method AssignPathsDisagree(db: Db, patente: string, dni: string) returns (viaMicro: Result<Micro>, viaChofer: Result<Chofer>)
    modifies db
    requires TrimUpper(patente) in db.micros && db.micros[TrimUpper(patente)].choferId.Some?
    requires Trim(dni) !in db.choferes
    ensures viaMicro == Err(MicroAlreadyHasChofer)
    ensures viaChofer == Err(ChoferNotFound)
    ensures unchanged(db)
  {
    viaMicro := MicroService.AssignChofer(db, patente, dni);
    viaChofer := ChoferService.AssignToMicro(db, dni, patente);
  }

  /** Handing a vehicle over to a free driver: unlink the current driver,
      then link the new one. The old driver is left without a vehicle and
      the new one is linked both ways. */
  method DriverHandover(db: Db, patente: string, newDni: string) returns (unlinked: Result<Micro>, linked: Result<Micro>)
    modifies db
    requires db.Sound()
    ensures db.Sound()
    ensures var key := TrimUpper(patente); var d := Trim(newDni);
      key in old(db.micros) && old(db.micros)[key].choferId.Some? && d in old(db.choferes) && old(db.choferes)[d].microId.None? ==>
        && unlinked.Ok? && linked.Ok?
        && key in db.micros && d in db.choferes && old(db.micros)[key].choferId.value in db.choferes
        && db.micros[key].choferId == Some(d)
        && db.choferes[d].microId == Some(key)
        && db.choferes[old(db.micros)[key].choferId.value].microId == None
  {
    unlinked := MicroService.RemoveChofer(db, patente);
    linked := MicroService.AssignChofer(db, patente, newDni);
  }

  // ------------------------------------------- a store the finding needs

  /** Eleven children's DNIs. */
  const RosterDnis: set<string> := {"1000001", "1000002", "1000003", "1000004", "1000005", "1000006",
                                    "1000007", "1000008", "1000009", "1000010", "1000011"}

  /** One vehicle of capacity 12, no driver. */
  function Fleet(): map<string, Micro> {
    map["ABC123" := Micro("ABC123", "Sprinter", 12, None)]
  }

  /** Eleven children, all on that vehicle. */
  function Roster(): map<string, Chico> {
    map k | k in RosterDnis :: Chico(k, "Ana", "Paz", 10, Some("ABC123"))
  }

  lemma RosterChildren()
    ensures ChildrenOf(Roster(), "ABC123") == RosterDnis
  {
  }

  lemma RosterSize()
    ensures |RosterDnis| == 11
  {
  }

  lemma RosterOccupancy()
    ensures Occupancy(Roster(), "ABC123") == 11
  {
    RosterChildren();
    RosterSize();
  }

  lemma RosterRecordsStored()
    ensures forall k :: k in RosterDnis ==> ChicoStored(Roster()[k])
  {
    forall k | k in RosterDnis
      ensures ChicoStored(Roster()[k])
    {
      assert Roster()[k] == Chico(k, "Ana", "Paz", 10, Some("ABC123"));
    }
  }

  /** The store of `Fleet` and `Roster` meets every invariant. */
  lemma FleetAndRosterConsistent()
    ensures Consistent(Fleet(), Roster(), map[])
  {
    RosterOccupancy();
    RosterRecordsStored();
    assert MicroStored(Fleet()["ABC123"]);
    assert RecordsStored(Fleet(), Roster(), map[]);
  }

  /** A store holding `Fleet` and `Roster`. */
  method ElevenOnTwelve() returns (db: Db)
    ensures fresh(db) && db.Valid()
    ensures db.micros == Fleet() && db.chicos == Roster() && db.choferes == map[]
    ensures Occupancy(db.chicos, "ABC123") == 11
  {
    db := new Db();
    db.micros := Fleet();
    db.chicos := Roster();
    FleetAndRosterConsistent();
    RosterOccupancy();
  }

  /** The unguarded vehicle update on that store: lowering the capacity to
      10 is refused, yet the store keeps capacity 10 with 11 children on
      board, so the capacity bound no longer holds. The corrected update
      refuses the same request and leaves the store consistent. */
  method CapacityErrorAfterWrite() returns (db: Db, asWritten: Result<Micro>, db': Db, corrected: Result<Micro>)
    ensures asWritten == Err(CapacityBelowOccupancy)
    ensures "ABC123" in db.micros && db.micros["ABC123"].capacidad == 10 && Occupancy(db.chicos, "ABC123") == 11
    ensures !db.Valid()
    ensures corrected == Err(CapacityBelowOccupancy)
    ensures db'.micros == Fleet() && db'.chicos == Roster() && db'.Valid()
  {
    var dto := UpdateMicroDto(None, Some(10));
    db := ElevenOnTwelve();
    assert TrimUpper("ABC123") == "ABC123";
    asWritten := MicroService.Update(db, "ABC123", dto);
    assert db.micros["ABC123"].capacidad == 10 && Occupancy(db.chicos, "ABC123") == 11;
    assert !db.Valid();
    db' := ElevenOnTwelve();
    corrected := MicroService.UpdateChecked(db', "ABC123", dto);
    assert db'.Valid();
  }
}
