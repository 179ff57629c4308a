/**
 * The shared store the three services read and write: one keyed collection
 * per record kind, keyed by business key. Occupancy of a vehicle is never
 * stored; it is recounted as the number of children whose `microId` names
 * the vehicle.
 *
 * The invariants are stated over the three maps as values, so that the
 * lemmas about them do not depend on the heap.
 */
module Store {
  import opened Outcomes
  import opened Models

  /** The keys of the children whose link names the vehicle `patente`
      (the query `{ microId: micro._id }`). */
  function ChildrenOf(chicos: map<string, Chico>, patente: string): set<string> {
    set k | k in chicos && chicos[k].microId == Some(patente)
  }

  /** `Chico.countDocuments({ microId: micro._id })`. */
  function Occupancy(chicos: map<string, Chico>, patente: string): nat {
    |ChildrenOf(chicos, patente)|
  }

  /** A vehicle never counts more children than the store holds. */
  lemma OccupancyAtMostChildren(chicos: map<string, Chico>, patente: string)
    ensures Occupancy(chicos, patente) <= |chicos|
  {
    SubsetCard(ChildrenOf(chicos, patente), chicos.Keys);
  }

  lemma {:induction false} SubsetCard<T>(a: set<T>, b: set<T>)
    requires a <= b
    ensures |a| <= |b|
    decreases b
  {
    if a != {} {
      var x :| x in a;
      SubsetCard(a - {x}, b - {x});
    }
  }

  /** The records filed under the keys `ks`. */
  function RecordsOf(chicos: map<string, Chico>, ks: set<string>): set<Chico>
    requires ks <= chicos.Keys
  {
    set k | k in ks :: chicos[k]
  }

  /** `Chofer.findByIdAndUpdate(id, { microId: null })`: clears that driver's
      link, and does nothing when no driver has that id. */
  function ClearChoferLink(choferes: map<string, Chofer>, dni: string): map<string, Chofer> {
    if dni in choferes then choferes[dni := choferes[dni].(microId := None)] else choferes
  }

  /** `Micro.findByIdAndUpdate(id, { choferId: ... })` with an empty value:
      clears that vehicle's link, and does nothing when no vehicle has that
      id. */
  function ClearMicroLink(micros: map<string, Micro>, patente: string): map<string, Micro> {
    if patente in micros then micros[patente := micros[patente].(choferId := None)] else micros
  }

  /** Clearing a driver's link keeps every driver and changes nothing but
      that driver's `microId`, which becomes none. */
  lemma ClearChoferLinkFrame(choferes: map<string, Chofer>, dni: string)
    ensures ClearChoferLink(choferes, dni).Keys == choferes.Keys
    ensures dni in choferes ==> ClearChoferLink(choferes, dni)[dni] == choferes[dni].(microId := None)
    ensures forall d :: d in choferes && d != dni ==> ClearChoferLink(choferes, dni)[d] == choferes[d]
  {
  }

  /** Clearing a vehicle's link keeps every vehicle and changes nothing but
      that vehicle's `choferId`, which becomes none. */
  lemma ClearMicroLinkFrame(micros: map<string, Micro>, patente: string)
    ensures ClearMicroLink(micros, patente).Keys == micros.Keys
    ensures patente in micros ==> ClearMicroLink(micros, patente)[patente] == micros[patente].(choferId := None)
    ensures forall p :: p in micros && p != patente ==> ClearMicroLink(micros, patente)[p] == micros[p]
  {
  }

  // ------------------------------------------------------------- invariants

  /** Each record is filed under its own business key. */
  ghost predicate KeysMatch(micros: map<string, Micro>, chicos: map<string, Chico>, choferes: map<string, Chofer>) {
    && (forall p :: p in micros ==> micros[p].patente == p)
    && (forall k :: k in chicos ==> chicos[k].dni == k)
    && (forall d :: d in choferes ==> choferes[d].dni == d)
  }

  /** Each record is what its schema would store: normalised and valid. */
  ghost predicate RecordsStored(micros: map<string, Micro>, chicos: map<string, Chico>, choferes: map<string, Chofer>) {
    && (forall p :: p in micros ==> MicroStored(micros[p]))
    && (forall k :: k in chicos ==> ChicoStored(chicos[k]))
    && (forall d :: d in choferes ==> ChoferStored(choferes[d]))
  }

  /** A child's link names an existing vehicle. */
  ghost predicate ChildLinksResolve(micros: map<string, Micro>, chicos: map<string, Chico>) {
    forall k :: k in chicos && chicos[k].microId.Some? ==> chicos[k].microId.value in micros
  }

  /** The driver-vehicle link is never one-sided: a driver names a vehicle
      exactly when that vehicle names the driver. */
  ghost predicate DriverLinksMutual(micros: map<string, Micro>, choferes: map<string, Chofer>) {
    && (forall d :: d in choferes && choferes[d].microId.Some? ==>
          choferes[d].microId.value in micros && micros[choferes[d].microId.value].choferId == Some(d))
    && (forall p :: p in micros && micros[p].choferId.Some? ==>
          micros[p].choferId.value in choferes && choferes[micros[p].choferId.value].microId == Some(p))
  }

  /** No vehicle carries more children than its capacity. */
  ghost predicate CapacityRespected(micros: map<string, Micro>, chicos: map<string, Chico>) {
    forall p :: p in micros ==> Occupancy(chicos, p) <= micros[p].capacidad
  }

  /** Everything but the capacity bound. */
  ghost predicate Structural(micros: map<string, Micro>, chicos: map<string, Chico>, choferes: map<string, Chofer>) {
    && KeysMatch(micros, chicos, choferes)
    && RecordsStored(micros, chicos, choferes)
    && ChildLinksResolve(micros, chicos)
    && DriverLinksMutual(micros, choferes)
  }

  ghost predicate Consistent(micros: map<string, Micro>, chicos: map<string, Chico>, choferes: map<string, Chofer>) {
    Structural(micros, chicos, choferes) && CapacityRespected(micros, chicos)
  }

  class Db {
    var micros: map<string, Micro>
    var chicos: map<string, Chico>
    var choferes: map<string, Chofer>

    constructor ()
      ensures micros == map[] && chicos == map[] && choferes == map[]
      ensures Valid()
    {
      micros, chicos, choferes := map[], map[], map[];
    }

    /** Every invariant except the capacity bound. */
    ghost predicate Sound()
      reads this
    {
      Structural(micros, chicos, choferes)
    }

    ghost predicate Valid()
      reads this
    {
      Consistent(micros, chicos, choferes)
    }
  }

  // ----------------------------------------------------- occupancy lemmas

  /** A vehicle is empty exactly when no child names it. */
  lemma OccupancyZeroIff(chicos: map<string, Chico>, patente: string)
    ensures Occupancy(chicos, patente) == 0 <==> forall k :: k in chicos ==> chicos[k].microId != Some(patente)
  {
    if exists k :: k in chicos && chicos[k].microId == Some(patente) {
      var k :| k in chicos && chicos[k].microId == Some(patente);
      assert k in ChildrenOf(chicos, patente);
    } else {
      assert ChildrenOf(chicos, patente) == {};
    }
  }

  /** With every child's link resolving, a plate not in the store has no
      children. */
  lemma UnknownVehicleIsEmpty(micros: map<string, Micro>, chicos: map<string, Chico>, patente: string)
    requires ChildLinksResolve(micros, chicos)
    requires patente !in micros
    ensures Occupancy(chicos, patente) == 0
  {
    OccupancyZeroIff(chicos, patente);
  }

  /** Replacing a child's record by one with the same link changes no
      vehicle's occupancy. */
  lemma OccupancyKeepsWithSameLink(chicos: map<string, Chico>, k: string, c: Chico, patente: string)
    requires k in chicos && c.microId == chicos[k].microId
    ensures Occupancy(chicos[k := c], patente) == Occupancy(chicos, patente)
  {
    assert ChildrenOf(chicos[k := c], patente) == ChildrenOf(chicos, patente);
  }

  /** Adding an unassigned child changes no vehicle's occupancy. */
  lemma OccupancyKeepsWithNewChild(chicos: map<string, Chico>, k: string, c: Chico, patente: string)
    requires k !in chicos && c.microId == None
    ensures Occupancy(chicos[k := c], patente) == Occupancy(chicos, patente)
  {
    assert ChildrenOf(chicos[k := c], patente) == ChildrenOf(chicos, patente);
  }

  /** Removing an unassigned child changes no vehicle's occupancy. */
  lemma OccupancyKeepsWithoutChild(chicos: map<string, Chico>, k: string, patente: string)
    requires k in chicos && chicos[k].microId == None
    ensures Occupancy(chicos - {k}, patente) == Occupancy(chicos, patente)
  {
    assert ChildrenOf(chicos - {k}, patente) == ChildrenOf(chicos, patente);
  }

  /** Linking an unassigned child to `target` adds exactly one to the
      occupancy of `target` and leaves every other vehicle's as it was. */
  lemma OccupancyAfterLink(chicos: map<string, Chico>, k: string, target: string, patente: string)
    requires k in chicos && chicos[k].microId == None
    ensures var after := chicos[k := chicos[k].(microId := Some(target))];
      Occupancy(after, patente) == if patente == target then Occupancy(chicos, patente) + 1 else Occupancy(chicos, patente)
  {
    var after := chicos[k := chicos[k].(microId := Some(target))];
    if patente == target {
      assert ChildrenOf(after, patente) == ChildrenOf(chicos, patente) + {k};
    } else {
      assert ChildrenOf(after, patente) == ChildrenOf(chicos, patente);
    }
  }

  /** Unlinking a child from `source` takes exactly one from the occupancy of
      `source` and leaves every other vehicle's as it was. */
  lemma OccupancyAfterUnlink(chicos: map<string, Chico>, k: string, patente: string)
    requires k in chicos && chicos[k].microId.Some?
    ensures var source := chicos[k].microId.value;
      var after := chicos[k := chicos[k].(microId := None)];
      Occupancy(after, patente) == if patente == source then Occupancy(chicos, patente) - 1 else Occupancy(chicos, patente)
  {
    var source := chicos[k].microId.value;
    var after := chicos[k := chicos[k].(microId := None)];
    if patente == source {
      assert ChildrenOf(chicos, patente) == ChildrenOf(after, patente) + {k};
    } else {
      assert ChildrenOf(after, patente) == ChildrenOf(chicos, patente);
    }
  }

  /** Distinct keys hold distinct children, so listing the records of a set
      of keys loses none of them. */
  lemma {:induction false} RecordsOfCount(chicos: map<string, Chico>, ks: set<string>)
    requires forall k :: k in chicos ==> chicos[k].dni == k
    requires ks <= chicos.Keys
    ensures |RecordsOf(chicos, ks)| == |ks|
    decreases ks
  {
    if ks != {} {
      var k :| k in ks;
      RecordsOfCount(chicos, ks - {k});
      assert RecordsOf(chicos, ks) == RecordsOf(chicos, ks - {k}) + {chicos[k]};
      assert chicos[k] !in RecordsOf(chicos, ks - {k});
    }
  }

  /** A vehicle has at most one driver: two drivers naming the same vehicle
      are the same driver. */
  lemma DriverOfVehicleIsUnique(micros: map<string, Micro>, choferes: map<string, Chofer>, d1: string, d2: string)
    requires DriverLinksMutual(micros, choferes)
    requires d1 in choferes && d2 in choferes
    requires choferes[d1].microId.Some? && choferes[d1].microId == choferes[d2].microId
    ensures d1 == d2
  {
    var p := choferes[d1].microId.value;
    assert micros[p].choferId == Some(d1) && micros[p].choferId == Some(d2);
  }

  // ------------------------------------------- invariants across the writes

  /** Rewriting one vehicle's capacity keeps the bound exactly when the new
      capacity still covers that vehicle's occupancy. */
  lemma CapacityAfterMicroWrite(micros: map<string, Micro>, chicos: map<string, Chico>, key: string, m: Micro)
    requires CapacityRespected(micros, chicos) && key in micros
    ensures CapacityRespected(micros[key := m], chicos) <==> Occupancy(chicos, key) <= m.capacidad
  {
    if !(Occupancy(chicos, key) <= m.capacidad) {
      assert key in micros[key := m] && !(Occupancy(chicos, key) <= micros[key := m][key].capacidad);
    }
  }

  /** Creating a vehicle: a fresh plate, a stored record, no driver yet. */
  lemma StructuralAfterMicroCreate(micros: map<string, Micro>, chicos: map<string, Chico>, choferes: map<string, Chofer>,
                                   key: string, m: Micro)
    requires Structural(micros, chicos, choferes)
    requires key !in micros && m.patente == key && MicroStored(m) && m.choferId == None
    ensures Structural(micros[key := m], chicos, choferes)
    ensures CapacityRespected(micros, chicos) ==> CapacityRespected(micros[key := m], chicos)
  {
    UnknownVehicleIsEmpty(micros, chicos, key);
  }

  /** Rewriting a vehicle's own fields, keeping its plate and its driver. */
  lemma StructuralAfterMicroWrite(micros: map<string, Micro>, chicos: map<string, Chico>, choferes: map<string, Chofer>,
                                  key: string, m: Micro)
    requires Structural(micros, chicos, choferes)
    requires key in micros && m.patente == key && MicroStored(m) && m.choferId == micros[key].choferId
    ensures Structural(micros[key := m], chicos, choferes)
  {
  }

  /** Deleting an empty vehicle after clearing its driver's link. */
  lemma StructuralAfterMicroDelete(micros: map<string, Micro>, chicos: map<string, Chico>, choferes: map<string, Chofer>,
                                   key: string)
    requires Structural(micros, chicos, choferes)
    requires key in micros && Occupancy(chicos, key) == 0
    ensures var driver := micros[key].choferId;
      var choferes' := if driver.Some? then ClearChoferLink(choferes, driver.value) else choferes;
      && Structural(micros - {key}, chicos, choferes')
      && forall d :: d in choferes' ==> choferes'[d].microId != Some(key)
    ensures CapacityRespected(micros, chicos) ==> CapacityRespected(micros - {key}, chicos)
  {
    OccupancyZeroIff(chicos, key);
    var driver := micros[key].choferId;
    var choferes' := if driver.Some? then ClearChoferLink(choferes, driver.value) else choferes;
    forall d | d in choferes' && choferes'[d].microId.Some?
      ensures choferes'[d].microId.value in micros - {key}
      ensures (micros - {key})[choferes'[d].microId.value].choferId == Some(d)
    {
      assert choferes'[d] == choferes[d];
    }
  }

  /** Linking a driver-free vehicle and a vehicle-free driver to each other. */
  lemma StructuralAfterDriverLink(micros: map<string, Micro>, chicos: map<string, Chico>, choferes: map<string, Chofer>,
                                  key: string, dni: string)
    requires Structural(micros, chicos, choferes)
    requires key in micros && micros[key].choferId == None
    requires dni in choferes && choferes[dni].microId == None
    ensures var micros' := micros[key := micros[key].(choferId := Some(dni))];
      var choferes' := choferes[dni := choferes[dni].(microId := Some(key))];
      && Structural(micros', chicos, choferes')
      && (CapacityRespected(micros, chicos) ==> CapacityRespected(micros', chicos))
  {
  }

  /** Unlinking a linked driver and vehicle on both sides. */
  lemma StructuralAfterDriverUnlink(micros: map<string, Micro>, chicos: map<string, Chico>, choferes: map<string, Chofer>,
                                    key: string, dni: string)
    requires Structural(micros, chicos, choferes)
    requires key in micros && micros[key].choferId == Some(dni)
    ensures dni in choferes && choferes[dni].microId == Some(key)
    ensures var micros' := micros[key := micros[key].(choferId := None)];
      var choferes' := choferes[dni := choferes[dni].(microId := None)];
      && Structural(micros', chicos, choferes')
      && (CapacityRespected(micros, chicos) ==> CapacityRespected(micros', chicos))
  {
  }

  /** Creating a driver: a fresh DNI, a stored record, no vehicle yet. */
  lemma StructuralAfterChoferCreate(micros: map<string, Micro>, chicos: map<string, Chico>, choferes: map<string, Chofer>,
                                    dni: string, c: Chofer)
    requires Structural(micros, chicos, choferes)
    requires dni !in choferes && c.dni == dni && ChoferStored(c) && c.microId == None
    ensures Structural(micros, chicos, choferes[dni := c])
  {
  }

  /** Rewriting a driver's own fields, keeping its DNI and its vehicle. */
  lemma StructuralAfterChoferWrite(micros: map<string, Micro>, chicos: map<string, Chico>, choferes: map<string, Chofer>,
                                   dni: string, c: Chofer)
    requires Structural(micros, chicos, choferes)
    requires dni in choferes && c.dni == dni && ChoferStored(c) && c.microId == choferes[dni].microId
    ensures Structural(micros, chicos, choferes[dni := c])
  {
  }

  /** Deleting a driver after clearing its vehicle's link. */
  lemma StructuralAfterChoferDelete(micros: map<string, Micro>, chicos: map<string, Chico>, choferes: map<string, Chofer>,
                                    dni: string)
    requires Structural(micros, chicos, choferes)
    requires dni in choferes
    ensures var link := choferes[dni].microId;
      var micros' := if link.Some? then ClearMicroLink(micros, link.value) else micros;
      && Structural(micros', chicos, choferes - {dni})
      && (forall p :: p in micros' ==> micros'[p].choferId != Some(dni))
      && (CapacityRespected(micros, chicos) ==> CapacityRespected(micros', chicos))
  {
    var link := choferes[dni].microId;
    var micros' := if link.Some? then ClearMicroLink(micros, link.value) else micros;
    forall p | p in micros' && micros'[p].choferId.Some?
      ensures micros'[p].choferId.value in choferes - {dni}
      ensures (choferes - {dni})[micros'[p].choferId.value].microId == Some(p)
    {
      assert micros'[p] == micros[p];
    }
  }

  /** Creating a child: a fresh DNI, a stored record, no vehicle yet. */
  lemma StructuralAfterChicoCreate(micros: map<string, Micro>, chicos: map<string, Chico>, choferes: map<string, Chofer>,
                                   dni: string, c: Chico)
    requires Structural(micros, chicos, choferes)
    requires dni !in chicos && c.dni == dni && ChicoStored(c) && c.microId == None
    ensures Structural(micros, chicos[dni := c], choferes)
    ensures CapacityRespected(micros, chicos) ==> CapacityRespected(micros, chicos[dni := c])
  {
    forall p | p in micros
      ensures Occupancy(chicos[dni := c], p) == Occupancy(chicos, p)
    {
      OccupancyKeepsWithNewChild(chicos, dni, c, p);
    }
  }

  /** Rewriting a child's own fields, keeping its DNI and its vehicle. */
  lemma StructuralAfterChicoWrite(micros: map<string, Micro>, chicos: map<string, Chico>, choferes: map<string, Chofer>,
                                  dni: string, c: Chico)
    requires Structural(micros, chicos, choferes)
    requires dni in chicos && c.dni == dni && ChicoStored(c) && c.microId == chicos[dni].microId
    ensures Structural(micros, chicos[dni := c], choferes)
    ensures CapacityRespected(micros, chicos) ==> CapacityRespected(micros, chicos[dni := c])
  {
    forall p | p in micros
      ensures Occupancy(chicos[dni := c], p) == Occupancy(chicos, p)
    {
      OccupancyKeepsWithSameLink(chicos, dni, c, p);
    }
  }

  /** Deleting an unassigned child. */
  lemma StructuralAfterChicoDelete(micros: map<string, Micro>, chicos: map<string, Chico>, choferes: map<string, Chofer>,
                                   dni: string)
    requires Structural(micros, chicos, choferes)
    requires dni in chicos && chicos[dni].microId == None
    ensures Structural(micros, chicos - {dni}, choferes)
    ensures CapacityRespected(micros, chicos) ==> CapacityRespected(micros, chicos - {dni})
  {
    forall p | p in micros
      ensures Occupancy(chicos - {dni}, p) == Occupancy(chicos, p)
    {
      OccupancyKeepsWithoutChild(chicos, dni, p);
    }
  }

  /** Linking an unassigned child to a vehicle with a free seat. */
  lemma StructuralAfterChildLink(micros: map<string, Micro>, chicos: map<string, Chico>, choferes: map<string, Chofer>,
                                 dni: string, key: string)
    requires Structural(micros, chicos, choferes)
    requires dni in chicos && chicos[dni].microId == None
    requires key in micros && Occupancy(chicos, key) < micros[key].capacidad
    ensures var chicos' := chicos[dni := chicos[dni].(microId := Some(key))];
      && Structural(micros, chicos', choferes)
      && Occupancy(chicos', key) == Occupancy(chicos, key) + 1 <= micros[key].capacidad
      && (CapacityRespected(micros, chicos) ==> CapacityRespected(micros, chicos'))
  {
    var chicos' := chicos[dni := chicos[dni].(microId := Some(key))];
    forall p | p in micros
      ensures Occupancy(chicos', p) == if p == key then Occupancy(chicos, p) + 1 else Occupancy(chicos, p)
    {
      OccupancyAfterLink(chicos, dni, key, p);
    }
  }

  /** Unlinking an assigned child. */
  lemma StructuralAfterChildUnlink(micros: map<string, Micro>, chicos: map<string, Chico>, choferes: map<string, Chofer>,
                                   dni: string)
    requires Structural(micros, chicos, choferes)
    requires dni in chicos && chicos[dni].microId.Some?
    ensures var chicos' := chicos[dni := chicos[dni].(microId := None)];
      && Structural(micros, chicos', choferes)
      && (CapacityRespected(micros, chicos) ==> CapacityRespected(micros, chicos'))
  {
    var chicos' := chicos[dni := chicos[dni].(microId := None)];
    forall p | p in micros
      ensures Occupancy(chicos', p) <= Occupancy(chicos, p)
    {
      OccupancyAfterUnlink(chicos, dni, p);
    }
  }
}
