# School-bus roster engine in Dafny

This project models the backend core of a school-bus roster. Three kinds of
record are kept in a store:

- vehicles (`Micro`), keyed by plate (`patente`);
- children (`Chico`), keyed by DNI;
- drivers (`Chofer`), keyed by DNI.

Three services create, update and delete these records. They keep two
relationships:

- a child rides at most one vehicle, and no vehicle carries more children than
  its capacity;
- a driver and a vehicle are linked one-to-one, with the link held on both
  sides (`chofer.microId`, `micro.choferId`).

The model also covers the record schemas (setters, defaults, bounds) and the
request validators that guard the routes.

## Layout

| file | module | models |
|---|---|---|
| `text.dfy` | `Text` | the `trim` and `uppercase` normalisations (ASCII) |
| `outcomes.dfy` | `Outcomes` | `Option`, `Result` and the error kinds, one per message the services throw |
| `models.dfy` | `Models` | the three record schemas and the create/update request shapes |
| `validation.dfy` | `Validation` | the express-validator chains of `validation.ts` |
| `store.dfy` | `Store` | the store (`class Db`, three maps), occupancy and the invariants |
| `micro_service.dfy` | `MicroService` | `MicroService.ts` |
| `chico_service.dfy` | `ChicoService` | `ChicoService.ts` |
| `chofer_service.dfy` | `ChoferService` | `ChoferService.ts` |
| `properties.dfy` | `Properties` | properties that span several service calls |

**Store and links.** The store is a `class Db` with one `map` per record kind,
keyed by business key. Each service operation is a module-level method with
`modifies db`. A link stores the business key of the record it points at:

- a child's or driver's `microId` holds a plate;
- a vehicle's `choferId` holds a DNI.

The request types carry no key and no link, so an update changes neither, and
keys identify records as well as the document ids do.

**Key lookups.** The schema library casts query filters through the schema
setters. So a plate is looked up as `TrimUpper(patente)` and a DNI as
`Trim(dni)`. This holds for the unnormalised `microPatente` of the child route
too.

**Occupancy.** Occupancy is never stored. `Store.Occupancy` recounts the
children whose link names the vehicle.

**Invariants.** `Db.Sound()` holds four facts:

- every record is filed under its own key;
- every record is in its stored (normalised, schema-valid) form;
- every child's link resolves to a vehicle;
- the driver-vehicle links are mutual.

`Db.Valid()` adds the capacity bound. Every service method has no
precondition. Each one states its whole new state on every path, and proves
`old(db.Sound()) ==> db.Sound()` and `old(db.Valid()) ==> db.Valid()`. The
only exception is `MicroService.Update`, covered under "## Findings".

**Validation.** Schema validation (on `save`, and `runValidators` on update)
rejects a record with `ValidationFailed`. It is an error path, not a
precondition. On update it runs before the lookup.

## Model

| member | source | states |
|---|---|---|
| `MicroService.FindByPatente` | backend/src/services/MicroService.ts:12-14 | finds the vehicle exactly when the normalised plate is a key; the record found is the one filed there and carries that plate |
| `MicroService.Create` | backend/src/services/MicroService.ts:16-24 | a plate already present fails "Patente already exists" and changes nothing; a record the schema rejects fails and changes nothing; otherwise exactly one vehicle, with no driver, is added; invariants kept |
| `MicroService.Update` | backend/src/services/MicroService.ts:26-45 | validators, then "Micro not found"; otherwise the merged record is written first, and the capacity error is raised only when occupancy exceeds the new capacity (occupancy equal to capacity is accepted); on a valid store the result is valid exactly when that error is not raised |
| `MicroService.UpdateChecked` | backend/src/services/MicroService.ts:26-45 | the same update with the capacity check before the write: every error leaves the store unchanged and the capacity bound is kept |
| `MicroService.Delete` | backend/src/services/MicroService.ts:47-63 | unknown plate fails; a vehicle with any child fails "Cannot delete micro with assigned students" and changes nothing; otherwise only its driver's link is cleared and only that vehicle is removed, so no driver names it |
| `MicroService.AssignChofer` | backend/src/services/MicroService.ts:65-89 | errors in the order vehicle missing, vehicle has a driver, driver missing, driver assigned elsewhere, each changing nothing; success links both sides and keeps the one-to-one invariant |
| `MicroService.RemoveChofer` | backend/src/services/MicroService.ts:91-105 | fails on a missing vehicle or one without a driver; success clears the vehicle's `choferId` and the former driver's `microId` |
| `MicroService.GetChicos` | backend/src/services/MicroService.ts:107-114 | unknown plate fails "Micro not found"; otherwise the result holds exactly the stored children whose link names the vehicle, and there are as many as the vehicle's occupancy |
| `ChicoService.FindByDni` | backend/src/services/ChicoService.ts:11-13 | finds the child exactly when the trimmed DNI is a key |
| `ChicoService.Create` | backend/src/services/ChicoService.ts:15-23 | a duplicate DNI fails "DNI already exists" and changes nothing; a record the schema rejects fails; otherwise exactly one unassigned child is added |
| `ChicoService.Update` | backend/src/services/ChicoService.ts:25-37 | validators, then "Chico not found"; otherwise only the supplied fields of that one child change, and its link is kept |
| `ChicoService.Delete` | backend/src/services/ChicoService.ts:39-50 | unknown DNI fails; otherwise an assigned child is first unassigned through `RemoveFromMicro`, then that child alone is removed |
| `ChicoService.AssignToMicro` | backend/src/services/ChicoService.ts:52-74 | errors in the order child missing, child assigned, vehicle missing, occupancy at or above capacity; success changes only that child's link, adds exactly one to that vehicle's occupancy, which stays within capacity, and leaves every other occupancy as it was |
| `ChicoService.RemoveFromMicro` | backend/src/services/ChicoService.ts:76-88 | fails on a missing or unassigned child; success clears the link and takes exactly one from the former vehicle's occupancy |
| `ChoferService.FindByDni` | backend/src/services/ChoferService.ts:10-12 | finds the driver exactly when the trimmed DNI is a key |
| `ChoferService.Create` | backend/src/services/ChoferService.ts:14-22 | a duplicate DNI fails "DNI already exists" and changes nothing; otherwise exactly one driver with no vehicle is added |
| `ChoferService.Update` | backend/src/services/ChoferService.ts:24-36 | validators, then "Chofer not found"; otherwise only the supplied fields change and the link is kept |
| `ChoferService.Delete` | backend/src/services/ChoferService.ts:38-49 | unknown DNI fails; otherwise the linked vehicle's `choferId` is cleared and then the driver alone is removed, so no vehicle names the deleted driver |
| `ChoferService.AssignToMicro` | backend/src/services/ChoferService.ts:51-75 | errors in the order driver missing, driver assigned, vehicle missing, vehicle has a driver; success sets both sides to point at each other; invariants kept |
| `ChoferService.RemoveFromMicro` | backend/src/services/ChoferService.ts:77-91 | fails on an unknown or unassigned driver; success clears the vehicle's `choferId` and the driver's `microId`; invariants kept |
| `Properties.ChildAssignThenRemove` | backend/src/services/ChicoService.ts:52-88 | an assignment followed by the removal gives back the store exactly, and the removal returns the original child |
| `Properties.ChildAssignTwice` | backend/src/services/ChicoService.ts:58-60 | after a successful assignment a second one, to any vehicle, fails "Chico already assigned to a micro" |
| `Properties.DriverLinkByMicroUnlinkByChofer` | backend/src/services/ChoferService.ts:77-91 | a link made by `assignChofer` and undone by the driver side's `removeFromMicro` gives back the store exactly |
| `Properties.DriverLinkByChoferUnlinkByMicro` | backend/src/services/MicroService.ts:91-105 | a link made by the driver side and undone by `removeChofer` gives back the store exactly |
| `Properties.AssignPathsDisagree` | backend/src/services/ChoferService.ts:51-68 | with a driven vehicle and an unknown driver, the vehicle side reports "Micro already has a chofer assigned" and the driver side "Chofer not found" |
| `Properties.DriverHandover` | backend/src/services/MicroService.ts:65-105 | unlinking a vehicle's driver and linking a free one succeeds; the new pair is linked both ways and the old driver has no vehicle |
| `Properties.CapacityErrorAfterWrite` | backend/src/services/MicroService.ts:26-42 | on 11 children in a vehicle of capacity 12, lowering the capacity to 10 is refused by both; as written the store then holds capacity 10 with occupancy 11 and is no longer `Valid()`, the corrected store is unchanged and stays `Valid()` |
| `Store.ChildrenOf` | backend/src/services/MicroService.ts:113 | the query `{ microId: micro._id }`: the keys of exactly the stored children whose link names the vehicle |
| `Store.Occupancy` | backend/src/services/MicroService.ts:38 | `Chico.countDocuments({ microId })`, also at MicroService.ts:53 and ChicoService.ts:67: the number of children whose link names the vehicle; never stored |
| `Store.OccupancyAtMostChildren` | backend/src/services/ChicoService.ts:67 | a vehicle's occupancy is never more than the number of children in the store |
| `Store.ClearChoferLink` | backend/src/services/MicroService.ts:59 | `Chofer.findByIdAndUpdate(id, { microId: null })`, also at MicroService.ts:101: that driver's link becomes none, and nothing changes when the id names no driver |
| `Store.ClearChoferLinkFrame` | backend/src/services/MicroService.ts:101 | clearing a driver's link keeps every driver, sets that driver's `microId` to none and changes no other driver |
| `Store.ClearMicroLink` | backend/src/services/ChoferService.ts:45 | `Micro.findByIdAndUpdate(id, { choferId: undefined })`, also at ChoferService.ts:87, read as clearing the link (see "## Left out"), and nothing changes when the id names no vehicle |
| `Store.ClearMicroLinkFrame` | backend/src/services/ChoferService.ts:87 | clearing a vehicle's link keeps every vehicle, sets that vehicle's `choferId` to none and changes no other vehicle |
| `Store.Db.Sound` | backend/src/services/MicroService.ts:65-89 | the invariants the service guards keep, capacity aside: every record is filed under its own key and is in stored form, every child's link names an existing vehicle, and a driver names a vehicle exactly when that vehicle names the driver |
| `Store.Db.Valid` | backend/src/services/ChicoService.ts:67-70 | `Sound()` plus the bound that the capacity guard protects: no vehicle's occupancy exceeds its capacity |
| `Store.OccupancyZeroIff` | backend/src/services/MicroService.ts:53-56 | a vehicle's occupancy is 0 exactly when no child's link names it |
| `Store.OccupancyAfterLink` | backend/src/services/ChicoService.ts:67-73 | linking an unassigned child adds one to the target's occupancy and leaves every other vehicle's unchanged |
| `Store.OccupancyAfterUnlink` | backend/src/services/ChicoService.ts:86-87 | unlinking a child takes one from its former vehicle's occupancy and leaves every other vehicle's unchanged |
| `Store.RecordsOfCount` | backend/src/services/MicroService.ts:113 | listing the records of a set of keys loses none of them: as many records as keys |
| `Store.DriverOfVehicleIsUnique` | backend/src/services/MicroService.ts:71-73 | under mutual links, two drivers naming the same vehicle are the same driver |
| `Store.CapacityAfterMicroWrite` | backend/src/services/MicroService.ts:27-42 | rewriting a vehicle keeps the capacity bound exactly when the new capacity covers its occupancy |
| `Store.StructuralAfterMicroDelete` | backend/src/services/MicroService.ts:58-62 | deleting an empty vehicle after clearing its driver's link keeps every invariant and leaves no driver naming it |
| `Store.StructuralAfterChoferDelete` | backend/src/services/ChoferService.ts:44-48 | deleting a driver after clearing its vehicle's link keeps every invariant and leaves no vehicle naming it |
| `Store.StructuralAfterDriverLink` | backend/src/services/ChoferService.ts:70-74 | linking a free driver and a free vehicle keeps the mutual-link invariant |
| `Store.StructuralAfterDriverUnlink` | backend/src/services/ChoferService.ts:87-90 | unlinking a linked pair on both sides keeps the mutual-link invariant |
| `Store.StructuralAfterChildLink` | backend/src/services/ChicoService.ts:67-73 | linking a child to a vehicle with a free seat keeps every invariant, including the capacity bound |
| `Models.NewMicro` | backend/src/models/Micro.ts:10-33 | a new vehicle has no driver, a trimmed upper-cased plate and a trimmed model; it is schema-valid exactly when plate and model are non-empty after trim and capacity is in [10, 50] |
| `Models.ApplyMicroUpdate` | backend/src/models/dtos/MicroDto.ts:7-10 | a partial update replaces exactly the supplied fields (through their setters), keeps plate and driver, and keeps a stored record stored when the update is valid |
| `Models.ApplyMicroUpdateIdempotent` | backend/src/models/dtos/MicroDto.ts:7-10 | applying the same partial update twice gives the same record as once |
| `Models.NewChico` | backend/src/models/Chico.ts:11-38 | a new child is unassigned with trimmed DNI and names; it is schema-valid exactly when those are non-empty after trim and age is in [3, 18] |
| `Models.ApplyChicoUpdate` | backend/src/models/dtos/ChicoDto.ts:8-12 | only the supplied fields change; DNI and link are kept; stored form is kept by a valid update |
| `Models.ApplyChicoUpdateIdempotent` | backend/src/models/dtos/ChicoDto.ts:8-12 | applying the same partial update twice gives the same record as once |
| `Models.NewChofer` | backend/src/models/Chofer.ts:11-38 | a new driver has no vehicle, trimmed DNI and names and a trimmed upper-cased licence; schema-valid exactly when all four are non-empty after trim |
| `Models.ApplyChoferUpdate` | backend/src/models/dtos/ChoferDto.ts:8-12 | only the supplied fields change; the licence goes through its setters; DNI and link are kept |
| `Models.ApplyChoferUpdateIdempotent` | backend/src/models/dtos/ChoferDto.ts:8-12 | applying the same partial update twice gives the same record as once |
| `Models.MicroUpdateValid` | backend/src/services/MicroService.ts:30 | `runValidators: true` on a vehicle update: each supplied field meets its schema rule (Micro.ts:18-28), the model non-empty after trim and the capacity in [10, 50] |
| `Models.MicroUpdateValidIff` | backend/src/models/Micro.ts:18-28 | on a schema-valid vehicle, the update validators accept exactly the updates whose result is still schema-valid |
| `Models.ChicoUpdateValid` | backend/src/services/ChicoService.ts:29 | `runValidators: true` on a child update: each supplied field meets its schema rule (Chico.ts:18-33), names non-empty after trim and age in [3, 18] |
| `Models.ChicoUpdateValidIff` | backend/src/models/Chico.ts:18-33 | on a schema-valid child, the update validators accept exactly the updates whose result is still schema-valid |
| `Models.ChoferUpdateValid` | backend/src/services/ChoferService.ts:28 | `runValidators: true` on a driver update: each supplied field meets its schema rule (Chofer.ts:18-33), names and licence non-empty after trim |
| `Models.ChoferUpdateValidIff` | backend/src/models/Chofer.ts:18-33 | on a schema-valid driver, the update validators accept exactly the updates whose result is still schema-valid |
| `Models.TrimUpper` | backend/src/models/Micro.ts:15-16 | the plate setter's result has no surrounding whitespace and no lower-case letter |
| `Models.TrimUpperIdempotent` | backend/src/models/Micro.ts:15-16 | running the plate setter on a stored plate changes nothing |
| `Models.StoredFormsAreFixpoints` | backend/src/models/Chofer.ts:28-33 | a value is in stored form exactly when the setters leave it unchanged |
| `Text.Trim` | backend/src/models/Chico.ts:12-17 | the trimmed value has no whitespace at either end and is no longer than the input |
| `Text.TrimStartIsSuffix` | backend/src/middleware/validation.ts:8-11 | trimming the start removes exactly a leading run of whitespace |
| `Text.TrimEndIsPrefix` | backend/src/middleware/validation.ts:8-11 | trimming the end removes exactly a trailing run of whitespace |
| `Text.TrimIdempotent` | backend/src/models/Chico.ts:12-17 | trimming twice is trimming once |
| `Text.TrimCommutesWithUpper` | backend/src/models/Micro.ts:15-16 | the order of the `trim` and `uppercase` setters does not matter |
| `Text.ToUpper` | backend/src/models/Micro.ts:16 | the `uppercase` setter, also at Chofer.ts:32: same length, no lower-case letter left, each character upper-cased in place |
| `Validation.DniErrors` | backend/src/middleware/validation.ts:4-7 | no error exactly when the DNI has 7-8 characters and is numeric; the default message reports the length, "DNI must be 7-8 digits" the digits |
| `Validation.PatenteErrors` | backend/src/middleware/validation.ts:22-26 | no error exactly when the trimmed plate has 6-7 characters and matches the pattern; each check reports its own message |
| `Validation.MatchesPatenteIffInLanguage` | backend/src/middleware/validation.ts:25 | the matcher accepts exactly three capital letters followed by three or four digits |
| `Validation.PatenteLengthFollowsFromPattern` | backend/src/middleware/validation.ts:24-25 | whatever the pattern accepts has 6 or 7 characters, so the length check never rejects on its own |
| `Validation.PatenteOkIffPattern` | backend/src/middleware/validation.ts:22-26 | a plate is accepted exactly when its trimmed text matches the pattern |
| `Validation.AcceptedPatenteIsStoredForm` | backend/src/middleware/validation.ts:63-67 | an accepted plate, as the controller upper-cases it, is already the stored form the lookup uses |
| `Validation.NatText` | backend/src/middleware/validation.ts:16-18 | the decimal text of a number is numeric and reads back as that number |
| `Validation.IntText` | backend/src/middleware/validation.ts:31-33 | the text of an integer is an integer literal that reads back as that integer |
| `Validation.EdadAcceptedIff` | backend/src/middleware/validation.ts:16-18 | an integer age is accepted exactly when it lies in the schema's [3, 18] |
| `Validation.CapacidadAcceptedIff` | backend/src/middleware/validation.ts:31-33 | an integer capacity is accepted exactly when it lies in the schema's [10, 50] |
| `Validation.ValidateChico` | backend/src/middleware/validation.ts:3-19 | no error exactly when DNI, names and age all pass; each field's message appears exactly when its check fails |
| `Validation.ValidateMicro` | backend/src/middleware/validation.ts:21-34 | no error exactly when plate, model and capacity all pass; model and capacity messages appear exactly when those checks fail |
| `Validation.ValidateChofer` | backend/src/middleware/validation.ts:36-53 | no error exactly when DNI, names and licence all pass; each field's message appears exactly when its check fails |
| `Validation.ValidateDni` | backend/src/middleware/validation.ts:55-60 | the route parameter passes exactly when the body field would |
| `Validation.ValidatePatente` | backend/src/middleware/validation.ts:62-68 | the route parameter passes exactly when its trimmed text is in the pattern's language |

## Left out

- The Angular front end, the front end's HTTP services, the Express controllers and routes, `app.ts` and the error-to-status mapping. These are transport and view code. Service failures are the `Error` datatype instead.
- `findAll` in each service. It returns every record, joined with `populate`, and is not part of the relationship logic.
- `populate` joins, `timestamps` and document ids. Records are keyed by business key and links hold keys.
- Async execution, concurrency and non-atomic writes. Each method is one sequential step, so the count-then-write race in `assignToMicro` and the two separate saves of a driver link are not modelled.
- The unique indexes. The explicit duplicate-key lookups before creation enforce uniqueness in a sequential model.
- ChoferService.Delete, ChoferService.RemoveFromMicro: clearing the vehicle's link with `{ choferId: undefined }` (`backend/src/services/ChoferService.ts:45`, `:87`) is modelled as setting it to none, like `null`. What `undefined` does in an update is the schema library's behaviour. If the library drops undefined keys from an update, those two clears do nothing. The vehicle then keeps naming a deleted or unlinked driver, and the mutual-link invariant fails. `ChoferService.Delete`'s guarantee that no vehicle names the deleted driver, and the `Sound()` preservation of both methods, rest on this reading.
- Validation: `isNumeric` is modelled as one or more decimal digits. The library also admits a sign and a decimal point.
- Validation: `trim` strips ASCII whitespace only, and `uppercase` maps ASCII letters only. Unicode whitespace and case mappings are not modelled.
- Validation: numeric body fields are checked as text, and an integer reaches the check as `IntText(n)`. Non-integer JSON numbers (an age of 7.5, say) and non-numeric JSON values are not modelled.
- Validation: the sanitised value the validators hand on (the trimmed body) is not modelled; the schema setters trim again regardless.
- The `if (microData.capacidad)` guard in `update` also skips a capacity of 0. The update validators already reject 0 (the minimum is 10), so the model's ensures states the guard for every capacity that passes validation.
- The schema refuses any capacity below 10 (`backend/src/models/Micro.ts:23-28`), so a create or update with such a capacity fails `ValidationFailed`; no store holds a vehicle of smaller capacity.
- MicroService.Create, MicroService.Update, ChicoService.Create, ChicoService.Update, ChoferService.Create, ChoferService.Update: the request is the create or update request type, which carries no key and no link. The controllers pass the raw request body on, and the schema library writes every schema path that body carries. So a body with an extra `patente`, `dni`, `choferId` or `microId` would rename a key or set a link without any guard, breaking the mutual-link and capacity invariants. Extra schema fields in a request body are not modelled.

## Findings

| source | as written | input that shows it | evidently intended | confidence | as-written member | corrected member |
|---|---|---|---|---|---|---|
| backend/src/services/MicroService.ts:26-42 | `findOneAndUpdate` writes the new capacity first; the check against occupancy runs afterwards, so the error "Cannot reduce capacity below current student count" is raised but the lowered capacity stays stored | a vehicle of capacity 12 with 11 children, updated with `capacidad: 10` | check the capacity against the occupancy before writing, so a refused update leaves the store unchanged and occupancy never exceeds capacity | not executed | `MicroService.Update` (with `Properties.CapacityErrorAfterWrite`) | `MicroService.UpdateChecked` |
