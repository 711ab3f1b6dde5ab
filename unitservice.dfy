/**
 * The unit service (internal/service/unit.go): Create forwards to the
 * repository with no check, Update and Delete check existence first, and a
 * failed GetAll returns a nil list.
 */
module UnitService {
  import opened Wrappers
  import opened Foreign
  import opened Errx
  import opened CatalogStore
  import Units

  datatype UnitCall = GetAllCall | CreateCall | UpdateCall | DeleteCall | ExistsCall

  function RowOfUnit(u: Units.Unit): UnitRow
  {
    UnitRow(u.isApiece, u.weightUnit, u.value)
  }

  function AllUnits(c: Catalog): set<Units.Unit>
  {
    set id | id in c.units :: ToUnit(id, c.units[id])
  }

  /** GetAll: a failure comes with a nil list. */
  function GetAllSpec(c: Catalog, faults: set<UnitCall>): (Option<set<Units.Unit>>, Option<Error>)
  {
    if GetAllCall in faults then (None, Some(Raw(Unavailable)))
    else (Some(AllUnits(c)), None)
  }

  /** Create */
  function CreateSpec(c: Catalog, unit: Units.Unit, newId: Uuid, faults: set<UnitCall>): (Result<Units.Unit, Error>, Catalog)
  {
    if CreateCall in faults then (Failure(Raw(Unavailable)), c)
    else (Success(unit.(id := newId)), c.(units := c.units[newId := RowOfUnit(unit)]))
  }

  /** Update: the unit is written under the path id. */
  function UpdateSpec(c: Catalog, id: Uuid, unit: Units.Unit, faults: set<UnitCall>): (Result<Units.Unit, Error>, Catalog)
  {
    if ExistsCall in faults then (Failure(Raw(Unavailable)), c)
    else if id !in c.units then (Failure(App(NotFound)), c)
    else if UpdateCall in faults then (Failure(Raw(Unavailable)), c)
    else (Success(unit.(id := id)), c.(units := c.units[id := RowOfUnit(unit)]))
  }

  /** Delete */
  function DeleteSpec(c: Catalog, id: Uuid, faults: set<UnitCall>): (Option<Error>, Catalog)
  {
    if ExistsCall in faults then (Some(Raw(Unavailable)), c)
    else if id !in c.units then (Some(App(NotFound)), c)
    else if DeleteCall in faults then (Some(Raw(Unavailable)), c)
    else (None, c.(units := c.units - {id}))
  }

  /** Create checks nothing: without a fault it always stores the unit; a failed GetAll gives a nil list. */
  lemma CreateAndGetAll(c: Catalog, unit: Units.Unit, newId: Uuid, faults: set<UnitCall>)
    ensures CreateCall !in faults ==> (CreateSpec(c, unit, newId, faults).0 == Success(unit.(id := newId))
      && ToUnit(newId, CreateSpec(c, unit, newId, faults).1.units[newId]) == unit.(id := newId))
    ensures GetAllSpec(c, faults).1.Some? ==> GetAllSpec(c, faults).0.None?
  {
  }

  /** Update and Delete answer 404 for an unknown id and write nothing. */
  lemma UnknownUnitNotFound(c: Catalog, id: Uuid, unit: Units.Unit, faults: set<UnitCall>)
    requires ExistsCall !in faults && id !in c.units
    ensures UpdateSpec(c, id, unit, faults) == (Failure(App(NotFound)), c)
    ensures DeleteSpec(c, id, faults) == (Some(App(NotFound)), c)
  {
  }

  /** A successful Update stores the unit under the path id and leaves the other units as they were. */
  lemma UpdateWritesPathId(c: Catalog, id: Uuid, unit: Units.Unit, faults: set<UnitCall>)
    requires UpdateSpec(c, id, unit, faults).0.Success?
    ensures var (r, c1) := UpdateSpec(c, id, unit, faults);
      r.value.id == id && id in c.units && c1.units.Keys == c.units.Keys
      && ToUnit(id, c1.units[id]) == unit.(id := id)
      && forall k :: k in c.units && k != id ==> c1.units[k] == c.units[k]
  {
  }

  class UnitService {
    const db: CatalogDb

    constructor (db: CatalogDb)
      ensures this.db == db
    {
      this.db := db;
    }

    method GetAll(faults: set<UnitCall>) returns (units: Option<set<Units.Unit>>, err: Option<Error>)
      ensures (units, err) == GetAllSpec(db.State(), faults)
    {
      var all := db.GetAllUnits(GetAllCall in faults);
      if all.Failure? {
        return None, Some(Raw(all.error));
      }
      return Some(all.value), None;
    }

    method Create(unit: Units.Unit, newId: Uuid, faults: set<UnitCall>) returns (r: Result<Units.Unit, Error>)
      requires db.Valid()
      modifies db
      ensures db.Valid()
      ensures (r, db.State()) == CreateSpec(old(db.State()), unit, newId, faults)
    {
      var created := db.CreateUnit(unit, newId, CreateCall in faults);
      if created.Failure? {
        return Failure(Raw(created.error));
      }
      return Success(created.value);
    }

    method Update(id: Uuid, unit: Units.Unit, faults: set<UnitCall>) returns (r: Result<Units.Unit, Error>)
      requires db.Valid()
      modifies db
      ensures db.Valid()
      ensures (r, db.State()) == UpdateSpec(old(db.State()), id, unit, faults)
    {
      var exists_ := db.UnitExists(id, ExistsCall in faults);
      if exists_.Failure? {
        return Failure(Raw(exists_.error));
      }
      if !exists_.value {
        return Failure(App(NotFound));
      }
      var withId := unit.(id := id);
      var updated := db.UpdateUnit(withId, UpdateCall in faults);
      if updated.Failure? {
        return Failure(Raw(updated.error));
      }
      return Success(updated.value);
    }

    method Delete(id: Uuid, faults: set<UnitCall>) returns (err: Option<Error>)
      requires db.Valid()
      modifies db
      ensures db.Valid()
      ensures (err, db.State()) == DeleteSpec(old(db.State()), id, faults)
    {
      var exists_ := db.UnitExists(id, ExistsCall in faults);
      if exists_.Failure? {
        return Some(Raw(exists_.error));
      }
      if !exists_.value {
        return Some(App(NotFound));
      }
      var e := db.DeleteUnit(id, DeleteCall in faults);
      if e.Some? {
        return Some(Raw(e.value));
      }
      return None;
    }
  }
}
