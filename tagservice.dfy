/**
 * The tag service (internal/service/tag.go). Two of its answers differ from
 * the other services: a name clash on Update is reported as 404, and Delete
 * drops the error of the in-use check, going on as if no tea used the tag.
 */
module TagService {
  import opened Wrappers
  import opened Foreign
  import opened Errx
  import opened CatalogStore

  datatype TagCall = GetAllCall | CreateCall | UpdateCall | DeleteCall | ExistsCall | ExistsByNameCall | ExistsByTeasCall

  function AllTags(c: Catalog): set<Tag>
  {
    set id | id in c.tags :: ToTag(id, c.tags[id])
  }

  /** GetAll: a failure comes with an empty, non-nil list. */
  function GetAllSpec(c: Catalog, faults: set<TagCall>): (Option<set<Tag>>, Option<Error>)
  {
    if GetAllCall in faults then (Some({}), Some(Raw(Unavailable)))
    else (Some(AllTags(c)), None)
  }

  /** Create */
  function CreateSpec(c: Catalog, tag: Tag, newId: Uuid, faults: set<TagCall>): (Result<Tag, Error>, Catalog)
  {
    if ExistsByNameCall in faults then (Failure(Raw(Unavailable)), c)
    else if TagNameTaken(c, Nil, tag.name) then (Failure(App(BadRequest)), c)
    else if CreateCall in faults then (Failure(Raw(Unavailable)), c)
    else (Success(tag.(id := newId)), c.(tags := c.tags[newId := TagRow(tag.name, tag.color)]))
  }

  /** Update: a name another tag has is answered with 404. */
  function UpdateSpec(c: Catalog, id: Uuid, tag: Tag, faults: set<TagCall>): (Result<Tag, Error>, Catalog)
  {
    if ExistsCall in faults then (Failure(Raw(Unavailable)), c)
    else if id !in c.tags then (Failure(App(NotFound)), c)
    else if ExistsByNameCall in faults then (Failure(Raw(Unavailable)), c)
    else if TagNameTaken(c, id, tag.name) then (Failure(App(NotFound)), c)
    else if UpdateCall in faults then (Failure(Raw(Unavailable)), c)
    else (Success(tag.(id := id)), c.(tags := c.tags[id := TagRow(tag.name, tag.color)]))
  }

  /** Delete: when ExistsByTeas fails, its false result lets the delete go ahead. */
  function DeleteSpec(c: Catalog, id: Uuid, faults: set<TagCall>): (Option<Error>, Catalog)
  {
    if ExistsCall in faults then (Some(Raw(Unavailable)), c)
    else if id !in c.tags then (Some(App(NotFound)), c)
    else if ExistsByTeasCall !in faults && TagInUse(c, id) then (Some(App(BadRequest)), c)
    else if DeleteCall in faults then (Some(Raw(Unavailable)), c)
    else (None, c.(tags := c.tags - {id}))
  }

  lemma GetAllFailureIsEmpty(c: Catalog, faults: set<TagCall>)
    ensures GetAllSpec(c, faults).1.Some? <==> GetAllCall in faults
    ensures GetAllSpec(c, faults).1.Some? ==> GetAllSpec(c, faults).0 == Some({})
  {
  }

  /** Create refuses a taken name with 400 and writes only after the name check passed. */
  lemma CreateChecksName(c: Catalog, tag: Tag, newId: Uuid, faults: set<TagCall>)
    ensures ExistsByNameCall !in faults && TagNameTaken(c, Nil, tag.name)
      ==> CreateSpec(c, tag, newId, faults) == (Failure(App(BadRequest)), c)
    ensures CreateSpec(c, tag, newId, faults).1 != c ==> !TagNameTaken(c, Nil, tag.name) && CreateCall !in faults
  {
  }

  /**
   * Update answers 404 both for an unknown id, checked first, and for a name
   * another tag has; it writes nothing on either, and on success stores the
   * tag under the path id.
   */
  lemma UpdateChecks(c: Catalog, id: Uuid, tag: Tag, faults: set<TagCall>)
    ensures ExistsCall !in faults && id !in c.tags ==> UpdateSpec(c, id, tag, faults) == (Failure(App(NotFound)), c)
    ensures ExistsCall !in faults && ExistsByNameCall !in faults && id in c.tags && TagNameTaken(c, id, tag.name)
      ==> UpdateSpec(c, id, tag, faults) == (Failure(App(NotFound)), c)
    ensures UpdateSpec(c, id, tag, faults).1 != c ==> id in c.tags && !TagNameTaken(c, id, tag.name)
    ensures var (r, c1) := UpdateSpec(c, id, tag, faults);
      r.Success? ==> r.value == tag.(id := id) && c1.tags.Keys == c.tags.Keys && ToTag(id, c1.tags[id]) == tag.(id := id)
  {
  }

  /** With every check answering, Delete refuses an unknown tag (404) and a tag in use (400) and deletes nothing. */
  lemma DeleteChecks(c: Catalog, id: Uuid, faults: set<TagCall>)
    ensures ExistsCall !in faults && id !in c.tags ==> DeleteSpec(c, id, faults) == (Some(App(NotFound)), c)
    ensures ExistsCall !in faults && ExistsByTeasCall !in faults && id in c.tags && TagInUse(c, id)
      ==> DeleteSpec(c, id, faults) == (Some(App(BadRequest)), c)
    ensures DeleteSpec(c, id, faults).1 != c ==> id in c.tags && (!TagInUse(c, id) || ExistsByTeasCall in faults)
  {
  }

  /**
   * The dropped error: when ExistsByTeas fails, a tag that teas still use is
   * deleted all the same, and their links are left naming a missing tag.
   */
  lemma DeleteIgnoresInUseError(c: Catalog, id: Uuid, faults: set<TagCall>)
    requires id in c.tags && TagInUse(c, id)
    requires ExistsByTeasCall in faults && ExistsCall !in faults && DeleteCall !in faults
    ensures var (err, c1) := DeleteSpec(c, id, faults);
      err.None? && id !in c1.tags && TagInUse(c1, id)
  {
  }

  class TagService {
    const db: CatalogDb

    constructor (db: CatalogDb)
      ensures this.db == db
    {
      this.db := db;
    }

    method GetAll(faults: set<TagCall>) returns (tags: Option<set<Tag>>, err: Option<Error>)
      ensures (tags, err) == GetAllSpec(db.State(), faults)
    {
      var all := db.GetAllTags(GetAllCall in faults);
      if all.Failure? {
        return Some({}), Some(Raw(all.error));
      }
      return Some(all.value), None;
    }

    method Create(tag: Tag, newId: Uuid, faults: set<TagCall>) returns (r: Result<Tag, Error>)
      requires db.Valid()
      modifies db
      ensures db.Valid()
      ensures (r, db.State()) == CreateSpec(old(db.State()), tag, newId, faults)
    {
      var exists_ := db.TagExistsByName(Nil, tag.name, ExistsByNameCall in faults);
      if exists_.Failure? {
        return Failure(Raw(exists_.error));
      }
      if exists_.value {
        return Failure(App(BadRequest));
      }
      var created := db.CreateTag(tag, newId, CreateCall in faults);
      if created.Failure? {
        return Failure(Raw(created.error));
      }
      return Success(created.value);
    }

    method Update(id: Uuid, tag: Tag, faults: set<TagCall>) returns (r: Result<Tag, Error>)
      requires db.Valid()
      modifies db
      ensures db.Valid()
      ensures (r, db.State()) == UpdateSpec(old(db.State()), id, tag, faults)
    {
      var exists_ := db.TagExists(id, ExistsCall in faults);
      if exists_.Failure? {
        return Failure(Raw(exists_.error));
      }
      if !exists_.value {
        return Failure(App(NotFound));
      }
      var existsByName := db.TagExistsByName(id, tag.name, ExistsByNameCall in faults);
      if existsByName.Failure? {
        return Failure(Raw(existsByName.error));
      }
      if existsByName.value {
        return Failure(App(NotFound));
      }
      var withId := tag.(id := id);
      var updated := db.UpdateTag(withId, UpdateCall in faults);
      if updated.Failure? {
        return Failure(Raw(updated.error));
      }
      return Success(updated.value);
    }

    method Delete(id: Uuid, faults: set<TagCall>) returns (err: Option<Error>)
      requires db.Valid()
      modifies db
      ensures db.Valid()
      ensures (err, db.State()) == DeleteSpec(old(db.State()), id, faults)
    {
      var exists_ := db.TagExists(id, ExistsCall in faults);
      if exists_.Failure? {
        return Some(Raw(exists_.error));
      }
      if !exists_.value {
        return Some(App(NotFound));
      }
      var existsByTea, _ := db.ExistsByTeas(id, ExistsByTeasCall in faults);
      if existsByTea {
        return Some(App(BadRequest));
      }
      var e := db.DeleteTag(id, DeleteCall in faults);
      if e.Some? {
        return Some(Raw(e.value));
      }
      return None;
    }
  }
}
