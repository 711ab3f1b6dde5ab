/**
 * The tea service (internal/service/tea.go): the lookups with and without a
 * user, and the writes, each of which checks existence and name clashes
 * before it touches the tables. Each entry point is a method proved equal to
 * a specification function giving the result and the tables afterwards;
 * which repository calls fail is the parameter `faults`.
 */
module TeaService {
  import opened Wrappers
  import opened Foreign
  import opened Errx
  import opened Requests
  import opened CatalogStore
  import opened TagsDelta

  /** The repository calls the tea service makes; GetByTeaIdAgainCall is UpdateTea's second read of the tags. */
  datatype TeaCall =
    | GetByIdCall | GetByIdWithUserCall | CreateCall | DeleteCall | UpdateCall | EvaluateCall
    | ExistsCall | ExistsByNameCall | GetByTeaIdCall | GetByTeaIdAgainCall

  /** GetTeaById */
  function GetTeaByIdSpec(c: Catalog, id: Uuid, userId: Uuid, faults: set<TeaCall>): Result<TeaWithRating, Error>
  {
    var lookupFails := if userId == Nil then GetByIdCall in faults else GetByIdWithUserCall in faults;
    if lookupFails then Failure(Raw(Unavailable))
    else
      match TeaLookup(c, id, if userId == Nil then None else Some(userId))
      case None => Failure(App(NotFound))
      case Some(t) =>
        if GetByTeaIdCall in faults then Failure(Raw(Unavailable))
        else Success(t.(tea := t.tea.(tags := Some(TagsOf(c, id)))))
  }

  /** CreateTea */
  function CreateTeaSpec(c: Catalog, req: TeaRequest, newId: Uuid, faults: set<TeaCall>): (Result<Tea, Error>, Catalog)
  {
    if ExistsByNameCall in faults then (Failure(Raw(Unavailable)), c)
    else if TeaNameTaken(c, Nil, req.name) then (Failure(App(BadRequest)), c)
    else if CreateCall in faults then (Failure(Raw(Unavailable)), c)
    else
      var c1 := InsertTea(c, newId, req);
      if GetByTeaIdCall in faults then (Failure(Raw(Unavailable)), c1)
      else (Success(Tea(newId, RowOf(req), Some(TagsOf(c1, newId)))), c1)
  }

  /** DeleteTea */
  function DeleteTeaSpec(c: Catalog, id: Uuid, faults: set<TeaCall>): (Option<Error>, Catalog)
  {
    if ExistsCall in faults then (Some(Raw(Unavailable)), c)
    else if id !in c.teas then (Some(App(NotFound)), c)
    else if DeleteCall in faults then (Some(Raw(Unavailable)), c)
    else (None, RemoveTea(c, id))
  }

  /**
   * UpdateTea. The tag delta is taken against the tags the join returns; the
   * error of the second tag read is dropped, leaving the Tags slice nil.
   */
  function UpdateTeaSpec(c: Catalog, id: Uuid, req: TeaRequest, faults: set<TeaCall>): (Result<Tea, Error>, Catalog)
  {
    if ExistsCall in faults then (Failure(Raw(Unavailable)), c)
    else if id !in c.teas then (Failure(App(NotFound)), c)
    else if ExistsByNameCall in faults then (Failure(Raw(Unavailable)), c)
    else if TeaNameTaken(c, id, req.name) then (Failure(App(BadRequest)), c)
    else if GetByTeaIdCall in faults || UpdateCall in faults then (Failure(Raw(Unavailable)), c)
    else
      var existed := TagIds(TagsOf(c, id));
      var incoming := set t | t in req.tagIds;
      var c1 := ReplaceTea(c, id, req, incoming - existed, existed - incoming);
      (Success(Tea(id, RowOf(req), if GetByTeaIdAgainCall in faults then None else Some(TagsOf(c1, id)))), c1)
  }

  /** Evaluate: the rating is stored, then the tea is read back with that user. */
  function EvaluateSpec(c: Catalog, id: Uuid, userId: Uuid, e: Evaluation, faults: set<TeaCall>)
    : (Result<TeaWithRating, Error>, Catalog)
  {
    if ExistsCall in faults then (Failure(Raw(Unavailable)), c)
    else if id !in c.teas then (Failure(App(NotFound)), c)
    else if EvaluateCall in faults then (Failure(Raw(Unavailable)), c)
    else
      var c1 := Rate(c, id, userId, e.rating);
      if GetByIdWithUserCall in faults then (Failure(Raw(Unavailable)), c1)
      else (Success(TeaWithRating(Tea(id, c1.teas[id], None), Some(e.rating))), c1)
  }

  /**
   * GetTeaById asks the anonymous lookup exactly when userId is Nil: a fault of
   * the other lookup never matters. With no fault it is 404 exactly for an
   * unknown id, and otherwise the tea with its joined tags, rated only for a user.
   */
  lemma GetTeaByIdRule(c: Catalog, id: Uuid, userId: Uuid, faults: set<TeaCall>)
    ensures GetTeaByIdSpec(c, id, userId, faults)
      == GetTeaByIdSpec(c, id, userId, faults - {if userId == Nil then GetByIdWithUserCall else GetByIdCall})
    ensures var r := GetTeaByIdSpec(c, id, userId, {});
      (r.Failure? <==> id !in c.teas)
      && (r.Failure? ==> r.error == App(NotFound))
      && (r.Success? ==> r.value.tea == Tea(id, c.teas[id], Some(TagsOf(c, id)))
                         && r.value.userRating == (if userId == Nil then None else UserRating(c, id, userId)))
  {
  }

  /**
   * CreateTea refuses a taken name with 400 before writing; the tables change
   * only once the name check passed and the insert ran, and a created tea is
   * linked to exactly the requested tags.
   */
  lemma CreateTeaRule(c: Catalog, req: TeaRequest, newId: Uuid, faults: set<TeaCall>)
    requires LinksHaveTeas(c) && newId !in c.teas
    ensures ExistsByNameCall !in faults && TeaNameTaken(c, Nil, req.name)
      ==> CreateTeaSpec(c, req, newId, faults) == (Failure(App(BadRequest)), c)
    ensures CreateTeaSpec(c, req, newId, faults).1 != c
      ==> !TeaNameTaken(c, Nil, req.name) && CreateCall !in faults && ExistsByNameCall !in faults
    ensures var (r, c1) := CreateTeaSpec(c, req, newId, faults);
      r.Success? ==> c1 == InsertTea(c, newId, req) && LinkedTagIds(c1, newId) == set t | t in req.tagIds
  {
    InsertTeaLinks(c, newId, req);
  }

  /**
   * UpdateTea answers 404 for an unknown id before it looks at the name, 400
   * for a name another tea has, and writes nothing in either case.
   */
  lemma UpdateTeaChecks(c: Catalog, id: Uuid, req: TeaRequest, faults: set<TeaCall>)
    ensures ExistsCall !in faults && id !in c.teas ==> UpdateTeaSpec(c, id, req, faults) == (Failure(App(NotFound)), c)
    ensures ExistsCall !in faults && ExistsByNameCall !in faults && id in c.teas && TeaNameTaken(c, id, req.name)
      ==> UpdateTeaSpec(c, id, req, faults) == (Failure(App(BadRequest)), c)
    ensures UpdateTeaSpec(c, id, req, faults).1 != c ==> id in c.teas && !TeaNameTaken(c, id, req.name)
  {
  }

  /**
   * After a successful UpdateTea the tea is linked to exactly the requested
   * tags, provided its old links all named stored tags; every other tea keeps
   * its links.
   */
  lemma UpdateTeaLinks(c: Catalog, id: Uuid, req: TeaRequest, faults: set<TeaCall>, other: Uuid)
    requires forall t :: (id, t) in c.links ==> t in c.tags
    requires UpdateTeaSpec(c, id, req, faults).0.Success? && other != id
    ensures LinkedTagIds(UpdateTeaSpec(c, id, req, faults).1, id) == set t | t in req.tagIds
    ensures LinkedTagIds(UpdateTeaSpec(c, id, req, faults).1, other) == LinkedTagIds(c, other)
  {
    var existed := TagIds(TagsOf(c, id));
    var incoming := set t | t in req.tagIds;
    assert existed == LinkedTagIds(c, id) by {
      forall t | t in LinkedTagIds(c, id)
        ensures t in existed
      {
        assert ToTag(t, c.tags[t]) in TagsOf(c, id);
      }
    }
    ReplaceTeaLinks(c, id, req, incoming - existed, existed - incoming, other);
  }

  /** DeleteTea and Evaluate answer 404 for an unknown id and write nothing. */
  lemma UnknownTeaNotFound(c: Catalog, id: Uuid, userId: Uuid, e: Evaluation, faults: set<TeaCall>)
    requires ExistsCall !in faults && id !in c.teas
    ensures DeleteTeaSpec(c, id, faults) == (Some(App(NotFound)), c)
    ensures EvaluateSpec(c, id, userId, e, faults) == (Failure(App(NotFound)), c)
  {
  }

  /** A successful DeleteTea removes the tea and every link it had. */
  lemma DeleteTeaRemovesLinks(c: Catalog, id: Uuid, faults: set<TeaCall>)
    requires DeleteTeaSpec(c, id, faults).0.None?
    ensures var c1 := DeleteTeaSpec(c, id, faults).1;
      id !in c1.teas && LinkedTagIds(c1, id) == {} && c1.teas == c.teas - {id}
  {
  }

  /** A successful Evaluate returns the user's new rating and changes no other table. */
  lemma EvaluateRecordsRating(c: Catalog, id: Uuid, userId: Uuid, e: Evaluation, faults: set<TeaCall>)
    requires EvaluateSpec(c, id, userId, e, faults).0.Success?
    ensures var (r, c1) := EvaluateSpec(c, id, userId, e, faults);
      UserRating(c1, id, userId) == Some(e.rating) && r.value.userRating == Some(e.rating)
      && c1.(ratings := c.ratings) == c
  {
  }

  /** The tag ids of the tags a read returned. */
  method ExistedTagIds(tags: seq<Tag>) returns (existedTagIds: seq<Uuid>)
    ensures |existedTagIds| == |tags|
    ensures forall i :: 0 <= i < |tags| ==> existedTagIds[i] == tags[i].id
  {
    existedTagIds := [];
    for i := 0 to |tags|
      invariant |existedTagIds| == i
      invariant forall k :: 0 <= k < i ==> existedTagIds[k] == tags[k].id
    {
      existedTagIds := existedTagIds + [tags[i].id];
    }
  }

  /** The id list read from the tags holds exactly the ids of the joined tags. */
  lemma ExistedIdsAreJoinedIds(c: Catalog, id: Uuid, tags: seq<Tag>, existedTagIds: seq<Uuid>)
    requires forall t :: t in tags <==> t in TagsOf(c, id)
    requires |existedTagIds| == |tags| && forall i :: 0 <= i < |tags| ==> existedTagIds[i] == tags[i].id
    ensures Ids(existedTagIds) == TagIds(TagsOf(c, id))
  {
    forall x | x in TagIds(TagsOf(c, id))
      ensures x in Ids(existedTagIds)
    {
      var t :| t in TagsOf(c, id) && t.id == x;
      var i :| 0 <= i < |tags| && tags[i] == t;
      assert existedTagIds[i] == x;
    }
  }

  class TeaService {
    const db: CatalogDb

    constructor (db: CatalogDb)
      ensures this.db == db
    {
      this.db := db;
    }

    method GetTeaById(id: Uuid, userId: Uuid, faults: set<TeaCall>) returns (r: Result<TeaWithRating, Error>)
      ensures r == GetTeaByIdSpec(db.State(), id, userId, faults)
    {
      var teaById;
      if userId == Nil {
        teaById := db.GetTeaById(id, GetByIdCall in faults);
      } else {
        teaById := db.GetTeaByIdWithUser(id, userId, GetByIdWithUserCall in faults);
      }
      if teaById.Failure? {
        return Failure(Raw(teaById.error));
      }
      if teaById.value.None? {
        return Failure(App(NotFound));
      }
      var tags := db.GetByTeaId(id, GetByTeaIdCall in faults);
      if tags.Failure? {
        return Failure(Raw(tags.error));
      }
      var t := teaById.value.value;
      return Success(t.(tea := t.tea.(tags := Some(set x | x in tags.value))));
    }

    method CreateTea(req: TeaRequest, newId: Uuid, faults: set<TeaCall>) returns (r: Result<Tea, Error>)
      requires db.Valid() && newId !in db.teas
      modifies db
      ensures db.Valid()
      ensures (r, db.State()) == CreateTeaSpec(old(db.State()), req, newId, faults)
    {
      var exists_ := db.TeaExistsByName(Nil, req.name, ExistsByNameCall in faults);
      if exists_.Failure? {
        return Failure(Raw(exists_.error));
      }
      if exists_.value {
        return Failure(App(BadRequest));
      }
      var createdTea := db.CreateTea(req, newId, CreateCall in faults);
      if createdTea.Failure? {
        return Failure(Raw(createdTea.error));
      }
      var tags := db.GetByTeaId(createdTea.value.id, GetByTeaIdCall in faults);
      if tags.Failure? {
        return Failure(Raw(tags.error));
      }
      return Success(createdTea.value.(tags := Some(set x | x in tags.value)));
    }

    method DeleteTea(id: Uuid, faults: set<TeaCall>) returns (err: Option<Error>)
      requires db.Valid()
      modifies db
      ensures db.Valid()
      ensures (err, db.State()) == DeleteTeaSpec(old(db.State()), id, faults)
    {
      var exists_ := db.TeaExists(id, ExistsCall in faults);
      if exists_.Failure? {
        return Some(Raw(exists_.error));
      }
      if !exists_.value {
        return Some(App(NotFound));
      }
      var e := db.DeleteTea(id, DeleteCall in faults);
      if e.Some? {
        return Some(Raw(e.value));
      }
      return None;
    }

    method UpdateTea(id: Uuid, req: TeaRequest, faults: set<TeaCall>) returns (r: Result<Tea, Error>)
      requires db.Valid()
      modifies db
      ensures db.Valid()
      ensures (r, db.State()) == UpdateTeaSpec(old(db.State()), id, req, faults)
    {
      var exists_ := db.TeaExists(id, ExistsCall in faults);
      if exists_.Failure? {
        return Failure(Raw(exists_.error));
      }
      if !exists_.value {
        return Failure(App(NotFound));
      }
      var existsByName := db.TeaExistsByName(id, req.name, ExistsByNameCall in faults);
      if existsByName.Failure? {
        return Failure(Raw(existsByName.error));
      }
      if existsByName.value {
        return Failure(App(BadRequest));
      }
      var tags := db.GetByTeaId(id, GetByTeaIdCall in faults);
      if tags.Failure? {
        return Failure(Raw(tags.error));
      }
      ghost var c := db.State();
      var existedTagIds := ExistedTagIds(tags.value);
      ExistedIdsAreJoinedIds(c, id, tags.value, existedTagIds);
      var tagsToInsert, tagsToDelete := GetTagsDelta(existedTagIds, req.tagIds);
      MissingMembers(req.tagIds, existedTagIds);
      MissingMembers(existedTagIds, req.tagIds);
      assert Ids(tagsToInsert) == Ids(req.tagIds) - Ids(existedTagIds);
      assert Ids(tagsToDelete) == Ids(existedTagIds) - Ids(req.tagIds);
      var updatedTea := db.UpdateTea(id, req, tagsToInsert, tagsToDelete, UpdateCall in faults);
      if updatedTea.Failure? {
        return Failure(Raw(updatedTea.error));
      }
      var newTags := db.GetByTeaId(id, GetByTeaIdAgainCall in faults);
      var teaTags := if newTags.Success? then Some(set x | x in newTags.value) else None;
      return Success(updatedTea.value.(tags := teaTags));
    }

    method Evaluate(id: Uuid, userId: Uuid, e: Evaluation, faults: set<TeaCall>) returns (r: Result<TeaWithRating, Error>)
      requires db.Valid()
      modifies db
      ensures db.Valid()
      ensures (r, db.State()) == EvaluateSpec(old(db.State()), id, userId, e, faults)
    {
      var exists_ := db.TeaExists(id, ExistsCall in faults);
      if exists_.Failure? {
        return Failure(Raw(exists_.error));
      }
      if !exists_.value {
        return Failure(App(NotFound));
      }
      var err := db.Evaluate(id, userId, e, EvaluateCall in faults);
      if err.Some? {
        return Failure(Raw(err.value));
      }
      var evaluatedTea := db.GetTeaByIdWithUser(id, userId, GetByIdWithUserCall in faults);
      if evaluatedTea.Failure? {
        return Failure(Raw(evaluatedTea.error));
      }
      return Success(evaluatedTea.value.value);
    }
  }
}
