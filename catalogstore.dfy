/**
 * The catalog tables behind the repository interfaces the tea, category, tag
 * and unit services use (the files of internal/service): teas, the teas_tags links,
 * the users' ratings, tags, categories and units. Each write is a function on
 * a `Catalog` value, and the repository is a class whose methods are proved
 * equal to those functions; a `fail` parameter stands for a database error.
 */
module CatalogStore {
  import opened Wrappers
  import opened Foreign
  import opened Errx
  import opened Requests
  import Units

  datatype Category = Category(id: Uuid, name: string, description: string)
  datatype CategoryRow = CategoryRow(name: string, description: string)

  datatype Tag = Tag(id: Uuid, name: string, color: string)
  datatype TagRow = TagRow(name: string, color: string)

  datatype UnitRow = UnitRow(isApiece: bool, weightUnit: int, value: int)

  /** The stored columns of a tea, as the request sets them. */
  datatype TeaRow = TeaRow(
    name: string, servePrice: real, unitPrice: real, description: string,
    categoryId: Uuid, isHidden: bool)

  /** entity.Tea; `tags` is None for a nil Tags slice. */
  datatype Tea = Tea(id: Uuid, row: TeaRow, tags: Option<set<Tag>>)

  /** entity.TeaWithRating: the tea and, for a lookup with a user, that user's rating. */
  datatype TeaWithRating = TeaWithRating(tea: Tea, userRating: Option<real>)

  datatype Catalog = Catalog(
    teas: map<Uuid, TeaRow>,
    links: set<(Uuid, Uuid)>,
    ratings: map<(Uuid, Uuid), real>,
    tags: map<Uuid, TagRow>,
    categories: map<Uuid, CategoryRow>,
    units: map<Uuid, UnitRow>)

  /** Every (tea_id, tag_id) link names a stored tea. */
  ghost predicate LinksHaveTeas(c: Catalog)
  {
    forall l :: l in c.links ==> l.0 in c.teas
  }

  function RowOf(req: TeaRequest): TeaRow
  {
    TeaRow(req.name, req.servePrice, req.unitPrice, req.description, req.categoryId, req.isHidden)
  }

  function ToTag(id: Uuid, row: TagRow): Tag
  {
    Tag(id, row.name, row.color)
  }

  function ToCategory(id: Uuid, row: CategoryRow): Category
  {
    Category(id, row.name, row.description)
  }

  function ToUnit(id: Uuid, row: UnitRow): Units.Unit
  {
    Units.Unit(id, row.isApiece, row.weightUnit, row.value)
  }

  /** The links a list of tag ids makes for one tea. */
  function LinksFor(teaId: Uuid, tagIds: set<Uuid>): (r: set<(Uuid, Uuid)>)
    ensures forall l :: l in r <==> l.0 == teaId && l.1 in tagIds
  {
    set t | t in tagIds :: (teaId, t)
  }

  /** The tag ids linked to a tea, whether or not the tag row still exists. */
  function LinkedTagIds(c: Catalog, teaId: Uuid): (r: set<Uuid>)
    ensures forall t :: t in r <==> (teaId, t) in c.links
  {
    set l | l in c.links && l.0 == teaId :: l.1
  }

  /** GetByTeaId: the tags joined through teas_tags to the tea. */
  function TagsOf(c: Catalog, teaId: Uuid): (r: set<Tag>)
    ensures forall t :: t in r <==> t.id in c.tags && (teaId, t.id) in c.links && t == ToTag(t.id, c.tags[t.id])
  {
    set id | id in c.tags && (teaId, id) in c.links :: ToTag(id, c.tags[id])
  }

  function TagIds(tags: set<Tag>): set<Uuid>
  {
    set t | t in tags :: t.id
  }

  /** `exists(... where id != existedId and name = name)`, in each of the three tables. */
  predicate TeaNameTaken(c: Catalog, existedId: Uuid, name: string)
  {
    exists id :: id in c.teas && id != existedId && c.teas[id].name == name
  }

  predicate CategoryNameTaken(c: Catalog, existedId: Uuid, name: string)
  {
    exists id :: id in c.categories && id != existedId && c.categories[id].name == name
  }

  predicate TagNameTaken(c: Catalog, existedId: Uuid, name: string)
  {
    exists id :: id in c.tags && id != existedId && c.tags[id].name == name
  }

  /** ExistsByCategoryId: some tea is in the category. */
  predicate CategoryInUse(c: Catalog, categoryId: Uuid)
  {
    exists id :: id in c.teas && c.teas[id].categoryId == categoryId
  }

  /** ExistsByTeas: some tea is linked to the tag. */
  predicate TagInUse(c: Catalog, tagId: Uuid)
  {
    exists l :: l in c.links && l.1 == tagId
  }

  function UserRating(c: Catalog, teaId: Uuid, userId: Uuid): Option<real>
  {
    if (teaId, userId) in c.ratings then Some(c.ratings[(teaId, userId)]) else None
  }

  /** GetById and GetByIdWithUser: nil for an unknown id; the rating only for a user. */
  function TeaLookup(c: Catalog, id: Uuid, userId: Option<Uuid>): (r: Option<TeaWithRating>)
    ensures r.Some? <==> id in c.teas
    ensures r.Some? ==> r.value.tea == Tea(id, c.teas[id], None)
    ensures r.Some? && userId.None? ==> r.value.userRating == None
  {
    if id !in c.teas then None
    else Some(TeaWithRating(Tea(id, c.teas[id], None), if userId.Some? then UserRating(c, id, userId.value) else None))
  }

  /** Create: the tea row, then one link per requested tag. */
  function InsertTea(c: Catalog, newId: Uuid, req: TeaRequest): Catalog
  {
    c.(teas := c.teas[newId := RowOf(req)], links := c.links + LinksFor(newId, set t | t in req.tagIds))
  }

  /** Update: the tea row, then the new links inserted, then the old ones deleted. */
  function ReplaceTea(c: Catalog, id: Uuid, req: TeaRequest, toInsert: set<Uuid>, toDelete: set<Uuid>): Catalog
  {
    c.(teas := c.teas[id := RowOf(req)], links := (c.links + LinksFor(id, toInsert)) - LinksFor(id, toDelete))
  }

  /** Delete: the tea's links, then the tea. */
  function RemoveTea(c: Catalog, id: Uuid): (r: Catalog)
    ensures r.links == set l | l in c.links && l.0 != id
  {
    c.(teas := c.teas - {id}, links := set l | l in c.links && l.0 != id)
  }

  function Rate(c: Catalog, teaId: Uuid, userId: Uuid, rating: real): Catalog
  {
    c.(ratings := c.ratings[(teaId, userId) := rating])
  }

  /** An update by id touches the row when it exists and nothing otherwise. */
  function UpdateRow<R>(rows: map<Uuid, R>, id: Uuid, row: R): (r: map<Uuid, R>)
    ensures r.Keys == rows.Keys
    ensures id in rows ==> r[id] == row
    ensures forall k :: k in rows && k != id ==> r[k] == rows[k]
  {
    if id in rows then rows[id := row] else rows
  }

  /** Every write of the tea repository keeps each link pointing at a stored tea. */
  lemma TeaWritesKeepLinks(c: Catalog, id: Uuid, req: TeaRequest, toInsert: set<Uuid>, toDelete: set<Uuid>, userId: Uuid, rating: real)
    requires LinksHaveTeas(c)
    ensures LinksHaveTeas(InsertTea(c, id, req))
    ensures id in c.teas ==> LinksHaveTeas(ReplaceTea(c, id, req, toInsert, toDelete))
    ensures LinksHaveTeas(RemoveTea(c, id))
    ensures LinksHaveTeas(Rate(c, id, userId, rating))
  {
  }

  /** After a Create the new tea is linked to exactly the requested tags. */
  lemma InsertTeaLinks(c: Catalog, newId: Uuid, req: TeaRequest)
    requires LinksHaveTeas(c) && newId !in c.teas
    ensures LinkedTagIds(InsertTea(c, newId, req), newId) == set t | t in req.tagIds
  {
    assert LinkedTagIds(c, newId) == {};
  }

  /**
   * An Update with disjoint insert and delete sets leaves the tea linked to
   * its old tags minus the deleted ones plus the inserted ones, and every
   * other tea's links as they were.
   */
  lemma ReplaceTeaLinks(c: Catalog, id: Uuid, req: TeaRequest, toInsert: set<Uuid>, toDelete: set<Uuid>, other: Uuid)
    requires toInsert !! toDelete && other != id
    ensures LinkedTagIds(ReplaceTea(c, id, req, toInsert, toDelete), id) == (LinkedTagIds(c, id) - toDelete) + toInsert
    ensures LinkedTagIds(ReplaceTea(c, id, req, toInsert, toDelete), other) == LinkedTagIds(c, other)
  {
  }

  /** The repositories of the catalog, over in-memory tables. */
  class CatalogDb {
    var teas: map<Uuid, TeaRow>
    var links: set<(Uuid, Uuid)>
    var ratings: map<(Uuid, Uuid), real>
    var tags: map<Uuid, TagRow>
    var categories: map<Uuid, CategoryRow>
    var units: map<Uuid, UnitRow>

    function State(): Catalog
      reads this
    {
      Catalog(teas, links, ratings, tags, categories, units)
    }

    ghost predicate Valid()
      reads this
    {
      LinksHaveTeas(State())
    }

    constructor (initial: Catalog)
      requires LinksHaveTeas(initial)
      ensures Valid() && State() == initial
    {
      teas, links, ratings := initial.teas, initial.links, initial.ratings;
      tags, categories, units := initial.tags, initial.categories, initial.units;
    }

    // TeaRepository

    method GetTeaById(id: Uuid, fail: bool) returns (r: Result<Option<TeaWithRating>, RawError>)
      ensures r == (if fail then Failure(Unavailable) else Success(TeaLookup(State(), id, None)))
    {
      if fail {
        return Failure(Unavailable);
      }
      if id !in teas {
        return Success(None);
      }
      return Success(Some(TeaWithRating(Tea(id, teas[id], None), None)));
    }

    method GetTeaByIdWithUser(id: Uuid, userId: Uuid, fail: bool) returns (r: Result<Option<TeaWithRating>, RawError>)
      ensures r == (if fail then Failure(Unavailable) else Success(TeaLookup(State(), id, Some(userId))))
    {
      if fail {
        return Failure(Unavailable);
      }
      if id !in teas {
        return Success(None);
      }
      var rating := if (id, userId) in ratings then Some(ratings[(id, userId)]) else None;
      return Success(Some(TeaWithRating(Tea(id, teas[id], None), rating)));
    }

    method CreateTea(req: TeaRequest, newId: Uuid, fail: bool) returns (r: Result<Tea, RawError>)
      requires Valid() && newId !in teas
      modifies this
      ensures Valid()
      ensures fail ==> r == Failure(Unavailable) && State() == old(State())
      ensures !fail ==> r == Success(Tea(newId, RowOf(req), None)) && State() == InsertTea(old(State()), newId, req)
    {
      if fail {
        return Failure(Unavailable);
      }
      teas := teas[newId := RowOf(req)];
      links := links + LinksFor(newId, set t | t in req.tagIds);
      return Success(Tea(newId, RowOf(req), None));
    }

    method DeleteTea(id: Uuid, fail: bool) returns (err: Option<RawError>)
      requires Valid()
      modifies this
      ensures Valid()
      ensures fail ==> err == Some(Unavailable) && State() == old(State())
      ensures !fail ==> err == None && State() == RemoveTea(old(State()), id)
    {
      if fail {
        return Some(Unavailable);
      }
      links := set l | l in links && l.0 != id;
      teas := teas - {id};
      return None;
    }

    /** Update; the service calls it only for a tea that exists. */
    method UpdateTea(id: Uuid, req: TeaRequest, tagsToInsert: seq<Uuid>, tagsToDelete: seq<Uuid>, fail: bool)
      returns (r: Result<Tea, RawError>)
      requires Valid() && id in teas
      modifies this
      ensures Valid()
      ensures fail ==> r == Failure(Unavailable) && State() == old(State())
      ensures !fail ==> r == Success(Tea(id, RowOf(req), None))
      ensures !fail ==> State() == ReplaceTea(old(State()), id, req, set t | t in tagsToInsert, set t | t in tagsToDelete)
    {
      if fail {
        return Failure(Unavailable);
      }
      teas := teas[id := RowOf(req)];
      links := links + LinksFor(id, set t | t in tagsToInsert);
      links := links - LinksFor(id, set t | t in tagsToDelete);
      return Success(Tea(id, RowOf(req), None));
    }

    /** Evaluate: the user's rating of the tea, stored or replaced. */
    method Evaluate(id: Uuid, userId: Uuid, e: Evaluation, fail: bool) returns (err: Option<RawError>)
      requires Valid()
      modifies this
      ensures Valid()
      ensures fail ==> err == Some(Unavailable) && State() == old(State())
      ensures !fail ==> err == None && State() == Rate(old(State()), id, userId, e.rating)
    {
      if fail {
        return Some(Unavailable);
      }
      ratings := ratings[(id, userId) := e.rating];
      return None;
    }

    method TeaExists(id: Uuid, fail: bool) returns (r: Result<bool, RawError>)
      ensures r == (if fail then Failure(Unavailable) else Success(id in teas))
    {
      if fail {
        return Failure(Unavailable);
      }
      return Success(id in teas);
    }

    method TeaExistsByName(existedId: Uuid, name: string, fail: bool) returns (r: Result<bool, RawError>)
      ensures r == (if fail then Failure(Unavailable) else Success(TeaNameTaken(State(), existedId, name)))
    {
      if fail {
        return Failure(Unavailable);
      }
      return Success(exists id :: id in teas && id != existedId && teas[id].name == name);
    }

    method ExistsByCategoryId(categoryId: Uuid, fail: bool) returns (r: Result<bool, RawError>)
      ensures r == (if fail then Failure(Unavailable) else Success(CategoryInUse(State(), categoryId)))
    {
      if fail {
        return Failure(Unavailable);
      }
      return Success(exists id :: id in teas && teas[id].categoryId == categoryId);
    }

    /** GetByTeaId: the joined tags, in an order the query leaves open. */
    method GetByTeaId(teaId: Uuid, fail: bool) returns (r: Result<seq<Tag>, RawError>)
      ensures fail ==> r == Failure(Unavailable)
      ensures !fail ==> r.Success? && forall t :: t in r.value <==> t in TagsOf(State(), teaId)
      ensures !fail ==> r.Success? && (set t | t in r.value) == TagsOf(State(), teaId)
    {
      if fail {
        return Failure(Unavailable);
      }
      var rest := TagsOf(State(), teaId);
      var found: seq<Tag> := [];
      while rest != {}
        invariant forall t :: (t in found || t in rest) <==> t in TagsOf(State(), teaId)
        decreases |rest|
      {
        var t :| t in rest;
        found := found + [t];
        rest := rest - {t};
      }
      return Success(found);
    }

    // CategoryRepository

    method GetCategoryById(id: Uuid, fail: bool) returns (r: Result<Option<Category>, RawError>)
      ensures fail ==> r == Failure(Unavailable)
      ensures !fail ==> r == Success(if id in categories then Some(ToCategory(id, categories[id])) else None)
    {
      if fail {
        return Failure(Unavailable);
      }
      if id !in categories {
        return Success(None);
      }
      return Success(Some(ToCategory(id, categories[id])));
    }

    method GetAllCategories(fail: bool) returns (r: Result<set<Category>, RawError>)
      ensures fail ==> r == Failure(Unavailable)
      ensures !fail ==> r == Success(set id | id in categories :: ToCategory(id, categories[id]))
    {
      if fail {
        return Failure(Unavailable);
      }
      return Success(set id | id in categories :: ToCategory(id, categories[id]));
    }

    method CreateCategory(category: Category, newId: Uuid, fail: bool) returns (r: Result<Category, RawError>)
      requires Valid()
      modifies this
      ensures Valid()
      ensures fail ==> r == Failure(Unavailable) && State() == old(State())
      ensures !fail ==> r == Success(category.(id := newId))
      ensures !fail ==> State() == old(State()).(categories := old(categories)[newId := CategoryRow(category.name, category.description)])
    {
      if fail {
        return Failure(Unavailable);
      }
      categories := categories[newId := CategoryRow(category.name, category.description)];
      return Success(category.(id := newId));
    }

    /** Update by `category.id`; a missing row changes nothing and yields the zero category. */
    method UpdateCategory(category: Category, fail: bool) returns (r: Result<Category, RawError>)
      requires Valid()
      modifies this
      ensures Valid()
      ensures fail ==> r == Failure(Unavailable) && State() == old(State())
      ensures !fail ==> r == Success(if category.id in old(categories) then category else Category(Nil, "", ""))
      ensures !fail ==> State() == old(State()).(categories := UpdateRow(old(categories), category.id, CategoryRow(category.name, category.description)))
    {
      if fail {
        return Failure(Unavailable);
      }
      if category.id !in categories {
        return Success(Category(Nil, "", ""));
      }
      categories := categories[category.id := CategoryRow(category.name, category.description)];
      return Success(category);
    }

    method DeleteCategory(id: Uuid, fail: bool) returns (err: Option<RawError>)
      requires Valid()
      modifies this
      ensures Valid()
      ensures fail ==> err == Some(Unavailable) && State() == old(State())
      ensures !fail ==> err == None && State() == old(State()).(categories := old(categories) - {id})
    {
      if fail {
        return Some(Unavailable);
      }
      categories := categories - {id};
      return None;
    }

    method CategoryExists(id: Uuid, fail: bool) returns (r: Result<bool, RawError>)
      ensures r == (if fail then Failure(Unavailable) else Success(id in categories))
    {
      if fail {
        return Failure(Unavailable);
      }
      return Success(id in categories);
    }

    method CategoryExistsByName(existedId: Uuid, name: string, fail: bool) returns (r: Result<bool, RawError>)
      ensures r == (if fail then Failure(Unavailable) else Success(CategoryNameTaken(State(), existedId, name)))
    {
      if fail {
        return Failure(Unavailable);
      }
      return Success(exists id :: id in categories && id != existedId && categories[id].name == name);
    }

    // TagRepository

    method GetAllTags(fail: bool) returns (r: Result<set<Tag>, RawError>)
      ensures fail ==> r == Failure(Unavailable)
      ensures !fail ==> r == Success(set id | id in tags :: ToTag(id, tags[id]))
    {
      if fail {
        return Failure(Unavailable);
      }
      return Success(set id | id in tags :: ToTag(id, tags[id]));
    }

    method CreateTag(tag: Tag, newId: Uuid, fail: bool) returns (r: Result<Tag, RawError>)
      requires Valid()
      modifies this
      ensures Valid()
      ensures fail ==> r == Failure(Unavailable) && State() == old(State())
      ensures !fail ==> r == Success(tag.(id := newId))
      ensures !fail ==> State() == old(State()).(tags := old(tags)[newId := TagRow(tag.name, tag.color)])
    {
      if fail {
        return Failure(Unavailable);
      }
      tags := tags[newId := TagRow(tag.name, tag.color)];
      return Success(tag.(id := newId));
    }

    /** Update by `tag.id`; a missing row changes nothing and yields the zero tag. */
    method UpdateTag(tag: Tag, fail: bool) returns (r: Result<Tag, RawError>)
      requires Valid()
      modifies this
      ensures Valid()
      ensures fail ==> r == Failure(Unavailable) && State() == old(State())
      ensures !fail ==> r == Success(if tag.id in old(tags) then tag else Tag(Nil, "", ""))
      ensures !fail ==> State() == old(State()).(tags := UpdateRow(old(tags), tag.id, TagRow(tag.name, tag.color)))
    {
      if fail {
        return Failure(Unavailable);
      }
      if tag.id !in tags {
        return Success(Tag(Nil, "", ""));
      }
      tags := tags[tag.id := TagRow(tag.name, tag.color)];
      return Success(tag);
    }

    method DeleteTag(id: Uuid, fail: bool) returns (err: Option<RawError>)
      requires Valid()
      modifies this
      ensures Valid()
      ensures fail ==> err == Some(Unavailable) && State() == old(State())
      ensures !fail ==> err == None && State() == old(State()).(tags := old(tags) - {id})
    {
      if fail {
        return Some(Unavailable);
      }
      tags := tags - {id};
      return None;
    }

    method TagExists(id: Uuid, fail: bool) returns (r: Result<bool, RawError>)
      ensures r == (if fail then Failure(Unavailable) else Success(id in tags))
    {
      if fail {
        return Failure(Unavailable);
      }
      return Success(id in tags);
    }

    method TagExistsByName(existedId: Uuid, name: string, fail: bool) returns (r: Result<bool, RawError>)
      ensures r == (if fail then Failure(Unavailable) else Success(TagNameTaken(State(), existedId, name)))
    {
      if fail {
        return Failure(Unavailable);
      }
      return Success(exists id :: id in tags && id != existedId && tags[id].name == name);
    }

    /** ExistsByTeas; on an error the boolean is Go's zero value, false. */
    method ExistsByTeas(id: Uuid, fail: bool) returns (exists_: bool, err: Option<RawError>)
      ensures fail ==> !exists_ && err == Some(Unavailable)
      ensures !fail ==> exists_ == TagInUse(State(), id) && err == None
    {
      if fail {
        return false, Some(Unavailable);
      }
      return (exists l :: l in links && l.1 == id), None;
    }

    // UnitRepository

    method GetAllUnits(fail: bool) returns (r: Result<set<Units.Unit>, RawError>)
      ensures fail ==> r == Failure(Unavailable)
      ensures !fail ==> r == Success(set id | id in units :: ToUnit(id, units[id]))
    {
      if fail {
        return Failure(Unavailable);
      }
      return Success(set id | id in units :: ToUnit(id, units[id]));
    }

    method CreateUnit(unit: Units.Unit, newId: Uuid, fail: bool) returns (r: Result<Units.Unit, RawError>)
      requires Valid()
      modifies this
      ensures Valid()
      ensures fail ==> r == Failure(Unavailable) && State() == old(State())
      ensures !fail ==> r == Success(unit.(id := newId))
      ensures !fail ==> State() == old(State()).(units := old(units)[newId := UnitRow(unit.isApiece, unit.weightUnit, unit.value)])
    {
      if fail {
        return Failure(Unavailable);
      }
      units := units[newId := UnitRow(unit.isApiece, unit.weightUnit, unit.value)];
      return Success(unit.(id := newId));
    }

    /** Update by `unit.id`; a missing row changes nothing and yields the zero unit. */
    method UpdateUnit(unit: Units.Unit, fail: bool) returns (r: Result<Units.Unit, RawError>)
      requires Valid()
      modifies this
      ensures Valid()
      ensures fail ==> r == Failure(Unavailable) && State() == old(State())
      ensures !fail ==> r == Success(if unit.id in old(units) then unit else Units.Unit(Nil, false, 0, 0))
      ensures !fail ==> State() == old(State()).(units := UpdateRow(old(units), unit.id, UnitRow(unit.isApiece, unit.weightUnit, unit.value)))
    {
      if fail {
        return Failure(Unavailable);
      }
      if unit.id !in units {
        return Success(Units.Unit(Nil, false, 0, 0));
      }
      units := units[unit.id := UnitRow(unit.isApiece, unit.weightUnit, unit.value)];
      return Success(unit);
    }

    method DeleteUnit(id: Uuid, fail: bool) returns (err: Option<RawError>)
      requires Valid()
      modifies this
      ensures Valid()
      ensures fail ==> err == Some(Unavailable) && State() == old(State())
      ensures !fail ==> err == None && State() == old(State()).(units := old(units) - {id})
    {
      if fail {
        return Some(Unavailable);
      }
      units := units - {id};
      return None;
    }

    method UnitExists(id: Uuid, fail: bool) returns (r: Result<bool, RawError>)
      ensures r == (if fail then Failure(Unavailable) else Success(id in units))
    {
      if fail {
        return Failure(Unavailable);
      }
      return Success(id in units);
    }
  }
}
