/**
 * The category service (internal/service/category.go): lookups, and writes
 * that check existence, name clashes and teas still in the category before
 * they touch the table.
 */
module CategoryService {
  import opened Wrappers
  import opened Foreign
  import opened Errx
  import opened CatalogStore

  /** The repository calls the category service makes; ExistsByCategoryIdCall goes to the tea repository. */
  datatype CategoryCall =
    | GetByIdCall | GetAllCall | CreateCall | UpdateCall | DeleteCall
    | ExistsCall | ExistsByNameCall | ExistsByCategoryIdCall

  function AllCategories(c: Catalog): set<Category>
  {
    set id | id in c.categories :: ToCategory(id, c.categories[id])
  }

  /** GetById */
  function GetByIdSpec(c: Catalog, id: Uuid, faults: set<CategoryCall>): Result<Category, Error>
  {
    if GetByIdCall in faults then Failure(Raw(Unavailable))
    else if id !in c.categories then Failure(App(NotFound))
    else Success(ToCategory(id, c.categories[id]))
  }

  /** GetAll: the list and the error together; a failure comes with an empty, non-nil list. */
  function GetAllSpec(c: Catalog, faults: set<CategoryCall>): (Option<set<Category>>, Option<Error>)
  {
    if GetAllCall in faults then (Some({}), Some(Raw(Unavailable)))
    else (Some(AllCategories(c)), None)
  }

  /** Create */
  function CreateSpec(c: Catalog, category: Category, newId: Uuid, faults: set<CategoryCall>): (Result<Category, Error>, Catalog)
  {
    if ExistsByNameCall in faults then (Failure(Raw(Unavailable)), c)
    else if CategoryNameTaken(c, Nil, category.name) then (Failure(App(BadRequest)), c)
    else if CreateCall in faults then (Failure(Raw(Unavailable)), c)
    else
      (Success(category.(id := newId)),
       c.(categories := c.categories[newId := CategoryRow(category.name, category.description)]))
  }

  /** Update: the category is written under the path id, whatever id it carried. */
  function UpdateSpec(c: Catalog, id: Uuid, category: Category, faults: set<CategoryCall>): (Result<Category, Error>, Catalog)
  {
    if ExistsCall in faults then (Failure(Raw(Unavailable)), c)
    else if id !in c.categories then (Failure(App(NotFound)), c)
    else if ExistsByNameCall in faults then (Failure(Raw(Unavailable)), c)
    else if CategoryNameTaken(c, id, category.name) then (Failure(App(BadRequest)), c)
    else if UpdateCall in faults then (Failure(Raw(Unavailable)), c)
    else
      (Success(category.(id := id)),
       c.(categories := c.categories[id := CategoryRow(category.name, category.description)]))
  }

  /** Delete */
  function DeleteSpec(c: Catalog, id: Uuid, faults: set<CategoryCall>): (Option<Error>, Catalog)
  {
    if ExistsCall in faults then (Some(Raw(Unavailable)), c)
    else if id !in c.categories then (Some(App(NotFound)), c)
    else if ExistsByCategoryIdCall in faults then (Some(Raw(Unavailable)), c)
    else if CategoryInUse(c, id) then (Some(App(BadRequest)), c)
    else if DeleteCall in faults then (Some(Raw(Unavailable)), c)
    else (None, c.(categories := c.categories - {id}))
  }

  /** GetById answers 404 exactly for an unknown id, and GetAll fails with an empty list. */
  lemma ReadRules(c: Catalog, id: Uuid, faults: set<CategoryCall>)
    ensures GetByIdCall !in faults ==> (GetByIdSpec(c, id, faults) == Failure(App(NotFound)) <==> id !in c.categories)
    ensures GetByIdSpec(c, id, faults).Success? ==> GetByIdSpec(c, id, faults).value.id == id
    ensures GetAllSpec(c, faults).1.Some? ==> GetAllSpec(c, faults).0 == Some({})
  {
  }

  /** Create refuses a taken name with 400 and writes only after the name check passed. */
  lemma CreateChecksName(c: Catalog, category: Category, newId: Uuid, faults: set<CategoryCall>)
    ensures ExistsByNameCall !in faults && CategoryNameTaken(c, Nil, category.name)
      ==> CreateSpec(c, category, newId, faults) == (Failure(App(BadRequest)), c)
    ensures CreateSpec(c, category, newId, faults).1 != c ==> !CategoryNameTaken(c, Nil, category.name)
    ensures CreateSpec(c, category, newId, faults).0.Success?
      ==> CategoryNameTaken(CreateSpec(c, category, newId, faults).1, Nil, category.name) || newId == Nil
  {
    var c1 := CreateSpec(c, category, newId, faults).1;
    if CreateSpec(c, category, newId, faults).0.Success? && newId != Nil {
      assert newId in c1.categories && c1.categories[newId].name == category.name;
    }
  }

  /**
   * Update checks existence (404) before a name clash with another category
   * (400), writes nothing on either, and on success stores the category under
   * the path id with the other categories untouched.
   */
  lemma UpdateChecks(c: Catalog, id: Uuid, category: Category, faults: set<CategoryCall>)
    ensures ExistsCall !in faults && id !in c.categories
      ==> UpdateSpec(c, id, category, faults) == (Failure(App(NotFound)), c)
    ensures ExistsCall !in faults && ExistsByNameCall !in faults && id in c.categories && CategoryNameTaken(c, id, category.name)
      ==> UpdateSpec(c, id, category, faults) == (Failure(App(BadRequest)), c)
    ensures UpdateSpec(c, id, category, faults).1 != c ==> id in c.categories && !CategoryNameTaken(c, id, category.name)
    ensures var (r, c1) := UpdateSpec(c, id, category, faults);
      r.Success? ==> (r.value.id == id && c1.categories.Keys == c.categories.Keys
        && ToCategory(id, c1.categories[id]) == category.(id := id)
        && forall k :: k in c.categories && k != id ==> c1.categories[k] == c.categories[k])
  {
  }

  /**
   * Delete answers 404 for an unknown id and 400 while a tea is in the
   * category; it deletes only when both checks passed.
   */
  lemma DeleteChecks(c: Catalog, id: Uuid, faults: set<CategoryCall>)
    ensures ExistsCall !in faults && id !in c.categories ==> DeleteSpec(c, id, faults) == (Some(App(NotFound)), c)
    ensures ExistsCall !in faults && ExistsByCategoryIdCall !in faults && id in c.categories && CategoryInUse(c, id)
      ==> DeleteSpec(c, id, faults) == (Some(App(BadRequest)), c)
    ensures DeleteSpec(c, id, faults).1 != c ==> id in c.categories && !CategoryInUse(c, id)
    ensures DeleteSpec(c, id, faults).0.None? ==> DeleteSpec(c, id, faults).1 == c.(categories := c.categories - {id})
  {
  }

  /** A successful Delete leaves no tea pointing at a removed category that it did not point at before. */
  lemma DeleteKeepsTeaCategories(c: Catalog, id: Uuid, faults: set<CategoryCall>)
    requires forall t :: t in c.teas ==> c.teas[t].categoryId in c.categories
    requires DeleteSpec(c, id, faults).0.None?
    ensures var c1 := DeleteSpec(c, id, faults).1;
      forall t :: t in c1.teas ==> c1.teas[t].categoryId in c1.categories
  {
    var c1 := DeleteSpec(c, id, faults).1;
    forall t | t in c1.teas
      ensures c1.teas[t].categoryId in c1.categories
    {
      assert c.teas[t].categoryId != id;
    }
  }

  class CategoryService {
    const db: CatalogDb

    constructor (db: CatalogDb)
      ensures this.db == db
    {
      this.db := db;
    }

    method GetById(id: Uuid, faults: set<CategoryCall>) returns (r: Result<Category, Error>)
      ensures r == GetByIdSpec(db.State(), id, faults)
    {
      var category := db.GetCategoryById(id, GetByIdCall in faults);
      if category.Failure? {
        return Failure(Raw(category.error));
      }
      if category.value.None? {
        return Failure(App(NotFound));
      }
      return Success(category.value.value);
    }

    method GetAll(faults: set<CategoryCall>) returns (categories: Option<set<Category>>, err: Option<Error>)
      ensures (categories, err) == GetAllSpec(db.State(), faults)
    {
      var all := db.GetAllCategories(GetAllCall in faults);
      if all.Failure? {
        return Some({}), Some(Raw(all.error));
      }
      return Some(all.value), None;
    }

    method Create(category: Category, newId: Uuid, faults: set<CategoryCall>) returns (r: Result<Category, Error>)
      requires db.Valid()
      modifies db
      ensures db.Valid()
      ensures (r, db.State()) == CreateSpec(old(db.State()), category, newId, faults)
    {
      var exists_ := db.CategoryExistsByName(Nil, category.name, ExistsByNameCall in faults);
      if exists_.Failure? {
        return Failure(Raw(exists_.error));
      }
      if exists_.value {
        return Failure(App(BadRequest));
      }
      var created := db.CreateCategory(category, newId, CreateCall in faults);
      if created.Failure? {
        return Failure(Raw(created.error));
      }
      return Success(created.value);
    }

    method Update(id: Uuid, category: Category, faults: set<CategoryCall>) returns (r: Result<Category, Error>)
      requires db.Valid()
      modifies db
      ensures db.Valid()
      ensures (r, db.State()) == UpdateSpec(old(db.State()), id, category, faults)
    {
      var exists_ := db.CategoryExists(id, ExistsCall in faults);
      if exists_.Failure? {
        return Failure(Raw(exists_.error));
      }
      if !exists_.value {
        return Failure(App(NotFound));
      }
      var existsByName := db.CategoryExistsByName(id, category.name, ExistsByNameCall in faults);
      if existsByName.Failure? {
        return Failure(Raw(existsByName.error));
      }
      if existsByName.value {
        return Failure(App(BadRequest));
      }
      var withId := category.(id := id);
      var updated := db.UpdateCategory(withId, UpdateCall in faults);
      if updated.Failure? {
        return Failure(Raw(updated.error));
      }
      return Success(updated.value);
    }

    method Delete(id: Uuid, faults: set<CategoryCall>) returns (err: Option<Error>)
      requires db.Valid()
      modifies db
      ensures db.Valid()
      ensures (err, db.State()) == DeleteSpec(old(db.State()), id, faults)
    {
      var exists_ := db.CategoryExists(id, ExistsCall in faults);
      if exists_.Failure? {
        return Some(Raw(exists_.error));
      }
      if !exists_.value {
        return Some(App(NotFound));
      }
      var inUse := db.ExistsByCategoryId(id, ExistsByCategoryIdCall in faults);
      if inUse.Failure? {
        return Some(Raw(inUse.error));
      }
      if inUse.value {
        return Some(App(BadRequest));
      }
      var e := db.DeleteCategory(id, DeleteCall in faults);
      if e.Some? {
        return Some(Raw(e.value));
      }
      return None;
    }
  }
}
