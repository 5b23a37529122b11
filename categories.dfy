/**
 * The category handlers of src/controllers/categoryController.js over an
 * in-memory category store.  A category owns an ordered sequence of
 * subcategories, each with its own id; adding checks for a duplicate name,
 * removing filters by id.
 */
module Categories {
  import opened Common

  datatype Subcategory = Subcategory(id: Id, name: string)
  datatype Category = Category(name: string, subcategories: seq<Subcategory>)

  /** The matcher `sub => sub._id.toString() !== subId`. */
  function NotWithId(subId: Id): Subcategory -> bool {
    (sub: Subcategory) => sub.id != subId
  }

  predicate HasSubcategoryNamed(c: Category, name: string) {
    exists k :: 0 <= k < |c.subcategories| && c.subcategories[k].name == name
  }

  predicate NameTaken(categories: map<Id, Category>, name: string) {
    exists id :: id in categories && categories[id].name == name
  }

  /** No two subcategories of a category share a name. */
  predicate NamesUnique(subs: seq<Subcategory>) {
    forall i, j :: 0 <= i < j < |subs| ==> subs[i].name != subs[j].name
  }

  predicate SubcategoryNamesUnique(c: Category) {
    NamesUnique(c.subcategories)
  }

  /** `removeSubcategory`'s filter: no subcategory with that id is left, the others stay in order. */
  lemma RemoveSubcategorySpec(subs: seq<Subcategory>, subId: Id)
    ensures forall k :: 0 <= k < |Filter(subs, NotWithId(subId))| ==> Filter(subs, NotWithId(subId))[k].id != subId
    ensures (forall k :: 0 <= k < |subs| ==> subs[k].id != subId) ==> Filter(subs, NotWithId(subId)) == subs
    ensures forall a, b :: subs == a + b ==>
      Filter(subs, NotWithId(subId)) == Filter(a, NotWithId(subId)) + Filter(b, NotWithId(subId))
  {
    if forall k :: 0 <= k < |subs| ==> subs[k].id != subId {
      FilterAll(subs, NotWithId(subId));
    }
    forall a, b | subs == a + b
      ensures Filter(subs, NotWithId(subId)) == Filter(a, NotWithId(subId)) + Filter(b, NotWithId(subId))
    {
      FilterAppend(a, b, NotWithId(subId));
    }
  }

  /** Removing subcategories keeps their names unique. */
  lemma {:induction false} RemoveKeepsNamesUnique(subs: seq<Subcategory>, subId: Id)
    requires NamesUnique(subs)
    ensures NamesUnique(Filter(subs, NotWithId(subId)))
  {
    if |subs| > 0 {
      RemoveKeepsNamesUnique(subs[1..], subId);
      var rest := Filter(subs[1..], NotWithId(subId));
      forall k | 0 <= k < |rest| ensures rest[k].name != subs[0].name {
        assert rest[k] in subs[1..];
      }
    }
  }

  class CategoryStore {
    var categories: map<Id, Category>

    constructor ()
      ensures categories == map[]
    {
      categories := map[];
    }

    /** `createCategory`: 400 when some category has the name; otherwise stores it, with no subcategories by default. */
    method CreateCategory(name: string, subcategories: Option<seq<Subcategory>>, newId: Id)
      returns (code: nat, created: Option<Category>)
      requires newId !in categories
      modifies this
      ensures NameTaken(old(categories), name) ==> code == BadRequest && created == None && categories == old(categories)
      ensures !NameTaken(old(categories), name) ==>
        && code == Created
        && created == Some(Category(name, subcategories.GetOr([])))
        && categories == old(categories)[newId := created.value]
    {
      if exists id :: id in categories && categories[id].name == name {
        return BadRequest, None;
      }
      var c := Category(name, subcategories.GetOr([]));
      categories := categories[newId := c];
      return Created, Some(c);
    }

    /** `getCategoryById`. */
    method GetCategoryById(id: Id) returns (code: nat, category: Option<Category>)
      ensures id !in categories ==> code == NotFound && category == None
      ensures id in categories ==> code == Ok && category == Some(categories[id])
    {
      if id !in categories {
        return NotFound, None;
      }
      return Ok, Some(categories[id]);
    }

    /** `updateCategory`: 404 for an unknown id; each supplied field replaces the stored one, an absent one is left as it was. */
    method UpdateCategory(id: Id, name: Option<string>, subcategories: Option<seq<Subcategory>>)
      returns (code: nat, updated: Option<Category>)
      modifies this
      ensures id !in old(categories) ==> code == NotFound && updated == None && categories == old(categories)
      ensures id in old(categories) ==>
        && code == Ok
        && updated == Some(Category(name.GetOr(old(categories)[id].name), subcategories.GetOr(old(categories)[id].subcategories)))
        && categories == old(categories)[id := updated.value]
    {
      if id !in categories {
        return NotFound, None;
      }
      var c := categories[id];
      var c' := Category(name.GetOr(c.name), subcategories.GetOr(c.subcategories));
      categories := categories[id := c'];
      return Ok, Some(c');
    }

    /** `deleteCategory`: 404 for an unknown id; removes only the target. */
    method DeleteCategory(id: Id) returns (code: nat)
      modifies this
      ensures id !in old(categories) ==> code == NotFound && categories == old(categories)
      ensures id in old(categories) ==> code == Ok && categories == old(categories) - {id}
    {
      if id !in categories {
        return NotFound;
      }
      categories := categories - {id};
      return Ok;
    }

    /** `addSubcategory`: 404, then 400 for a name already present; otherwise appends exactly one subcategory. */
    method AddSubcategory(id: Id, name: string, newSubId: Id) returns (code: nat, updated: Option<Category>)
      requires id in categories ==> forall k :: 0 <= k < |categories[id].subcategories| ==> categories[id].subcategories[k].id != newSubId
      modifies this
      ensures id !in old(categories) ==> code == NotFound && updated == None && categories == old(categories)
      ensures id in old(categories) && HasSubcategoryNamed(old(categories)[id], name) ==>
        code == BadRequest && updated == None && categories == old(categories)
      ensures id in old(categories) && !HasSubcategoryNamed(old(categories)[id], name) ==>
        && code == Ok
        && updated == Some(old(categories)[id].(subcategories := old(categories)[id].subcategories + [Subcategory(newSubId, name)]))
        && categories == old(categories)[id := updated.value]
        && |categories[id].subcategories| == |old(categories)[id].subcategories| + 1
      ensures id in old(categories) && SubcategoryNamesUnique(old(categories)[id]) ==> SubcategoryNamesUnique(categories[id])
    {
      if id !in categories {
        return NotFound, None;
      }
      var c := categories[id];
      if exists k :: 0 <= k < |c.subcategories| && c.subcategories[k].name == name {
        return BadRequest, None;
      }
      var c' := c.(subcategories := c.subcategories + [Subcategory(newSubId, name)]);
      categories := categories[id := c'];
      return Ok, Some(c');
    }

    /** `removeSubcategory`: 404 for an unknown category; an unknown `subId` is not an error. */
    method RemoveSubcategory(id: Id, subId: Id) returns (code: nat, updated: Option<Category>)
      modifies this
      ensures id !in old(categories) ==> code == NotFound && updated == None && categories == old(categories)
      ensures id in old(categories) ==>
        && code == Ok
        && updated == Some(old(categories)[id].(subcategories := Filter(old(categories)[id].subcategories, NotWithId(subId))))
        && categories == old(categories)[id := updated.value]
      ensures id in old(categories) && SubcategoryNamesUnique(old(categories)[id]) ==> SubcategoryNamesUnique(categories[id])
    {
      if id !in categories {
        return NotFound, None;
      }
      var c := categories[id];
      var c' := c.(subcategories := Filter(c.subcategories, NotWithId(subId)));
      if SubcategoryNamesUnique(c) {
        RemoveKeepsNamesUnique(c.subcategories, subId);
      }
      categories := categories[id := c'];
      return Ok, Some(c');
    }
  }
}
