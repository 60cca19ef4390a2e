/** The recipe list: recipes newest first, a field-wise merge of partial
    updates into one recipe, and optimistic updates and deletes that are
    rolled back when the backend reports an error. */
module Recipes {
  import opened Prelude

  datatype Ingredient = Ingredient(id: string, name: string, quantity: string)

  /** A recipe row. `userId` and `createdAt` may be absent; `imageUrl` and
      `description` may be null. */
  datatype Recipe = Recipe(
    id: string,
    userId: Option<string>,
    name: string,
    imageUrl: Option<string>,
    description: Option<string>,
    ingredients: seq<Ingredient>,
    createdAt: Option<string>)

  /** A partial recipe: `Some` for each key the update carries. A key of a
      nullable field carries `Some(None)` to set it to null. */
  datatype RecipeUpdate = RecipeUpdate(
    id: Option<string>,
    userId: Option<string>,
    name: Option<string>,
    imageUrl: Option<Option<string>>,
    description: Option<Option<string>>,
    ingredients: Option<seq<Ingredient>>,
    createdAt: Option<string>)

  /** The update that carries no key. */
  const NoChange := RecipeUpdate(None, None, None, None, None, None, None)

  function Pick<T>(given: Option<T>, current: T): T {
    if given.Some? then given.value else current
  }

  /** Every key the update carries already holds that value in `r`. */
  predicate Agrees(r: Recipe, u: RecipeUpdate) {
    && (u.id.Some? ==> u.id.value == r.id)
    && (u.userId.Some? ==> u.userId == r.userId)
    && (u.name.Some? ==> u.name.value == r.name)
    && (u.imageUrl.Some? ==> u.imageUrl.value == r.imageUrl)
    && (u.description.Some? ==> u.description.value == r.description)
    && (u.ingredients.Some? ==> u.ingredients.value == r.ingredients)
    && (u.createdAt.Some? ==> u.createdAt == r.createdAt)
  }

  /** `Object.assign(recipe, updates)`: each key the update carries
      overwrites that field; every other field keeps its value
      (`MergeWritesCarriedKeys`). So the recipe stays as it is exactly when
      the update agrees with it on every key it carries. */
  function Merge(r: Recipe, u: RecipeUpdate): (m: Recipe)
    ensures m == r <==> Agrees(r, u)
  {
    Recipe(
      Pick(u.id, r.id),
      if u.userId.Some? then u.userId else r.userId,
      Pick(u.name, r.name),
      Pick(u.imageUrl, r.imageUrl),
      Pick(u.description, r.description),
      Pick(u.ingredients, r.ingredients),
      if u.createdAt.Some? then u.createdAt else r.createdAt)
  }

  /** A later update overriding an earlier one, key by key. */
  function Then(first: RecipeUpdate, second: RecipeUpdate): RecipeUpdate {
    RecipeUpdate(
      if second.id.Some? then second.id else first.id,
      if second.userId.Some? then second.userId else first.userId,
      if second.name.Some? then second.name else first.name,
      if second.imageUrl.Some? then second.imageUrl else first.imageUrl,
      if second.description.Some? then second.description else first.description,
      if second.ingredients.Some? then second.ingredients else first.ingredients,
      if second.createdAt.Some? then second.createdAt else first.createdAt)
  }

  /** The merge writes exactly the carried keys: a carried key takes the
      update's value, an absent key keeps the recipe's. */
  lemma MergeWritesCarriedKeys(r: Recipe, u: RecipeUpdate)
    ensures u.name.Some? ==> Merge(r, u).name == u.name.value
    ensures u.name.None? ==> Merge(r, u).name == r.name
    ensures u.imageUrl.Some? ==> Merge(r, u).imageUrl == u.imageUrl.value
    ensures u.imageUrl.None? ==> Merge(r, u).imageUrl == r.imageUrl
    ensures u.description.Some? ==> Merge(r, u).description == u.description.value
    ensures u.description.None? ==> Merge(r, u).description == r.description
    ensures u.ingredients.Some? ==> Merge(r, u).ingredients == u.ingredients.value
    ensures u.ingredients.None? ==> Merge(r, u).ingredients == r.ingredients
    ensures u.id.Some? ==> Merge(r, u).id == u.id.value
    ensures u.id.None? ==> Merge(r, u).id == r.id
    ensures u.userId.Some? ==> Merge(r, u).userId == u.userId
    ensures u.userId.None? ==> Merge(r, u).userId == r.userId
    ensures u.createdAt.Some? ==> Merge(r, u).createdAt == u.createdAt
    ensures u.createdAt.None? ==> Merge(r, u).createdAt == r.createdAt
  {
  }

  /** An update without keys changes nothing. */
  lemma MergeNoChange(r: Recipe)
    ensures Merge(r, NoChange) == r
  {
  }

  /** Applying the same update twice is applying it once. */
  lemma MergeIdempotent(r: Recipe, u: RecipeUpdate)
    ensures Merge(Merge(r, u), u) == Merge(r, u)
  {
  }

  /** Two updates in a row are the later one overriding the earlier. */
  lemma MergeThen(r: Recipe, u1: RecipeUpdate, u2: RecipeUpdate)
    ensures Merge(Merge(r, u1), u2) == Merge(r, Then(u1, u2))
  {
  }

  function RecipeIdIs(id: string): Recipe -> bool {
    (r: Recipe) => r.id == id
  }

  function RecipeIdIsNot(id: string): Recipe -> bool {
    (r: Recipe) => r.id != id
  }

  class RecipeBook {
    var recipes: seq<Recipe>

    constructor ()
      ensures recipes == []
    {
      recipes := [];
    }

    /** `addRecipe`: on an error the call throws and the list is unchanged;
        a returned row goes to the front and is returned. */
    method AddRecipe(outcome: InsertOutcome<Recipe>) returns (thrown: bool, added: Option<Recipe>)
      modifies this
      ensures thrown <==> outcome.Failed?
      ensures outcome.Inserted? ==> recipes == [outcome.row] + old(recipes) && added == Some(outcome.row)
      ensures !outcome.Inserted? ==> recipes == old(recipes) && added == None
    {
      thrown, added := false, None;
      match outcome
      case Failed =>
        thrown := true;
      case Inserted(row) =>
        recipes := [row] + recipes;
        added := Some(row);
      case NoRow =>
    }

    /** `updateRecipe`: the first recipe with the id is merged with the
        update; on an error that slot gets its pre-update copy back and the
        call throws. An id that is not in the list changes nothing. */
    method UpdateRecipe(id: string, updates: RecipeUpdate, ok: bool) returns (thrown: bool)
      modifies this
      ensures thrown == !ok
      ensures var i := FindIndex(old(recipes), RecipeIdIs(id));
              recipes == if i == -1 || !ok then old(recipes) else old(recipes)[i := Merge(old(recipes)[i], updates)]
    {
      var index := FindIndex(recipes, RecipeIdIs(id));
      var oldRecipe: Option<Recipe> := None;
      if index != -1 {
        oldRecipe := Some(recipes[index]);
        recipes := recipes[index := Merge(recipes[index], updates)];
      }
      thrown := false;
      if !ok {
        if oldRecipe.Some? && index != -1 {
          recipes := recipes[index := oldRecipe.value];
        }
        thrown := true;
      }
    }

    /** `deleteRecipe`: every recipe with the id is dropped; on an error the
        list before the call is restored and the call throws. */
    method DeleteRecipe(id: string, ok: bool) returns (thrown: bool)
      modifies this
      ensures thrown == !ok
      ensures recipes == if ok then Filter(old(recipes), RecipeIdIsNot(id)) else old(recipes)
    {
      var prevRecipes := recipes;
      recipes := Filter(recipes, RecipeIdIsNot(id));
      thrown := false;
      if !ok {
        recipes := prevRecipes;
        thrown := true;
      }
    }
  }

  /** A successful update touches only the slot of the first recipe with the
      id, and leaves the list's length alone. */
  lemma UpdateTouchesOneSlot(rs: seq<Recipe>, id: string, u: RecipeUpdate, j: int)
    requires 0 <= j < |rs| && j != FindIndex(rs, RecipeIdIs(id))
    ensures var i := FindIndex(rs, RecipeIdIs(id));
            var after := if i == -1 then rs else rs[i := Merge(rs[i], u)];
            |after| == |rs| && after[j] == rs[j]
  {
  }

  /** After a successful delete no recipe with the id is left, and every
      other recipe is still there. */
  lemma DeleteRemovesAll(rs: seq<Recipe>, id: string)
    ensures forall k :: 0 <= k < |Filter(rs, RecipeIdIsNot(id))| ==> Filter(rs, RecipeIdIsNot(id))[k].id != id
    ensures forall k :: 0 <= k < |rs| && rs[k].id != id ==> rs[k] in Filter(rs, RecipeIdIsNot(id))
  {
    var r := Filter(rs, RecipeIdIsNot(id));
    forall k | 0 <= k < |r| ensures r[k].id != id {
      assert RecipeIdIsNot(id)(r[k]);
    }
    forall k | 0 <= k < |rs| && rs[k].id != id ensures rs[k] in r {
      assert RecipeIdIsNot(id)(rs[k]);
    }
  }
}
