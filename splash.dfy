/** The Splash component's state and its handlers. Each state variable of the
    component is a field; each handler is a method that replaces the fields
    its setters replace and leaves the rest alone. */
module SplashComponent {
  import opened Cart
  import opened Shopping

  class Splash {
    /** The recipe dataset, fixed for the lifetime of the component. */
    const db: seq<Recipe>

    var searchTerm: string
    var suggestions: seq<Recipe>
    var pinnedRecipes: seq<PinnedRecipe>
    var currentRecipe: Option<Recipe>
    var craftMultiplier: Multiplier

    /** What every handler preserves: the suggestions are either cleared or
        the filter's result for the present term; the current recipe is a
        dataset record; every pinned entry is a record's snapshot at its own
        multiplier, so its amounts are exactly base amount times multiplier. */
    ghost predicate Valid()
      reads this
    {
      && (suggestions == [] || suggestions == Suggest(db, searchTerm))
      && (currentRecipe.Some? ==> currentRecipe.value in db)
      && forall k :: 0 <= k < |pinnedRecipes| ==> PinnedFrom(pinnedRecipes[k], db)
    }

    /** The initial state: empty term, nothing suggested, pinned or current,
        multiplier 1 (the search effect's first run stores no suggestions for
        the empty term). */
    constructor (db: seq<Recipe>)
      ensures Valid() && this.db == db
      ensures searchTerm == "" && suggestions == [] && pinnedRecipes == []
      ensures currentRecipe == None && craftMultiplier == 1
    {
      this.db := db;
      searchTerm := "";
      suggestions := Suggest(db, "");
      pinnedRecipes := [];
      currentRecipe := None;
      craftMultiplier := 1;
    }

    /** Typing in the search box, followed by the search effect. The effect
        depends on the term only, so it runs again only when the term changes. */
    method SetSearchTerm(term: string)
      requires Valid()
      modifies this
      ensures Valid()
      ensures searchTerm == term
      ensures suggestions == if term != old(searchTerm) then Suggest(db, term) else old(suggestions)
      ensures pinnedRecipes == old(pinnedRecipes) && currentRecipe == old(currentRecipe)
      ensures craftMultiplier == old(craftMultiplier)
    {
      if term != searchTerm {
        suggestions := Suggest(db, term);
      }
      searchTerm := term;
    }

    /** `searchRecipe`: a known id makes the first record with that id current,
        resets the multiplier and clears the suggestions; an unknown id clears
        the current recipe and leaves everything else as it was. */
    method SearchRecipe(recipeId: int)
      requires Valid()
      modifies this
      ensures Valid()
      ensures match FindRecipe(db, recipeId)
        case Some(r) => currentRecipe == Some(r) && craftMultiplier == 1 && suggestions == []
        case None => currentRecipe == None && craftMultiplier == old(craftMultiplier)
                     && suggestions == old(suggestions)
      ensures searchTerm == old(searchTerm) && pinnedRecipes == old(pinnedRecipes)
    {
      var recipe := FindRecipe(db, recipeId);
      if recipe.Some? {
        ghost var i :| FirstWithId(db, recipeId, i) && db[i] == recipe.value;
        currentRecipe := recipe;
        craftMultiplier := 1;
        suggestions := [];
      } else {
        currentRecipe := None;
      }
    }

    /** The Search button: look up the first suggestion's id. With no
        suggestion the id is undefined, which no record carries; with one, a
        record is always found, since suggestions come from the dataset. */
    method PressSearch()
      requires Valid()
      modifies this
      ensures Valid()
      ensures old(suggestions) == [] ==>
        currentRecipe == None && suggestions == [] && craftMultiplier == old(craftMultiplier)
      ensures old(suggestions) != [] ==>
        && currentRecipe == FindRecipe(db, old(suggestions)[0].recipeId)
        && currentRecipe.Some? && currentRecipe.value.recipeId == old(suggestions)[0].recipeId
        && craftMultiplier == 1 && suggestions == []
      ensures searchTerm == old(searchTerm) && pinnedRecipes == old(pinnedRecipes)
    {
      if suggestions == [] {
        currentRecipe := None;
      } else {
        FindRecipeOfMember(db, suggestions[0]);
        SearchRecipe(suggestions[0].recipeId);
      }
    }

    /** Clicking suggestion k: select its recipe, then put its name in the
        search box (which re-runs the search effect when the name differs
        from the term). */
    method PickSuggestion(k: nat)
      requires Valid()
      requires k < |suggestions|
      modifies this
      ensures Valid()
      ensures currentRecipe == FindRecipe(db, old(suggestions)[k].recipeId) && currentRecipe.Some?
      ensures craftMultiplier == 1
      ensures searchTerm == old(suggestions)[k].wowheadName
      ensures suggestions ==
        if old(suggestions)[k].wowheadName != old(searchTerm)
        then Suggest(db, old(suggestions)[k].wowheadName) else []
      ensures pinnedRecipes == old(pinnedRecipes)
    {
      var picked := suggestions[k];
      FindRecipeOfMember(db, picked);
      SearchRecipe(picked.recipeId);
      SetSearchTerm(picked.wowheadName);
    }

    /** The multiplier box of the current recipe: the typed value, normalised.
        Pinned snapshots are not touched. */
    method SetCraftMultiplier(parsed: Option<int>)
      requires Valid()
      modifies this
      ensures Valid()
      ensures craftMultiplier == NormaliseMultiplier(parsed)
      ensures pinnedRecipes == old(pinnedRecipes) && currentRecipe == old(currentRecipe)
      ensures searchTerm == old(searchTerm) && suggestions == old(suggestions)
    {
      craftMultiplier := NormaliseMultiplier(parsed);
    }

    /** `pinRecipe`: append a snapshot of the current recipe at the current
        multiplier; without a current recipe nothing changes. */
    method PinRecipe()
      requires Valid()
      modifies this
      ensures Valid()
      ensures pinnedRecipes == Pin(old(pinnedRecipes), currentRecipe, craftMultiplier)
      ensures currentRecipe == old(currentRecipe) && craftMultiplier == old(craftMultiplier)
      ensures searchTerm == old(searchTerm) && suggestions == old(suggestions)
    {
      if currentRecipe.Some? {
        ghost var j :| 0 <= j < |db| && db[j] == currentRecipe.value;
        assert PinnedFrom(PinAt(currentRecipe.value, craftMultiplier), db);
        pinnedRecipes := Pin(pinnedRecipes, currentRecipe, craftMultiplier);
      }
    }

    /** `updatePinnedRecipeMultiplier`: rescale the entry at index to the new
        multiplier (the caller has normalised it); other entries, and the
        whole list when index is out of range, stay as they are. */
    method UpdatePinnedRecipeMultiplier(index: int, newMultiplier: Multiplier)
      requires Valid()
      modifies this
      ensures Valid()
      ensures pinnedRecipes == RescaleAt(old(pinnedRecipes), index, newMultiplier)
      ensures currentRecipe == old(currentRecipe) && craftMultiplier == old(craftMultiplier)
      ensures searchTerm == old(searchTerm) && suggestions == old(suggestions)
    {
      if 0 <= index < |pinnedRecipes| {
        RescalePinnedFrom(pinnedRecipes[index], db, newMultiplier);
      }
      pinnedRecipes := RescaleAt(pinnedRecipes, index, newMultiplier);
    }

    /** `removePinnedRecipe`: drop the entry at index. */
    method RemovePinnedRecipe(index: int)
      requires Valid()
      modifies this
      ensures Valid()
      ensures pinnedRecipes == RemoveAt(old(pinnedRecipes), index)
      ensures currentRecipe == old(currentRecipe) && craftMultiplier == old(craftMultiplier)
      ensures searchTerm == old(searchTerm) && suggestions == old(suggestions)
    {
      var before := pinnedRecipes;
      pinnedRecipes := RemoveAt(pinnedRecipes, index);
      assert forall k :: 0 <= k < |pinnedRecipes| ==>
        pinnedRecipes[k] == before[if 0 <= index <= k then k + 1 else k];
    }

    /** The `shoppingList` memo: walk every reagent of every pinned entry,
        keeping a dictionary from reagent name to entry and the order in which
        its keys were inserted. A name already present has the amount added to
        its entry; a new name gets a copy of the reagent. The pinned list is
        only read. */
    method ShoppingList() returns (list: seq<Reagent>)
      ensures list == ShoppingListOf(pinnedRecipes)
    {
      var pinned := pinnedRecipes;
      var dict: map<string, Reagent> := map[];
      var keys: seq<string> := [];
      var i := 0;
      while i < |pinned|
        invariant 0 <= i <= |pinned|
        invariant DictHolds(dict, keys, Aggregate(AllReagents(pinned[..i])))
      {
        dict, keys := AddReagents(dict, keys, AllReagents(pinned[..i]), pinned[i].recipe.reagents);
        AllReagentsSnoc(pinned, i);
        i := i + 1;
      }
      assert pinned[..i] == pinned;
      list := ValuesInOrder(dict, keys);
    }
  }

  /** The memo's inner loop over one pinned recipe's reagents: the dictionary
      that held the aggregate of `seen` ends up holding the aggregate of `seen`
      followed by `reagents`. */
  method AddReagents(dict: map<string, Reagent>, keys: seq<string>, ghost seen: seq<Reagent>, reagents: seq<Reagent>)
    returns (dict': map<string, Reagent>, keys': seq<string>)
    requires DictHolds(dict, keys, Aggregate(seen))
    ensures DictHolds(dict', keys', Aggregate(seen + reagents))
  {
    dict', keys' := dict, keys;
    assert seen + reagents[..0] == seen;
    var j := 0;
    while j < |reagents|
      invariant 0 <= j <= |reagents|
      invariant DictHolds(dict', keys', Aggregate(seen + reagents[..j]))
    {
      AggregateSnoc(seen + reagents[..j], reagents[j]);
      dict', keys' := AddToDictionary(dict', keys', Aggregate(seen + reagents[..j]), reagents[j]);
      assert seen + reagents[..j + 1] == seen + reagents[..j] + [reagents[j]];
      j := j + 1;
    }
    assert reagents[..j] == reagents;
  }

  /** A session a user could click through: what callers can conclude from
      the handlers' contracts alone. */
  method ExampleSession()
  {
    var buckle := Recipe(1, "Iron Buckle", 8768, [Reagent("Iron Bar", 3.0)]);
    var shield := Recipe(2, "Iron Shield Spike", 7221, [Reagent("Iron Bar", 5.0), Reagent("Solid Stone", 1.0)]);
    var ui := new Splash([buckle, shield]);

    ui.SearchRecipe(1);
    assert ui.currentRecipe == Some(buckle) && ui.craftMultiplier == 1;
    ui.SetCraftMultiplier(Some(4));
    ui.PinRecipe();
    assert ui.pinnedRecipes[0].recipe.reagents[0].amount == 12.0;

    // The snapshot ignores later edits of the craft multiplier.
    ui.SetCraftMultiplier(Some(500));
    assert ui.craftMultiplier == 500;
    assert ui.pinnedRecipes[0].recipe.reagents[0].amount == 12.0;

    // Rescaling the pinned entry from 4 to 2.
    ui.UpdatePinnedRecipeMultiplier(0, 2);
    assert ui.pinnedRecipes[0].multiplier == 2;
    assert ui.pinnedRecipes[0].recipe.reagents[0].amount * 4.0 == 12.0 * 2.0;

    ui.SearchRecipe(3);
    assert ui.currentRecipe == None;
    ui.PinRecipe();
    assert |ui.pinnedRecipes| == 1;

    assert [buckle, shield][1..] == [shield];
    assert FindRecipe([buckle, shield], 2) == Some(shield);
    ui.SearchRecipe(2);
    assert ui.currentRecipe == Some(shield);
    ui.PinRecipe();
    assert |ui.pinnedRecipes| == 2 && ui.pinnedRecipes[0].multiplier == 2;
  }

  /** The fold takes one more reagent by one more step. */
  lemma AggregateSnoc(seen: seq<Reagent>, g: Reagent)
    ensures Aggregate(seen + [g]) == AddReagent(Aggregate(seen), g)
    ensures Distinct(Names(Aggregate(seen)))
  {
    assert (seen + [g])[..|seen|] == seen;
    AggregateNames(seen);
    DedupSpec(Names(seen));
  }

  lemma AllReagentsSnoc(pinned: seq<PinnedRecipe>, i: nat)
    requires i < |pinned|
    ensures AllReagents(pinned[..i + 1]) == AllReagents(pinned[..i]) + pinned[i].recipe.reagents
  {
    assert pinned[..i + 1][..i] == pinned[..i];
  }

  /** One step of the memo's inner loop: a reagent whose name is a key has its
      amount added to that key's entry; otherwise a copy of it is stored under
      a new key at the end of the key order. */
  method AddToDictionary(dict: map<string, Reagent>, keys: seq<string>, ghost agg: seq<Reagent>, reagent: Reagent)
    returns (dict': map<string, Reagent>, keys': seq<string>)
    requires DictHolds(dict, keys, agg) && Distinct(Names(agg))
    ensures DictHolds(dict', keys', AddReagent(agg, reagent))
  {
    var name := reagent.reagentName;
    if name in dict {
      var entry := dict[name];
      dict', keys' := dict[name := entry.(amount := entry.amount + reagent.amount)], keys;
      ghost var k :| 0 <= k < |keys| && keys[k] == name;
      AddReagentExisting(agg, reagent, k);
    } else {
      dict', keys' := dict[name := reagent], keys + [name];
      AddReagentNew(agg, reagent);
    }
  }

  /** `Object.values(dict)`: the entries in key-insertion order. */
  function ValuesInOrder(dict: map<string, Reagent>, keys: seq<string>): (vs: seq<Reagent>)
    requires forall k :: 0 <= k < |keys| ==> keys[k] in dict
    ensures forall agg :: DictHolds(dict, keys, agg) ==> vs == agg
  {
    seq(|keys|, k requires 0 <= k < |keys| => dict[keys[k]])
  }

  /** The dictionary and its key order represent the list `agg`: keys in
      list order, each key's entry the list's entry. */
  ghost predicate DictHolds(dict: map<string, Reagent>, keys: seq<string>, agg: seq<Reagent>)
  {
    && |keys| == |agg|
    && (forall k :: 0 <= k < |agg| ==> keys[k] == agg[k].reagentName && keys[k] in dict && dict[keys[k]] == agg[k])
    && (forall n :: n in dict ==> n in keys)
  }
}
