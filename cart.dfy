/** The recipe cart engine of the Splash component as values: the dataset
    records, the pinned snapshots, and the pure computations each handler
    performs before it calls a state setter. */
module Cart {
  import opened Strings

  datatype Option<T> = None | Some(value: T)

  /** A craft multiplier as the handlers leave it: never below 1 (there is no
      upper bound in the code). */
  type Multiplier = m: int | 1 <= m witness 1

  /** One reagent of a recipe: its name and the quantity needed. Other fields
      of the dataset's reagent objects are copied along unchanged by every
      operation and are not represented. */
  datatype Reagent = Reagent(reagentName: string, amount: real)

  /** A record of the recipe dataset. */
  datatype Recipe = Recipe(recipeId: int, wowheadName: string, spellId: int, reagents: seq<Reagent>)

  /** A pinned snapshot: the recipe record with its reagent amounts already
      multiplied, together with the multiplier they were multiplied by. */
  datatype PinnedRecipe = PinnedRecipe(recipe: Recipe, multiplier: Multiplier)

  /** At most this many suggestions are shown. */
  const MaxSuggestions: nat := 10

  // ---------------------------------------------------------------------
  // Suggestion filter (the search effect)
  // ---------------------------------------------------------------------

  /** The filter's test: the lower-cased name contains the lower-cased term. */
  predicate Matches(r: Recipe, term: string)
  {
    Includes(ToLowerCase(r.wowheadName), ToLowerCase(term))
  }

  /** `db.filter(recipe => Matches(recipe, term))`. */
  function FilterMatching(db: seq<Recipe>, term: string): (r: seq<Recipe>)
    ensures |r| <= |db|
    ensures forall x :: x in r <==> x in db && Matches(x, term)
  {
    if db == [] then []
    else
      var rest := FilterMatching(db[1..], term);
      assert forall x :: x in db <==> x == db[0] || x in db[1..];
      if Matches(db[0], term) then [db[0]] + rest else rest
  }

  /** `s.slice(0, n)`. */
  function Take<T>(s: seq<T>, n: nat): (r: seq<T>)
    ensures |r| == if |s| <= n then |s| else n
    ensures r == s[..|r|]
  {
    if |s| <= n then s else s[..n]
  }

  /** The suggestions the search effect stores for a term: nothing for a term
      of at most one character, otherwise the first ten matching records. */
  function Suggest(db: seq<Recipe>, term: string): (r: seq<Recipe>)
    ensures |term| <= 1 ==> r == []
    ensures |r| <= MaxSuggestions
    ensures forall x :: x in r ==> x in db && Matches(x, term)
  {
    if |term| > 1 then Take(FilterMatching(db, term), MaxSuggestions) else []
  }

  /** Reference definition of "the first n matching records": walk the
      dataset front to back and stop after n hits. */
  function FirstMatches(db: seq<Recipe>, term: string, n: nat): seq<Recipe>
  {
    if n == 0 || db == [] then []
    else if Matches(db[0], term) then [db[0]] + FirstMatches(db[1..], term, n - 1)
    else FirstMatches(db[1..], term, n)
  }

  /** Filtering then slicing yields exactly the first n matches in dataset
      order. */
  lemma {:induction false} FirstMatchesIsFilterThenSlice(db: seq<Recipe>, term: string, n: nat)
    ensures FirstMatches(db, term, n) == Take(FilterMatching(db, term), n)
  {
    if n == 0 || db == [] {
    } else {
      var rest := FilterMatching(db[1..], term);
      if Matches(db[0], term) {
        FirstMatchesIsFilterThenSlice(db[1..], term, n - 1);
        assert Take([db[0]] + rest, n) == [db[0]] + Take(rest, n - 1);
      } else {
        FirstMatchesIsFilterThenSlice(db[1..], term, n);
      }
    }
  }

  /** The stored suggestions are the first ten matches, in dataset order. */
  lemma SuggestIsFirstMatches(db: seq<Recipe>, term: string)
    requires |term| > 1
    ensures Suggest(db, term) == FirstMatches(db, term, MaxSuggestions)
  {
    FirstMatchesIsFilterThenSlice(db, term, MaxSuggestions);
  }

  /** The filter keeps relative order: filtering a concatenation filters
      each part. */
  lemma {:induction false} FilterMatchingAppend(a: seq<Recipe>, b: seq<Recipe>, term: string)
    ensures FilterMatching(a + b, term) == FilterMatching(a, term) + FilterMatching(b, term)
  {
    if a == [] {
      assert a + b == b;
    } else {
      assert (a + b)[1..] == a[1..] + b;
      FilterMatchingAppend(a[1..], b, term);
    }
  }

  // ---------------------------------------------------------------------
  // Recipe selection
  // ---------------------------------------------------------------------

  /** Index i holds the first record with the given id. */
  ghost predicate FirstWithId(db: seq<Recipe>, id: int, i: int)
  {
    0 <= i < |db| && db[i].recipeId == id && forall j :: 0 <= j < i ==> db[j].recipeId != id
  }

  /** `db.find(r => r.RecipeID === id)`. */
  function FindRecipe(db: seq<Recipe>, id: int): (r: Option<Recipe>)
    ensures r.None? <==> forall i :: 0 <= i < |db| ==> db[i].recipeId != id
    ensures r.Some? ==> exists i :: FirstWithId(db, id, i) && db[i] == r.value
  {
    if db == [] then None
    else if db[0].recipeId == id then
      assert FirstWithId(db, id, 0);
      Some(db[0])
    else
      var r := FindRecipe(db[1..], id);
      assert forall i :: 1 <= i < |db| ==> db[i] == db[1..][i - 1];
      assert r.Some? ==> exists i :: FirstWithId(db, id, i) && db[i] == r.value by {
        if r.Some? {
          var i :| FirstWithId(db[1..], id, i) && db[1..][i] == r.value;
          assert FirstWithId(db, id, i + 1);
        }
      }
      r
  }

  /** Every record of the dataset can be found by its id (possibly as an
      earlier record carrying the same id). */
  lemma FindRecipeOfMember(db: seq<Recipe>, x: Recipe)
    requires x in db
    ensures FindRecipe(db, x.recipeId).Some?
    ensures FindRecipe(db, x.recipeId).value.recipeId == x.recipeId
  {
  }

  // ---------------------------------------------------------------------
  // Multiplier normalisation
  // ---------------------------------------------------------------------

  /** `Math.max(1, parseInt(v) || 1)`, where `parsed` is what parseInt
      produced (None stands for NaN). NaN and 0 are falsy and become 1, a
      negative number loses against 1 in Math.max, anything else is kept. */
  function NormaliseMultiplier(parsed: Option<int>): (m: Multiplier)
    ensures parsed.Some? && parsed.value >= 1 ==> m == parsed.value
    ensures parsed.None? || parsed.value < 1 ==> m == 1
  {
    var orOne := match parsed
      case None => 1
      case Some(n) => if n == 0 then 1 else n;
    if orOne > 1 then orOne else 1
  }

  // ---------------------------------------------------------------------
  // Pinning, rescaling and unpinning
  // ---------------------------------------------------------------------

  /** Every amount multiplied by m, names and order kept. */
  function Scale(reagents: seq<Reagent>, m: Multiplier): (r: seq<Reagent>)
    ensures |r| == |reagents|
    ensures forall i :: 0 <= i < |r| ==>
      r[i].reagentName == reagents[i].reagentName && r[i].amount == reagents[i].amount * m as real
  {
    seq(|reagents|, i requires 0 <= i < |reagents| =>
      reagents[i].(amount := reagents[i].amount * m as real))
  }

  /** The snapshot `pinRecipe` builds from a recipe and the craft multiplier. */
  function PinAt(recipe: Recipe, m: Multiplier): PinnedRecipe
  {
    PinnedRecipe(recipe.(reagents := Scale(recipe.reagents, m)), m)
  }

  /** `pinRecipe`'s new list: with a current recipe, its snapshot appended at
      the end; without one, the list as it was. */
  function Pin(pinned: seq<PinnedRecipe>, current: Option<Recipe>, m: Multiplier): (r: seq<PinnedRecipe>)
    ensures current.None? ==> r == pinned
    ensures current.Some? ==> |r| == |pinned| + 1 && r[..|pinned|] == pinned
    ensures current.Some? ==>
      var p := r[|pinned|];
      && p.multiplier == m
      && p.recipe.(reagents := current.value.reagents) == current.value
      && |p.recipe.reagents| == |current.value.reagents|
      && forall i :: 0 <= i < |p.recipe.reagents| ==>
           p.recipe.reagents[i].reagentName == current.value.reagents[i].reagentName
           && p.recipe.reagents[i].amount == current.value.reagents[i].amount * m as real
  {
    match current
    case None => pinned
    case Some(recipe) => pinned + [PinAt(recipe, m)]
  }

  /** One pinned entry moved to multiplier n: each stored amount has the old
      multiplier divided out and n multiplied in. */
  function Rescale(p: PinnedRecipe, n: Multiplier): (q: PinnedRecipe)
    ensures q.multiplier == n
    ensures q.recipe.(reagents := p.recipe.reagents) == p.recipe
    ensures |q.recipe.reagents| == |p.recipe.reagents|
    ensures forall i :: 0 <= i < |q.recipe.reagents| ==>
      q.recipe.reagents[i].reagentName == p.recipe.reagents[i].reagentName
      && q.recipe.reagents[i].amount * p.multiplier as real == p.recipe.reagents[i].amount * n as real
  {
    var rs := p.recipe.reagents;
    var scaled := seq(|rs|, i requires 0 <= i < |rs| =>
      rs[i].(amount := rs[i].amount / p.multiplier as real * n as real));
    assert forall i :: 0 <= i < |rs| ==>
      scaled[i].amount * p.multiplier as real == rs[i].amount * n as real by {
      forall i | 0 <= i < |rs| {
        DivideOutMultiplyIn(rs[i].amount, p.multiplier as real, n as real);
      }
    }
    PinnedRecipe(p.recipe.(reagents := scaled), n)
  }

  lemma DivideOutMultiplyIn(a: real, m: real, n: real)
    requires m != 0.0
    ensures a / m * n * m == a * n
  {
  }

  /** `updatePinnedRecipeMultiplier(index, n)`'s new list: the entry at index
      rescaled, every other entry untouched; an index outside the list changes
      nothing. */
  function RescaleAt(pinned: seq<PinnedRecipe>, index: int, n: Multiplier): (r: seq<PinnedRecipe>)
    ensures |r| == |pinned|
    ensures forall k :: 0 <= k < |r| && k != index ==> r[k] == pinned[k]
    ensures 0 <= index < |pinned| ==> r[index] == Rescale(pinned[index], n)
    ensures !(0 <= index < |pinned|) ==> r == pinned
  {
    seq(|pinned|, k requires 0 <= k < |pinned| =>
      if k == index then Rescale(pinned[k], n) else pinned[k])
  }

  /** `removePinnedRecipe(index)`'s new list: keep every entry whose position
      differs from index. */
  function RemoveAt(pinned: seq<PinnedRecipe>, index: int): (r: seq<PinnedRecipe>)
    ensures 0 <= index < |pinned| ==> r == pinned[..index] + pinned[index + 1..]
    ensures !(0 <= index < |pinned|) ==> r == pinned
  {
    if pinned == [] then []
    else (if index == 0 then [] else [pinned[0]]) + RemoveAt(pinned[1..], index - 1)
  }

  /** Rescaling is drift-free with exact arithmetic: a recipe pinned at m and
      rescaled to n holds exactly base amount times n. */
  lemma {:induction false} RescaleOfPin(recipe: Recipe, m: Multiplier, n: Multiplier)
    ensures Rescale(PinAt(recipe, m), n) == PinAt(recipe, n)
  {
    var a := Rescale(PinAt(recipe, m), n).recipe.reagents;
    var b := PinAt(recipe, n).recipe.reagents;
    forall i | 0 <= i < |a|
      ensures a[i] == b[i]
    {
      var base := recipe.reagents[i].amount;
      assert a[i].amount * m as real == base * m as real * n as real;
      assert a[i].amount == base * n as real;
    }
    assert a == b;
  }

  /** Two rescales in a row amount to one rescale to the final multiplier. */
  lemma {:induction false} RescaleTwice(p: PinnedRecipe, n1: Multiplier, n2: Multiplier)
    ensures Rescale(Rescale(p, n1), n2) == Rescale(p, n2)
  {
    var a := Rescale(Rescale(p, n1), n2).recipe.reagents;
    var b := Rescale(p, n2).recipe.reagents;
    forall i | 0 <= i < |a|
      ensures a[i] == b[i]
    {
      var x := p.recipe.reagents[i].amount;
      var y := Rescale(p, n1).recipe.reagents[i].amount;
      assert y * p.multiplier as real == x * n1 as real;
      assert a[i].amount * n1 as real == y * n2 as real;
      assert b[i].amount * p.multiplier as real == x * n2 as real;
      assert a[i].amount * n1 as real * p.multiplier as real == x * n1 as real * n2 as real;
      assert a[i].amount * p.multiplier as real == x * n2 as real;
    }
    assert a == b;
  }

  /** The entry was pinned from this dataset: it is the snapshot of some
      record at its own multiplier. */
  ghost predicate PinnedFrom(p: PinnedRecipe, db: seq<Recipe>)
  {
    exists j :: 0 <= j < |db| && p == PinAt(db[j], p.multiplier)
  }

  /** Rescaling keeps an entry a faithful snapshot of its record. */
  lemma RescalePinnedFrom(p: PinnedRecipe, db: seq<Recipe>, n: Multiplier)
    requires PinnedFrom(p, db)
    ensures PinnedFrom(Rescale(p, n), db)
  {
    var j :| 0 <= j < |db| && p == PinAt(db[j], p.multiplier);
    RescaleOfPin(db[j], p.multiplier, n);
  }
}
