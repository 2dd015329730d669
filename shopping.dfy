/** The shopping list derived from the pinned recipes: every pinned reagent,
    grouped by name in the order names are first seen, amounts summed. */
module Shopping {
  import opened Cart

  /** Every reagent of every pinned entry, entry by entry, in list order. */
  function AllReagents(pinned: seq<PinnedRecipe>): seq<Reagent>
  {
    if pinned == [] then []
    else AllReagents(pinned[..|pinned| - 1]) + pinned[|pinned| - 1].recipe.reagents
  }

  /** Folding one reagent into the list: the entry with the same name has the
      amount added; a name not present yet is appended as a copy. */
  function AddReagent(list: seq<Reagent>, g: Reagent): seq<Reagent>
  {
    if list == [] then [g]
    else if list[0].reagentName == g.reagentName then
      [list[0].(amount := list[0].amount + g.amount)] + list[1..]
    else [list[0]] + AddReagent(list[1..], g)
  }

  /** Folding a whole reagent sequence, front to back, into an empty list. */
  function Aggregate(rs: seq<Reagent>): seq<Reagent>
  {
    if rs == [] then [] else AddReagent(Aggregate(rs[..|rs| - 1]), rs[|rs| - 1])
  }

  /** What the `shoppingList` memo computes from the pinned list. */
  function ShoppingListOf(pinned: seq<PinnedRecipe>): seq<Reagent>
  {
    Aggregate(AllReagents(pinned))
  }

  // ---------------------------------------------------------------------
  // Reference definitions
  // ---------------------------------------------------------------------

  function Names(rs: seq<Reagent>): (ns: seq<string>)
    ensures |ns| == |rs|
    ensures forall i :: 0 <= i < |rs| ==> ns[i] == rs[i].reagentName
  {
    seq(|rs|, i requires 0 <= i < |rs| => rs[i].reagentName)
  }

  predicate Distinct(ns: seq<string>)
  {
    forall i, j :: 0 <= i < j < |ns| ==> ns[i] != ns[j]
  }

  /** The names in first-seen order, each once. */
  function Dedup(ns: seq<string>): seq<string>
  {
    if ns == [] then []
    else
      var d := Dedup(ns[..|ns| - 1]);
      if ns[|ns| - 1] in d then d else d + [ns[|ns| - 1]]
  }

  /** The total amount of the reagents called `name`. */
  function SumFor(rs: seq<Reagent>, name: string): real
  {
    if rs == [] then 0.0
    else SumFor(rs[..|rs| - 1], name) + (if rs[|rs| - 1].reagentName == name then rs[|rs| - 1].amount else 0.0)
  }

  /** The total amount of all reagents. */
  function Total(rs: seq<Reagent>): real
  {
    if rs == [] then 0.0 else Total(rs[..|rs| - 1]) + rs[|rs| - 1].amount
  }

  // ---------------------------------------------------------------------
  // Properties
  // ---------------------------------------------------------------------

  /** Dedup keeps each name once and loses none. */
  lemma {:induction false} DedupSpec(ns: seq<string>)
    ensures Distinct(Dedup(ns))
    ensures forall x :: x in Dedup(ns) <==> x in ns
  {
    if ns != [] {
      var init := ns[..|ns| - 1];
      DedupSpec(init);
      assert ns == init + [ns[|ns| - 1]];
    }
  }

  /** Folding a reagent in keeps the names as they were when the name is
      present, and appends it otherwise. */
  lemma {:induction false} AddReagentNames(list: seq<Reagent>, g: Reagent)
    ensures Names(AddReagent(list, g)) ==
      if g.reagentName in Names(list) then Names(list) else Names(list) + [g.reagentName]
  {
    if list != [] {
      AddReagentNames(list[1..], g);
      assert Names(list) == [list[0].reagentName] + Names(list[1..]);
      var r := AddReagent(list, g);
      if list[0].reagentName != g.reagentName {
        assert Names(r) == [list[0].reagentName] + Names(AddReagent(list[1..], g));
      } else {
        assert Names(r) == [list[0].reagentName] + Names(list[1..]);
      }
    }
  }

  /** The names of the aggregated list are the names of the input in
      first-seen order, each once. */
  lemma {:induction false} AggregateNames(rs: seq<Reagent>)
    ensures Names(Aggregate(rs)) == Dedup(Names(rs))
  {
    if rs != [] {
      var init := rs[..|rs| - 1];
      AggregateNames(init);
      AddReagentNames(Aggregate(init), rs[|rs| - 1]);
      assert Names(rs)[..|rs| - 1] == Names(init);
    }
  }

  /** With distinct names, folding in a reagent whose name sits at position k
      adds its amount there and changes nothing else. */
  lemma {:induction false} AddReagentExisting(list: seq<Reagent>, g: Reagent, k: nat)
    requires Distinct(Names(list))
    requires k < |list| && list[k].reagentName == g.reagentName
    ensures AddReagent(list, g) == list[k := list[k].(amount := list[k].amount + g.amount)]
  {
    if k > 0 {
      assert Names(list[1..]) == Names(list)[1..];
      AddReagentExisting(list[1..], g, k - 1);
    }
  }

  /** Folding in a reagent whose name is new appends a copy of it. */
  lemma {:induction false} AddReagentNew(list: seq<Reagent>, g: Reagent)
    requires g.reagentName !in Names(list)
    ensures AddReagent(list, g) == list + [g]
  {
    if list != [] {
      assert Names(list[1..]) == Names(list)[1..];
      assert list[0].reagentName == Names(list)[0];
      AddReagentNew(list[1..], g);
    }
  }

  lemma {:induction false} SumForAbsent(rs: seq<Reagent>, name: string)
    requires name !in Names(rs)
    ensures SumFor(rs, name) == 0.0
  {
    if rs != [] {
      assert Names(rs[..|rs| - 1]) == Names(rs)[..|rs| - 1];
      assert rs[|rs| - 1].reagentName == Names(rs)[|rs| - 1];
      SumForAbsent(rs[..|rs| - 1], name);
    }
  }

  /** Each aggregated entry carries the sum of the amounts of its name. */
  lemma {:induction false} AggregateAmounts(rs: seq<Reagent>)
    ensures forall k :: 0 <= k < |Aggregate(rs)| ==>
      Aggregate(rs)[k].amount == SumFor(rs, Aggregate(rs)[k].reagentName)
  {
    if rs != [] {
      var init := rs[..|rs| - 1];
      var g := rs[|rs| - 1];
      var agg := Aggregate(init);
      AggregateAmounts(init);
      AggregateNames(init);
      DedupSpec(Names(init));
      var r := Aggregate(rs);
      assert r == AddReagent(agg, g);
      if g.reagentName in Names(agg) {
        var k :| 0 <= k < |agg| && Names(agg)[k] == g.reagentName;
        AddReagentExisting(agg, g, k);
      } else {
        AddReagentNew(agg, g);
        assert g.reagentName !in Names(init);
        SumForAbsent(init, g.reagentName);
      }
    }
  }

  lemma {:induction false} AddReagentTotal(list: seq<Reagent>, g: Reagent)
    ensures Total(AddReagent(list, g)) == Total(list) + g.amount
  {
    if list != [] {
      AddReagentTotal(list[1..], g);
      assert list == [list[0]] + list[1..];
      TotalCons(list[0], list[1..]);
      if list[0].reagentName == g.reagentName {
        TotalCons(list[0].(amount := list[0].amount + g.amount), list[1..]);
      } else {
        TotalCons(list[0], AddReagent(list[1..], g));
      }
    }
  }

  lemma {:induction false} TotalCons(x: Reagent, rs: seq<Reagent>)
    ensures Total([x] + rs) == x.amount + Total(rs)
    decreases |rs|
  {
    if rs != [] {
      var init := rs[..|rs| - 1];
      assert ([x] + rs)[..|rs|] == [x] + init;
      TotalCons(x, init);
    } else {
      assert ([x] + rs)[..0] == [];
    }
  }

  /** Grouping neither loses nor invents quantity. */
  lemma {:induction false} AggregateTotal(rs: seq<Reagent>)
    ensures Total(Aggregate(rs)) == Total(rs)
  {
    if rs != [] {
      AggregateTotal(rs[..|rs| - 1]);
      AddReagentTotal(Aggregate(rs[..|rs| - 1]), rs[|rs| - 1]);
    }
  }

  /** The shopping list, in full: one entry per distinct reagent name of the
      pinned recipes, in first-seen order, no name that is not pinned, each
      entry holding that name's summed amount, and the grand total kept. */
  lemma ShoppingListSpec(pinned: seq<PinnedRecipe>)
    ensures var list := ShoppingListOf(pinned);
      && Names(list) == Dedup(Names(AllReagents(pinned)))
      && Distinct(Names(list))
      && (forall n :: n in Names(list) <==> n in Names(AllReagents(pinned)))
      && (forall k :: 0 <= k < |list| ==> list[k].amount == SumFor(AllReagents(pinned), list[k].reagentName))
      && Total(list) == Total(AllReagents(pinned))
  {
    var all := AllReagents(pinned);
    AggregateNames(all);
    DedupSpec(Names(all));
    AggregateAmounts(all);
    AggregateTotal(all);
  }

  /** Two pinned entries needing "Iron Bar" at 10 and at 5 give one line of
      15. */
  lemma IronBarExample(p: PinnedRecipe, q: PinnedRecipe)
    requires p.recipe.reagents == [Reagent("Iron Bar", 10.0)]
    requires q.recipe.reagents == [Reagent("Iron Bar", 5.0)]
    ensures ShoppingListOf([p, q]) == [Reagent("Iron Bar", 15.0)]
  {
    assert [p, q][..1] == [p];
    assert [p][..0] == [];
    assert AllReagents([p]) == p.recipe.reagents;
    var all := [Reagent("Iron Bar", 10.0), Reagent("Iron Bar", 5.0)];
    assert AllReagents([p, q]) == all;
    assert all[..1] == [Reagent("Iron Bar", 10.0)];
    assert all[..1][..0] == [];
    assert Aggregate(all[..1]) == [Reagent("Iron Bar", 10.0)];
    assert AddReagent([Reagent("Iron Bar", 10.0)], Reagent("Iron Bar", 5.0)) == [Reagent("Iron Bar", 15.0)];
  }
}
