/**
 * ItemIdSet: an immutable set of item ids, built once from a sequence and
 * keyed by numeric id, so that ids with the same numeric id collapse.
 */
module ItemIdSets {

  /** An item id, identified by its numeric id (Q42 has numeric id 42). */
  datatype ItemId = ItemId(numericId: nat)

  /** The table the constructor builds: each id stored under its numeric id, in input order. */
  function KeyedById(ids: seq<ItemId>): (r: map<nat, ItemId>)
    ensures forall n :: n in r ==> r[n] == ItemId(n)
  {
    if ids == [] then map[]
    else
      var last := ids[|ids| - 1];
      KeyedById(ids[..|ids| - 1])[last.numericId := last]
  }

  /** The distinct numeric ids of a sequence. */
  ghost function NumericIds(ids: seq<ItemId>): set<nat> {
    set i | 0 <= i < |ids| :: ids[i].numericId
  }

  class ItemIdSet {
    const ids: map<nat, ItemId>
    /** The sequence the set was built from. */
    ghost const input: seq<ItemId>

    ghost predicate Valid() {
      ids == KeyedById(input)
    }

    constructor (ids: seq<ItemId>)
      ensures Valid() && input == ids
    {
      var table: map<nat, ItemId> := map[];
      for i := 0 to |ids|
        invariant table == KeyedById(ids[..i])
      {
        assert ids[..i + 1][..i] == ids[..i];
        table := table[ids[i].numericId := ids[i]];
      }
      assert ids[..|ids|] == ids;
      this.ids := table;
      input := ids;
    }

    /** The number of distinct numeric ids given, at most the number of ids given. */
    function Count(): (n: nat)
      requires Valid()
      ensures n == |NumericIds(input)|
      ensures n <= |input|
    {
      KeyedByIdKeys(input);
      NumericIdsBound(input);
      |ids|
    }

    /** True exactly when some given id has the same numeric id. */
    function Has(id: ItemId): (b: bool)
      requires Valid()
      ensures b <==> exists i :: 0 <= i < |input| && input[i].numericId == id.numericId
    {
      KeyedByIdKeys(input);
      id.numericId in ids
    }

    /** Both sets were built from the same numeric ids, whatever their order and repetitions. */
    function Equals(target: ItemIdSet): (b: bool)
      requires Valid() && target.Valid()
      ensures b <==> NumericIds(input) == NumericIds(target.input)
    {
      KeyedByIdKeys(input);
      KeyedByIdKeys(target.input);
      ids == target.ids
    }
  }

  /** The keys of the table are exactly the numeric ids of the input. */
  lemma {:induction false} KeyedByIdKeys(ids: seq<ItemId>)
    ensures KeyedById(ids).Keys == NumericIds(ids)
  {
    if ids != [] {
      var prefix := ids[..|ids| - 1];
      KeyedByIdKeys(prefix);
      assert ids == prefix + [ids[|ids| - 1]];
      assert NumericIds(ids) == NumericIds(prefix) + {ids[|ids| - 1].numericId} by {
        forall n | n in NumericIds(ids) ensures n in NumericIds(prefix) + {ids[|ids| - 1].numericId} {
          var i :| 0 <= i < |ids| && ids[i].numericId == n;
          if i < |ids| - 1 {
            assert prefix[i] == ids[i];
          }
        }
        forall n | n in NumericIds(prefix) ensures n in NumericIds(ids) {
          var i :| 0 <= i < |prefix| && prefix[i].numericId == n;
          assert ids[i] == prefix[i];
        }
      }
    }
  }

  /** A sequence has no more distinct numeric ids than elements. */
  lemma {:induction false} NumericIdsBound(ids: seq<ItemId>)
    ensures |NumericIds(ids)| <= |ids|
  {
    if ids != [] {
      var prefix := ids[..|ids| - 1];
      NumericIdsBound(prefix);
      KeyedByIdKeys(ids);
      KeyedByIdKeys(prefix);
      assert NumericIds(ids) <= NumericIds(prefix) + {ids[|ids| - 1].numericId};
    }
  }

  /** Equality of item id sets is reflexive and symmetric. */
  lemma EqualsReflexiveSymmetric(a: ItemIdSet, b: ItemIdSet)
    requires a.Valid() && b.Valid()
    ensures a.Equals(a)
    ensures a.Equals(b) == b.Equals(a)
  {
  }

  /** Duplicates collapse: the set of [Q1, Q1, Q2] counts 2, has Q1 and lacks Q3. */
  method DuplicatesCollapse() returns (ids: ItemIdSet)
    ensures ids.Valid()
    ensures ids.Count() == 2 && ids.Has(ItemId(1)) && !ids.Has(ItemId(3))
  {
    ids := new ItemIdSet([ItemId(1), ItemId(1), ItemId(2)]);
    assert NumericIds(ids.input) == {1, 2} by {
      assert ids.input[0].numericId == 1 && ids.input[2].numericId == 2;
    }
  }
}
