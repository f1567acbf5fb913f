/**
 * The merge both admin pages apply to a name search and a serial-number search: the name
 * results in order, then those serial results whose id was not among the name results. The
 * set of known ids is computed once, before any serial result is appended, so two serial
 * results with the same new id are both kept.
 */
module SearchMerge {
  import opened Records

  /** `new Set(items.map(item => item.id))` */
  function Ids(items: seq<Service>): (ids: set<int>)
    ensures forall x | x in items :: x.id in ids
    ensures forall id | id in ids :: exists x | x in items :: x.id == id
  {
    set x | x in items :: x.id
  }

  /** The items whose id is not in `ids`, in their original order. */
  function KeepNew(items: seq<Service>, ids: set<int>): (r: seq<Service>)
    ensures |r| <= |items|
  {
    if items == [] then []
    else (if items[0].id in ids then [] else [items[0]]) + KeepNew(items[1..], ids)
  }

  /** An item is kept exactly when it is in the list and its id is not a known one. */
  lemma {:induction false} KeepNewMembers(items: seq<Service>, ids: set<int>)
    ensures forall x :: x in KeepNew(items, ids) <==> x in items && x.id !in ids
  {
    if items != [] {
      KeepNewMembers(items[1..], ids);
      assert items == [items[0]] + items[1..];
    }
  }

  /** Filtering one more item at the end only looks at that item. */
  lemma {:induction false} KeepNewSnoc(items: seq<Service>, x: Service, ids: set<int>)
    ensures KeepNew(items + [x], ids) == KeepNew(items, ids) + (if x.id in ids then [] else [x])
  {
    if items == [] {
      assert [x][1..] == [];
    } else {
      assert (items + [x])[0] == items[0] && (items + [x])[1..] == items[1..] + [x];
      KeepNewSnoc(items[1..], x, ids);
    }
  }

  /** With no known ids nothing is dropped: duplicates within one list are kept. */
  lemma {:induction false} KeepNewNothingKnown(items: seq<Service>)
    ensures KeepNew(items, {}) == items
  {
    if items != [] {
      KeepNewNothingKnown(items[1..]);
    }
  }

  /** The merged result: `first`, then the items of `second` with an id not in `first`. */
  function Merged(first: seq<Service>, second: seq<Service>): seq<Service> {
    first + KeepNew(second, Ids(first))
  }

  /**
   * The merge keeps the first list as a prefix, adds only items of the second list whose id
   * is new, and adds every one of them.
   */
  lemma MergedProperties(first: seq<Service>, second: seq<Service>)
    ensures |Merged(first, second)| <= |first| + |second|
    ensures Merged(first, second)[..|first|] == first
    ensures forall x | x in Merged(first, second)[|first|..] :: x in second && x.id !in Ids(first)
    ensures forall x | x in second && x.id !in Ids(first) :: x in Merged(first, second)[|first|..]
  {
    var m := Merged(first, second);
    assert m[..|first|] == first;
    assert m[|first|..] == KeepNew(second, Ids(first));
    KeepNewMembers(second, Ids(first));
  }

  /** The union of ids: every id of the result comes from one of the two lists. */
  lemma MergedIds(first: seq<Service>, second: seq<Service>)
    ensures Ids(Merged(first, second)) == Ids(first) + Ids(second)
  {
    var m := Merged(first, second);
    KeepNewMembers(second, Ids(first));
    forall id | id in Ids(first) + Ids(second) ensures id in Ids(m) {
      if id in Ids(first) {
        var x :| x in first && x.id == id;
        assert x in m;
      } else {
        var x :| x in second && x.id == id;
        assert x in KeepNew(second, Ids(first));
        assert x in m;
      }
    }
  }

  /**
   * The loop of both pages: `existingIds` is computed once from `data`, then every item of
   * `items` whose id is not in it is pushed, in order.
   */
  method AppendNew(data: seq<Service>, items: seq<Service>) returns (r: seq<Service>)
    ensures r == Merged(data, items)
  {
    var existingIds := Ids(data);
    r := data;
    var i := 0;
    while i < |items|
      invariant 0 <= i <= |items|
      invariant r == data + KeepNew(items[..i], existingIds)
    {
      KeepNewSnoc(items[..i], items[i], existingIds);
      assert items[..i + 1] == items[..i] + [items[i]];
      if items[i].id !in existingIds {
        r := r + [items[i]];
      }
      i := i + 1;
    }
    assert items[..i] == items;
  }
}
