/**
 Keeping each group's key from one build of the rows to the next
 (`keepGroupKeys` of `packages/desktop/src/components/transcript-rows.ts`).
 */
module GroupKeys {
  import opened Wrappers
  import opened TranscriptRows

  type Seen = map<string, string>

  /** The first key an item carries from the last build that no group of this one
      has taken. */
  function Carried(items: seq<GroupItem>, seen: Seen, used: set<string>): Option<string> {
    if items == [] then None
    else if items[0].key in seen && seen[items[0].key] !in used then Some(seen[items[0].key])
    else Carried(items[1..], seen, used)
  }

  function Used(rows: seq<Row>): set<string> {
    set i | 0 <= i < |rows| && rows[i].Group? :: rows[i].key
  }

  function KeepRow(row: Row, seen: Seen, used: set<string>): Row {
    if !row.Group? then row
    else
      var carried := Carried(row.items, seen, used);
      if carried.Some? then Group(carried.value, row.items) else row
  }

  function Kept(rows: seq<Row>, seen: Seen): (out: seq<Row>)
    ensures |out| == |rows|
  {
    if rows == [] then []
    else
      var before := Kept(rows[..|rows| - 1], seen);
      before + [KeepRow(rows[|rows| - 1], seen, Used(before))]
  }

  function ItemKeys(items: seq<GroupItem>, key: string): Seen {
    if items == [] then map[] else ItemKeys(items[..|items| - 1], key)[items[|items| - 1].key := key]
  }

  /** What the next build is told: each item's group key. */
  function SeenOf(rows: seq<Row>): Seen {
    if rows == [] then map[]
    else
      var last := rows[|rows| - 1];
      SeenOf(rows[..|rows| - 1]) + if last.Group? then ItemKeys(last.items, last.key) else map[]
  }

  class KeyKeeper {
    var seen: Seen

    constructor ()
      ensures seen == map[]
    {
      seen := map[];
    }

    /** `keepGroupKeys`, with the map it changes. */
    method Keep(rows: seq<Row>) returns (out: seq<Row>)
      modifies this
      ensures out == Kept(rows, old(seen)) && seen == SeenOf(out)
    {
      hide Carried;
      out := [];
      var used := {};
      for i := 0 to |rows|
        invariant out == Kept(rows[..i], seen) && used == Used(out) && seen == old(seen)
      {
        assert rows[..i + 1][..i] == rows[..i];
        var row := rows[i];
        if row.Group? {
          var earlier := FirstEarlier(row.items, used);
          row := if earlier.Some? then Group(earlier.value, row.items) else row;
          UsedMore(out, row);
          used := used + {row.key};
        } else {
          UsedMore(out, row);
        }
        out := out + [row];
      }
      assert rows[..|rows|] == rows;
      seen := map[];
      for i := 0 to |out|
        invariant out == Kept(rows, old(seen)) && seen == SeenOf(out[..i])
      {
        assert out[..i + 1][..i] == out[..i];
        if out[i].Group? {
          Remember(out[i].items, out[i].key);
        }
      }
      assert out[..|out|] == out;
    }

    /** `.map(seen.get).find(key => key !== undefined && !used.has(key))` */
    method FirstEarlier(items: seq<GroupItem>, used: set<string>) returns (key: Option<string>)
      ensures key == Carried(items, seen, used)
    {
      for i := 0 to |items|
        invariant Carried(items, seen, used) == Carried(items[i..], seen, used)
      {
        if items[i].key in seen && seen[items[i].key] !in used {
          return Some(seen[items[i].key]);
        }
      }
      return None;
    }

    method Remember(items: seq<GroupItem>, key: string)
      modifies this
      ensures seen == old(seen) + ItemKeys(items, key)
    {
      for i := 0 to |items|
        invariant seen == old(seen) + ItemKeys(items[..i], key)
      {
        assert items[..i + 1][..i] == items[..i];
        seen := seen[items[i].key := key];
      }
      assert items[..|items|] == items;
    }
  }

  lemma UsedMore(rows: seq<Row>, row: Row)
    ensures Used(rows + [row]) == Used(rows) + if row.Group? then {row.key} else {}
  {
    var more := rows + [row];
    assert more[|rows|] == row;
    forall key | key in Used(rows)
      ensures key in Used(more)
    {
      var i :| 0 <= i < |rows| && rows[i].Group? && rows[i].key == key;
      assert more[i].key == key;
    }
    if row.Group? {
      assert row.key in Used(more);
    }
  }

  // ---- Any build at all ----

  lemma {:induction false} KeptAt(rows: seq<Row>, seen: Seen, i: nat)
    requires i < |rows|
    ensures Kept(rows, seen)[..i] == Kept(rows[..i], seen)
    ensures Kept(rows, seen)[i] == KeepRow(rows[i], seen, Used(Kept(rows, seen)[..i]))
    decreases |rows|
  {
    hide KeepRow;
    var n := |rows| - 1;
    if i < n {
      KeptAt(rows[..n], seen, i);
      assert rows[..n][..i] == rows[..i];
      assert Kept(rows, seen)[..i] == Kept(rows[..n], seen)[..i];
    }
  }

  lemma {:induction false} CarriedIsFree(items: seq<GroupItem>, seen: Seen, used: set<string>)
    ensures Carried(items, seen, used).Some? ==> Carried(items, seen, used).value !in used
  {
    if items != [] {
      CarriedIsFree(items[1..], seen, used);
    }
  }

  /** A group before row `j` has taken the key. Who takes what is told by the rows and
      what was seen alone. */
  ghost predicate Claimed(rows: seq<Row>, seen: Seen, j: nat, key: string)
    requires j <= |rows|
    decreases j, 0
  {
    exists i :: 0 <= i < j && Takes(rows, seen, i, key)
  }

  /** The item was seen, under a key no group before row `i` has taken. */
  ghost predicate Free(rows: seq<Row>, seen: Seen, i: nat, item: GroupItem)
    requires i < |rows|
    decreases i, 1
  {
    item.key in seen && !Claimed(rows, seen, i, seen[item.key])
  }

  /** The group has no such item. */
  ghost predicate FellBack(rows: seq<Row>, seen: Seen, i: nat)
    requires i < |rows|
    decreases i, 2
  {
    rows[i].Group? && forall n :: 0 <= n < |rows[i].items| ==> !Free(rows, seen, i, rows[i].items[n])
  }

  ghost predicate FirstFree(rows: seq<Row>, seen: Seen, i: nat, n: nat)
    requires i < |rows|
    decreases i, 2
  {
    && rows[i].Group? && n < |rows[i].items| && Free(rows, seen, i, rows[i].items[n])
    && forall m :: 0 <= m < n ==> !Free(rows, seen, i, rows[i].items[m])
  }

  /** The key of the first such item, else the group's own. */
  ghost predicate Takes(rows: seq<Row>, seen: Seen, i: nat, key: string)
    requires i < |rows|
    decreases i, 3
  {
    || (rows[i].Group?
        && exists n: nat :: FirstFree(rows, seen, i, n)
             && n < |rows[i].items| && rows[i].items[n].key in seen && seen[rows[i].items[n].key] == key)
    || (FellBack(rows, seen, i) && key == rows[i].key)
  }

  lemma {:induction false} FirstUnused(items: seq<GroupItem>, seen: Seen, used: set<string>) returns (n: nat)
    ensures n <= |items|
    ensures forall m :: 0 <= m < n ==> !(items[m].key in seen && seen[items[m].key] !in used)
    ensures n < |items| ==> items[n].key in seen && seen[items[n].key] !in used
    ensures Carried(items, seen, used) == if n < |items| then Some(seen[items[n].key]) else None
    decreases |items|
  {
    if items == [] || (items[0].key in seen && seen[items[0].key] !in used) {
      n := 0;
    } else {
      var rest := FirstUnused(items[1..], seen, used);
      n := rest + 1;
      assert forall m :: 1 <= m < n ==> items[m] == items[1..][m - 1];
    }
  }

  /** Taken keys are those the build has given away. */
  lemma {:induction false} ClaimedIsUsed(rows: seq<Row>, seen: Seen, j: nat, key: string)
    requires j <= |rows|
    ensures Claimed(rows, seen, j, key) <==> key in Used(Kept(rows, seen)[..j])
    decreases j, 0
  {
    hide Takes, KeepRow;
    var out := Kept(rows, seen);
    forall i | 0 <= i < j
      ensures Takes(rows, seen, i, key) <==> out[i].Group? && out[i].key == key
    {
      TakesIs(rows, seen, i, key);
    }
    assert forall i :: 0 <= i < j ==> out[..j][i] == out[i];
  }

  lemma {:induction false} TakesIs(rows: seq<Row>, seen: Seen, i: nat, key: string)
    requires i < |rows|
    ensures Takes(rows, seen, i, key) <==> Kept(rows, seen)[i].Group? && Kept(rows, seen)[i].key == key
    ensures FellBack(rows, seen, i) ==> Kept(rows, seen)[i] == rows[i]
    ensures Kept(rows, seen)[i].Group? <==> rows[i].Group?
    ensures FellBack(rows, seen, i) <==> rows[i].Group? && Carried(rows[i].items, seen, Used(Kept(rows, seen)[..i])).None?
    decreases i, 1
  {
    hide Claimed, Carried, Kept;
    KeptAt(rows, seen, i);
    if rows[i].Group? {
      var used, items := Used(Kept(rows, seen)[..i]), rows[i].items;
      forall m | 0 <= m < |items|
        ensures Free(rows, seen, i, items[m]) <==> items[m].key in seen && seen[items[m].key] !in used
      {
        if items[m].key in seen {
          ClaimedIsUsed(rows, seen, i, seen[items[m].key]);
        }
      }
      var n := FirstUnused(items, seen, used);
      assert n < |items| ==> FirstFree(rows, seen, i, n);
    }
  }

  ghost predicate KeysDistinct(rows: seq<Row>) {
    forall i, j :: 0 <= i < j < |rows| && rows[i].Group? && rows[j].Group? ==> rows[i].key != rows[j].key
  }

  /** A key carried over is never given to a group when an earlier row has it. */
  lemma CarriedKeyOnce(rows: seq<Row>, seen: Seen, i: nat, j: nat)
    requires i < j < |rows| && rows[i].Group? && rows[j].Group? && !FellBack(rows, seen, j)
    ensures Kept(rows, seen)[i].key != Kept(rows, seen)[j].key
  {
    hide Carried, FellBack, Takes;
    KeptAt(rows, seen, j);
    TakesIs(rows, seen, i, rows[i].key);
    TakesIs(rows, seen, j, rows[j].key);
    var before := Kept(rows, seen)[..j];
    CarriedIsFree(rows[j].items, seen, Used(before));
    assert before[i] == Kept(rows, seen)[i];
    assert before[i].key in Used(before);
  }

  /** Two groups of a build share a key exactly when one falls back to its own and a
      group before it has taken that. */
  lemma KeysDistinctIff(rows: seq<Row>, seen: Seen)
    ensures KeysDistinct(Kept(rows, seen))
            <==> forall j :: 0 <= j < |rows| && FellBack(rows, seen, j) ==> !Claimed(rows, seen, j, rows[j].key)
  {
    hide Carried, FellBack, Takes, Claimed, Kept;
    var out := Kept(rows, seen);
    forall j | 0 <= j < |rows|
      ensures out[j].Group? == rows[j].Group?
      ensures FellBack(rows, seen, j) ==> out[j] == rows[j] && rows[j].Group?
      ensures Claimed(rows, seen, j, rows[j].key) <==> rows[j].key in Used(out[..j])
    {
      TakesIs(rows, seen, j, rows[j].key);
      ClaimedIsUsed(rows, seen, j, rows[j].key);
    }
    forall i, j | 0 <= i < j < |rows|
      ensures out[i].Group? ==> out[i].key in Used(out[..j])
    {
      assert out[..j][i] == out[i];
    }
    forall i, j | 0 <= i < j < |rows| && rows[i].Group? && rows[j].Group? && !FellBack(rows, seen, j)
      ensures out[i].key != out[j].key
    {
      CarriedKeyOnce(rows, seen, i, j);
    }
    forall j, key | 0 <= j < |rows| && key in Used(out[..j])
      ensures exists i :: 0 <= i < j && out[i].Group? && out[i].key == key
    {
      var i :| 0 <= i < j && out[..j][i].Group? && out[..j][i].key == key;
      assert out[..j][i] == out[i];
    }
  }

  lemma KeptOne(row: Row, seen: Seen)
    ensures Kept([row], seen) == [KeepRow(row, seen, {})]
  {
    assert [row][..0] == [];
    assert Used([]) == {};
  }

  lemma CarriedOne(item: GroupItem, seen: Seen)
    ensures Carried([item], seen, {}) == if item.key in seen then Some(seen[item.key]) else None
  {
    assert [item][1..] == [];
  }

  lemma SeenOne(key: string, item: GroupItem)
    ensures SeenOf([Group(key, [item])]) == map[item.key := key]
  {
    assert [Group(key, [item])][..0] == [] && [item][..0] == [];
    assert ItemKeys([item], key) == map[item.key := key];
  }

  lemma SeenTwo(key: string, a: GroupItem, b: GroupItem)
    ensures SeenOf([Group(key, [a, b])]) == map[a.key := key, b.key := key]
  {
    assert [Group(key, [a, b])][..0] == [] && [a, b][..1] == [a] && [a][..0] == [];
    assert ItemKeys([a], key) == map[a.key := key];
  }

  /** A group that was cut in two: `b` came first and gave the group its key, `a`
      joined it in front, and when they part both halves claim the key. */
  lemma SplitSharesKey(a: GroupItem, b: GroupItem)
    requires a.key != b.key
    ensures var own, other := "group:" + b.key, "group:" + a.key;
            var one := Kept([Group(own, [b])], map[]);
            var two := Kept([Group(other, [a, b])], SeenOf(one));
            !KeysDistinct(Kept([Group(other, [a]), Group(own, [b])], SeenOf(two)))
  {
    var own, other := "group:" + b.key, "group:" + a.key;
    var r1, r2, r3 := Group(own, [b]), Group(other, [a, b]), Group(other, [a]);
    KeptOne(r1, map[]);
    CarriedOne(b, map[]);
    SeenOne(own, b);
    KeptOne(r2, map[b.key := own]);
    CarriedOne(b, map[b.key := own]);
    assert [a, b][1..] == [b];
    SeenTwo(own, a, b);
    var seen := map[a.key := own, b.key := own];
    KeptOne(r3, seen);
    CarriedOne(a, seen);
    assert [r3, r1][..1] == [r3];
    var first := Kept([r3], seen);
    assert first[0].key in Used(first);
    assert [b][1..] == [] && Carried([b], seen, Used(first)) == None;
    KeptAt([r3, r1], seen, 0);
    KeptAt([r3, r1], seen, 1);
    var out := Kept([r3, r1], seen);
    assert out[..1] == first && out[0] == first[0];
    assert out[0].Group? && out[1].Group? && out[0].key == out[1].key;
  }

  // ---- Builds that only grow ----

  ghost predicate Holds(items: seq<GroupItem>, key: string) {
    exists m :: 0 <= m < |items| && items[m].key == key
  }

  ghost predicate Has(row: Row, key: string) {
    row.Group? && Holds(row.items, key)
  }

  /** As `rowsOf` lays them out, no item in two groups. */
  ghost predicate Regular(rows: seq<Row>) {
    && RunsOnly(rows)
    && forall i, j, key :: 0 <= i < |rows| && 0 <= j < |rows| && Has(rows[i], key) && Has(rows[j], key) ==> i == j
  }

  ghost predicate Within(row: Row, more: Row) {
    more.Group? && forall key :: Has(row, key) ==> Has(more, key)
  }

  /** No group is split and none of its items goes. */
  ghost predicate Grows(rows: seq<Row>, more: seq<Row>) {
    forall i :: 0 <= i < |rows| && rows[i].Group? ==> exists j :: 0 <= j < |more| && Within(rows[i], more[j])
  }

  /** `key` is one of the keys the row's items can give it. */
  ghost predicate Anchored(row: Row, key: string) {
    exists item :: Has(row, item) && key == "group:" + item
  }

  /** A good build: the rows with keys that are distinct and each from an item of
      its own group. */
  ghost predicate Good(rows: seq<Row>, out: seq<Row>) {
    && |out| == |rows| && KeysDistinct(out)
    && forall i :: 0 <= i < |rows| ==>
         && (!rows[i].Group? ==> out[i] == rows[i])
         && (rows[i].Group? ==> out[i].Group? && out[i].items == rows[i].items && Anchored(rows[i], out[i].key))
  }

  lemma HoldsMore(items: seq<GroupItem>, item: GroupItem, key: string)
    ensures Holds(items + [item], key) <==> Holds(items, key) || item.key == key
  {
    var more := items + [item];
    assert more[|items|] == item;
    if Holds(items, key) {
      var m :| 0 <= m < |items| && items[m].key == key;
      assert more[m].key == key;
    }
  }

  lemma {:induction false} ItemKeysIs(items: seq<GroupItem>, key: string, k: string)
    ensures k in ItemKeys(items, key) <==> Holds(items, k)
    ensures k in ItemKeys(items, key) ==> ItemKeys(items, key)[k] == key
  {
    if items != [] {
      var n := |items| - 1;
      ItemKeysIs(items[..n], key, k);
      HoldsMore(items[..n], items[n], k);
      assert items == items[..n] + [items[n]];
    }
  }

  lemma {:induction false} SeenIs(rows: seq<Row>)
    requires forall i, j, key :: 0 <= i < |rows| && 0 <= j < |rows| && Has(rows[i], key) && Has(rows[j], key) ==> i == j
    ensures forall key :: key in SeenOf(rows) <==> exists i :: 0 <= i < |rows| && Has(rows[i], key)
    ensures forall i, key :: 0 <= i < |rows| && Has(rows[i], key) ==> SeenOf(rows)[key] == rows[i].key
  {
    hide Has;
    if rows != [] {
      var n := |rows| - 1;
      var init, last := rows[..n], rows[n];
      SeenIs(init);
      forall key
        ensures key in SeenOf(rows) <==> key in SeenOf(init) || Has(last, key)
        ensures Has(last, key) ==> SeenOf(rows)[key] == last.key
        ensures !Has(last, key) && key in SeenOf(init) ==> SeenOf(rows)[key] == SeenOf(init)[key]
      {
        LastSeen(last, key);
      }
      assert forall i :: 0 <= i < n ==> init[i] == rows[i];
    }
  }

  lemma LastSeen(row: Row, key: string)
    ensures var m := if row.Group? then ItemKeys(row.items, row.key) else map[];
            (key in m <==> Has(row, key)) && (key in m ==> m[key] == row.key)
  {
    if row.Group? {
      ItemKeysIs(row.items, row.key, key);
    }
  }

  /** With keys from their own items, what an item carries is never taken. */
  lemma {:induction false} CarriesFirst(items: seq<GroupItem>, seen: Seen, used: set<string>, n: nat)
    requires n < |items| && items[n].key in seen && seen[items[n].key] !in used
    requires forall m :: 0 <= m < n ==> items[m].key !in seen
    ensures Carried(items, seen, used) == Some(seen[items[n].key])
  {
    if n > 0 {
      CarriesFirst(items[1..], seen, used, n - 1);
    }
  }

  lemma {:induction false} CarriesNone(items: seq<GroupItem>, seen: Seen, used: set<string>)
    requires forall m :: 0 <= m < |items| ==> items[m].key !in seen
    ensures Carried(items, seen, used) == None
  {
    if items != [] {
      CarriesNone(items[1..], seen, used);
    }
  }

  /** The first of the items that the last build had, if any. */
  ghost predicate FirstKnown(items: seq<GroupItem>, seen: Seen, n: nat) {
    n < |items| && items[n].key in seen && forall m :: 0 <= m < n ==> items[m].key !in seen
  }

  lemma {:induction false} FindKnown(items: seq<GroupItem>, seen: Seen) returns (n: nat)
    ensures n <= |items|
    ensures n < |items| ==> FirstKnown(items, seen, n)
    ensures n == |items| ==> forall m :: 0 <= m < |items| ==> items[m].key !in seen
  {
    n := 0;
    while n < |items| && items[n].key !in seen
      invariant n <= |items| && forall m :: 0 <= m < n ==> items[m].key !in seen
    {
      n := n + 1;
    }
  }

  /** What an item of a grown group carries comes from an item of that same group. */
  lemma CarriedStaysHome(rows: seq<Row>, out: seq<Row>, more: seq<Row>, j: nat, item: string)
    requires Regular(rows) && Good(rows, out) && Grows(rows, more) && Regular(more)
    requires j < |more| && Has(more[j], item) && item in SeenOf(out)
    ensures Anchored(more[j], SeenOf(out)[item])
  {
    SeenOfGood(rows, out);
    var i :| 0 <= i < |out| && Has(out[i], item);
    assert Has(rows[i], item);
    var j' :| 0 <= j' < |more| && Within(rows[i], more[j']);
    assert Has(more[j'], item);
    var anchor :| Has(rows[i], anchor) && out[i].key == "group:" + anchor;
    assert Has(more[j], anchor);
  }

  lemma SeenOfGood(rows: seq<Row>, out: seq<Row>)
    requires Regular(rows) && Good(rows, out)
    ensures forall i, key :: 0 <= i < |rows| ==> (Has(out[i], key) <==> Has(rows[i], key))
    ensures forall key :: key in SeenOf(out) <==> exists i :: 0 <= i < |rows| && Has(out[i], key)
    ensures forall i, key :: 0 <= i < |rows| && Has(out[i], key) ==> SeenOf(out)[key] == out[i].key
  {
    forall i, key | 0 <= i < |rows|
      ensures Has(out[i], key) <==> Has(rows[i], key)
    {
    }
    SeenIs(out);
  }

  lemma AnchorsApart(more: seq<Row>, i: nat, j: nat, a: string, b: string)
    requires Regular(more) && i < |more| && j < |more| && i != j
    requires Anchored(more[i], a) && Anchored(more[j], b)
    ensures a != b
  {
    var x :| Has(more[i], x) && a == "group:" + x;
    var y :| Has(more[j], y) && b == "group:" + y;
    assert x == a[|"group:"|..] && y == b[|"group:"|..];
  }

  lemma OwnAnchor(row: Row)
    requires row.Group? && row.items != [] && row.key == "group:" + row.items[0].key
    ensures Anchored(row, row.key)
  {
    assert Has(row, row.items[0].key);
  }

  /** The key one grown group is given: what its first known item carries. */
  ghost predicate Inherits(row: Row, key: string, seen: Seen)
    requires row.Group?
  {
    && (forall n: nat :: FirstKnown(row.items, seen, n) ==> key == seen[row.items[n].key])
    && ((forall m :: 0 <= m < |row.items| ==> row.items[m].key !in seen) ==> key == row.key)
  }

  lemma {:induction false} GrowBuild(rows: seq<Row>, out: seq<Row>, more: seq<Row>, j: nat)
    requires Regular(rows) && Good(rows, out) && Grows(rows, more) && Regular(more)
    requires j <= |more|
    ensures var kept := Kept(more[..j], SeenOf(out));
            forall k :: 0 <= k < j && more[k].Group? ==>
              && kept[k].Group? && kept[k].items == more[k].items
              && Anchored(more[k], kept[k].key)
              && Inherits(more[k], kept[k].key, SeenOf(out))
    ensures forall k :: 0 <= k < j && !more[k].Group? ==> Kept(more[..j], SeenOf(out))[k] == more[k]
  {
    if j > 0 {
      var seen, row := SeenOf(out), more[j - 1];
      GrowBuild(rows, out, more, j - 1);
      assert more[..j][..j - 1] == more[..j - 1];
      var before := Kept(more[..j - 1], seen);
      if row.Group? {
        GrowGroup(rows, out, more, j - 1, before);
      }
    }
  }

  lemma GrowGroup(rows: seq<Row>, out: seq<Row>, more: seq<Row>, j: nat, before: seq<Row>)
    requires Regular(rows) && Good(rows, out) && Grows(rows, more) && Regular(more)
    requires j < |more| && more[j].Group? && |before| == j
    requires forall k :: 0 <= k < j && before[k].Group? ==> Anchored(more[k], before[k].key)
    ensures var row := KeepRow(more[j], SeenOf(out), Used(before));
            && Anchored(more[j], row.key) && Inherits(more[j], row.key, SeenOf(out))
  {
    hide Anchored, Regular, Good, Grows, Has, Carried, SeenOf;
    var seen, row := SeenOf(out), more[j];
    var n := FindKnown(row.items, seen);
    if n < |row.items| {
      var key := seen[row.items[n].key];
      HasItem(row, n);
      CarriedStaysHome(rows, out, more, j, row.items[n].key);
      forall k | 0 <= k < j && before[k].Group?
        ensures before[k].key != key
      {
        AnchorsApart(more, k, j, before[k].key, key);
      }
      CarriesFirst(row.items, seen, Used(before), n);
      assert FirstKnown(row.items, seen, n);
    } else {
      CarriesNone(row.items, seen, Used(before));
      RegularKey(more, j);
      OwnAnchor(row);
    }
  }

  lemma HasItem(row: Row, n: nat)
    requires row.Group? && n < |row.items|
    ensures Has(row, row.items[n].key)
  {
  }

  lemma RegularKey(rows: seq<Row>, j: nat)
    requires Regular(rows) && j < |rows| && rows[j].Group?
    ensures rows[j].items != [] && rows[j].key == "group:" + rows[j].items[0].key
  {
  }

  /** From a good build to the next one that only grew: the keys are good again, and
      each group has the key of its first item the last build knew. */
  lemma GrownKeys(rows: seq<Row>, out: seq<Row>, more: seq<Row>)
    requires Regular(rows) && Good(rows, out) && Grows(rows, more) && Regular(more)
    ensures Good(more, Kept(more, SeenOf(out)))
    ensures forall j :: 0 <= j < |more| && more[j].Group? ==>
              Inherits(more[j], Kept(more, SeenOf(out))[j].key, SeenOf(out))
  {
    GrowBuild(rows, out, more, |more|);
    assert more[..|more|] == more;
    var kept := Kept(more, SeenOf(out));
    forall i, j | 0 <= i < j < |kept| && kept[i].Group? && kept[j].Group?
      ensures kept[i].key != kept[j].key
    {
      AnchorsApart(more, i, j, kept[i].key, kept[j].key);
    }
  }

  /** The builds of a run, one after the other. */
  function Builds(runs: seq<seq<Row>>): seq<seq<Row>> {
    if runs == [] then []
    else
      var before := Builds(runs[..|runs| - 1]);
      before + [Kept(runs[|runs| - 1], if before == [] then map[] else SeenOf(before[|before| - 1]))]
  }

  ghost predicate OnlyGrows(runs: seq<seq<Row>>) {
    && (forall t :: 0 <= t < |runs| ==> Regular(runs[t]))
    && (forall t, u :: 0 <= t && u == t + 1 < |runs| ==> Grows(runs[t], runs[u]))
  }

  lemma FirstBuild(rows: seq<Row>)
    requires Regular(rows)
    ensures Good(rows, Kept(rows, map[]))
  {
    assert Good([], []);
    assert SeenOf([]) == map[];
    GrownKeys([], [], rows);
  }

  /** Over any run that only adds items and never splits a group, every build is
      good: its group keys are distinct. */
  lemma {:induction false} RunKeepsKeys(runs: seq<seq<Row>>)
    requires OnlyGrows(runs)
    ensures |Builds(runs)| == |runs|
    ensures forall t :: 0 <= t < |runs| ==> Good(runs[t], Builds(runs)[t]) && KeysDistinct(Builds(runs)[t])
  {
    hide Good, Regular, Grows;
    if runs != [] {
      var n := |runs| - 1;
      RunKeepsKeys(runs[..n]);
      if n == 0 {
        FirstBuild(runs[0]);
      } else {
        assert Grows(runs[n - 1], runs[n]);
        GrownKeys(runs[n - 1], Builds(runs[..n])[n - 1], runs[n]);
      }
      GoodDistinct(runs[n], Builds(runs)[n]);
    }
  }

  lemma GoodDistinct(rows: seq<Row>, out: seq<Row>)
    requires Good(rows, out)
    ensures KeysDistinct(out)
  {
  }

  /** A group all of whose known items were one group before keeps that group's key,
      at whichever end it grew; of merged groups, the one the first known item was in. */
  lemma GroupKeepsKey(rows: seq<Row>, out: seq<Row>, more: seq<Row>, i: nat, j: nat, n: nat)
    requires Regular(rows) && Good(rows, out) && Grows(rows, more) && Regular(more)
    requires i < |rows| && j < |more| && more[j].Group? && n < |more[j].items|
    requires Has(rows[i], more[j].items[n].key)
    requires forall m, k :: 0 <= m < n && 0 <= k < |rows| ==> !Has(rows[k], more[j].items[m].key)
    ensures Kept(more, SeenOf(out))[j].key == out[i].key
  {
    SeenOfGood(rows, out);
    GrownKeys(rows, out, more);
    var items := more[j].items;
    forall m | 0 <= m < n
      ensures items[m].key !in SeenOf(out)
    {
      assert forall k :: 0 <= k < |rows| ==> !Has(out[k], items[m].key);
    }
    assert Has(out[i], items[n].key);
    assert FirstKnown(items, SeenOf(out), n);
  }


  // ---- From one good build to any other rows ----

  /** The group begins with the item that named the group it was in before. */
  ghost predicate BeginsAsBefore(row: Row, seen: Seen) {
    row.Group? && row.items != [] && row.items[0].key in seen && seen[row.items[0].key] == row.key
  }

  /** An item of the row carries the key. */
  ghost predicate Carries(row: Row, seen: Seen, key: string) {
    exists a :: Has(row, a) && a in seen && seen[a] == key
  }

  lemma Taker(rows: seq<Row>, seen: Seen, j: nat, key: string) returns (i: nat)
    requires j <= |rows| && Claimed(rows, seen, j, key)
    ensures i < j && Takes(rows, seen, i, key)
  {
    i :| 0 <= i < j && Takes(rows, seen, i, key);
  }

  lemma ClaimedSince(rows: seq<Row>, seen: Seen, i: nat, j: nat, key: string)
    requires i <= j <= |rows| && Claimed(rows, seen, i, key)
    ensures Claimed(rows, seen, j, key)
  {
  }

  /** A seen item whose key is a group's own one was in the group its first item named. */
  lemma OwnKeySeen(before: seq<Row>, out: seq<Row>, rows: seq<Row>, j: nat, y: string)
    requires Regular(before) && Good(before, out) && Regular(rows) && j < |rows| && rows[j].Group?
    requires y in SeenOf(out) && SeenOf(out)[y] == rows[j].key
    ensures BeginsAsBefore(rows[j], SeenOf(out))
  {
    hide SeenOf;
    SeenOfGood(before, out);
    RegularKey(rows, j);
    var p: nat :| p < |before| && Has(out[p], y);
    assert Has(before[p], y) && Anchored(before[p], out[p].key);
    var a :| Has(before[p], a) && out[p].key == "group:" + a;
    SameName(a, rows[j].items[0].key);
    assert Has(out[p], a);
  }

  lemma SameName(a: string, b: string)
    requires "group:" + a == "group:" + b
    ensures a == b
  {
    assert a == ("group:" + a)[|"group:"|..] && b == ("group:" + b)[|"group:"|..];
  }

  lemma OwnKeyTaken(before: seq<Row>, out: seq<Row>, rows: seq<Row>, i: nat, j: nat)
    requires Regular(before) && Good(before, out) && Regular(rows) && i < j < |rows| && rows[j].Group?
    requires Takes(rows, SeenOf(out), i, rows[j].key)
    ensures BeginsAsBefore(rows[j], SeenOf(out))
    ensures Carries(rows[i], SeenOf(out), rows[j].key)
  {
    hide Regular, Good, SeenOf, FirstFree, Kept;
    var seen := SeenOf(out);
    if FellBack(rows, seen, i) && rows[i].key == rows[j].key {
      RegularKey(rows, i);
      RegularKey(rows, j);
      SameName(rows[i].items[0].key, rows[j].items[0].key);
      HasItem(rows[i], 0);
      HasItem(rows[j], 0);
      OneRow(rows, i, j, rows[i].items[0].key);
      assert false;
    } else {
      var n: nat :| FirstFree(rows, seen, i, n)
                    && n < |rows[i].items| && rows[i].items[n].key in seen && seen[rows[i].items[n].key] == rows[j].key;
      OwnKeySeen(before, out, rows, j, rows[i].items[n].key);
      HasItem(rows[i], n);
    }
  }

  lemma OneRow(rows: seq<Row>, i: nat, j: nat, key: string)
    requires Regular(rows) && i < |rows| && j < |rows| && Has(rows[i], key) && Has(rows[j], key)
    ensures i == j
  {
  }

  /** After a good build, whatever was split or joined since: two groups share a key
      exactly when one begins with the item that named its old group, and groups before
      it have taken every key its items carry. */
  lemma ClashIff(before: seq<Row>, out: seq<Row>, rows: seq<Row>)
    requires Regular(before) && Good(before, out) && Regular(rows)
    ensures KeysDistinct(Kept(rows, SeenOf(out)))
            <==> forall j :: 0 <= j < |rows| && BeginsAsBefore(rows[j], SeenOf(out)) ==> !FellBack(rows, SeenOf(out), j)
  {
    hide Regular, Good, SeenOf, Kept, KeysDistinct, Takes;
    var seen := SeenOf(out);
    KeysDistinctIff(rows, seen);
    forall j | 0 <= j < |rows| && FellBack(rows, seen, j)
      ensures Claimed(rows, seen, j, rows[j].key) <==> BeginsAsBefore(rows[j], seen)
    {
      if Claimed(rows, seen, j, rows[j].key) {
        var i := Taker(rows, seen, j, rows[j].key);
        OwnKeyTaken(before, out, rows, i, j);
      }
      if BeginsAsBefore(rows[j], seen) {
        assert !Free(rows, seen, j, rows[j].items[0]);
      }
    }
  }

  /** Groups are only split: the seen items of each were all of one group. */
  ghost predicate OneOrigin(rows: seq<Row>, seen: Seen) {
    forall i, a, b :: 0 <= i < |rows| && Has(rows[i], a) && Has(rows[i], b) && a in seen && b in seen ==> seen[a] == seen[b]
  }

  lemma {:induction false} ClaimedOnce(rows: seq<Row>, seen: Seen, j: nat, i: nat, key: string)
    requires OneOrigin(rows, seen) && i < j <= |rows| && Carries(rows[i], seen, key)
    ensures Claimed(rows, seen, j, key)
  {
    hide OneOrigin;
    if Claimed(rows, seen, i, key) {
      ClaimedSince(rows, seen, i, j, key);
    } else {
      var a :| Has(rows[i], a) && a in seen && seen[a] == key;
      TakesIfFree(rows, seen, i, key, a);
    }
  }

  lemma TakesIfFree(rows: seq<Row>, seen: Seen, i: nat, key: string, a: string)
    requires OneOrigin(rows, seen) && i < |rows| && Has(rows[i], a) && a in seen && seen[a] == key
    requires !Claimed(rows, seen, i, key)
    ensures Takes(rows, seen, i, key)
  {
    var items := rows[i].items;
    var m :| 0 <= m < |items| && items[m].key == a;
    assert Free(rows, seen, i, items[m]);
    var n := FirstOf(rows, seen, i, m);
    assert Has(rows[i], items[n].key) && items[n].key in seen && seen[items[n].key] == seen[a];
  }

  lemma FirstOf(rows: seq<Row>, seen: Seen, i: nat, m: nat) returns (n: nat)
    requires i < |rows| && rows[i].Group? && m < |rows[i].items| && Free(rows, seen, i, rows[i].items[m])
    ensures FirstFree(rows, seen, i, n) && n < |rows[i].items| && rows[i].items[n].key in seen
  {
    hide Claimed;
    n := 0;
    while !Free(rows, seen, i, rows[i].items[n])
      invariant n <= m && forall k :: 0 <= k < n ==> !Free(rows, seen, i, rows[i].items[k])
      decreases m - n
    {
      n := n + 1;
    }
  }

  /** When groups are only split that is plain to see: a later part begins with the item
      that named the group, and an earlier part has another of its items. */
  lemma SplitClashIff(before: seq<Row>, out: seq<Row>, rows: seq<Row>)
    requires Regular(before) && Good(before, out) && Regular(rows) && OneOrigin(rows, SeenOf(out))
    ensures KeysDistinct(Kept(rows, SeenOf(out)))
            <==> forall i, j :: 0 <= i < j < |rows| && BeginsAsBefore(rows[j], SeenOf(out)) ==>
                   !Carries(rows[i], SeenOf(out), rows[j].key)
  {
    hide Regular, Good, SeenOf, Kept, KeysDistinct, OneOrigin, Takes, FellBack, Carries;
    var seen := SeenOf(out);
    ClashIff(before, out, rows);
    forall j | 0 <= j < |rows| && BeginsAsBefore(rows[j], seen)
      ensures FellBack(rows, seen, j) <==> exists i :: 0 <= i < j && Carries(rows[i], seen, rows[j].key)
    {
      SplitFallsBack(before, out, rows, j);
    }
  }

  lemma SplitFallsBack(before: seq<Row>, out: seq<Row>, rows: seq<Row>, j: nat)
    requires Regular(before) && Good(before, out) && Regular(rows) && OneOrigin(rows, SeenOf(out))
    requires j < |rows| && BeginsAsBefore(rows[j], SeenOf(out))
    ensures FellBack(rows, SeenOf(out), j) <==> exists i :: 0 <= i < j && Carries(rows[i], SeenOf(out), rows[j].key)
  {
    hide Regular, Good, SeenOf, Takes;
    var seen, key := SeenOf(out), rows[j].key;
    if FellBack(rows, seen, j) {
      assert !Free(rows, seen, j, rows[j].items[0]);
      var i := Taker(rows, seen, j, key);
      OwnKeyTaken(before, out, rows, i, j);
    }
    if i :| 0 <= i < j && Carries(rows[i], seen, key) {
      ClaimedOnce(rows, seen, j, i, key);
      forall n | 0 <= n < |rows[j].items|
        ensures !Free(rows, seen, j, rows[j].items[n])
      {
        HasItem(rows[j], n);
        HasItem(rows[j], 0);
      }
    }
  }

  // ---- A group along a run ----

  /** The first item of the row that the build before had was in row `i` of it. */
  ghost predicate Continues(rows: seq<Row>, i: nat, more: seq<Row>, j: nat) {
    && i < |rows| && j < |more| && more[j].Group?
    && exists n :: 0 <= n < |more[j].items| && Has(rows[i], more[j].items[n].key)
         && forall m, k :: 0 <= m < n && 0 <= k < |rows| ==> !Has(rows[k], more[j].items[m].key)
  }

  lemma {:induction false} BuildAt(runs: seq<seq<Row>>, t: nat)
    requires t + 1 < |runs|
    ensures |Builds(runs)| == |runs|
    ensures Builds(runs)[t + 1] == Kept(runs[t + 1], SeenOf(Builds(runs)[t]))
    decreases |runs|
  {
    hide Kept, SeenOf;
    BuildsLength(runs);
    var n := |runs| - 1;
    BuildsLength(runs[..n]);
    if t + 1 < n {
      BuildAt(runs[..n], t);
    }
  }

  lemma {:induction false} BuildsLength(runs: seq<seq<Row>>)
    ensures |Builds(runs)| == |runs|
  {
    hide Kept, SeenOf;
    if runs != [] {
      BuildsLength(runs[..|runs| - 1]);
    }
  }

  lemma ContinuesKey(runs: seq<seq<Row>>, t: nat, i: nat, j: nat)
    requires OnlyGrows(runs) && t + 1 < |runs| && Continues(runs[t], i, runs[t + 1], j)
    ensures |Builds(runs)| == |runs| && |Builds(runs)[t]| == |runs[t]| && |Builds(runs)[t + 1]| == |runs[t + 1]|
    ensures Builds(runs)[t][i].Group? && Builds(runs)[t + 1][j].Group?
    ensures Builds(runs)[t + 1][j].key == Builds(runs)[t][i].key
  {
    hide Regular, Grows, Has, Kept, SeenOf, Builds;
    RunKeepsKeys(runs);
    BuildAt(runs, t);
    var rows, more := runs[t], runs[t + 1];
    var n: nat :| n < |more[j].items| && Has(rows[i], more[j].items[n].key)
                  && forall m, k :: 0 <= m < n && 0 <= k < |rows| ==> !Has(rows[k], more[j].items[m].key);
    HasGroup(rows[i], more[j].items[n].key);
    GroupKeepsKey(rows, Builds(runs)[t], more, i, j, n);
  }

  lemma HasGroup(row: Row, key: string)
    requires Has(row, key)
    ensures row.Group?
  {
  }

  /** A group's key is the one its line of descent began with: `js` are its rows in the
      builds from `t` on. */
  lemma {:induction false} KeyAlongRun(runs: seq<seq<Row>>, t: nat, js: seq<nat>)
    requires OnlyGrows(runs) && js != [] && t + |js| <= |runs|
    requires forall v :: 0 <= v < |js| - 1 ==> Continues(runs[t + v], js[v], runs[t + v + 1], js[v + 1])
    requires js[0] < |runs[t]| && runs[t][js[0]].Group?
    ensures var builds, u := Builds(runs), t + |js| - 1;
            && |builds| == |runs| && js[|js| - 1] < |builds[u]| && js[0] < |builds[t]|
            && builds[u][js[|js| - 1]].Group? && builds[t][js[0]].Group?
            && builds[u][js[|js| - 1]].key == builds[t][js[0]].key
    decreases |js|
  {
    hide Continues, Builds, Regular, Grows;
    RunKeepsKeys(runs);
    if |js| > 1 {
      var n := |js| - 1;
      KeyAlongRun(runs, t, js[..n]);
      assert js[..n][n - 1] == js[n - 1];
      ContinuesIn(runs[t + n - 1], js[n - 1], runs[t + n], js[n]);
      ContinuesKey(runs, t + n - 1, js[n - 1], js[n]);
    }
  }

  lemma ContinuesIn(rows: seq<Row>, i: nat, more: seq<Row>, j: nat)
    requires Continues(rows, i, more, j)
    ensures i < |rows| && j < |more| && more[j].Group?
  {
  }

  /** No two groups of a build from `t` on were joined into the group. */
  ghost predicate NeverJoined(runs: seq<seq<Row>>, t: nat, u: nat, group: Row)
    requires u <= |runs|
  {
    forall v, k, l, a, b ::
      (t <= v < u && 0 <= k < |runs[v]| && 0 <= l < |runs[v]|
       && Has(runs[v][k], a) && Has(runs[v][l], b) && Has(group, a) && Has(group, b)) ==> k == l
  }

  /** From build to build of a run, the group that `x` is in keeps its key for as long
      as no other is joined to it, wherever and however often it grows. */
  lemma {:induction false} GroupKeepsKeyThroughout(runs: seq<seq<Row>>, t: nat, i: nat, u: nat, j: nat, x: string)
    requires OnlyGrows(runs) && t <= u < |runs| && i < |runs[t]| && j < |runs[u]|
    requires Has(runs[t][i], x) && Has(runs[u][j], x) && NeverJoined(runs, t, u, runs[u][j])
    ensures var builds := Builds(runs);
            && |builds| == |runs| && |builds[u]| == |runs[u]| && |builds[t]| == |runs[t]|
            && builds[u][j].Group? && builds[t][i].Group? && builds[u][j].key == builds[t][i].key
    decreases u
  {
    hide Builds, Regular, Grows, Has, NeverJoined;
    RunKeepsKeys(runs);
    HasGroup(runs[t][i], x);
    HasGroup(runs[u][j], x);
    if t == u {
      OneRow(runs[t], i, j, x);
    } else {
      var r := ItemStays(runs, t, i, u - 1, x);
      GrowsAround(runs[u - 1], r, runs[u], j, x);
      NeverJoinedBefore(runs, t, u, r, j);
      GroupKeepsKeyThroughout(runs, t, i, u - 1, r, x);
      ContinuesUnjoined(runs, t, u, r, j, x);
      ContinuesKey(runs, u - 1, r, j);
    }
  }

  lemma {:induction false} ItemStays(runs: seq<seq<Row>>, t: nat, i: nat, u: nat, x: string) returns (r: nat)
    requires OnlyGrows(runs) && t <= u < |runs| && i < |runs[t]| && Has(runs[t][i], x)
    ensures r < |runs[u]| && Has(runs[u][r], x)
    decreases u
  {
    hide Regular, Has;
    if t == u {
      r := i;
    } else {
      var before := ItemStays(runs, t, i, u - 1, x);
      assert Grows(runs[u - 1], runs[u]);
      HasGroup(runs[u - 1][before], x);
      r :| 0 <= r < |runs[u]| && Within(runs[u - 1][before], runs[u][r]);
    }
  }

  lemma GrowsAround(rows: seq<Row>, i: nat, more: seq<Row>, j: nat, x: string)
    requires Grows(rows, more) && Regular(more) && i < |rows| && j < |more| && Has(rows[i], x) && Has(more[j], x)
    ensures Within(rows[i], more[j])
  {
    hide Regular, Has;
    HasGroup(rows[i], x);
    var r: nat :| r < |more| && Within(rows[i], more[r]);
    assert Has(more[r], x);
    OneRow(more, r, j, x);
  }

  lemma NeverJoinedBefore(runs: seq<seq<Row>>, t: nat, u: nat, r: nat, j: nat)
    requires t < u < |runs| && r < |runs[u - 1]| && j < |runs[u]|
    requires Within(runs[u - 1][r], runs[u][j]) && NeverJoined(runs, t, u, runs[u][j])
    ensures NeverJoined(runs, t, u - 1, runs[u - 1][r])
  {
    hide Has;
  }

  lemma ContinuesUnjoined(runs: seq<seq<Row>>, t: nat, u: nat, r: nat, j: nat, x: string)
    requires t < u < |runs| && r < |runs[u - 1]| && j < |runs[u]|
    requires Has(runs[u - 1][r], x) && Has(runs[u][j], x) && NeverJoined(runs, t, u, runs[u][j])
    ensures Continues(runs[u - 1], r, runs[u], j)
  {
    var rows, items := runs[u - 1], runs[u][j].items;
    var last: nat :| last < |items| && items[last].key == x;
    var n := 0;
    while !Known(rows, items[n].key)
      invariant n <= last && forall m :: 0 <= m < n ==> !Known(rows, items[m].key)
      decreases last - n
    {
      n := n + 1;
    }
    var k :| 0 <= k < |rows| && Has(rows[k], items[n].key);
    HasItem(runs[u][j], n);
    assert k == r;
    assert forall m, l :: 0 <= m < n && 0 <= l < |rows| ==> !Has(rows[l], items[m].key);
  }

  ghost predicate Known(rows: seq<Row>, key: string) { exists k :: 0 <= k < |rows| && Has(rows[k], key) }
}
