/** The last step of the generator: duplicates by name are collapsed through an
    insertion-ordered dictionary keyed by item name. */
module Dedup {
  import opened Items

  /** A later item with an already-seen name displaces the kept one when it has a
      larger quantity, or when it is essential and the kept one is not. */
  predicate Replaces(x: Item, kept: Item)
  {
    x.quantity > kept.quantity || (x.essential && !kept.essential)
  }

  /** An insertion-ordered dictionary from names to items: `keys` holds the keys
      in insertion order. Overwriting a key keeps its place. */
  datatype Dict = Dict(keys: seq<string>, entries: map<string, Item>)

  ghost predicate DictOk(d: Dict)
  {
    && (forall i, j :: 0 <= i < j < |d.keys| ==> d.keys[i] != d.keys[j])
    && (forall k :: k in d.entries <==> k in d.keys)
    && (forall k | k in d.entries :: d.entries[k].name == k)
  }

  /** One turn of the deduplication loop. */
  function Insert(d: Dict, x: Item): Dict
  {
    if x.name in d.entries then
      if Replaces(x, d.entries[x.name]) then Dict(d.keys, d.entries[x.name := x]) else d
    else
      Dict(d.keys + [x.name], d.entries[x.name := x])
  }

  /** What one turn does to the dictionary: a new name is appended to the keys,
      a known one keeps its place and its item unless the new item displaces it. */
  lemma InsertEffect(d: Dict, x: Item)
    ensures Insert(d, x).entries.Keys == d.entries.Keys + {x.name}
    ensures x.name in d.entries ==> Insert(d, x).keys == d.keys
    ensures x.name !in d.entries ==> Insert(d, x).keys == d.keys + [x.name]
    ensures forall k | k in d.entries && k != x.name :: Insert(d, x).entries[k] == d.entries[k]
    ensures Insert(d, x).entries[x.name] ==
      if x.name in d.entries && !Replaces(x, d.entries[x.name]) then d.entries[x.name] else x
  {
  }

  /** The dictionary after the loop has seen `items`. */
  function Build(items: seq<Item>): Dict
    decreases |items|
  {
    if items == [] then Dict([], map[])
    else Insert(Build(items[..|items| - 1]), items[|items| - 1])
  }

  /** One turn keeps the dictionary well formed. */
  lemma InsertOk(d: Dict, x: Item)
    requires DictOk(d)
    ensures DictOk(Insert(d, x))
  {
  }

  /** The loop keeps the dictionary well formed. */
  lemma {:induction false} BuildOk(items: seq<Item>)
    ensures DictOk(Build(items))
    decreases |items|
  {
    if items != [] {
      BuildOk(items[..|items| - 1]);
      InsertOk(Build(items[..|items| - 1]), items[|items| - 1]);
    }
  }

  /** `list(d.values())`. */
  function Values(d: Dict): (vs: seq<Item>)
    requires DictOk(d)
    ensures |vs| == |d.keys| && forall p :: 0 <= p < |vs| ==> vs[p].name == d.keys[p]
  {
    seq(|d.keys|, i requires 0 <= i < |d.keys| => d.entries[d.keys[i]])
  }

  /** The deduplicated list. */
  function Deduplicate(items: seq<Item>): (r: seq<Item>)
    ensures forall i, j :: 0 <= i < j < |r| ==> r[i].name != r[j].name
  {
    BuildOk(items);
    Values(Build(items))
  }

  /** The deduplication loop and the final `list(unique_items.values())`. */
  method RemoveDuplicates(items: seq<Item>) returns (out: seq<Item>)
    ensures out == Deduplicate(items)
  {
    var keys: seq<string> := [];
    var entries: map<string, Item> := map[];
    var i := 0;
    while i < |items|
      invariant 0 <= i <= |items|
      invariant Dict(keys, entries) == Build(items[..i])
    {
      var x := items[i];
      assert items[..i + 1][..i] == items[..i];
      if x.name in entries {
        if x.quantity > entries[x.name].quantity || (x.essential && !entries[x.name].essential) {
          entries := entries[x.name := x];
        }
      } else {
        keys := keys + [x.name];
        entries := entries[x.name := x];
      }
      i := i + 1;
    }
    assert items[..i] == items;
    BuildOk(items);
    out := [];
    var j := 0;
    while j < |keys|
      invariant 0 <= j <= |keys|
      invariant |out| == j
      invariant forall p :: 0 <= p < j ==> out[p] == entries[keys[p]]
    {
      out := out + [entries[keys[j]]];
      j := j + 1;
    }
  }

  /** Position of the first item named `k` in `items`, or -1 when there is none. */
  function FirstIndex(items: seq<Item>, k: string): (i: int)
    ensures -1 <= i < |items|
    ensures i >= 0 ==> items[i].name == k && forall j :: 0 <= j < i ==> items[j].name != k
    ensures i < 0 ==> forall j :: 0 <= j < |items| ==> items[j].name != k
    decreases |items|
  {
    if items == [] then -1
    else
      var i := FirstIndex(items[..|items| - 1], k);
      if i >= 0 then i else if items[|items| - 1].name == k then |items| - 1 else -1
  }

  /** Every name of the input is a key of the dictionary. */
  lemma {:induction false} BuildHasAllNames(items: seq<Item>)
    ensures forall j :: 0 <= j < |items| ==> items[j].name in Build(items).entries
    decreases |items|
  {
    if items != [] {
      var init, x := items[..|items| - 1], items[|items| - 1];
      BuildHasAllNames(init);
      assert Build(items) == Insert(Build(init), x);
      InsertEffect(Build(init), x);
      forall j | 0 <= j < |items|
        ensures items[j].name in Build(items).entries
      {
        if j < |init| {
          assert items[j] == init[j];
        }
      }
    }
  }

  /** The dictionary's keys all occur in the input, in the order of their first
      occurrences. */
  lemma {:induction false} BuildOrder(items: seq<Item>)
    ensures forall p :: 0 <= p < |Build(items).keys| ==> FirstIndex(items, Build(items).keys[p]) >= 0
    ensures forall p, q :: 0 <= p < q < |Build(items).keys| ==>
      FirstIndex(items, Build(items).keys[p]) < FirstIndex(items, Build(items).keys[q])
    decreases |items|
  {
    if items != [] {
      var init, x := items[..|items| - 1], items[|items| - 1];
      BuildOrder(init);
      var d0, d := Build(init), Build(items);
      assert d == Insert(d0, x);
      InsertEffect(d0, x);
      if x.name !in d0.entries {
        BuildHasAllNames(init);
        assert FirstIndex(init, x.name) < 0;
      }
    }
  }

  /** No later occurrence of the same name would displace `items[j]`. */
  predicate Undisplaced(items: seq<Item>, j: nat)
    requires j < |items|
  {
    forall l | j < l < |items| && items[l].name == items[j].name :: !Replaces(items[l], items[j])
  }

  /** The item kept under each name is one of its occurrences, and no occurrence
      after it would have displaced it. */
  lemma {:induction false} BuildKeepsUndisplaced(items: seq<Item>, k: string)
    requires k in Build(items).entries
    ensures exists j :: 0 <= j < |items| && items[j] == Build(items).entries[k] && Undisplaced(items, j)
    decreases |items|
  {
    var init, x := items[..|items| - 1], items[|items| - 1];
    var d0, d := Build(init), Build(items);
    assert d == Insert(d0, x);
    InsertEffect(d0, x);
    BuildOk(init);
    var n := |init|;
    if k != x.name || (k in d0.entries && !Replaces(x, d0.entries[k])) {
      BuildKeepsUndisplaced(init, k);
      var j :| 0 <= j < n && init[j] == d0.entries[k] && Undisplaced(init, j);
      assert items[j] == init[j];
      forall l | j < l < |items| && items[l].name == items[j].name
        ensures !Replaces(items[l], items[j])
      {
        if l < n {
          assert items[l] == init[l];
        }
      }
    } else {
      assert d.entries[k] == x && items[n] == x;
      assert Undisplaced(items, n);
    }
  }

  /** When the occurrences of a name agree on `essential`, the kept item has the
      largest quantity among them. */
  lemma {:induction false} BuildKeepsLargest(items: seq<Item>, k: string, e: bool)
    requires k in Build(items).entries
    requires forall j | 0 <= j < |items| && items[j].name == k :: items[j].essential == e
    ensures Build(items).entries[k].essential == e
    ensures forall j | 0 <= j < |items| && items[j].name == k :: items[j].quantity <= Build(items).entries[k].quantity
    decreases |items|
  {
    var init, x := items[..|items| - 1], items[|items| - 1];
    var d0, d := Build(init), Build(items);
    assert d == Insert(d0, x);
    InsertEffect(d0, x);
    if k in d0.entries {
      forall j | 0 <= j < |init| && init[j].name == k
        ensures init[j].essential == e
      {
        assert init[j] == items[j];
      }
      BuildKeepsLargest(init, k, e);
      forall j | 0 <= j < |items| && items[j].name == k
        ensures items[j].quantity <= d.entries[k].quantity
      {
        if j < |init| {
          assert items[j] == init[j];
        }
      }
    } else {
      BuildHasAllNames(init);
    }
  }

  /** The output has no two items with the same name. */
  lemma DedupNamesDistinct(items: seq<Item>)
    ensures forall p, q :: 0 <= p < q < |Deduplicate(items)| ==> Deduplicate(items)[p].name != Deduplicate(items)[q].name
  {
    BuildOk(items);
  }

  /** Every name of the input is the name of an output item. */
  lemma DedupCoversNames(items: seq<Item>)
    ensures forall j :: 0 <= j < |items| ==> exists p :: 0 <= p < |Deduplicate(items)| && Deduplicate(items)[p].name == items[j].name
  {
    var d, out := Build(items), Deduplicate(items);
    BuildOk(items);
    BuildHasAllNames(items);
    forall j | 0 <= j < |items|
      ensures exists p :: 0 <= p < |out| && out[p].name == items[j].name
    {
      var p :| 0 <= p < |d.keys| && d.keys[p] == items[j].name;
      assert out[p].name == items[j].name;
    }
  }

  /** Every output item is an occurrence of its name in the input that no later
      occurrence would displace. */
  lemma DedupKeepsUndisplaced(items: seq<Item>, p: nat)
    requires p < |Deduplicate(items)|
    ensures exists j :: 0 <= j < |items| && items[j] == Deduplicate(items)[p] && Undisplaced(items, j)
  {
    var d := Build(items);
    BuildOk(items);
    assert Deduplicate(items)[p] == d.entries[d.keys[p]];
    BuildKeepsUndisplaced(items, d.keys[p]);
  }

  /** The output lists the names in the order of their first occurrence in the input. */
  lemma DedupFirstOccurrenceOrder(items: seq<Item>)
    ensures forall p :: 0 <= p < |Deduplicate(items)| ==> FirstIndex(items, Deduplicate(items)[p].name) >= 0
    ensures forall p, q :: 0 <= p < q < |Deduplicate(items)| ==>
      FirstIndex(items, Deduplicate(items)[p].name) < FirstIndex(items, Deduplicate(items)[q].name)
  {
    BuildOk(items);
    BuildOrder(items);
  }

  /** When all occurrences of a name agree on `essential`, the output item of that
      name has the largest quantity among them. */
  lemma DedupKeepsLargest(items: seq<Item>, k: string, e: bool)
    requires forall j | 0 <= j < |items| && items[j].name == k :: items[j].essential == e
    ensures forall p, j | 0 <= p < |Deduplicate(items)| && 0 <= j < |items| && Deduplicate(items)[p].name == k && items[j].name == k ::
      items[j].quantity <= Deduplicate(items)[p].quantity
  {
    var d, out := Build(items), Deduplicate(items);
    BuildOk(items);
    if k in d.entries {
      BuildKeepsLargest(items, k, e);
    }
  }

  /** A name is in the output exactly when it is in the input. */
  lemma DedupNamesIff(items: seq<Item>, k: string)
    ensures (exists p :: 0 <= p < |Deduplicate(items)| && Deduplicate(items)[p].name == k) <==>
            (exists j :: 0 <= j < |items| && items[j].name == k)
  {
    DedupCoversNames(items);
    DedupFirstOccurrenceOrder(items);
  }

  /** An item all of whose namesakes in the input equal it is in the output as it is. */
  lemma DedupKeepsSole(items: seq<Item>, j: nat)
    requires j < |items|
    requires forall l | 0 <= l < |items| && items[l].name == items[j].name :: items[l] == items[j]
    ensures exists p :: 0 <= p < |Deduplicate(items)| && Deduplicate(items)[p] == items[j]
  {
    DedupCoversNames(items);
    var p :| 0 <= p < |Deduplicate(items)| && Deduplicate(items)[p].name == items[j].name;
    DedupKeepsUndisplaced(items, p);
  }

  /** The first output item carries the first input item's name. */
  lemma DedupHead(items: seq<Item>)
    requires |items| > 0
    ensures |Deduplicate(items)| > 0 && Deduplicate(items)[0].name == items[0].name
  {
    var out := Deduplicate(items);
    DedupCoversNames(items);
    DedupFirstOccurrenceOrder(items);
    assert exists p :: 0 <= p < |out| && out[p].name == items[0].name;
  }

  /** When the flags differ the rule is not a maximum: a larger quantity gives way
      to an essential item, which in turn gives way to any larger quantity, so the
      kept item can be neither the largest nor essential. */
  lemma DedupKeepsNeitherLargestNorEssential()
    ensures var a, b, c := Item("Socks", "clothing", 5, false, None), Item("Socks", "clothing", 1, true, None),
                           Item("Socks", "clothing", 2, false, None);
      Deduplicate([a, b, c]) == [c]
  {
    var a, b, c := Item("Socks", "clothing", 5, false, None), Item("Socks", "clothing", 1, true, None),
                   Item("Socks", "clothing", 2, false, None);
    assert [a, b, c][..2] == [a, b] && [a, b][..1] == [a] && [a][..0] == [];
    assert Build([a]) == Dict(["Socks"], map["Socks" := a]);
    assert Build([a, b]) == Dict(["Socks"], map["Socks" := b]);
    assert Build([a, b, c]) == Dict(["Socks"], map["Socks" := c]);
  }
}
