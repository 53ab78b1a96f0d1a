/** The request, item and response shapes of the packing service. */
module Items {

  datatype Option<T> = None | Some(value: T)

  /** `PackingItem`: `name` is the deduplication key within one generated list. */
  datatype Item = Item(name: string, category: string, quantity: int, essential: bool, notes: Option<string>)

  /** `PackingListRequest`; the transport layer fills in `tripType` = "leisure" and
      `activities` = [] when the client leaves them out. */
  datatype Request = Request(
    destination: string,
    duration: int,
    season: string,
    tripType: string,
    activities: seq<string>,
    gender: Option<string>,
    ageGroup: Option<string>)

  /** `PackingListResponse`: the generated items plus four request fields echoed back. */
  datatype Response = Response(items: seq<Item>, destination: string, duration: int, season: string, tripType: string)

  /** Two items agree on everything except their quantity. */
  predicate SameExceptQuantity(a: Item, b: Item)
  {
    a.name == b.name && a.category == b.category && a.essential == b.essential && a.notes == b.notes
  }

  /** Some item of the list carries the name. */
  predicate HasName(items: seq<Item>, name: string)
  {
    exists k :: 0 <= k < |items| && items[k].name == name
  }

  lemma HasNameAppend(a: seq<Item>, b: seq<Item>, name: string)
    ensures HasName(a + b, name) <==> HasName(a, name) || HasName(b, name)
  {
    if HasName(a + b, name) {
      var k :| 0 <= k < |a + b| && (a + b)[k].name == name;
      if k < |a| {
        assert a[k] == (a + b)[k];
      } else {
        assert b[k - |a|] == (a + b)[k];
      }
    }
    if HasName(a, name) {
      var k :| 0 <= k < |a| && a[k].name == name;
      assert (a + b)[k] == a[k];
    }
    if HasName(b, name) {
      var k :| 0 <= k < |b| && b[k].name == name;
      assert (a + b)[|a| + k] == b[k];
    }
  }
}
