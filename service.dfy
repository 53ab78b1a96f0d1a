/** The packing service: its module-level rule tables, whose item objects every
    call shares and updates, and the `/generate` endpoint. */
module Service {
  import opened Items
  import opened Text
  import opened Rules
  import opened Catalog
  import opened Store
  import opened Dedup
  import opened Generator

  class PackingService {
    /** The module-level tables; the scaling loop writes into their items. */
    var tables: Tables

    /** The service over its tables; the module's own tables, `InitialTables`,
        meet the requirement (`InitialTablesValid`). */
    constructor (t: Tables)
      requires Valid(t)
      ensures tables == t
    {
      tables := t;
    }

    /** The destination loop: the first key, in table order, that occurs in the
        lowered destination. */
    method MatchDestination(destination: string) returns (found: Option<nat>)
      ensures found == FindDestination(tables.destination, destination)
    {
      found := None;
      var i := 0;
      while i < |tables.destination|
        invariant 0 <= i <= |tables.destination|
        invariant found == None
        invariant forall j :: 0 <= j < i ==> !Contains(destination, tables.destination[j].key)
      {
        if Contains(destination, tables.destination[i].key) {
          found := Some(i);
          break;
        }
        i := i + 1;
      }
    }

    /** The destination step, with the generic items when no key matches. */
    method AddDestinationItems(front: seq<Ref>, destination: string) returns (items: seq<Ref>, created: seq<Item>)
      ensures Stage(Heap(tables, created), items) == WithDestination(tables, front, destination)
    {
      var found := MatchDestination(Lower(destination));
      if found.Some? {
        items := front + BlockRefs(Destination(found.value), |tables.destination[found.value].items|);
        created := [];
      } else {
        created := [GenericAdapter, GenericPhraseBook];
        items := front + [Fresh(0), Fresh(1)];
      }
    }

    /** The activity loop: every activity that is a key adds its items, once per
        mention, in the order given. */
    method CollectActivities(activities: seq<string>) returns (items: seq<Ref>)
      ensures items == ActivityRefs(tables, activities)
    {
      items := [];
      var i := 0;
      while i < |activities|
        invariant 0 <= i <= |activities|
        invariant items == ActivityRefs(tables, activities[..i])
      {
        assert activities[..i + 1][..i] == activities[..i];
        items := items + Lookup(tables, Activity(Lower(activities[i])));
        i := i + 1;
      }
      assert activities[..i] == activities;
    }

    /** The working list before scaling, and the items the call created for it. */
    method CollectItems(req: Request) returns (items: seq<Ref>, created: seq<Item>)
      ensures Stage(Heap(tables, created), items) == Collect(tables, req)
    {
      items := BlockRefs(Base, |tables.base|);
      items := items + Lookup(tables, Season(Lower(req.season)));
      items := items + Lookup(tables, TripType(Lower(req.tripType)));
      assert items == Front(tables, req);
      items, created := AddDestinationItems(items, req.destination);
      var personal := CollectActivities(req.activities);
      if req.gender.Some? && req.gender.value != "" {
        personal := personal + Lookup(tables, Gender(Lower(req.gender.value)));
      } else {
        assert OptionalRefs(tables, req.gender, true) == [];
      }
      if req.ageGroup.Some? && req.ageGroup.value != "" {
        personal := personal + Lookup(tables, Age(Lower(req.ageGroup.value)));
      } else {
        assert OptionalRefs(tables, req.ageGroup, false) == [];
      }
      assert personal == Personal(tables, req);
      items := items + personal;
    }

    /** One visit of the scaling loop: a non-essential clothing or toiletries item
        gets its quantity scaled to the trip, in the object itself. */
    method ScaleItem(r: Ref, created0: seq<Item>, b: Bucket) returns (created: seq<Item>)
      requires Live(Heap(tables, created0), r)
      modifies this
      ensures Heap(tables, created) == ScaleAt(Heap(old(tables), created0), r, b)
    {
      created := created0;
      var item := Get(Heap(tables, created), r);
      if item.category in MultiplierCategories && !item.essential {
        var multiplier := Multiplier(item.category, b);
        var h := Put(Heap(tables, created), r, item.(quantity := ScaledQuantity(item.quantity, multiplier)));
        tables, created := h.tables, h.created;
      } else {
        PutSame(Heap(tables, created), r);
      }
    }

    /** The visit to the `i`-th reference of the list scales one more item: the
        objects now hold the loop's effect on the first `i + 1` references. */
    method VisitItem(ghost start: Heap, items: seq<Ref>, i: nat, created0: seq<Item>, b: Bucket) returns (created: seq<Item>)
      requires AllLive(start, items) && i < |items|
      requires AllLive(start, items[..i]) && Heap(tables, created0) == ScaleAll(start, items[..i], b)
      modifies this
      ensures AllLive(start, items[..i + 1]) && Live(Heap(tables, created), items[0])
      ensures Heap(tables, created) == ScaleAll(start, items[..i + 1], b)
    {
      ScaleAllStep(start, items, b, i);
      created := ScaleItem(items[i], created0, b);
    }

    /** The append of the laundry soap on the visit to the first item: the soap is
        a new object at the end of the list, and the loop has so far scaled the
        first item only. */
    method AppendSoap(ghost h0: Heap, items0: seq<Ref>, created1: seq<Item>, b: Bucket) returns (items: seq<Ref>, created: seq<Item>)
      requires AllLive(h0, items0) && HeadUnique(h0, items0) && |items0| > 0
      requires AllLive(h0, items0[..1]) && Heap(tables, created1) == ScaleAll(h0, items0[..1], b)
      ensures items == items0 + [Fresh(|h0.created|)] && created == created1 + [LaundrySoap]
      ensures AllLive(Heap(h0.tables, h0.created + [LaundrySoap]), items)
      ensures HeadUnique(Heap(h0.tables, h0.created + [LaundrySoap]), items)
      ensures AllLive(Heap(h0.tables, h0.created + [LaundrySoap]), items[..1])
      ensures Heap(tables, created) == ScaleAll(Heap(h0.tables, h0.created + [LaundrySoap]), items[..1], b)
    {
      SoapOnFirstVisit(h0, items0, b);
      created := created1 + [LaundrySoap];
      items := items0 + [Fresh(|created| - 1)];
    }

    /** The scaling loop. It walks the working list while it grows: on an extended
        trip the visit to the first item appends the laundry soap, which the loop
        reaches and scales in turn. Scaling writes into the item behind each
        reference, so a template listed twice is scaled twice. */
    method ScaleQuantities(items0: seq<Ref>, created0: seq<Item>, b: Bucket) returns (items: seq<Ref>, created: seq<Item>)
      requires AllLive(Heap(tables, created0), items0) && HeadUnique(Heap(tables, created0), items0)
      modifies this
      ensures Stage(Heap(tables, created), items) == ScalePhase(Stage(Heap(old(tables), created0), items0), b)
    {
      ghost var h0 := Heap(tables, created0);
      ghost var soapStart := Heap(tables, created0 + [LaundrySoap]);
      items, created := items0, created0;
      ghost var start := h0;
      var i := 0;
      while i < |items|
        invariant 0 <= i <= |items|
        invariant items == if b == Extended && i > 0 then items0 + [Fresh(|created0|)] else items0
        invariant start == if b == Extended && i > 0 then soapStart else h0
        invariant AllLive(start, items) && HeadUnique(start, items)
        invariant AllLive(start, items[..i]) && Heap(tables, created) == ScaleAll(start, items[..i], b)
        decreases |items0| + 1 - i
      {
        var r := items[i];
        created := VisitItem(start, items, i, created, b);
        if b == Extended && Get(Heap(tables, created), r) == Get(Heap(tables, created), items[0]) {
          if i > 0 {
            HeadStaysUnique(start, items, b, i + 1, i);
            assert false;
          }
          items, created := AppendSoap(h0, items0, created, b);
          start := soapStart;
        } else {
          assert Heap(tables, created) == ScaleAll(start, items[..i + 1], b);
        }
        i := i + 1;
        assert Heap(tables, created) == ScaleAll(start, items[..i], b);
      }
      assert items[..i] == items;
    }

    /** The steps after the scaling loop: rain gear, tropical items and the
        presentation kit. */
    method AddConditionalItems(items0: seq<Ref>, created0: seq<Item>, req: Request) returns (items: seq<Ref>, created: seq<Item>)
      requires "rainy" in tables.season && "tropical" in tables.season
      ensures Stage(Heap(tables, created), items) == PostPhase(Stage(Heap(tables, created0), items0), req)
    {
      items, created := items0, created0;
      var season := Lower(req.season);
      if Contains(season, "rainy") || Contains(season, "monsoon") {
        items := items + BlockRefs(Season("rainy"), |tables.season["rainy"]|);
      }
      if Contains(season, "tropical") || AnyOccurs(Lower(req.destination), TropicalDestinations) {
        items := items + BlockRefs(Season("tropical"), |tables.season["tropical"]|);
      }
      if Lower(req.tripType) == "business" && AnyActivityMentions(req.activities, "presentation") {
        created := created + [PresentationRemote, PresentationBackup];
        items := items + [Fresh(|created| - 2), Fresh(|created| - 1)];
      }
    }

    /** `generate_packing_list`: the deduplicated list for the request. The call
        writes the scaled quantities into the shared tables and keeps their
        invariant. */
    method Generate(req: Request) returns (result: seq<Item>)
      requires Valid(tables)
      modifies this
      ensures Valid(tables)
      ensures tables == Updated(old(tables), req)
      ensures result == Generated(old(tables), req)
    {
      ghost var t0 := tables;
      var items, created := CollectItems(req);
      CollectHeadUnique(tables, req);
      var bucket;
      if req.duration <= 3 {
        bucket := Short;
      } else if req.duration <= 7 {
        bucket := Medium;
      } else if req.duration <= 14 {
        bucket := Long;
      } else {
        bucket := Extended;
      }
      items, created := ScaleQuantities(items, created, bucket);
      ScalePhaseLive(Collect(t0, req), bucket);
      items, created := AddConditionalItems(items, created, req);
      RunLive(t0, req);
      UpdatedValid(t0, req);
      result := RemoveDuplicates(Resolve(Heap(tables, created), items));
    }

    /** The `/generate` endpoint: the generated list with the request's fields
        echoed back. */
    method GenerateEndpoint(req: Request) returns (resp: Response)
      requires Valid(tables)
      modifies this
      ensures Valid(tables)
      ensures tables == Updated(old(tables), req)
      ensures resp.items == Generated(old(tables), req)
      ensures resp.destination == req.destination && resp.duration == req.duration
      ensures resp.season == req.season && resp.tripType == req.tripType
    {
      var items := Generate(req);
      resp := Response(items, req.destination, req.duration, req.season, req.tripType);
    }
  }
}
