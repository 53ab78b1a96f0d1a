/** `generate_packing_list`: the working list is assembled from the rule tables,
    its quantities are scaled to the trip's duration, weather and presentation
    items are added, and duplicates are collapsed. The working list holds
    references, so the scaling step writes into the shared templates. */
module Generator {
  import opened Items
  import opened Text
  import opened Rules
  import opened Catalog
  import opened Store
  import opened Dedup

  /** The first destination key, in table order, that occurs in `dest`. */
  function FindDestination(es: seq<Entry>, dest: string): (r: Option<nat>)
    ensures r.Some? ==> r.value < |es| && Contains(dest, es[r.value].key)
    ensures r.Some? ==> forall i :: 0 <= i < r.value ==> !Contains(dest, es[i].key)
    ensures r.None? <==> forall i :: 0 <= i < |es| ==> !Contains(dest, es[i].key)
    decreases |es|
  {
    if es == [] then None
    else if Contains(dest, es[0].key) then Some(0)
    else
      match FindDestination(es[1..], dest)
      case None => None
      case Some(i) => Some(i + 1)
  }

  /** Some word of `words` occurs in `s`. */
  function AnyOccurs(s: string, words: seq<string>): (b: bool)
    ensures b <==> exists i :: 0 <= i < |words| && Contains(s, words[i])
    decreases |words|
  {
    if words == [] then false
    else Contains(s, words[|words| - 1]) || AnyOccurs(s, words[..|words| - 1])
  }

  /** Some activity, lowered, contains `word`. */
  function AnyActivityMentions(activities: seq<string>, word: string): (b: bool)
    ensures b <==> exists i :: 0 <= i < |activities| && Contains(Lower(activities[i]), word)
    decreases |activities|
  {
    if activities == [] then false
    else Contains(Lower(activities[|activities| - 1]), word) || AnyActivityMentions(activities[..|activities| - 1], word)
  }

  /** The season calls for the rain gear. */
  predicate NeedsRainGear(req: Request)
  {
    Contains(Lower(req.season), "rainy") || Contains(Lower(req.season), "monsoon")
  }

  /** The season or the destination calls for the tropical items. */
  predicate NeedsTropicalGear(req: Request)
  {
    Contains(Lower(req.season), "tropical") || AnyOccurs(Lower(req.destination), TropicalDestinations)
  }

  /** A business trip with an activity that mentions a presentation. */
  predicate NeedsPresentationKit(req: Request)
  {
    Lower(req.tripType) == "business" && AnyActivityMentions(req.activities, "presentation")
  }

  /** References to the first `n` templates of a block, in order. */
  function BlockRefs(b: Block, n: nat): (rs: seq<Ref>)
    ensures |rs| == n && forall i :: 0 <= i < n ==> rs[i] == Template(b, i)
  {
    seq(n, i requires 0 <= i < n => Template(b, i))
  }

  /** `items.extend(TABLE[key])` when the key is present, nothing otherwise. */
  function Lookup(t: Tables, b: Block): seq<Ref>
  {
    if HasBlock(t, b) then BlockRefs(b, |BlockOf(t, b)|) else []
  }

  /** The activity step: the items of every activity that is a key, in the order
      the activities are given, once per mention. */
  function ActivityRefs(t: Tables, activities: seq<string>): seq<Ref>
    decreases |activities|
  {
    if activities == [] then []
    else ActivityRefs(t, activities[..|activities| - 1]) + Lookup(t, Activity(Lower(activities[|activities| - 1])))
  }

  /** The gender or age step: a missing or empty value adds nothing. */
  function OptionalRefs(t: Tables, v: Option<string>, gender: bool): seq<Ref>
  {
    if v.None? || v.value == "" then []
    else if gender then Lookup(t, Gender(Lower(v.value)))
    else Lookup(t, Age(Lower(v.value)))
  }

  /** The working list and the items the call has created. */
  datatype Stage = Stage(heap: Heap, refs: seq<Ref>)

  /** The working list before scaling: base, season, trip type, destination (or the
      two generic items), activities, gender and age. */
  function Collect(t: Tables, req: Request): Stage
  {
    var s := WithDestination(t, Front(t, req), req.destination);
    Stage(s.heap, s.refs + Personal(t, req))
  }

  /** The activity, gender and age steps. */
  function Personal(t: Tables, req: Request): seq<Ref>
  {
    ActivityRefs(t, req.activities) + OptionalRefs(t, req.gender, true) + OptionalRefs(t, req.ageGroup, false)
  }

  /** The base, season and trip-type steps. */
  function Front(t: Tables, req: Request): seq<Ref>
  {
    BlockRefs(Base, |t.base|) + Lookup(t, Season(Lower(req.season))) + Lookup(t, TripType(Lower(req.tripType)))
  }

  /** The destination step: the items of the first matching entry, or else the
      two generic items, which the call creates. */
  function WithDestination(t: Tables, front: seq<Ref>, destination: string): Stage
  {
    match FindDestination(t.destination, Lower(destination))
    case Some(i) => Stage(Heap(t, []), front + Lookup(t, Destination(i)))
    case None => Stage(Heap(t, [GenericAdapter, GenericPhraseBook]), front + [Fresh(0), Fresh(1)])
  }

  /** The scaling loop. On an extended trip the visit to the first item appends the
      laundry soap, which the loop then reaches and scales like any other item. */
  function ScalePhase(s: Stage, b: Bucket): Stage
    requires AllLive(s.heap, s.refs)
  {
    if b == Extended && |s.refs| > 0 then
      var c := s.heap.created;
      var h := Heap(s.heap.tables, c + [LaundrySoap]);
      ScaleAllExtend(s.heap, s.refs, b, LaundrySoap);
      assert AllLive(h, s.refs + [Fresh(|c|)]);
      Stage(ScaleAll(h, s.refs + [Fresh(|c|)], b), s.refs + [Fresh(|c|)])
    else
      Stage(ScaleAll(s.heap, s.refs, b), s.refs)
  }

  /** The scaling loop visits every item of the list once per occurrence of its
      reference; the soap, when appended, is visited once. */
  lemma ScalePhaseGet(s: Stage, b: Bucket, r: Ref)
    requires AllLive(s.heap, s.refs) && Live(s.heap, r)
    ensures Live(ScalePhase(s, b).heap, r)
    ensures Get(ScalePhase(s, b).heap, r) == Iterate(Get(s.heap, r), Count(s.refs, r), b)
  {
    if b == Extended && |s.refs| > 0 {
      var c := s.heap.created;
      var h := Heap(s.heap.tables, c + [LaundrySoap]);
      var rs := s.refs + [Fresh(|c|)];
      ScaleAllExtend(s.heap, s.refs, b, LaundrySoap);
      assert rs[..|rs| - 1] == s.refs;
      assert Live(h, r) && Get(h, r) == Get(s.heap, r);
      assert r != Fresh(|c|);
      assert Count(rs, r) == Count(s.refs, r);
      ScaleAllCompounds(h, rs, b, r);
    } else {
      ScaleAllCompounds(s.heap, s.refs, b, r);
    }
  }

  /** On an extended trip the loop appends the soap once and scales it once. */
  lemma ScalePhaseSoap(s: Stage, b: Bucket)
    requires AllLive(s.heap, s.refs)
    ensures ScalePhase(s, b).refs ==
      s.refs + (if b == Extended && |s.refs| > 0 then [Fresh(|s.heap.created|)] else [])
    ensures |ScalePhase(s, b).heap.created| ==
      |s.heap.created| + (if b == Extended && |s.refs| > 0 then 1 else 0)
    ensures b == Extended && |s.refs| > 0 ==>
      Get(ScalePhase(s, b).heap, Fresh(|s.heap.created|)) == Scale(LaundrySoap, b)
  {
    if b == Extended && |s.refs| > 0 {
      var c := s.heap.created;
      var h := Heap(s.heap.tables, c + [LaundrySoap]);
      var rs := s.refs + [Fresh(|c|)];
      ScaleAllExtend(s.heap, s.refs, b, LaundrySoap);
      assert rs[..|rs| - 1] == s.refs;
      forall j | 0 <= j < |s.refs|
        ensures s.refs[j] != Fresh(|c|)
      {
        assert Live(s.heap, s.refs[j]);
      }
      CountAbsent(s.refs, Fresh(|c|));
      ScaleAllCompounds(h, rs, b, Fresh(|c|));
    }
  }

  /** The steps after scaling: the rain gear, the tropical items and the
      presentation kit, none of which the loop visits. */
  function PostPhase(s: Stage, req: Request): Stage
    requires "rainy" in s.heap.tables.season && "tropical" in s.heap.tables.season
  {
    var t := s.heap.tables;
    var rain := if NeedsRainGear(req) then BlockRefs(Season("rainy"), |t.season["rainy"]|) else [];
    var tropical := if NeedsTropicalGear(req) then BlockRefs(Season("tropical"), |t.season["tropical"]|) else [];
    var n := |s.heap.created|;
    if NeedsPresentationKit(req) then
      Stage(Heap(t, s.heap.created + [PresentationRemote, PresentationBackup]), s.refs + rain + tropical + [Fresh(n), Fresh(n + 1)])
    else
      Stage(s.heap, s.refs + rain + tropical)
  }

  /** Every reference of the working list is live once the list is assembled. */
  lemma CollectLive(t: Tables, req: Request)
    ensures Collect(t, req).heap.tables == t
    ensures AllLive(Collect(t, req).heap, Collect(t, req).refs)
  {
    var c := Collect(t, req).heap.created;
    var h := Heap(t, c);
    LookupLive(h, Base);
    assert Lookup(t, Base) == BlockRefs(Base, |t.base|);
    LookupLive(h, Season(Lower(req.season)));
    LookupLive(h, TripType(Lower(req.tripType)));
    var front := BlockRefs(Base, |t.base|) + Lookup(t, Season(Lower(req.season))) + Lookup(t, TripType(Lower(req.tripType)));
    AllLiveAppend(h, BlockRefs(Base, |t.base|), Lookup(t, Season(Lower(req.season))));
    AllLiveAppend(h, BlockRefs(Base, |t.base|) + Lookup(t, Season(Lower(req.season))), Lookup(t, TripType(Lower(req.tripType))));
    var d :=
      match FindDestination(t.destination, Lower(req.destination))
      case Some(i) => Lookup(t, Destination(i))
      case None => [Fresh(0), Fresh(1)];
    if FindDestination(t.destination, Lower(req.destination)).Some? {
      LookupLive(h, Destination(FindDestination(t.destination, Lower(req.destination)).value));
    }
    AllLiveAppend(h, front, d);
    ActivityRefsLive(h, req.activities);
    OptionalRefsLive(h, req.gender, true);
    OptionalRefsLive(h, req.ageGroup, false);
    AllLiveAppend(h, front + d, ActivityRefs(t, req.activities));
    AllLiveAppend(h, front + d + ActivityRefs(t, req.activities), OptionalRefs(t, req.gender, true));
    AllLiveAppend(h, front + d + ActivityRefs(t, req.activities) + OptionalRefs(t, req.gender, true), OptionalRefs(t, req.ageGroup, false));
  }

  lemma AllLiveAppend(h: Heap, a: seq<Ref>, b: seq<Ref>)
    requires AllLive(h, a) && AllLive(h, b)
    ensures AllLive(h, a + b)
  {
  }

  lemma LookupLive(h: Heap, b: Block)
    ensures AllLive(h, Lookup(h.tables, b))
  {
  }

  lemma OptionalRefsLive(h: Heap, v: Option<string>, gender: bool)
    ensures AllLive(h, OptionalRefs(h.tables, v, gender))
  {
  }

  lemma {:induction false} ActivityRefsLive(h: Heap, activities: seq<string>)
    ensures AllLive(h, ActivityRefs(h.tables, activities))
    decreases |activities|
  {
    if activities != [] {
      ActivityRefsLive(h, activities[..|activities| - 1]);
      LookupLive(h, Activity(Lower(activities[|activities| - 1])));
      AllLiveAppend(h, ActivityRefs(h.tables, activities[..|activities| - 1]), Lookup(h.tables, Activity(Lower(activities[|activities| - 1]))));
    }
  }

  /** The scaling loop adds at most the soap and keeps every reference live. */
  lemma ScalePhaseLive(s: Stage, b: Bucket)
    requires AllLive(s.heap, s.refs)
    ensures AllLive(ScalePhase(s, b).heap, ScalePhase(s, b).refs)
    ensures SameKeys(ScalePhase(s, b).heap.tables, s.heap.tables)
    ensures forall blk, i :: Live(ScalePhase(s, b).heap, Template(blk, i)) <==> Live(s.heap, Template(blk, i))
  {
    if b == Extended && |s.refs| > 0 {
      var c := s.heap.created;
      ScaleAllExtend(s.heap, s.refs, b, LaundrySoap);
      assert AllLive(Heap(s.heap.tables, c + [LaundrySoap]), s.refs + [Fresh(|c|)]);
    }
  }

  lemma PostPhaseLive(s: Stage, req: Request)
    requires "rainy" in s.heap.tables.season && "tropical" in s.heap.tables.season
    requires AllLive(s.heap, s.refs)
    ensures AllLive(PostPhase(s, req).heap, PostPhase(s, req).refs)
    ensures PostPhase(s, req).heap.tables == s.heap.tables
  {
  }

  /** The working list at the end of the call, with the heap it refers into. */
  function Run(t: Tables, req: Request): Stage
    requires Valid(t)
  {
    var s0 := Collect(t, req);
    CollectLive(t, req);
    var s1 := ScalePhase(s0, DurationBucket(req.duration));
    ScalePhaseLive(s0, DurationBucket(req.duration));
    PostPhase(s1, req)
  }

  /** The values behind a list of references. */
  function Resolve(h: Heap, rs: seq<Ref>): (vs: seq<Item>)
    requires AllLive(h, rs)
    ensures |vs| == |rs| && forall i :: 0 <= i < |rs| ==> vs[i] == Get(h, rs[i])
  {
    seq(|rs|, i requires 0 <= i < |rs| => Get(h, rs[i]))
  }

  lemma RunLive(t: Tables, req: Request)
    requires Valid(t)
    ensures AllLive(Run(t, req).heap, Run(t, req).refs)
  {
    var s0 := Collect(t, req);
    CollectLive(t, req);
    var s1 := ScalePhase(s0, DurationBucket(req.duration));
    ScalePhaseLive(s0, DurationBucket(req.duration));
    PostPhaseLive(s1, req);
  }

  /** The list `generate_packing_list` returns. */
  function Generated(t: Tables, req: Request): (r: seq<Item>)
    requires Valid(t)
    ensures forall i, j :: 0 <= i < j < |r| ==> r[i].name != r[j].name
  {
    RunLive(t, req);
    Deduplicate(Resolve(Run(t, req).heap, Run(t, req).refs))
  }

  /** The tables after the call. */
  function Updated(t: Tables, req: Request): (u: Tables)
    requires Valid(t)
    ensures SameKeys(u, t)
  {
    var s0 := Collect(t, req);
    CollectLive(t, req);
    ScalePhaseLive(s0, DurationBucket(req.duration));
    PostPhaseLive(ScalePhase(s0, DurationBucket(req.duration)), req);
    Run(t, req).heap.tables
  }

  /** The first item of the working list is the only one with its name, and the
      laundry soap does not share it. This makes `item == items[0]` true on the
      first visit only. */
  predicate HeadUnique(h: Heap, rs: seq<Ref>)
    requires AllLive(h, rs)
  {
    |rs| > 0 ==>
      && Get(h, rs[0]).name != LaundrySoap.name
      && forall j | 1 <= j < |rs| :: Get(h, rs[j]).name != Get(h, rs[0]).name
  }

  /** No reference of the list is the first base template. */
  predicate NoHead(rs: seq<Ref>)
  {
    forall j | 0 <= j < |rs| :: rs[j] != Template(Base, 0)
  }

  lemma NoHeadAppend(a: seq<Ref>, b: seq<Ref>)
    requires NoHead(a) && NoHead(b)
    ensures NoHead(a + b)
  {
  }

  lemma {:induction false} ActivityRefsNoHead(t: Tables, activities: seq<string>)
    ensures NoHead(ActivityRefs(t, activities))
    decreases |activities|
  {
    if activities != [] {
      ActivityRefsNoHead(t, activities[..|activities| - 1]);
      NoHeadAppend(ActivityRefs(t, activities[..|activities| - 1]), Lookup(t, Activity(Lower(activities[|activities| - 1]))));
    }
  }

  lemma LookupNoHead(t: Tables, b: Block)
    requires b != Base
    ensures NoHead(Lookup(t, b))
  {
  }

  lemma OptionalRefsNoHead(t: Tables, v: Option<string>, gender: bool)
    ensures NoHead(OptionalRefs(t, v, gender))
  {
  }

  /** The first base template is referenced once, at the head of the list. */
  lemma CollectHeadOnce(t: Tables, req: Request)
    requires |t.base| > 0
    ensures HeadOnce(Collect(t, req).refs)
  {
    var base := BlockRefs(Base, |t.base|);
    var season := Lookup(t, Season(Lower(req.season)));
    var tripType := Lookup(t, TripType(Lower(req.tripType)));
    var d :=
      match FindDestination(t.destination, Lower(req.destination))
      case Some(i) => Lookup(t, Destination(i))
      case None => [Fresh(0), Fresh(1)];
    LookupNoHead(t, Season(Lower(req.season)));
    LookupNoHead(t, TripType(Lower(req.tripType)));
    if FindDestination(t.destination, Lower(req.destination)).Some? {
      LookupNoHead(t, Destination(FindDestination(t.destination, Lower(req.destination)).value));
    }
    ActivityRefsNoHead(t, req.activities);
    OptionalRefsNoHead(t, req.gender, true);
    OptionalRefsNoHead(t, req.ageGroup, false);
    NoHeadAppend(ActivityRefs(t, req.activities), OptionalRefs(t, req.gender, true));
    NoHeadAppend(ActivityRefs(t, req.activities) + OptionalRefs(t, req.gender, true), OptionalRefs(t, req.ageGroup, false));
    HeadOnceAppend(base, season);
    HeadOnceAppend(base + season, tripType);
    assert Front(t, req) == base + season + tripType;
    HeadOnceAppend(Front(t, req), d);
    HeadOnceAppend(Front(t, req) + d, Personal(t, req));
    assert WithDestination(t, Front(t, req), req.destination).refs == Front(t, req) + d;
  }

  /** The first base template heads the list and occurs nowhere else in it. */
  predicate HeadOnce(rs: seq<Ref>)
  {
    |rs| > 0 && rs[0] == Template(Base, 0) && forall j | 1 <= j < |rs| :: rs[j] != Template(Base, 0)
  }

  lemma HeadOnceAppend(a: seq<Ref>, b: seq<Ref>)
    requires HeadOnce(a) && NoHead(b)
    ensures HeadOnce(a + b)
  {
    forall j | 1 <= j < |a + b|
      ensures (a + b)[j] != Template(Base, 0)
    {
      if j >= |a| {
        assert (a + b)[j] == b[j - |a|];
      }
    }
  }

  /** Under the invariant the working list starts with the Passport, which no other
      item of the list is named. */
  lemma CollectHeadUnique(t: Tables, req: Request)
    requires Valid(t)
    ensures AllLive(Collect(t, req).heap, Collect(t, req).refs)
    ensures |Collect(t, req).refs| > 0 && Collect(t, req).refs[0] == Template(Base, 0)
    ensures HeadUnique(Collect(t, req).heap, Collect(t, req).refs)
  {
    CollectLive(t, req);
    CollectHeadOnce(t, req);
    var s := Collect(t, req);
    forall j | 1 <= j < |s.refs|
      ensures Get(s.heap, s.refs[j]).name != "Passport"
    {
      match s.refs[j]
      case Template(b, i) => ValidTemplate(t, b, i);
      case Fresh(k) =>
    }
  }

  /** Scaling never renames an item. */
  lemma ScaleAllNames(h: Heap, rs: seq<Ref>, b: Bucket, r: Ref)
    requires AllLive(h, rs) && Live(h, r)
    ensures Get(ScaleAll(h, rs, b), r).name == Get(h, r).name
  {
    ScaleAllCompounds(h, rs, b, r);
    IterateKeeps(Get(h, r), Count(rs, r), b);
  }

  /** Part way through the scaling loop, no later item equals the head. */
  lemma HeadStaysUnique(h: Heap, rs: seq<Ref>, b: Bucket, k: nat, i: nat)
    requires AllLive(h, rs) && HeadUnique(h, rs) && k <= |rs| && 1 <= i < |rs|
    ensures AllLive(h, rs[..k])
    ensures Get(ScaleAll(h, rs[..k], b), rs[i]) != Get(ScaleAll(h, rs[..k], b), rs[0])
  {
    assert AllLive(h, rs[..k]);
    ScaleAllNames(h, rs[..k], b, rs[i]);
    ScaleAllNames(h, rs[..k], b, rs[0]);
  }

  /** Appending the soap to a list whose head is unique keeps it unique. */
  lemma HeadUniqueExtend(h: Heap, rs: seq<Ref>)
    requires AllLive(h, rs) && HeadUnique(h, rs) && |rs| > 0
    ensures AllLive(Heap(h.tables, h.created + [LaundrySoap]), rs + [Fresh(|h.created|)])
    ensures HeadUnique(Heap(h.tables, h.created + [LaundrySoap]), rs + [Fresh(|h.created|)])
  {
    var h' := Heap(h.tables, h.created + [LaundrySoap]);
    var rs' := rs + [Fresh(|h.created|)];
    forall j | 0 <= j < |rs|
      ensures Live(h', rs'[j]) && Get(h', rs'[j]) == Get(h, rs[j])
    {
      assert rs'[j] == rs[j] && Live(h, rs[j]);
    }
  }

  /** A call keeps the invariant of the tables and all of their keys. */
  lemma UpdatedValid(t: Tables, req: Request)
    requires Valid(t)
    ensures Valid(Updated(t, req)) && SameKeys(Updated(t, req), t)
  {
    var s0 := Collect(t, req);
    var b := DurationBucket(req.duration);
    CollectLive(t, req);
    if b == Extended && |s0.refs| > 0 {
      var c := s0.heap.created;
      ScaleAllExtend(s0.heap, s0.refs, b, LaundrySoap);
      assert AllLive(Heap(t, c + [LaundrySoap]), s0.refs + [Fresh(|c|)]);
      ScaleAllValid(Heap(t, c + [LaundrySoap]), s0.refs + [Fresh(|c|)], b);
    } else {
      ScaleAllValid(s0.heap, s0.refs, b);
    }
    ScalePhaseLive(s0, b);
    PostPhaseLive(ScalePhase(s0, b), req);
  }

  /** The first visit of an extended trip's loop appends the soap: the new list
      starts from the heap with the soap, and its head stays unique. */
  lemma SoapOnFirstVisit(h: Heap, rs: seq<Ref>, b: Bucket)
    requires AllLive(h, rs) && HeadUnique(h, rs) && |rs| > 0
    ensures AllLive(h, rs[..1])
    ensures AllLive(Heap(h.tables, h.created + [LaundrySoap]), rs + [Fresh(|h.created|)])
    ensures HeadUnique(Heap(h.tables, h.created + [LaundrySoap]), rs + [Fresh(|h.created|)])
    ensures AllLive(Heap(h.tables, h.created + [LaundrySoap]), (rs + [Fresh(|h.created|)])[..1])
    ensures ScaleAll(Heap(h.tables, h.created + [LaundrySoap]), (rs + [Fresh(|h.created|)])[..1], b) ==
      Heap(ScaleAll(h, rs[..1], b).tables, ScaleAll(h, rs[..1], b).created + [LaundrySoap])
  {
    assert AllLive(h, rs[..1]);
    ScaleAllExtend(h, rs[..1], b, LaundrySoap);
    HeadUniqueExtend(h, rs);
    assert (rs + [Fresh(|h.created|)])[..1] == rs[..1];
  }
}
