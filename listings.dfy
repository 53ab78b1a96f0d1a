/** How often one call lists each template, counted from the request alone: the
    collection steps list a block once when its key matches (once per mention for
    activities), the weather steps add the rain-gear and tropical blocks under
    their conditions, and nothing else lists a template. */
module Listings {
  import opened Items
  import opened Text
  import opened Rules
  import opened Catalog
  import opened Store
  import opened Generator
  import opened Properties

  /** How many activities of the list equal `key` once lowered. */
  function Mentions(activities: seq<string>, key: string): (n: nat)
    ensures n <= |activities|
    decreases |activities|
  {
    if activities == [] then 0
    else Mentions(activities[..|activities| - 1], key) + (if Lower(activities[|activities| - 1]) == key then 1 else 0)
  }

  /** 1 when the optional field is present, non-empty and lowers to `key`. */
  function Given(v: Option<string>, key: string): nat
  {
    if v.Some? && v.value != "" && Lower(v.value) == key then 1 else 0
  }

  /** How many times the collection steps list the templates of `blk`. */
  function Listed(t: Tables, req: Request, blk: Block): nat
  {
    match blk
    case Base => 1
    case Season(k) => if k == Lower(req.season) then 1 else 0
    case TripType(k) => if k == Lower(req.tripType) then 1 else 0
    case Destination(d) => if FindDestination(t.destination, Lower(req.destination)) == Some(d) then 1 else 0
    case Activity(k) => Mentions(req.activities, k)
    case Gender(k) => Given(req.gender, k)
    case Age(k) => Given(req.ageGroup, k)
  }

  /** How many times the weather steps list the templates of `blk`. */
  function Added(req: Request, blk: Block): nat
  {
    if blk == Season("rainy") then (if NeedsRainGear(req) then 1 else 0)
    else if blk == Season("tropical") then (if NeedsTropicalGear(req) then 1 else 0)
    else 0
  }

  lemma {:induction false} BlockRefsCount(b: Block, n: nat, blk: Block, i: nat)
    ensures Count(BlockRefs(b, n), Template(blk, i)) == if b == blk && i < n then 1 else 0
    decreases n
  {
    if n > 0 {
      assert BlockRefs(b, n)[..n - 1] == BlockRefs(b, n - 1);
      BlockRefsCount(b, n - 1, blk, i);
    }
  }

  /** Looking up a block lists each of its templates once, and no other template. */
  lemma LookupCount(t: Tables, b: Block, blk: Block, i: nat)
    requires HasBlock(t, blk) && i < |BlockOf(t, blk)|
    ensures Count(Lookup(t, b), Template(blk, i)) == if b == blk then 1 else 0
  {
    if HasBlock(t, b) {
      BlockRefsCount(b, |BlockOf(t, b)|, blk, i);
    }
  }

  lemma {:induction false} ActivityRefsCount(t: Tables, activities: seq<string>, blk: Block, i: nat)
    requires HasBlock(t, blk) && i < |BlockOf(t, blk)|
    ensures Count(ActivityRefs(t, activities), Template(blk, i)) == if blk.Activity? then Mentions(activities, blk.key) else 0
    decreases |activities|
  {
    if activities != [] {
      var init, last := activities[..|activities| - 1], Activity(Lower(activities[|activities| - 1]));
      ActivityRefsCount(t, init, blk, i);
      LookupCount(t, last, blk, i);
      CountAppend(ActivityRefs(t, init), Lookup(t, last), Template(blk, i));
    }
  }

  lemma OptionalRefsCount(t: Tables, v: Option<string>, gender: bool, blk: Block, i: nat)
    requires HasBlock(t, blk) && i < |BlockOf(t, blk)|
    ensures Count(OptionalRefs(t, v, gender), Template(blk, i)) ==
      if (gender && blk.Gender?) || (!gender && blk.Age?) then Given(v, blk.key) else 0
  {
    if v.Some? && v.value != "" {
      LookupCount(t, if gender then Gender(Lower(v.value)) else Age(Lower(v.value)), blk, i);
    }
  }

  /** The collection steps list a template exactly as often as `Listed` says. */
  lemma CollectCount(t: Tables, req: Request, blk: Block, i: nat)
    requires HasBlock(t, blk) && i < |BlockOf(t, blk)|
    ensures Count(Collect(t, req).refs, Template(blk, i)) == Listed(t, req, blk)
  {
    var r := Template(blk, i);
    var d :=
      match FindDestination(t.destination, Lower(req.destination))
      case Some(j) => Lookup(t, Destination(j))
      case None => [Fresh(0), Fresh(1)];
    match FindDestination(t.destination, Lower(req.destination)) {
      case Some(j) => LookupCount(t, Destination(j), blk, i);
      case None => CountAbsent(d, r);
    }
    assert Collect(t, req).refs == Front(t, req) + d + Personal(t, req);
    FrontCount(t, req, blk, i);
    PersonalCount(t, req, blk, i);
    CountAppend(Front(t, req), d, r);
    CountAppend(Front(t, req) + d, Personal(t, req), r);
  }

  /** The base, season and trip-type steps list a template once when its block
      is the base or matches the season or the trip type. */
  lemma FrontCount(t: Tables, req: Request, blk: Block, i: nat)
    requires HasBlock(t, blk) && i < |BlockOf(t, blk)|
    ensures Count(Front(t, req), Template(blk, i)) ==
      if blk == Base || blk == Season(Lower(req.season)) || blk == TripType(Lower(req.tripType)) then 1 else 0
  {
    var r := Template(blk, i);
    var season, tripType := Season(Lower(req.season)), TripType(Lower(req.tripType));
    LookupCount(t, Base, blk, i);
    LookupCount(t, season, blk, i);
    LookupCount(t, tripType, blk, i);
    assert BlockRefs(Base, |t.base|) == Lookup(t, Base);
    CountAppend(Lookup(t, Base), Lookup(t, season), r);
    CountAppend(Lookup(t, Base) + Lookup(t, season), Lookup(t, tripType), r);
  }

  /** The activity, gender and age steps list a template once per mention of its
      activity, or once when its block matches the gender or the age group. */
  lemma PersonalCount(t: Tables, req: Request, blk: Block, i: nat)
    requires HasBlock(t, blk) && i < |BlockOf(t, blk)|
    ensures Count(Personal(t, req), Template(blk, i)) ==
      match blk
      case Activity(k) => Mentions(req.activities, k)
      case Gender(k) => Given(req.gender, k)
      case Age(k) => Given(req.ageGroup, k)
      case _ => 0
  {
    var r := Template(blk, i);
    ActivityRefsCount(t, req.activities, blk, i);
    OptionalRefsCount(t, req.gender, true, blk, i);
    OptionalRefsCount(t, req.ageGroup, false, blk, i);
    CountAppend(ActivityRefs(t, req.activities), OptionalRefs(t, req.gender, true), r);
    CountAppend(ActivityRefs(t, req.activities) + OptionalRefs(t, req.gender, true), OptionalRefs(t, req.ageGroup, false), r);
  }

  /** The scaling loop lists no template: the only reference it appends is the soap. */
  lemma ScalePhaseCount(s: Stage, b: Bucket, blk: Block, i: nat)
    requires AllLive(s.heap, s.refs)
    ensures Count(ScalePhase(s, b).refs, Template(blk, i)) == Count(s.refs, Template(blk, i))
  {
    ScalePhaseSoap(s, b);
    var soap := if b == Extended && |s.refs| > 0 then [Fresh(|s.heap.created|)] else [];
    CountAbsent(soap, Template(blk, i));
    CountAppend(s.refs, soap, Template(blk, i));
  }

  /** The weather steps list the rain-gear and tropical templates under their
      conditions; the presentation kit lists no template. */
  lemma PostPhaseCount(s: Stage, req: Request, blk: Block, i: nat)
    requires "rainy" in s.heap.tables.season && "tropical" in s.heap.tables.season
    requires Live(s.heap, Template(blk, i))
    ensures Count(PostPhase(s, req).refs, Template(blk, i)) == Count(s.refs, Template(blk, i)) + Added(req, blk)
  {
    var t := s.heap.tables;
    var r := Template(blk, i);
    var rain := if NeedsRainGear(req) then BlockRefs(Season("rainy"), |t.season["rainy"]|) else [];
    var tropical := if NeedsTropicalGear(req) then BlockRefs(Season("tropical"), |t.season["tropical"]|) else [];
    var n := |s.heap.created|;
    var kit := if NeedsPresentationKit(req) then [Fresh(n), Fresh(n + 1)] else [];
    assert PostPhase(s, req).refs == s.refs + rain + tropical + kit;
    WeatherCount(t, NeedsRainGear(req), "rainy", blk, i);
    WeatherCount(t, NeedsTropicalGear(req), "tropical", blk, i);
    CountAbsent(kit, r);
    CountAppend(s.refs, rain, r);
    CountAppend(s.refs + rain, tropical, r);
    CountAppend(s.refs + rain + tropical, kit, r);
    assert Added(req, blk) == (if NeedsRainGear(req) && blk == Season("rainy") then 1 else 0)
      + (if NeedsTropicalGear(req) && blk == Season("tropical") then 1 else 0);
  }

  /** One weather step lists the templates of its season block once when its
      condition holds. */
  lemma WeatherCount(t: Tables, cond: bool, key: string, blk: Block, i: nat)
    requires key in t.season
    requires blk == Season(key) ==> i < |t.season[key]|
    ensures Count(if cond then BlockRefs(Season(key), |t.season[key]|) else [], Template(blk, i)) ==
      if cond && blk == Season(key) then 1 else 0
  {
    BlockRefsCount(Season(key), |t.season[key]|, blk, i);
  }

  /** Over the whole call a template is listed exactly as often as the collection
      steps and the weather steps say: so no destination entry but the first match,
      and no rain-gear or tropical template outside their conditions. */
  lemma RunCount(t: Tables, req: Request, blk: Block, i: nat)
    requires Valid(t) && HasBlock(t, blk) && i < |BlockOf(t, blk)|
    ensures Count(Run(t, req).refs, Template(blk, i)) == Listed(t, req, blk) + Added(req, blk)
  {
    var b := DurationBucket(req.duration);
    Stages(t, req);
    CollectCount(t, req, blk, i);
    ScalePhaseCount(Collect(t, req), b, blk, i);
    ScalePhaseLive(Collect(t, req), b);
    assert Live(Collect(t, req).heap, Template(blk, i));
    PostPhaseCount(ScalePhase(Collect(t, req), b), req, blk, i);
  }

  /** After a call each template has been scaled once per listing by the
      collection steps. */
  lemma UpdatedTemplateListed(t: Tables, req: Request, blk: Block, i: nat)
    requires Valid(t) && HasBlock(t, blk) && i < |BlockOf(t, blk)|
    ensures HasBlock(Updated(t, req), blk) && i < |BlockOf(Updated(t, req), blk)|
    ensures BlockOf(Updated(t, req), blk)[i] ==
      Iterate(BlockOf(t, blk)[i], Listed(t, req, blk), DurationBucket(req.duration))
  {
    UpdatedTemplate(t, req, blk, i);
    CollectCount(t, req, blk, i);
  }

  /** A template in the final list lives in the tables the call started from. */
  lemma ListedLive(t: Tables, req: Request, j: nat)
    requires Valid(t) && j < |Run(t, req).refs| && Run(t, req).refs[j].Template?
    ensures HasBlock(t, Run(t, req).refs[j].block) && Run(t, req).refs[j].pos < |BlockOf(t, Run(t, req).refs[j].block)|
    ensures Count(Run(t, req).refs, Run(t, req).refs[j]) >= 1
  {
    var r := Run(t, req).refs[j];
    RunItem(t, req, j);
    UpdatedShape(t, req, r.block, r.pos);
    assert Live(Heap(Updated(t, req), []), r);
    CountPresent(Run(t, req).refs, j);
  }

  /** Only the first matching destination entry is listed: the loop stops at it. */
  lemma DestinationOnlyMatched(t: Tables, req: Request, j: nat)
    requires Valid(t) && j < |Run(t, req).refs|
    requires Run(t, req).refs[j].Template? && Run(t, req).refs[j].block.Destination?
    ensures FindDestination(t.destination, Lower(req.destination)) == Some(Run(t, req).refs[j].block.index)
  {
    var r := Run(t, req).refs[j];
    ListedLive(t, req, j);
    RunCount(t, req, r.block, r.pos);
  }

  /** Rain-gear templates are listed only when the season names rain or a monsoon. */
  lemma RainGearOnlyIf(t: Tables, req: Request, j: nat)
    requires Valid(t) && j < |Run(t, req).refs|
    requires Run(t, req).refs[j].Template? && Run(t, req).refs[j].block == Season("rainy")
    ensures NeedsRainGear(req)
  {
    var r := Run(t, req).refs[j];
    ListedLive(t, req, j);
    RunCount(t, req, r.block, r.pos);
    if Lower(req.season) == "rainy" {
      assert OccursAt(Lower(req.season), "rainy", 0);
    }
  }

  /** Tropical templates are listed only for a tropical season or destination. */
  lemma TropicalGearOnlyIf(t: Tables, req: Request, j: nat)
    requires Valid(t) && j < |Run(t, req).refs|
    requires Run(t, req).refs[j].Template? && Run(t, req).refs[j].block == Season("tropical")
    ensures NeedsTropicalGear(req)
  {
    var r := Run(t, req).refs[j];
    ListedLive(t, req, j);
    RunCount(t, req, r.block, r.pos);
    if Lower(req.season) == "tropical" {
      assert OccursAt(Lower(req.season), "tropical", 0);
    }
  }
}
