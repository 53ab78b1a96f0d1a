/** What one call of the generator does to the shared tables and what the list it
    returns contains. */
module Properties {
  import opened Items
  import opened Text
  import opened Rules
  import opened Catalog
  import opened Store
  import opened Dedup
  import opened Generator

  /** The scale-phase stage of a call, with the facts its definition needs. */
  lemma Stages(t: Tables, req: Request)
    requires Valid(t)
    ensures AllLive(Collect(t, req).heap, Collect(t, req).refs)
    ensures Collect(t, req).heap.tables == t
    ensures "rainy" in ScalePhase(Collect(t, req), DurationBucket(req.duration)).heap.tables.season
    ensures "tropical" in ScalePhase(Collect(t, req), DurationBucket(req.duration)).heap.tables.season
    ensures Run(t, req) == PostPhase(ScalePhase(Collect(t, req), DurationBucket(req.duration)), req)
  {
    CollectLive(t, req);
    ScalePhaseLive(Collect(t, req), DurationBucket(req.duration));
  }

  /** Shared templates compound: after a call, every template has been scaled once
      for each time the assembled list mentions it, and one the list does not
      mention is as it was. */
  lemma UpdatedTemplate(t: Tables, req: Request, blk: Block, i: nat)
    requires Valid(t) && HasBlock(t, blk) && i < |BlockOf(t, blk)|
    ensures HasBlock(Updated(t, req), blk) && i < |BlockOf(Updated(t, req), blk)|
    ensures BlockOf(Updated(t, req), blk)[i] ==
      Iterate(BlockOf(t, blk)[i], Count(Collect(t, req).refs, Template(blk, i)), DurationBucket(req.duration))
  {
    Stages(t, req);
    var s1 := ScalePhase(Collect(t, req), DurationBucket(req.duration));
    ScalePhaseGet(Collect(t, req), DurationBucket(req.duration), Template(blk, i));
    PostPhaseLive(s1, req);
  }

  /** A call changes no list's length, and so no template's position. */
  lemma UpdatedShape(t: Tables, req: Request, blk: Block, i: nat)
    requires Valid(t)
    ensures Live(Heap(Updated(t, req), []), Template(blk, i)) <==> Live(Heap(t, []), Template(blk, i))
  {
    Stages(t, req);
    var s1 := ScalePhase(Collect(t, req), DurationBucket(req.duration));
    ScalePhaseLive(Collect(t, req), DurationBucket(req.duration));
    PostPhaseLive(s1, req);
    assert Live(s1.heap, Template(blk, i)) <==> Live(Collect(t, req).heap, Template(blk, i));
  }

  /** The base list is never scaled: a call leaves it as it was. */
  lemma BaseUnchanged(t: Tables, req: Request)
    requires Valid(t)
    ensures Updated(t, req).base == t.base
  {
    var u := Updated(t, req);
    UpdatedShape(t, req, Base, |t.base|);
    UpdatedShape(t, req, Base, |u.base|);
    forall i | 0 <= i < |t.base|
      ensures u.base[i] == t.base[i]
    {
      UpdatedTemplate(t, req, Base, i);
      IterateKeeps(t.base[i], Count(Collect(t, req).refs, Template(Base, i)), DurationBucket(req.duration));
    }
  }

  /** The laundry soap, scaled once on an extended trip: three bars. */
  lemma SoapScaled()
    ensures Scale(LaundrySoap, Extended) == LaundrySoap.(quantity := 3)
  {
    assert Scalable(LaundrySoap);
    assert Multiplier(LaundrySoap.category, Extended) == 6;
    assert RoundHalf(6) == 3;
  }

  /** The items a call creates, in the order it creates them: the generic adapter
      and phrase book when no destination matches, the soap on an extended trip
      (after its one visit of the scaling loop), and the presentation kit. */
  function CallCreated(t: Tables, req: Request): seq<Item>
  {
    (if FindDestination(t.destination, Lower(req.destination)).None? then [GenericAdapter, GenericPhraseBook] else [])
    + (if DurationBucket(req.duration) == Extended then [LaundrySoap.(quantity := 3)] else [])
    + (if NeedsPresentationKit(req) then [PresentationRemote, PresentationBackup] else [])
  }

  /** The objects a call creates are exactly `CallCreated`. */
  lemma RunCreated(t: Tables, req: Request)
    requires Valid(t)
    ensures Run(t, req).heap.created == CallCreated(t, req)
  {
    Stages(t, req);
    ScaledCreated(t, req);
  }

  /** After the scaling loop: the generic items unchanged, then the scaled soap. */
  lemma ScaledCreated(t: Tables, req: Request)
    requires Valid(t)
    ensures AllLive(Collect(t, req).heap, Collect(t, req).refs)
    ensures ScalePhase(Collect(t, req), DurationBucket(req.duration)).heap.created ==
      (if FindDestination(t.destination, Lower(req.destination)).None? then [GenericAdapter, GenericPhraseBook] else [])
      + (if DurationBucket(req.duration) == Extended then [LaundrySoap.(quantity := 3)] else [])
  {
    CollectLive(t, req);
    CollectHeadOnce(t, req);
    var s0 := Collect(t, req);
    assert s0.heap.created == if FindDestination(t.destination, Lower(req.destination)).None? then [GenericAdapter, GenericPhraseBook] else [];
    ScalePhaseCreated(s0, DurationBucket(req.duration));
  }

  /** When the call's own items are not ones the loop scales, the loop leaves them
      as they are and appends the soap, scaled once, on an extended trip. */
  lemma ScalePhaseCreated(s: Stage, b: Bucket)
    requires AllLive(s.heap, s.refs) && |s.refs| > 0
    requires forall k | 0 <= k < |s.heap.created| :: !Scalable(s.heap.created[k])
    ensures ScalePhase(s, b).heap.created ==
      s.heap.created + (if b == Extended then [LaundrySoap.(quantity := 3)] else [])
  {
    var c0 := s.heap.created;
    var s1 := ScalePhase(s, b);
    ScalePhaseSoap(s, b);
    SoapScaled();
    forall k | 0 <= k < |c0|
      ensures s1.heap.created[k] == c0[k]
    {
      ScalePhaseGet(s, b, Fresh(k));
      IterateKeeps(c0[k], Count(s.refs, Fresh(k)), b);
    }
    var expected := c0 + (if b == Extended then [LaundrySoap.(quantity := 3)] else []);
    assert |s1.heap.created| == |expected|;
    assert forall k | 0 <= k < |expected| :: s1.heap.created[k] == expected[k];
  }

  /** Each object created while assembling the list is in the list. */
  lemma CollectFresh(t: Tables, req: Request, k: nat)
    requires k < |Collect(t, req).heap.created|
    ensures exists j :: 0 <= j < |Collect(t, req).refs| && Collect(t, req).refs[j] == Fresh(k)
  {
    var front := BlockRefs(Base, |t.base|) + Lookup(t, Season(Lower(req.season))) + Lookup(t, TripType(Lower(req.tripType)));
    var wd := WithDestination(t, front, req.destination);
    assert Collect(t, req).refs[..|wd.refs|] == wd.refs;
    assert wd.refs[|front| + k] == Fresh(k);
  }

  /** The list a call ends with: the scaled list, then the rain gear, the tropical
      items and the presentation kit. */
  lemma PostPhaseRefs(s: Stage, req: Request)
    requires "rainy" in s.heap.tables.season && "tropical" in s.heap.tables.season
    ensures |PostPhase(s, req).refs| >= |s.refs|
    ensures forall i | 0 <= i < |s.refs| :: PostPhase(s, req).refs[i] == s.refs[i]
    ensures |PostPhase(s, req).heap.created| == |s.heap.created| + (if NeedsPresentationKit(req) then 2 else 0)
    ensures NeedsPresentationKit(req) ==>
      var rs := PostPhase(s, req).refs;
      |rs| >= 2 && rs[|rs| - 2] == Fresh(|s.heap.created|) && rs[|rs| - 1] == Fresh(|s.heap.created| + 1)
  {
  }

  /** Every object a call creates is in its final list. */
  lemma FreshListed(t: Tables, req: Request, k: nat)
    requires Valid(t) && k < |CallCreated(t, req)|
    ensures exists j :: 0 <= j < |Run(t, req).refs| && Run(t, req).refs[j] == Fresh(k)
  {
    Stages(t, req);
    RunCreated(t, req);
    CollectHeadOnce(t, req);
    var s0 := Collect(t, req);
    forall k' | 0 <= k' < |s0.heap.created|
      ensures exists j :: 0 <= j < |s0.refs| && s0.refs[j] == Fresh(k')
    {
      CollectFresh(t, req, k');
    }
    FreshListedAfter(s0, DurationBucket(req.duration), req, k);
  }

  /** The scaling loop and the steps after it keep every created object listed. */
  lemma FreshListedAfter(s0: Stage, b: Bucket, req: Request, k: nat)
    requires AllLive(s0.heap, s0.refs) && |s0.refs| > 0
    requires "rainy" in s0.heap.tables.season && "tropical" in s0.heap.tables.season
    requires forall k' | 0 <= k' < |s0.heap.created| :: exists j :: 0 <= j < |s0.refs| && s0.refs[j] == Fresh(k')
    requires k < |PostPhase(ScalePhase(s0, b), req).heap.created|
    ensures exists j :: 0 <= j < |PostPhase(ScalePhase(s0, b), req).refs| && PostPhase(ScalePhase(s0, b), req).refs[j] == Fresh(k)
  {
    var s1 := ScalePhase(s0, b);
    ScalePhaseLive(s0, b);
    forall k' | 0 <= k' < |s1.heap.created|
      ensures exists j :: 0 <= j < |s1.refs| && s1.refs[j] == Fresh(k')
    {
      FreshListedScaled(s0, b, k');
    }
    FreshListedPost(s1, req, k);
  }

  lemma FreshListedScaled(s0: Stage, b: Bucket, k: nat)
    requires AllLive(s0.heap, s0.refs)
    requires forall k' | 0 <= k' < |s0.heap.created| :: exists j :: 0 <= j < |s0.refs| && s0.refs[j] == Fresh(k')
    requires k < |ScalePhase(s0, b).heap.created|
    ensures exists j :: 0 <= j < |ScalePhase(s0, b).refs| && ScalePhase(s0, b).refs[j] == Fresh(k)
  {
    var rs := ScalePhase(s0, b).refs;
    ScalePhaseSoap(s0, b);
    if k < |s0.heap.created| {
      var j :| 0 <= j < |s0.refs| && s0.refs[j] == Fresh(k);
      assert rs[j] == s0.refs[j];
    } else {
      assert rs[|s0.refs|] == Fresh(k);
    }
  }

  lemma FreshListedPost(s1: Stage, req: Request, k: nat)
    requires "rainy" in s1.heap.tables.season && "tropical" in s1.heap.tables.season
    requires forall k' | 0 <= k' < |s1.heap.created| :: exists j :: 0 <= j < |s1.refs| && s1.refs[j] == Fresh(k')
    requires k < |PostPhase(s1, req).heap.created|
    ensures exists j :: 0 <= j < |PostPhase(s1, req).refs| && PostPhase(s1, req).refs[j] == Fresh(k)
  {
    var rs := PostPhase(s1, req).refs;
    PostPhaseRefs(s1, req);
    if k < |s1.heap.created| {
      var j :| 0 <= j < |s1.refs| && s1.refs[j] == Fresh(k);
      assert rs[j] == Fresh(k);
    } else if k == |s1.heap.created| {
      assert rs[|rs| - 2] == Fresh(k);
    } else {
      assert rs[|rs| - 1] == Fresh(k);
    }
  }

  /** The working list at the end of a call, as values. */
  function Working(t: Tables, req: Request): (w: seq<Item>)
    requires Valid(t)
    ensures |w| == |Run(t, req).refs|
    ensures Deduplicate(w) == Generated(t, req)
  {
    RunLive(t, req);
    Resolve(Run(t, req).heap, Run(t, req).refs)
  }

  /** An item of the final list is a template, which under the invariant is neither
      a created item nor, unless it is the first base template, the Passport; or it
      is one of the objects the call created. */
  lemma RunItem(t: Tables, req: Request, j: nat)
    requires Valid(t) && j < |Run(t, req).refs|
    ensures Live(Run(t, req).heap, Run(t, req).refs[j])
    ensures Working(t, req)[j] == Get(Run(t, req).heap, Run(t, req).refs[j])
    ensures Run(t, req).refs[j].Template? ==>
      && Working(t, req)[j].name !in CreatedNames
      && (Working(t, req)[j].name == "Passport" <==> Run(t, req).refs[j] == Template(Base, 0))
      && Working(t, req)[j].quantity >= 1
    ensures Run(t, req).refs[j].Fresh? ==>
      Run(t, req).refs[j].pos < |CallCreated(t, req)| && Working(t, req)[j] == CallCreated(t, req)[Run(t, req).refs[j].pos]
  {
    RunLive(t, req);
    RunCreated(t, req);
    UpdatedValid(t, req);
    match Run(t, req).refs[j]
    case Template(blk, i) => ValidTemplate(Updated(t, req), blk, i);
    case Fresh(k) =>
  }

  /** A created item's name is in the output exactly when the call created it. */
  lemma CreatedNameInOutput(t: Tables, req: Request, n: string)
    requires Valid(t) && n in CreatedNames
    ensures HasName(Generated(t, req), n) <==> HasName(CallCreated(t, req), n)
  {
    var w := Working(t, req);
    DedupNamesIff(w, n);
    if exists j :: 0 <= j < |w| && w[j].name == n {
      var j :| 0 <= j < |w| && w[j].name == n;
      RunItem(t, req, j);
    }
    if exists k :: 0 <= k < |CallCreated(t, req)| && CallCreated(t, req)[k].name == n {
      var k :| 0 <= k < |CallCreated(t, req)| && CallCreated(t, req)[k].name == n;
      FreshListed(t, req, k);
      var j :| 0 <= j < |Run(t, req).refs| && Run(t, req).refs[j] == Fresh(k);
      RunItem(t, req, j);
    }
  }

  /** The names the call's created items carry. */
  lemma CallCreatedNames(t: Tables, req: Request, n: string)
    ensures HasName(CallCreated(t, req), n) <==>
      || (FindDestination(t.destination, Lower(req.destination)).None? && (n == GenericAdapter.name || n == GenericPhraseBook.name))
      || (DurationBucket(req.duration) == Extended && n == LaundrySoap.name)
      || (NeedsPresentationKit(req) && (n == PresentationRemote.name || n == PresentationBackup.name))
  {
    var generic := if FindDestination(t.destination, Lower(req.destination)).None? then [GenericAdapter, GenericPhraseBook] else [];
    var soap := if DurationBucket(req.duration) == Extended then [LaundrySoap.(quantity := 3)] else [];
    var kit := if NeedsPresentationKit(req) then [PresentationRemote, PresentationBackup] else [];
    HasNameAppend(generic, soap, n);
    HasNameAppend(generic + soap, kit, n);
    if generic != [] && (n == GenericAdapter.name || n == GenericPhraseBook.name) {
      assert generic[if n == GenericAdapter.name then 0 else 1].name == n;
    }
    if soap != [] && n == LaundrySoap.name {
      assert soap[0].name == n;
    }
    if kit != [] && (n == PresentationRemote.name || n == PresentationBackup.name) {
      assert kit[if n == PresentationRemote.name then 0 else 1].name == n;
    }
  }

  /** The phrase book is in the output exactly when no destination key matched. */
  lemma PhraseBookIffNoDestination(t: Tables, req: Request)
    requires Valid(t)
    ensures HasName(Generated(t, req), GenericPhraseBook.name) <==>
            FindDestination(t.destination, Lower(req.destination)).None?
  {
    CreatedNameInOutput(t, req, GenericPhraseBook.name);
    CallCreatedNames(t, req, GenericPhraseBook.name);
  }

  /** The laundry soap is in the output exactly on an extended trip. */
  lemma SoapIffExtended(t: Tables, req: Request)
    requires Valid(t)
    ensures HasName(Generated(t, req), LaundrySoap.name) <==> DurationBucket(req.duration) == Extended
  {
    CreatedNameInOutput(t, req, LaundrySoap.name);
    CallCreatedNames(t, req, LaundrySoap.name);
  }

  /** The presentation remote and backup are in the output exactly on a business
      trip with an activity that mentions a presentation. */
  lemma PresentationKitIff(t: Tables, req: Request)
    requires Valid(t)
    ensures HasName(Generated(t, req), PresentationRemote.name) <==> NeedsPresentationKit(req)
    ensures HasName(Generated(t, req), PresentationBackup.name) <==> NeedsPresentationKit(req)
  {
    CreatedNameInOutput(t, req, PresentationRemote.name);
    CallCreatedNames(t, req, PresentationRemote.name);
    CreatedNameInOutput(t, req, PresentationBackup.name);
    CallCreatedNames(t, req, PresentationBackup.name);
  }

  /** Among the created items only the soap carries its name. */
  lemma CallCreatedSoap(t: Tables, req: Request, k: nat)
    requires k < |CallCreated(t, req)| && CallCreated(t, req)[k].name == LaundrySoap.name
    ensures CallCreated(t, req)[k] == LaundrySoap.(quantity := 3)
  {
  }

  /** On an extended trip the output holds the laundry soap with quantity 3: the
      loop appends it with quantity 1 and then visits it once. */
  lemma SoapThreeBars(t: Tables, req: Request)
    requires Valid(t) && DurationBucket(req.duration) == Extended
    ensures exists p :: 0 <= p < |Generated(t, req)| && Generated(t, req)[p] == LaundrySoap.(quantity := 3)
  {
    var w := Working(t, req);
    var cc := CallCreated(t, req);
    var k := if FindDestination(t.destination, Lower(req.destination)).None? then 2 else 0;
    assert cc[k] == LaundrySoap.(quantity := 3);
    FreshListed(t, req, k);
    var j :| 0 <= j < |Run(t, req).refs| && Run(t, req).refs[j] == Fresh(k);
    RunItem(t, req, j);
    forall l | 0 <= l < |w| && w[l].name == w[j].name
      ensures w[l] == w[j]
    {
      RunItem(t, req, l);
      if Run(t, req).refs[l].Fresh? {
        CallCreatedSoap(t, req, Run(t, req).refs[l].pos);
      }
    }
    DedupKeepsSole(w, j);
  }

  /** The final list starts with the first base template. */
  lemma RunHead(t: Tables, req: Request)
    requires Valid(t)
    ensures |Run(t, req).refs| > 0 && Run(t, req).refs[0] == Template(Base, 0)
  {
    Stages(t, req);
    CollectHeadOnce(t, req);
    var b := DurationBucket(req.duration);
    ScalePhaseSoap(Collect(t, req), b);
    PostPhaseRefs(ScalePhase(Collect(t, req), b), req);
  }

  /** The output starts with the Passport exactly as the base list has it: it is
      listed first, never scaled, and no other item shares its name. */
  lemma GeneratedStartsWithPassport(t: Tables, req: Request)
    requires Valid(t)
    ensures |Generated(t, req)| > 0 && Generated(t, req)[0] == t.base[0] && t.base[0].name == "Passport"
  {
    var w := Working(t, req);
    RunHead(t, req);
    RunItem(t, req, 0);
    BaseUnchanged(t, req);
    CallCreatedNames(t, req, "Passport");
    forall l | 0 <= l < |w| && w[l].name == w[0].name
      ensures w[l] == w[0]
    {
      RunItem(t, req, l);
    }
    DedupKeepsSole(w, 0);
    DedupHead(w);
    DedupNamesDistinct(w);
  }

  /** Every output item has a positive quantity. */
  lemma GeneratedQuantitiesPositive(t: Tables, req: Request, p: nat)
    requires Valid(t) && p < |Generated(t, req)|
    ensures Generated(t, req)[p].quantity >= 1
  {
    var w := Working(t, req);
    DedupKeepsUndisplaced(w, p);
    var j :| 0 <= j < |w| && w[j] == Generated(t, req)[p] && Undisplaced(w, j);
    RunItem(t, req, j);
    if Run(t, req).refs[j].Fresh? {
      CallCreatedPositive(t, req, Run(t, req).refs[j].pos);
    }
  }

  lemma CallCreatedPositive(t: Tables, req: Request, k: nat)
    requires k < |CallCreated(t, req)|
    ensures CallCreated(t, req)[k].quantity >= 1
  {
  }

  /** The output's names are distinct. */
  lemma GeneratedNamesDistinct(t: Tables, req: Request)
    requires Valid(t)
    ensures forall p, q :: 0 <= p < q < |Generated(t, req)| ==> Generated(t, req)[p].name != Generated(t, req)[q].name
  {
    DedupNamesDistinct(Working(t, req));
  }

  /** A template in the final list keeps its name in the output, whatever its
      quantity has become and whichever duplicate the deduplication kept. */
  lemma ListedKept(t: Tables, req: Request, j: nat)
    requires Valid(t) && j < |Run(t, req).refs| && Run(t, req).refs[j].Template?
    ensures HasBlock(t, Run(t, req).refs[j].block)
    ensures Run(t, req).refs[j].pos < |BlockOf(t, Run(t, req).refs[j].block)|
    ensures HasName(Generated(t, req), BlockOf(t, Run(t, req).refs[j].block)[Run(t, req).refs[j].pos].name)
  {
    var r := Run(t, req).refs[j];
    var w := Working(t, req);
    RunItem(t, req, j);
    UpdatedShape(t, req, r.block, r.pos);
    assert Live(Heap(Updated(t, req), []), r);
    UpdatedTemplate(t, req, r.block, r.pos);
    IterateKeeps(BlockOf(t, r.block)[r.pos], Count(Collect(t, req).refs, r), DurationBucket(req.duration));
    assert w[j].name == BlockOf(t, r.block)[r.pos].name;
    DedupCoversNames(w);
  }

  /** Scaling and the conditional blocks only append: what the collection steps
      listed stays where it was. */
  lemma CollectListed(t: Tables, req: Request, j: nat)
    requires Valid(t) && j < |Collect(t, req).refs|
    ensures j < |Run(t, req).refs| && Run(t, req).refs[j] == Collect(t, req).refs[j]
  {
    var b := DurationBucket(req.duration);
    Stages(t, req);
    ScalePhaseSoap(Collect(t, req), b);
    PostPhaseRefs(ScalePhase(Collect(t, req), b), req);
  }

  /** The collected list starts with the base, season and trip-type steps and ends
      with the activity, gender and age steps. */
  lemma CollectShape(t: Tables, req: Request)
    ensures |Collect(t, req).refs| ==
      |WithDestination(t, Front(t, req), req.destination).refs| + |Personal(t, req)|
    ensures |WithDestination(t, Front(t, req), req.destination).refs| >= |Front(t, req)|
    ensures forall j | 0 <= j < |Front(t, req)| :: Collect(t, req).refs[j] == Front(t, req)[j]
    ensures forall k | 0 <= k < |Personal(t, req)| ::
      Collect(t, req).refs[|WithDestination(t, Front(t, req), req.destination).refs| + k] == Personal(t, req)[k]
  {
  }

  /** A template of the base, season or trip-type steps keeps its name in the output. */
  lemma FrontKept(t: Tables, req: Request, j: nat)
    requires Valid(t) && j < |Front(t, req)| && Front(t, req)[j].Template?
    ensures HasBlock(t, Front(t, req)[j].block) && Front(t, req)[j].pos < |BlockOf(t, Front(t, req)[j].block)|
    ensures HasName(Generated(t, req), BlockOf(t, Front(t, req)[j].block)[Front(t, req)[j].pos].name)
  {
    CollectShape(t, req);
    assert Collect(t, req).refs[j] == Front(t, req)[j];
    CollectListed(t, req, j);
    ListedKept(t, req, j);
  }

  /** A template of the activity, gender or age steps keeps its name in the output. */
  lemma PersonalKept(t: Tables, req: Request, k: nat)
    requires Valid(t) && k < |Personal(t, req)| && Personal(t, req)[k].Template?
    ensures HasBlock(t, Personal(t, req)[k].block) && Personal(t, req)[k].pos < |BlockOf(t, Personal(t, req)[k].block)|
    ensures HasName(Generated(t, req), BlockOf(t, Personal(t, req)[k].block)[Personal(t, req)[k].pos].name)
  {
    CollectShape(t, req);
    var j := |WithDestination(t, Front(t, req), req.destination).refs| + k;
    assert Collect(t, req).refs[j] == Personal(t, req)[k];
    CollectListed(t, req, j);
    ListedKept(t, req, j);
  }

  /** Every item of the season's list reaches the output. */
  lemma SeasonItemsKept(t: Tables, req: Request, i: nat)
    requires Valid(t) && Lower(req.season) in t.season && i < |t.season[Lower(req.season)]|
    ensures HasName(Generated(t, req), t.season[Lower(req.season)][i].name)
  {
    var j := |t.base| + i;
    assert Front(t, req)[j] == Template(Season(Lower(req.season)), i);
    FrontKept(t, req, j);
  }

  /** Every item of the trip type's list reaches the output. */
  lemma TripTypeItemsKept(t: Tables, req: Request, i: nat)
    requires Valid(t) && Lower(req.tripType) in t.tripType && i < |t.tripType[Lower(req.tripType)]|
    ensures HasName(Generated(t, req), t.tripType[Lower(req.tripType)][i].name)
  {
    var j := |t.base| + |Lookup(t, Season(Lower(req.season)))| + i;
    assert Front(t, req)[j] == Template(TripType(Lower(req.tripType)), i);
    FrontKept(t, req, j);
  }

  /** Every item of the first matching destination entry reaches the output. */
  lemma DestinationItemsKept(t: Tables, req: Request, d: nat, i: nat)
    requires Valid(t) && FindDestination(t.destination, Lower(req.destination)) == Some(d)
    requires d < |t.destination| && i < |t.destination[d].items|
    ensures HasName(Generated(t, req), t.destination[d].items[i].name)
  {
    var j := |Front(t, req)| + i;
    assert WithDestination(t, Front(t, req), req.destination).refs == Front(t, req) + Lookup(t, Destination(d));
    assert Collect(t, req).refs[j] == Template(Destination(d), i);
    CollectListed(t, req, j);
    ListedKept(t, req, j);
  }

  /** The items of an activity key occur among the activity step's references. */
  lemma {:induction false} ActivityRefsHave(t: Tables, activities: seq<string>, a: nat, i: nat)
    requires a < |activities| && Lower(activities[a]) in t.activity && i < |t.activity[Lower(activities[a])]|
    ensures exists k :: (0 <= k < |ActivityRefs(t, activities)| &&
      ActivityRefs(t, activities)[k] == Template(Activity(Lower(activities[a])), i))
    decreases |activities|
  {
    var init := activities[..|activities| - 1];
    var last := Lookup(t, Activity(Lower(activities[|activities| - 1])));
    assert ActivityRefs(t, activities) == ActivityRefs(t, init) + last;
    if a == |activities| - 1 {
      assert ActivityRefs(t, activities)[|ActivityRefs(t, init)| + i] == last[i];
    } else {
      assert init[a] == activities[a];
      ActivityRefsHave(t, init, a, i);
      var k :| 0 <= k < |ActivityRefs(t, init)| && ActivityRefs(t, init)[k] == Template(Activity(Lower(activities[a])), i);
      assert ActivityRefs(t, activities)[k] == ActivityRefs(t, init)[k];
    }
  }

  /** Every item of every listed activity that is a key reaches the output. */
  lemma ActivityItemsKept(t: Tables, req: Request, a: nat, i: nat)
    requires Valid(t) && a < |req.activities|
    requires Lower(req.activities[a]) in t.activity && i < |t.activity[Lower(req.activities[a])]|
    ensures HasName(Generated(t, req), t.activity[Lower(req.activities[a])][i].name)
  {
    ActivityRefsHave(t, req.activities, a, i);
    var k :| 0 <= k < |ActivityRefs(t, req.activities)| &&
      ActivityRefs(t, req.activities)[k] == Template(Activity(Lower(req.activities[a])), i);
    assert Personal(t, req)[k] == ActivityRefs(t, req.activities)[k];
    PersonalKept(t, req, k);
  }

  /** A non-empty gender that is a key brings every item of its list. */
  lemma GenderItemsKept(t: Tables, req: Request, i: nat)
    requires Valid(t) && req.gender.Some? && req.gender.value != ""
    requires Lower(req.gender.value) in t.gender && i < |t.gender[Lower(req.gender.value)]|
    ensures HasName(Generated(t, req), t.gender[Lower(req.gender.value)][i].name)
  {
    var k := |ActivityRefs(t, req.activities)| + i;
    assert Personal(t, req)[k] == Template(Gender(Lower(req.gender.value)), i);
    PersonalKept(t, req, k);
  }

  /** A non-empty age group that is a key brings every item of its list. */
  lemma AgeItemsKept(t: Tables, req: Request, i: nat)
    requires Valid(t) && req.ageGroup.Some? && req.ageGroup.value != ""
    requires Lower(req.ageGroup.value) in t.age && i < |t.age[Lower(req.ageGroup.value)]|
    ensures HasName(Generated(t, req), t.age[Lower(req.ageGroup.value)][i].name)
  {
    var k := |ActivityRefs(t, req.activities)| + |OptionalRefs(t, req.gender, true)| + i;
    assert Personal(t, req)[k] == Template(Age(Lower(req.ageGroup.value)), i);
    PersonalKept(t, req, k);
  }

  /** Where the rain-gear and tropical blocks land: right after the scaled list,
      the rain gear first. */
  lemma PostPhaseBlocks(s: Stage, req: Request, i: nat)
    requires "rainy" in s.heap.tables.season && "tropical" in s.heap.tables.season
    ensures NeedsRainGear(req) && i < |s.heap.tables.season["rainy"]| ==>
      |s.refs| + i < |PostPhase(s, req).refs| && PostPhase(s, req).refs[|s.refs| + i] == Template(Season("rainy"), i)
    ensures NeedsTropicalGear(req) && i < |s.heap.tables.season["tropical"]| ==>
      var j := |s.refs| + (if NeedsRainGear(req) then |s.heap.tables.season["rainy"]| else 0) + i;
      j < |PostPhase(s, req).refs| && PostPhase(s, req).refs[j] == Template(Season("tropical"), i)
  {
  }

  /** In a rainy or monsoon season every rain-gear item reaches the output. */
  lemma RainGearKept(t: Tables, req: Request, i: nat)
    requires Valid(t) && NeedsRainGear(req) && i < |t.season["rainy"]|
    ensures HasName(Generated(t, req), t.season["rainy"][i].name)
  {
    var b := DurationBucket(req.duration);
    Stages(t, req);
    var s1 := ScalePhase(Collect(t, req), b);
    ScalePhaseLive(Collect(t, req), b);
    assert Live(Collect(t, req).heap, Template(Season("rainy"), i));
    assert Live(s1.heap, Template(Season("rainy"), i));
    PostPhaseBlocks(s1, req, i);
    ListedKept(t, req, |s1.refs| + i);
  }

  /** In a tropical season or at a tropical destination every tropical item
      reaches the output. */
  lemma TropicalGearKept(t: Tables, req: Request, i: nat)
    requires Valid(t) && NeedsTropicalGear(req) && i < |t.season["tropical"]|
    ensures HasName(Generated(t, req), t.season["tropical"][i].name)
  {
    var b := DurationBucket(req.duration);
    Stages(t, req);
    var s1 := ScalePhase(Collect(t, req), b);
    ScalePhaseLive(Collect(t, req), b);
    assert Live(Collect(t, req).heap, Template(Season("tropical"), i));
    assert Live(s1.heap, Template(Season("tropical"), i));
    PostPhaseBlocks(s1, req, i);
    ListedKept(t, req, |s1.refs| + (if NeedsRainGear(req) then |s1.heap.tables.season["rainy"]| else 0) + i);
  }

  /** Scaling twice in a row is scaling the sum of the two counts. */
  lemma {:induction false} IterateAdd(it: Item, m: nat, n: nat, b: Bucket)
    ensures Iterate(Iterate(it, m, b), n, b) == Iterate(it, m + n, b)
  {
    if n > 0 {
      IterateAdd(it, m, n - 1, b);
    }
  }

  /** Two tables with the same keys and lists of the same lengths. */
  ghost predicate SameShape(t: Tables, u: Tables)
  {
    && SameKeys(t, u)
    && forall blk | HasBlock(t, blk) && HasBlock(u, blk) :: |BlockOf(t, blk)| == |BlockOf(u, blk)|
  }

  lemma SameKeysHasBlock(t: Tables, u: Tables, blk: Block)
    requires SameKeys(t, u)
    ensures HasBlock(t, blk) <==> HasBlock(u, blk)
  {
    match blk
    case Base =>
    case Season(k) => assert k in t.season.Keys <==> k in u.season.Keys;
    case TripType(k) => assert k in t.tripType.Keys <==> k in u.tripType.Keys;
    case Destination(k) =>
    case Activity(k) => assert k in t.activity.Keys <==> k in u.activity.Keys;
    case Gender(k) => assert k in t.gender.Keys <==> k in u.gender.Keys;
    case Age(k) => assert k in t.age.Keys <==> k in u.age.Keys;
  }

  /** A call leaves the tables' shape as it was. */
  lemma UpdatedSameShape(t: Tables, req: Request)
    requires Valid(t)
    ensures SameShape(Updated(t, req), t)
  {
    var u := Updated(t, req);
    UpdatedValid(t, req);
    forall blk | HasBlock(u, blk) && HasBlock(t, blk)
      ensures |BlockOf(u, blk)| == |BlockOf(t, blk)|
    {
      var n := if |BlockOf(u, blk)| < |BlockOf(t, blk)| then |BlockOf(u, blk)| else |BlockOf(t, blk)|;
      UpdatedShape(t, req, blk, n);
    }
  }

  /** The destination match reads only the entries' keys. */
  lemma {:induction false} FindDestinationKeys(es: seq<Entry>, fs: seq<Entry>, dest: string)
    requires |es| == |fs| && forall i | 0 <= i < |es| :: es[i].key == fs[i].key
    ensures FindDestination(es, dest) == FindDestination(fs, dest)
    decreases |es|
  {
    if es != [] {
      FindDestinationKeys(es[1..], fs[1..], dest);
    }
  }

  lemma LookupSameShape(t: Tables, u: Tables, blk: Block)
    requires SameShape(t, u)
    ensures Lookup(t, blk) == Lookup(u, blk)
  {
    SameKeysHasBlock(t, u, blk);
  }

  lemma {:induction false} ActivityRefsSameShape(t: Tables, u: Tables, activities: seq<string>)
    requires SameShape(t, u)
    ensures ActivityRefs(t, activities) == ActivityRefs(u, activities)
    decreases |activities|
  {
    if activities != [] {
      ActivityRefsSameShape(t, u, activities[..|activities| - 1]);
      LookupSameShape(t, u, Activity(Lower(activities[|activities| - 1])));
    }
  }

  /** Tables of the same shape produce the same working list. */
  lemma CollectSameShape(t: Tables, u: Tables, req: Request)
    requires SameShape(t, u)
    ensures Collect(t, req).refs == Collect(u, req).refs
  {
    LookupSameShape(t, u, Base);
    LookupSameShape(t, u, Season(Lower(req.season)));
    LookupSameShape(t, u, TripType(Lower(req.tripType)));
    assert Front(t, req) == Front(u, req);
    FindDestinationKeys(t.destination, u.destination, Lower(req.destination));
    var d := FindDestination(t.destination, Lower(req.destination));
    if d.Some? {
      LookupSameShape(t, u, Destination(d.value));
    }
    assert WithDestination(t, Front(t, req), req.destination).refs == WithDestination(u, Front(u, req), req.destination).refs;
    ActivityRefsSameShape(t, u, req.activities);
    if req.gender.Some? {
      LookupSameShape(t, u, Gender(Lower(req.gender.value)));
    }
    if req.ageGroup.Some? {
      LookupSameShape(t, u, Age(Lower(req.ageGroup.value)));
    }
    assert Personal(t, req) == Personal(u, req);
  }

  lemma CountSameShape(t: Tables, u: Tables, req: Request, r: Ref)
    requires SameShape(t, u)
    ensures Count(Collect(t, req).refs, r) == Count(Collect(u, req).refs, r)
  {
    CollectSameShape(t, u, req);
  }

  /** Calls are not idempotent: the same request made twice scales every listed
      template twice as often as one call does, since the first call's results
      are the second call's templates. */
  lemma SecondCallCompounds(t: Tables, req: Request, blk: Block, i: nat)
    requires Valid(t) && HasBlock(t, blk) && i < |BlockOf(t, blk)|
    ensures Valid(Updated(t, req))
    ensures HasBlock(Updated(Updated(t, req), req), blk) && i < |BlockOf(Updated(Updated(t, req), req), blk)|
    ensures BlockOf(Updated(Updated(t, req), req), blk)[i] ==
      Iterate(BlockOf(t, blk)[i], 2 * Count(Collect(t, req).refs, Template(blk, i)), DurationBucket(req.duration))
  {
    UpdatedValid(t, req);
    UpdatedTemplate(t, req, blk, i);
    UpdatedSameShape(t, req);
    CallOnScaled(t, Updated(t, req), req, blk, i);
  }

  /** A call on tables of the same shape as `t` scales each template as often as
      a call on `t` does. */
  lemma CallOnScaled(t: Tables, u: Tables, req: Request, blk: Block, i: nat)
    requires Valid(u) && SameShape(u, t) && HasBlock(u, blk) && i < |BlockOf(u, blk)| && HasBlock(t, blk) && i < |BlockOf(t, blk)|
    requires BlockOf(u, blk)[i] == Iterate(BlockOf(t, blk)[i], Count(Collect(t, req).refs, Template(blk, i)), DurationBucket(req.duration))
    ensures HasBlock(Updated(u, req), blk) && i < |BlockOf(Updated(u, req), blk)|
    ensures BlockOf(Updated(u, req), blk)[i] ==
      Iterate(BlockOf(t, blk)[i], 2 * Count(Collect(t, req).refs, Template(blk, i)), DurationBucket(req.duration))
  {
    var b := DurationBucket(req.duration);
    var n := Count(Collect(t, req).refs, Template(blk, i));
    CountSameShape(u, t, req, Template(blk, i));
    UpdatedTemplate(u, req, blk, i);
    IterateTwice(BlockOf(t, blk)[i], BlockOf(u, blk)[i], BlockOf(Updated(u, req), blk)[i], n, b);
  }

  /** Scaling n times twice over is scaling 2n times. */
  lemma IterateTwice(x: Item, y: Item, z: Item, n: nat, b: Bucket)
    requires y == Iterate(x, n, b) && z == Iterate(y, n, b)
    ensures z == Iterate(x, 2 * n, b)
  {
    IterateAdd(x, n, n, b);
  }

  /** The summer T-shirts on a medium trip: five become eight after one visit and
      reach the cap of ten after a second. */
  lemma TShirtsCompound()
    ensures SummerItems()[0].name == "T-shirts"
    ensures Iterate(SummerItems()[0], 1, Medium).quantity == 8
    ensures Iterate(SummerItems()[0], 2, Medium).quantity == 10
  {
    assert Iterate(SummerItems()[0], 1, Medium) == Scale(SummerItems()[0], Medium);
  }
}
