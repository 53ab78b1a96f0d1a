/** Item identity. The generator's working list holds references to item objects:
    most are the templates inside the rule tables, the rest are created by the
    call. Scaling a referenced item writes into the object, so a template that
    is scaled stays scaled in its table. */
module Store {
  import opened Items
  import opened Rules
  import opened Catalog

  /** One list of templates: the base list, the list under one key of a keyed table,
      or the list of one entry of the ordered destination table. */
  datatype Block =
    | Base
    | Season(key: string)
    | TripType(key: string)
    | Destination(index: nat)
    | Activity(key: string)
    | Gender(key: string)
    | Age(key: string)

  /** A reference to an item object: the template at `pos` of a block, or the
      `pos`-th item the current call created. */
  datatype Ref = Template(block: Block, pos: nat) | Fresh(pos: nat)

  /** The table has the block's key (the base list is always there). */
  predicate HasBlock(t: Tables, b: Block)
  {
    match b
    case Base => true
    case Season(k) => k in t.season
    case TripType(k) => k in t.tripType
    case Destination(k) => k < |t.destination|
    case Activity(k) => k in t.activity
    case Gender(k) => k in t.gender
    case Age(k) => k in t.age
  }

  /** The templates of a block. */
  function BlockOf(t: Tables, b: Block): seq<Item>
    requires HasBlock(t, b)
  {
    match b
    case Base => t.base
    case Season(k) => t.season[k]
    case TripType(k) => t.tripType[k]
    case Destination(k) => t.destination[k].items
    case Activity(k) => t.activity[k]
    case Gender(k) => t.gender[k]
    case Age(k) => t.age[k]
  }

  /** Two versions of the tables with the same keys, in the same order. */
  predicate SameKeys(t: Tables, u: Tables)
  {
    && t.season.Keys == u.season.Keys
    && t.tripType.Keys == u.tripType.Keys
    && |t.destination| == |u.destination|
    && (forall i | 0 <= i < |t.destination| :: t.destination[i].key == u.destination[i].key)
    && t.activity.Keys == u.activity.Keys
    && t.gender.Keys == u.gender.Keys
    && t.age.Keys == u.age.Keys
  }

  /** The tables with the templates of one block replaced. */
  function WithBlock(t: Tables, b: Block, s: seq<Item>): (r: Tables)
    requires HasBlock(t, b)
    ensures SameKeys(r, t)
    ensures forall b' :: HasBlock(r, b') <==> HasBlock(t, b')
    ensures BlockOf(r, b) == s
    ensures forall b' :: b' != b && HasBlock(t, b') ==> BlockOf(r, b') == BlockOf(t, b')
  {
    match b
    case Base => t.(base := s)
    case Season(k) => t.(season := t.season[k := s])
    case TripType(k) => t.(tripType := t.tripType[k := s])
    case Destination(k) => t.(destination := t.destination[k := Entry(t.destination[k].key, s)])
    case Activity(k) => t.(activity := t.activity[k := s])
    case Gender(k) => t.(gender := t.gender[k := s])
    case Age(k) => t.(age := t.age[k := s])
  }

  /** Every item object the generator can reach during one call: the tables and
      the items the call has created so far. */
  datatype Heap = Heap(tables: Tables, created: seq<Item>)

  predicate Live(h: Heap, r: Ref)
  {
    match r
    case Template(b, i) => HasBlock(h.tables, b) && i < |BlockOf(h.tables, b)|
    case Fresh(i) => i < |h.created|
  }

  /** The current value of a referenced item. */
  function Get(h: Heap, r: Ref): Item
    requires Live(h, r)
  {
    match r
    case Template(b, i) => BlockOf(h.tables, b)[i]
    case Fresh(i) => h.created[i]
  }

  /** Overwrites the referenced item; no other item changes. */
  function Put(h: Heap, r: Ref, it: Item): (h': Heap)
    requires Live(h, r)
    ensures forall r' :: Live(h', r') <==> Live(h, r')
    ensures Get(h', r) == it
    ensures forall r' :: Live(h, r') && r' != r ==> Get(h', r') == Get(h, r')
    ensures SameKeys(h'.tables, h.tables) && |h'.created| == |h.created|
  {
    match r
    case Template(b, i) => Heap(WithBlock(h.tables, b, BlockOf(h.tables, b)[i := it]), h.created)
    case Fresh(i) => Heap(h.tables, h.created[i := it])
  }

  /** Every reference of the list is live. */
  predicate AllLive(h: Heap, rs: seq<Ref>)
  {
    forall j :: 0 <= j < |rs| ==> Live(h, rs[j])
  }

  /** One visit of the scaling loop to the item behind `r`. */
  function ScaleAt(h: Heap, r: Ref, b: Bucket): (h': Heap)
    requires Live(h, r)
  {
    Put(h, r, Scale(Get(h, r), b))
  }

  /** The scaling loop's visits to the references of `rs`, in order. */
  function ScaleAll(h: Heap, rs: seq<Ref>, b: Bucket): (h': Heap)
    requires AllLive(h, rs)
    ensures forall r :: Live(h', r) <==> Live(h, r)
    ensures SameKeys(h'.tables, h.tables) && |h'.created| == |h.created|
    decreases |rs|
  {
    if rs == [] then h
    else
      var h0 := ScaleAll(h, rs[..|rs| - 1], b);
      ScaleAt(h0, rs[|rs| - 1], b)
  }

  /** The loop's visits to a prefix one longer: one more visit. */
  lemma ScaleAllStep(h: Heap, rs: seq<Ref>, b: Bucket, k: nat)
    requires AllLive(h, rs) && k < |rs|
    ensures AllLive(h, rs[..k]) && AllLive(h, rs[..k + 1])
    ensures Live(ScaleAll(h, rs[..k], b), rs[k])
    ensures ScaleAll(h, rs[..k + 1], b) == ScaleAt(ScaleAll(h, rs[..k], b), rs[k], b)
  {
    assert rs[..k + 1][..k] == rs[..k];
    assert AllLive(h, rs[..k]) && AllLive(h, rs[..k + 1]);
  }

  /** How many times `r` occurs in `rs`. */
  function Count(rs: seq<Ref>, r: Ref): nat
  {
    if rs == [] then 0 else Count(rs[..|rs| - 1], r) + (if rs[|rs| - 1] == r then 1 else 0)
  }

  /** A reference that is not in the list occurs zero times. */
  lemma {:induction false} CountAbsent(rs: seq<Ref>, r: Ref)
    requires forall j | 0 <= j < |rs| :: rs[j] != r
    ensures Count(rs, r) == 0
    decreases |rs|
  {
    if rs != [] {
      CountAbsent(rs[..|rs| - 1], r);
    }
  }

  /** Counting distributes over concatenation. */
  lemma {:induction false} CountAppend(a: seq<Ref>, b: seq<Ref>, r: Ref)
    ensures Count(a + b, r) == Count(a, r) + Count(b, r)
    decreases |b|
  {
    if b != [] {
      assert (a + b)[..|a + b| - 1] == a + b[..|b| - 1];
      assert (a + b)[|a + b| - 1] == b[|b| - 1];
      CountAppend(a, b[..|b| - 1], r);
      assert Count(b, r) == Count(b[..|b| - 1], r) + (if b[|b| - 1] == r then 1 else 0);
    } else {
      assert a + b == a;
    }
  }

  /** A reference at some position occurs at least once. */
  lemma {:induction false} CountPresent(rs: seq<Ref>, j: nat)
    requires j < |rs|
    ensures Count(rs, rs[j]) >= 1
    decreases |rs|
  {
    if j < |rs| - 1 {
      assert rs[..|rs| - 1][j] == rs[j];
      CountPresent(rs[..|rs| - 1], j);
    }
  }

  /** An item after `n` scaling steps in the same bucket. */
  function Iterate(it: Item, n: nat, b: Bucket): Item
  {
    if n == 0 then it else Scale(Iterate(it, n - 1, b), b)
  }

  /** Shared templates compound: after the loop has visited the references of `rs`,
      every item has been scaled once per occurrence of its reference in `rs`. */
  lemma {:induction false} ScaleAllCompounds(h: Heap, rs: seq<Ref>, b: Bucket, r: Ref)
    requires AllLive(h, rs) && Live(h, r)
    ensures Get(ScaleAll(h, rs, b), r) == Iterate(Get(h, r), Count(rs, r), b)
    decreases |rs|
  {
    if rs != [] {
      var init, last := rs[..|rs| - 1], rs[|rs| - 1];
      assert AllLive(h, init) && Live(h, last);
      ScaleAllCompounds(h, init, b, r);
      var h0 := ScaleAll(h, init, b);
      assert ScaleAll(h, rs, b) == Put(h0, last, Scale(Get(h0, last), b));
      assert Count(rs, r) == Count(init, r) + (if last == r then 1 else 0);
      if last == r {
        assert Get(ScaleAll(h, rs, b), r) == Scale(Get(h0, r), b);
      } else {
        assert Get(ScaleAll(h, rs, b), r) == Get(h0, r);
      }
    }
  }

  /** What the generator relies on about one template of the tables. */
  predicate TemplateOk(b: Block, i: nat, it: Item)
  {
    && it.quantity >= 1
    && it.name !in CreatedNames
    && (it.name == "Passport" <==> b == Base && i == 0)
    && (b == Base ==> !Scalable(it))
  }

  /** The invariant of the tables: it holds at start-up and every call keeps it. */
  predicate Valid(t: Tables)
  {
    && BaseTemplates(t.base)
    && OrdinaryTable(t.season) && OrdinaryTable(t.tripType) && OrdinaryEntries(t.destination)
    && OrdinaryTable(t.activity) && OrdinaryTable(t.gender) && OrdinaryTable(t.age)
    && "rainy" in t.season && "tropical" in t.season
  }

  /** Under the invariant every template is in order. */
  lemma ValidTemplate(t: Tables, b: Block, i: nat)
    requires Valid(t) && HasBlock(t, b) && i < |BlockOf(t, b)|
    ensures TemplateOk(b, i, BlockOf(t, b)[i])
  {
    match b
    case Base =>
    case Season(k) => assert OrdinaryTemplates(t.season[k]);
    case TripType(k) => assert OrdinaryTemplates(t.tripType[k]);
    case Destination(k) => assert OrdinaryTemplates(t.destination[k].items);
    case Activity(k) => assert OrdinaryTemplates(t.activity[k]);
    case Gender(k) => assert OrdinaryTemplates(t.gender[k]);
    case Age(k) => assert OrdinaryTemplates(t.age[k]);
  }

  /** The tables the service starts with satisfy the invariant. */
  lemma InitialTablesValid()
    ensures Valid(InitialTables)
  {
    BaseFacts();
    SeasonTemplatesOrdinary();
    TripTypeTemplatesOrdinary();
    DestinationTemplatesOrdinary();
    ActivityTemplatesOrdinary();
    PersonTemplatesOrdinary();
  }

  /** Repeated scaling keeps everything but the quantity, leaves an item the step
      does not scale as it is, and keeps a positive quantity positive. */
  lemma {:induction false} IterateKeeps(it: Item, n: nat, b: Bucket)
    ensures SameExceptQuantity(Iterate(it, n, b), it)
    ensures !Scalable(it) ==> Iterate(it, n, b) == it
    ensures it.quantity >= 1 ==> Iterate(it, n, b).quantity >= 1
  {
    if n > 0 {
      IterateKeeps(it, n - 1, b);
    }
  }

  /** Writing back the value an item already has changes nothing. */
  lemma PutSame(h: Heap, r: Ref)
    requires Live(h, r)
    ensures Put(h, r, Get(h, r)) == h
  {
    match r
    case Fresh(i) =>
    case Template(b, i) =>
      var t := h.tables;
      assert BlockOf(t, b)[i := BlockOf(t, b)[i]] == BlockOf(t, b);
      match b
      case Base =>
      case Season(k) => assert t.season[k := t.season[k]] == t.season;
      case TripType(k) => assert t.tripType[k := t.tripType[k]] == t.tripType;
      case Destination(k) => assert t.destination[k := t.destination[k]] == t.destination;
      case Activity(k) => assert t.activity[k := t.activity[k]] == t.activity;
      case Gender(k) => assert t.gender[k := t.gender[k]] == t.gender;
      case Age(k) => assert t.age[k := t.age[k]] == t.age;
  }

  /** An item created after the references of `rs` does not take part in their
      scaling. */
  lemma {:induction false} ScaleAllExtend(h: Heap, rs: seq<Ref>, b: Bucket, x: Item)
    requires AllLive(h, rs)
    ensures AllLive(Heap(h.tables, h.created + [x]), rs)
    ensures ScaleAll(Heap(h.tables, h.created + [x]), rs, b) ==
      Heap(ScaleAll(h, rs, b).tables, ScaleAll(h, rs, b).created + [x])
    decreases |rs|
  {
    var hx := Heap(h.tables, h.created + [x]);
    assert AllLive(hx, rs);
    if rs != [] {
      var init, last := rs[..|rs| - 1], rs[|rs| - 1];
      assert AllLive(h, init);
      ScaleAllExtend(h, init, b, x);
      var h0 := ScaleAll(h, init, b);
      assert Live(h0, last);
      match last
      case Template(_, _) =>
      case Fresh(i) =>
        assert (h0.created + [x])[i := Scale(h0.created[i], b)] == h0.created[i := Scale(h0.created[i], b)] + [x];
    }
  }

  /** One scaling visit keeps the invariant of the tables. */
  lemma ScaleAtValid(h: Heap, r: Ref, b: Bucket)
    requires Valid(h.tables) && Live(h, r)
    ensures Valid(ScaleAt(h, r, b).tables)
  {
    match r
    case Fresh(_) =>
    case Template(blk, i) =>
      var t := h.tables;
      var s := BlockOf(t, blk);
      var it := Scale(s[i], b);
      ValidTemplate(t, blk, i);
      match blk
      case Base =>
        assert s[i := it] == s;
        assert ScaleAt(h, r, b).tables == t;
      case Season(k) => OrdinaryUpdate(s, i, it);
      case TripType(k) => OrdinaryUpdate(s, i, it);
      case Destination(k) =>
        OrdinaryUpdate(s, i, it);
        var es := t.destination[k := Entry(t.destination[k].key, s[i := it])];
        assert forall j | 0 <= j < |es| :: OrdinaryTemplates(es[j].items);
      case Activity(k) => OrdinaryUpdate(s, i, it);
      case Gender(k) => OrdinaryUpdate(s, i, it);
      case Age(k) => OrdinaryUpdate(s, i, it);
  }

  lemma OrdinaryUpdate(s: seq<Item>, i: nat, it: Item)
    requires OrdinaryTemplates(s) && i < |s|
    requires it.quantity >= 1 && it.name == s[i].name
    ensures OrdinaryTemplates(s[i := it])
  {
  }

  /** The scaling loop keeps the invariant of the tables. */
  lemma {:induction false} ScaleAllValid(h: Heap, rs: seq<Ref>, b: Bucket)
    requires Valid(h.tables) && AllLive(h, rs)
    ensures Valid(ScaleAll(h, rs, b).tables)
    decreases |rs|
  {
    if rs != [] {
      var init := rs[..|rs| - 1];
      assert AllLive(h, init);
      ScaleAllValid(h, init, b);
      ScaleAtValid(ScaleAll(h, init, b), rs[|rs| - 1], b);
    }
  }
}
