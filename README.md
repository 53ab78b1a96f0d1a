# Packing list generator

A Dafny model of the rule-based packing list generator of the TravelAssistant
packing service (`generate_packing_list` and the `/generate` endpoint in
`TravelAssistant/packing_service/main.py`).

A request names a destination, a duration in days, a season, a trip type, a
list of activities and an optional gender and age group. The generator works
in five steps:

1. It builds a working list. It starts from the base items. It then adds the
   lists of the season, the trip type, the first destination key found in the
   destination, every activity, the gender and the age group. Keys are
   compared in lower case. When no destination key matches, it adds a
   universal power adapter and a phrase book instead.
2. It scales the quantities of non-essential clothing and toiletries by the
   multiplier of the trip's duration bucket. The result is rounded half to
   even and capped at 10. On trips of 15 days or more, the visit to the first
   item appends a laundry soap, which the loop then scales too.
3. It adds the rain gear and the tropical items when the season or the
   destination asks for them.
4. It adds a presentation remote and a backup for business trips with a
   presentation.
5. It collapses duplicate names through an insertion-ordered dictionary. A
   later duplicate wins when it has a larger quantity, or when it is essential
   and the kept one is not.

The modules follow that structure:

- `Items`: items, requests and responses.
- `Text`: lower-casing and the substring test.
- `Rules`: duration buckets, multipliers and rounding.
- `Catalog`: the rule tables.
- `Store`: the tables as shared, mutable item objects.
- `Dedup`: the duplicate removal.
- `Generator`: the whole call as functions.
- `Service`: a class whose methods perform the call step by step on the tables
  they own.
- `Properties`: what a call produces.
- `Listings`: how often one call lists each template, counted from the request alone.

The working list holds references to item objects, not copies. `BASE_ITEMS.copy()`
and `extend` copy only the references, so the scaling loop writes into the
table entries themselves. The model therefore represents the tables as a heap
of templates. The working list is a sequence of references into that heap or
into the items the call itself creates. `Store.ScaleAllCompounds` and
`Properties.UpdatedTemplate` state the consequences:

- A template listed twice in one call is scaled twice.
- A template ends the call scaled once per listing.
- The next call starts from those scaled values (`Properties.SecondCallCompounds`).

The model follows the code in two places where a prose description of the
service might suggest otherwise:

- The same request can give a different list on a second call. This happens
  when the request lists a scalable template whose multiplier is above 1
  (clothing on trips of 4 days or more, toiletries on trips of 8 days or more)
  and whose quantity is still below the cap: the summer T-shirts on a 7-day
  trip go to 8 on the first call and to 10 on the second
  (`Properties.TShirtsCompound`). A multiplier of 1, which every short trip
  and toiletries on a medium trip have, leaves a quantity of at most 10 as it
  is (`Rules.ScaleKeepsOrRaises`), so such requests give the same list again.
- The cap of 10 applies only to scaled items. An item that is not scaled keeps
  its table quantity: the infant list's diapers stay at 20.

The test `item == items[0]` compares by value. The model compares by value
too, and proves that only the first item has the first item's name. So the
soap is appended exactly once, on the first visit.

## Model

| member | source | states |
|---|---|---|
| Text.Lower | TravelAssistant/packing_service/main.py:409-441 | `str.lower()` keeps the length of the string |
| Text.LowerAscii | TravelAssistant/packing_service/main.py:409-441 | lowering leaves no upper-case ASCII letter, maps each to its lower-case letter and keeps every other character |
| Text.LowerIdempotent | TravelAssistant/packing_service/main.py:409-441 | lowering a lowered key changes nothing |
| Text.Contains | TravelAssistant/packing_service/main.py:419 | `sub in s` holds exactly when `sub` occurs at some index of `s` |
| Rules.DurationBucket | TravelAssistant/packing_service/main.py:443-452 | each bucket holds exactly its range of days: up to 3 (including zero and negative durations), 4-7, 8-14, 15 and more |
| Rules.BucketMonotone | TravelAssistant/packing_service/main.py:443-452 | a longer trip never falls into an earlier bucket |
| Rules.Multiplier | TravelAssistant/packing_service/main.py:390-403 | every multiplier lies between 1 and 3 (doubled: 2 to 6) |
| Rules.MultiplierMonotone | TravelAssistant/packing_service/main.py:390-403 | a longer bucket never has a smaller multiplier, for clothing and for toiletries |
| Rules.RoundHalf | TravelAssistant/packing_service/main.py:459 | Python's `round` of n/2: within one half of n/2, and even on a tie |
| Rules.RoundHalfUnique | TravelAssistant/packing_service/main.py:459 | those two properties single out one integer, so they define the rounding completely |
| Rules.RoundHalfMonotone | TravelAssistant/packing_service/main.py:459 | rounding is monotone |
| Rules.ScaledQuantity | TravelAssistant/packing_service/main.py:459 | `min(round(q*m), 10)` is at most 10; it equals 10 exactly when q*m is 9.5 or more; below 10 it is the nearest integer to q*m, the even one on a tie; it stays positive for a positive q |
| Rules.ScaledQuantityUnique | TravelAssistant/packing_service/main.py:459 | any integer with those properties is the scaled quantity, so they define it completely |
| Rules.Scale | TravelAssistant/packing_service/main.py:456-459 | only non-essential clothing and toiletries change; name, category, essential flag and notes are kept; a scaled quantity is at most 10 and stays positive |
| Rules.ScaleMonotone | TravelAssistant/packing_service/main.py:443-459 | for a fixed item a longer trip never yields a smaller quantity |
| Rules.ScaleIsNearest | TravelAssistant/packing_service/main.py:456-459 | a scalable item gets `min(round(quantity * multiplier), 10)`: the cap exactly from a product of 9.5 on, otherwise the nearest integer, the even one on a tie |
| Rules.ScaleKeepsOrRaises | TravelAssistant/packing_service/main.py:390-403 | a multiplier of 1 leaves a quantity of at most 10 unchanged; a larger multiplier raises every positive quantity below 10 |
| Catalog.BaseFacts | TravelAssistant/packing_service/main.py:36-49 | the base list starts with the Passport, its names are distinct, its quantities positive, and it holds no scalable item and no name of an item the call creates |
| Catalog.SummerItems | TravelAssistant/packing_service/main.py:53-63 | the list as the table gives it; every quantity is positive, no item is the Passport and none is named like an item the call creates |
| Catalog.WinterItems | TravelAssistant/packing_service/main.py:64-76 | the list as the table gives it; every quantity is positive, no item is the Passport and none is named like an item the call creates |
| Catalog.SpringItems | TravelAssistant/packing_service/main.py:77-85 | the list as the table gives it; every quantity is positive, no item is the Passport and none is named like an item the call creates |
| Catalog.FallItems | TravelAssistant/packing_service/main.py:86-94 | the list as the table gives it; every quantity is positive, no item is the Passport and none is named like an item the call creates |
| Catalog.RainyItems | TravelAssistant/packing_service/main.py:95-102 | the list as the table gives it; every quantity is positive, no item is the Passport and none is named like an item the call creates |
| Catalog.TropicalItems | TravelAssistant/packing_service/main.py:103-110 | the list as the table gives it; every quantity is positive, no item is the Passport and none is named like an item the call creates |
| Catalog.BusinessItems | TravelAssistant/packing_service/main.py:115-125 | the list as the table gives it; every quantity is positive, no item is the Passport and none is named like an item the call creates |
| Catalog.LeisureItems | TravelAssistant/packing_service/main.py:126-134 | the list as the table gives it; every quantity is positive, no item is the Passport and none is named like an item the call creates |
| Catalog.BeachItems | TravelAssistant/packing_service/main.py:135-145 | the list as the table gives it; every quantity is positive, no item is the Passport and none is named like an item the call creates |
| Catalog.AdventureItems | TravelAssistant/packing_service/main.py:146-158 | the list as the table gives it; every quantity is positive, no item is the Passport and none is named like an item the call creates |
| Catalog.CampingItems | TravelAssistant/packing_service/main.py:159-171 | the list as the table gives it; every quantity is positive, no item is the Passport and none is named like an item the call creates |
| Catalog.CruiseItems | TravelAssistant/packing_service/main.py:172-180 | the list as the table gives it; every quantity is positive, no item is the Passport and none is named like an item the call creates |
| Catalog.ParisItems | TravelAssistant/packing_service/main.py:185-191 | the list as the table gives it; every quantity is positive, no item is the Passport and none is named like an item the call creates |
| Catalog.TokyoItems | TravelAssistant/packing_service/main.py:192-200 | the list as the table gives it; every quantity is positive, no item is the Passport and none is named like an item the call creates |
| Catalog.NewYorkItems | TravelAssistant/packing_service/main.py:201-207 | the list as the table gives it; every quantity is positive, no item is the Passport and none is named like an item the call creates |
| Catalog.RomeItems | TravelAssistant/packing_service/main.py:208-215 | the list as the table gives it; every quantity is positive, no item is the Passport and none is named like an item the call creates |
| Catalog.BaliItems | TravelAssistant/packing_service/main.py:216-223 | the list as the table gives it; every quantity is positive, no item is the Passport and none is named like an item the call creates |
| Catalog.LondonItems | TravelAssistant/packing_service/main.py:224-230 | the list as the table gives it; every quantity is positive, no item is the Passport and none is named like an item the call creates |
| Catalog.SydneyItems | TravelAssistant/packing_service/main.py:231-238 | the list as the table gives it; every quantity is positive, no item is the Passport and none is named like an item the call creates |
| Catalog.DubaiItems | TravelAssistant/packing_service/main.py:239-246 | the list as the table gives it; every quantity is positive, no item is the Passport and none is named like an item the call creates |
| Catalog.BangkokItems | TravelAssistant/packing_service/main.py:247-254 | the list as the table gives it; every quantity is positive, no item is the Passport and none is named like an item the call creates |
| Catalog.SwimmingItems | TravelAssistant/packing_service/main.py:259-267 | the list as the table gives it; every quantity is positive, no item is the Passport and none is named like an item the call creates |
| Catalog.HikingItems | TravelAssistant/packing_service/main.py:268-279 | the list as the table gives it; every quantity is positive, no item is the Passport and none is named like an item the call creates |
| Catalog.SkiingItems | TravelAssistant/packing_service/main.py:280-292 | the list as the table gives it; every quantity is positive, no item is the Passport and none is named like an item the call creates |
| Catalog.PhotographyItems | TravelAssistant/packing_service/main.py:293-302 | the list as the table gives it; every quantity is positive, no item is the Passport and none is named like an item the call creates |
| Catalog.SnorkelingItems | TravelAssistant/packing_service/main.py:303-311 | the list as the table gives it; every quantity is positive, no item is the Passport and none is named like an item the call creates |
| Catalog.CyclingItems | TravelAssistant/packing_service/main.py:312-322 | the list as the table gives it; every quantity is positive, no item is the Passport and none is named like an item the call creates |
| Catalog.RunningItems | TravelAssistant/packing_service/main.py:323-333 | the list as the table gives it; every quantity is positive, no item is the Passport and none is named like an item the call creates |
| Catalog.FemaleItems | TravelAssistant/packing_service/main.py:338-345 | the list as the table gives it; every quantity is positive, no item is the Passport and none is named like an item the call creates |
| Catalog.MaleItems | TravelAssistant/packing_service/main.py:346-350 | the list as the table gives it; every quantity is positive, no item is the Passport and none is named like an item the call creates |
| Catalog.InfantItems | TravelAssistant/packing_service/main.py:355-366 | the list as the table gives it; every quantity is positive, no item is the Passport and none is named like an item the call creates |
| Catalog.ChildItems | TravelAssistant/packing_service/main.py:367-376 | the list as the table gives it; every quantity is positive, no item is the Passport and none is named like an item the call creates |
| Catalog.SeniorItems | TravelAssistant/packing_service/main.py:377-386 | the list as the table gives it; every quantity is positive, no item is the Passport and none is named like an item the call creates |
| Store.InitialTablesValid | TravelAssistant/packing_service/main.py:36-387 | the tables as shipped satisfy the invariant: positive quantities, Passport only at the head of the base list, no base item scalable, no table entry named like the phrase book, the soap or the presentation kit |
| Store.ScaleAt | TravelAssistant/packing_service/main.py:456-459 | one visit of the loop writes the scaled item back through the reference; `Store.ScaleAtValid` shows it keeps the invariant |
| Store.ScaleAll | TravelAssistant/packing_service/main.py:455-459 | the loop's visits keep every reference live, every key and the number of created items |
| Store.ScaleAtValid | TravelAssistant/packing_service/main.py:456-459 | one visit keeps the tables' invariant |
| Store.ScaleAllCompounds | TravelAssistant/packing_service/main.py:455-459 | after the loop every object has been scaled once per occurrence of its reference in the list |
| Store.IterateKeeps | TravelAssistant/packing_service/main.py:456-459 | repeated scaling changes only the quantity, leaves unscalable items alone, and keeps a positive quantity positive |
| Store.ScaleAllValid | TravelAssistant/packing_service/main.py:455-459 | the scaling loop keeps the tables' invariant |
| Dedup.Replaces | TravelAssistant/packing_service/main.py:481 | a later item displaces the kept one when its quantity is larger or it is essential and the kept one is not; `Dedup.DedupKeepsLargest` and `Dedup.DedupKeepsUndisplaced` state its effect |
| Dedup.Insert | TravelAssistant/packing_service/main.py:479-484 | one turn of the loop; `Dedup.InsertEffect` gives its effect and `Dedup.InsertOk` shows it keeps the dictionary well formed |
| Dedup.InsertEffect | TravelAssistant/packing_service/main.py:479-484 | one turn of the loop: a new name is appended to the keys; a known name keeps its place and its item unless the new item displaces it |
| Dedup.InsertOk | TravelAssistant/packing_service/main.py:479-484 | one turn keeps the keys distinct, the keys and the entries in step, and each entry filed under its own name |
| Dedup.Build | TravelAssistant/packing_service/main.py:478-484 | the dictionary after the loop; `Dedup.BuildOk` shows it is well formed |
| Dedup.BuildOk | TravelAssistant/packing_service/main.py:478-484 | the loop keeps the dictionary well formed |
| Dedup.Deduplicate | TravelAssistant/packing_service/main.py:477-486 | `list(unique_items.values())` has no two items with the same name |
| Dedup.RemoveDuplicates | TravelAssistant/packing_service/main.py:477-486 | the loop over the dictionary computes the deduplicated list |
| Dedup.DedupNamesDistinct | TravelAssistant/packing_service/main.py:477-486 | the output has no two items with the same name |
| Dedup.DedupCoversNames | TravelAssistant/packing_service/main.py:477-486 | every name of the input is in the output |
| Dedup.DedupNamesIff | TravelAssistant/packing_service/main.py:477-486 | a name is in the output if and only if it is in the input |
| Dedup.DedupFirstOccurrenceOrder | TravelAssistant/packing_service/main.py:477-486 | the output lists names in the order of their first occurrence in the input |
| Dedup.DedupKeepsUndisplaced | TravelAssistant/packing_service/main.py:477-486 | every output item is an occurrence in the input that no later occurrence of its name would displace |
| Dedup.DedupKeepsLargest | TravelAssistant/packing_service/main.py:477-486 | when all occurrences of a name agree on being essential, the kept one has the largest quantity |
| Dedup.DedupKeepsSole | TravelAssistant/packing_service/main.py:477-486 | an item whose name occurs only with that same item is in the output unchanged |
| Dedup.DedupHead | TravelAssistant/packing_service/main.py:477-486 | the output starts with the name the input starts with |
| Dedup.DedupKeepsNeitherLargestNorEssential | TravelAssistant/packing_service/main.py:481 | the replacement rule depends on order: for a 5-quantity, an essential 1-quantity and a 2-quantity item of one name, the 2-quantity item is kept |
| Generator.FindDestination | TravelAssistant/packing_service/main.py:417-423 | the result is the first entry, in table order, whose key occurs in the destination, or none when no key occurs |
| Generator.AnyOccurs | TravelAssistant/packing_service/main.py:469 | some word of the list occurs in the text |
| Generator.AnyActivityMentions | TravelAssistant/packing_service/main.py:473 | some activity, in lower case, contains the word |
| Generator.NeedsRainGear | TravelAssistant/packing_service/main.py:466 | the rain-gear condition; `Listings.RainGearOnlyIf` and `Properties.RainGearKept` show that the rain gear is listed exactly when it holds |
| Generator.NeedsTropicalGear | TravelAssistant/packing_service/main.py:469 | the tropical condition; `Listings.TropicalGearOnlyIf` and `Properties.TropicalGearKept` show that the tropical items are listed exactly when it holds |
| Generator.NeedsPresentationKit | TravelAssistant/packing_service/main.py:472-475 | the presentation condition; `Properties.PresentationKitIff` shows the kit is in the output exactly when it holds |
| Generator.Front | TravelAssistant/packing_service/main.py:407-415 | the base, season and trip-type steps; `Listings.FrontCount` counts their listings |
| Generator.WithDestination | TravelAssistant/packing_service/main.py:417-428 | the destination step; `Listings.CollectCount` and `Properties.PhraseBookIffNoDestination` state its effect |
| Generator.ActivityRefs | TravelAssistant/packing_service/main.py:430-433 | the activity step; `Listings.ActivityRefsCount` counts its listings |
| Generator.OptionalRefs | TravelAssistant/packing_service/main.py:435-441 | the gender or age step; `Listings.OptionalRefsCount` counts its listings |
| Generator.Personal | TravelAssistant/packing_service/main.py:430-441 | the activity, gender and age steps; `Listings.PersonalCount` counts their listings |
| Generator.Collect | TravelAssistant/packing_service/main.py:407-441 | the working list of the collection steps; `Listings.CollectCount` counts each template's listings |
| Generator.ScalePhase | TravelAssistant/packing_service/main.py:454-463 | the scaling loop; `Generator.ScalePhaseGet`, `Generator.ScalePhaseSoap` and `Listings.ScalePhaseCount` state its effect |
| Generator.PostPhase | TravelAssistant/packing_service/main.py:465-475 | the weather and presentation steps; `Listings.PostPhaseCount` counts their listings |
| Generator.Generated | TravelAssistant/packing_service/main.py:405-486 | the returned list has no two items with the same name |
| Generator.Updated | TravelAssistant/packing_service/main.py:405-486 | the tables after the call keep every key of the tables before it |
| Generator.CollectHeadUnique | TravelAssistant/packing_service/main.py:407-441 | the working list starts with the base list's first item, and no later entry has its name |
| Generator.ScalePhaseGet | TravelAssistant/packing_service/main.py:455-463 | after the scaling loop every object has been scaled once per listing |
| Generator.ScalePhaseSoap | TravelAssistant/packing_service/main.py:461-463 | the loop appends one laundry soap exactly on extended trips, and the soap itself is scaled |
| Generator.UpdatedValid | TravelAssistant/packing_service/main.py:405-486 | a call keeps the tables' invariant and all their keys |
| Service.PackingService.constructor | TravelAssistant/packing_service/main.py:36-387 | the service starts from tables that satisfy the invariant |
| Service.PackingService.MatchDestination | TravelAssistant/packing_service/main.py:417-423 | the loop with `break` finds the first matching destination entry |
| Service.PackingService.AddDestinationItems | TravelAssistant/packing_service/main.py:417-428 | appends the matching entry's items, or creates and appends the adapter and the phrase book |
| Service.PackingService.CollectActivities | TravelAssistant/packing_service/main.py:430-433 | appends the list of every activity that is a key, once per mention, in order |
| Service.PackingService.CollectItems | TravelAssistant/packing_service/main.py:407-441 | builds the working list of the collection steps; a missing or empty gender or age adds nothing |
| Service.PackingService.ScaleItem | TravelAssistant/packing_service/main.py:456-459 | one visit writes the scaled quantity into the referenced object |
| Service.PackingService.VisitItem | TravelAssistant/packing_service/main.py:455-459 | one turn of the scaling loop extends the visited prefix by one reference |
| Service.PackingService.AppendSoap | TravelAssistant/packing_service/main.py:461-463 | on the first visit of an extended trip the soap is created and its reference appended, with the visits so far carried over |
| Service.PackingService.ScaleQuantities | TravelAssistant/packing_service/main.py:454-463 | the loop over the growing list produces the scaled heap and the list with the soap |
| Service.PackingService.AddConditionalItems | TravelAssistant/packing_service/main.py:465-475 | appends the rain gear, the tropical items and the presentation kit under their conditions |
| Service.PackingService.Generate | TravelAssistant/packing_service/main.py:405-486 | returns the generated list, leaves the tables updated as the model of the call says, and keeps their invariant |
| Service.PackingService.GenerateEndpoint | TravelAssistant/packing_service/main.py:499-509 | the response carries the generated items and echoes destination, duration, season and trip type |
| Properties.UpdatedTemplate | TravelAssistant/packing_service/main.py:455-459 | after a call each template has been scaled once per listing in the working list |
| Properties.UpdatedShape | TravelAssistant/packing_service/main.py:405-486 | a call changes no list's length |
| Properties.BaseUnchanged | TravelAssistant/packing_service/main.py:36-49 | the base list is never changed by a call |
| Properties.SoapScaled | TravelAssistant/packing_service/main.py:461-463 | the appended soap is scaled from 1 to 3 |
| Properties.RunCreated | TravelAssistant/packing_service/main.py:425-475 | the objects a call creates are the adapter and phrase book (no destination match), the soap with quantity 3 (extended trip) and the presentation kit, in that order |
| Properties.FreshListed | TravelAssistant/packing_service/main.py:425-475 | every created object is in the final working list |
| Properties.CreatedNameInOutput | TravelAssistant/packing_service/main.py:425-486 | a created item's name is in the output exactly when the call created it |
| Properties.CallCreatedNames | TravelAssistant/packing_service/main.py:425-475 | which names the call creates, condition by condition |
| Properties.PhraseBookIffNoDestination | TravelAssistant/packing_service/main.py:417-428 | the phrase book is in the output if and only if no destination key matched |
| Properties.SoapIffExtended | TravelAssistant/packing_service/main.py:443-463 | the laundry soap is in the output if and only if the trip lasts 15 days or more |
| Properties.PresentationKitIff | TravelAssistant/packing_service/main.py:472-475 | the remote and the backup are in the output if and only if the trip type is business and an activity mentions a presentation |
| Properties.SoapThreeBars | TravelAssistant/packing_service/main.py:461-463 | on an extended trip the output holds the laundry soap with quantity 3 |
| Properties.GeneratedStartsWithPassport | TravelAssistant/packing_service/main.py:407 | the output starts with the Passport exactly as the base list has it |
| Properties.GeneratedQuantitiesPositive | TravelAssistant/packing_service/main.py:405-486 | every output quantity is at least 1 |
| Properties.GeneratedNamesDistinct | TravelAssistant/packing_service/main.py:477-486 | the output has no two items with the same name |
| Properties.ListedKept | TravelAssistant/packing_service/main.py:455-486 | every template in the final working list has its name in the output |
| Properties.SeasonItemsKept | TravelAssistant/packing_service/main.py:409-411 | every item of the season's list is named in the output |
| Properties.TripTypeItemsKept | TravelAssistant/packing_service/main.py:413-415 | every item of the trip type's list is named in the output |
| Properties.DestinationItemsKept | TravelAssistant/packing_service/main.py:417-423 | every item of the first matching destination is named in the output |
| Properties.ActivityItemsKept | TravelAssistant/packing_service/main.py:430-433 | every item of every listed activity that is a key is named in the output |
| Properties.GenderItemsKept | TravelAssistant/packing_service/main.py:435-437 | a non-empty gender that is a key brings all its items |
| Properties.AgeItemsKept | TravelAssistant/packing_service/main.py:439-441 | a non-empty age group that is a key brings all its items |
| Properties.RainGearKept | TravelAssistant/packing_service/main.py:465-467 | in a rainy or monsoon season every rain-gear item is named in the output |
| Properties.TropicalGearKept | TravelAssistant/packing_service/main.py:469-470 | in a tropical season or at a tropical destination every tropical item is named in the output |
| Properties.IterateAdd | TravelAssistant/packing_service/main.py:455-459 | scaling m times and then n times is scaling m + n times |
| Properties.SecondCallCompounds | TravelAssistant/packing_service/main.py:405-463 | the same request made twice leaves each template scaled twice as often as one call does |
| Properties.TShirtsCompound | TravelAssistant/packing_service/main.py:54 | the summer T-shirts on a medium trip go from 5 to 8 after one listing and to 10 after two |
| Listings.Mentions | TravelAssistant/packing_service/main.py:430-433 | the number of activities that lower to a key is at most the number of activities |
| Listings.LookupCount | TravelAssistant/packing_service/main.py:409-441 | looking up a block lists each of its templates once and no other template |
| Listings.ActivityRefsCount | TravelAssistant/packing_service/main.py:430-433 | the activity step lists an activity template once per mention of its key, and no other template |
| Listings.OptionalRefsCount | TravelAssistant/packing_service/main.py:435-441 | the gender or age step lists a template once when a non-empty value lowers to its key, and no other template |
| Listings.FrontCount | TravelAssistant/packing_service/main.py:407-415 | the base, season and trip-type steps list a template once when its block is the base or matches the season or trip type, otherwise not at all |
| Listings.PersonalCount | TravelAssistant/packing_service/main.py:430-441 | the activity, gender and age steps list a template once per mention of its activity or once for a matching gender or age group |
| Listings.CollectCount | TravelAssistant/packing_service/main.py:407-441 | the collection steps list each template exactly as often as the request names its block, and only the first matching destination entry |
| Listings.ScalePhaseCount | TravelAssistant/packing_service/main.py:454-463 | the scaling loop lists no template |
| Listings.WeatherCount | TravelAssistant/packing_service/main.py:465-470 | one weather step lists its season block once when its condition holds, otherwise not at all |
| Listings.PostPhaseCount | TravelAssistant/packing_service/main.py:465-475 | the weather steps add one listing of the rain-gear block under the rain condition and of the tropical block under the tropical condition, and nothing else |
| Listings.RunCount | TravelAssistant/packing_service/main.py:405-475 | over a whole call each template is listed exactly as often as the request names its block, plus the weather additions |
| Listings.UpdatedTemplateListed | TravelAssistant/packing_service/main.py:455-459 | after a call each template has been scaled exactly as often as the request names its block |
| Listings.ListedLive | TravelAssistant/packing_service/main.py:405-475 | every template in the final list comes from the tables the call started from |
| Listings.DestinationOnlyMatched | TravelAssistant/packing_service/main.py:417-423 | a destination template in the final list belongs to the first matching entry: the loop stops at it |
| Listings.RainGearOnlyIf | TravelAssistant/packing_service/main.py:465-467 | a rain-gear template is listed only when the season names rain or a monsoon |
| Listings.TropicalGearOnlyIf | TravelAssistant/packing_service/main.py:469-470 | a tropical template is listed only for a tropical season or destination |

## Left out

- The other TravelAssistant services (gateway, translation, maps) and their seed data and clients. They do not take part in generating a packing list.
- `root()` and the uvicorn start-up. They are static metadata and process start-up.
- FastAPI's request parsing and the Pydantic defaults (`trip_type = "leisure"`, empty activities). A request reaches the model already parsed, with every field present.
- Service.PackingService.constructor: takes the tables as a parameter instead of reading the module-level dictionaries. `Store.InitialTablesValid` shows that the shipped tables meet its precondition.
- Text.Lower: lowers only the ASCII letters `A`-`Z`. Python's `str.lower` also lowers other Unicode letters.
- Rules.ScaledQuantity: computes the product exactly on integers. The source multiplies by a float. The two agree while the product stays below 2^52, where halves are exact in double precision.
- Service.PackingService.Generate: the service state is one object. Concurrent requests that share the module-level tables are not modelled.
