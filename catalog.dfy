/** The rule tables of the packing service: the item templates every request
    draws from, as the service starts with them. */
module Catalog {
  import opened Items
  import opened Rules

  /** Items every list starts with. */
  const BaseItems: seq<Item> := [
    Item("Passport", "documents", 1, true, None),
    Item("Wallet", "documents", 1, true, None),
    Item("Phone Charger", "electronics", 1, true, None),
    Item("Toothbrush", "toiletries", 1, true, None),
    Item("Toothpaste", "toiletries", 1, true, None),
    Item("Deodorant", "toiletries", 1, true, None),
    Item("Hand Sanitizer", "toiletries", 1, true, None),
    Item("Face Mask", "health", 5, false, None),
    Item("Travel Insurance Info", "documents", 1, true, None),
    Item("Emergency Contact Info", "documents", 1, true, None),
    Item("Pain Reliever", "medication", 1, false, None),
    Item("Band-Aids", "health", 1, false, None)
  ]

  function SummerItems(): (s: seq<Item>)
    ensures OrdinaryTemplates(s)
  {
    [
      Item("T-shirts", "clothing", 5, false, None),
      Item("Shorts", "clothing", 3, false, None),
      Item("Sandals", "footwear", 1, false, None),
      Item("Sunglasses", "accessories", 1, false, None),
      Item("Sunscreen", "toiletries", 1, true, None),
      Item("Hat", "accessories", 1, false, None),
      Item("Insect Repellent", "toiletries", 1, false, None),
      Item("Light Pajamas", "clothing", 1, false, None),
      Item("Swimwear", "clothing", 1, false, None)
    ]
  }

  function WinterItems(): (s: seq<Item>)
    ensures OrdinaryTemplates(s)
  {
    [
      Item("Sweaters", "clothing", 3, false, None),
      Item("Thermal Underwear", "clothing", 2, false, None),
      Item("Winter Coat", "clothing", 1, true, None),
      Item("Gloves", "accessories", 1, false, None),
      Item("Scarf", "accessories", 1, false, None),
      Item("Winter Hat", "accessories", 1, false, None),
      Item("Boots", "footwear", 1, true, None),
      Item("Thick Socks", "clothing", 3, false, None),
      Item("Lip Balm", "toiletries", 1, false, None),
      Item("Hand Warmers", "accessories", 2, false, None),
      Item("Warm Pajamas", "clothing", 1, false, None)
    ]
  }

  function SpringItems(): (s: seq<Item>)
    ensures OrdinaryTemplates(s)
  {
    [
      Item("Light Sweaters", "clothing", 2, false, None),
      Item("Long Sleeve Shirts", "clothing", 3, false, None),
      Item("Light Jacket", "clothing", 1, false, None),
      Item("Umbrella", "accessories", 1, false, None),
      Item("Allergy Medicine", "medication", 1, false, None),
      Item("Rain Jacket", "clothing", 1, false, None),
      Item("Waterproof Shoes", "footwear", 1, false, None)
    ]
  }

  function FallItems(): (s: seq<Item>)
    ensures OrdinaryTemplates(s)
  {
    [
      Item("Light Sweaters", "clothing", 2, false, None),
      Item("Long Sleeve Shirts", "clothing", 3, false, None),
      Item("Medium Jacket", "clothing", 1, false, None),
      Item("Scarf", "accessories", 1, false, None),
      Item("Closed Shoes", "footwear", 1, false, None),
      Item("Light Gloves", "accessories", 1, false, None),
      Item("Warm Hat", "accessories", 1, false, None)
    ]
  }

  function RainyItems(): (s: seq<Item>)
    ensures OrdinaryTemplates(s)
  {
    [
      Item("Rain Jacket", "clothing", 1, true, None),
      Item("Waterproof Shoes", "footwear", 1, true, None),
      Item("Umbrella", "accessories", 1, true, None),
      Item("Quick-dry Clothing", "clothing", 3, false, None),
      Item("Waterproof Phone Case", "accessories", 1, false, None),
      Item("Waterproof Backpack Cover", "accessories", 1, false, None)
    ]
  }

  function TropicalItems(): (s: seq<Item>)
    ensures OrdinaryTemplates(s)
  {
    [
      Item("Lightweight Clothing", "clothing", 5, false, None),
      Item("Insect Repellent", "toiletries", 1, true, None),
      Item("Anti-malarial Medication", "medication", 1, true, Some("If required for destination")),
      Item("High SPF Sunscreen", "toiletries", 1, true, None),
      Item("Aloe Vera Gel", "toiletries", 1, false, None),
      Item("Mosquito Net", "accessories", 1, false, Some("If accommodations don't provide"))
    ]
  }

  /** Items by season or climate, under the lower-case season. */
  const SeasonItems: map<string, seq<Item>> := map[
    "summer" := SummerItems(),
    "winter" := WinterItems(),
    "spring" := SpringItems(),
    "fall" := FallItems(),
    "rainy" := RainyItems(),
    "tropical" := TropicalItems()
  ]

  function BusinessItems(): (s: seq<Item>)
    ensures OrdinaryTemplates(s)
  {
    [
      Item("Business Suits", "clothing", 2, true, None),
      Item("Dress Shirts", "clothing", 3, true, None),
      Item("Dress Shoes", "footwear", 1, true, None),
      Item("Ties", "accessories", 2, false, None),
      Item("Laptop", "electronics", 1, true, None),
      Item("Business Cards", "documents", 1, false, None),
      Item("Portfolio/Notebook", "accessories", 1, false, None),
      Item("Portable Charger", "electronics", 1, false, None),
      Item("Presentation Materials", "documents", 1, false, Some("If needed"))
    ]
  }

  function LeisureItems(): (s: seq<Item>)
    ensures OrdinaryTemplates(s)
  {
    [
      Item("Casual Clothes", "clothing", 4, false, None),
      Item("Comfortable Shoes", "footwear", 1, true, None),
      Item("Book/E-Reader", "entertainment", 1, false, None),
      Item("Camera", "electronics", 1, false, None),
      Item("Day Bag/Backpack", "accessories", 1, false, None),
      Item("Snacks", "food", 1, false, None),
      Item("Reusable Water Bottle", "accessories", 1, false, None)
    ]
  }

  function BeachItems(): (s: seq<Item>)
    ensures OrdinaryTemplates(s)
  {
    [
      Item("Swimsuits", "clothing", 2, true, None),
      Item("Beach Towel", "accessories", 1, false, None),
      Item("Flip Flops", "footwear", 1, false, None),
      Item("Sunscreen", "toiletries", 1, true, Some("High SPF")),
      Item("After-Sun Lotion", "toiletries", 1, false, None),
      Item("Beach Bag", "accessories", 1, false, None),
      Item("Beach Cover-up", "clothing", 1, false, None),
      Item("Snorkeling Gear", "accessories", 1, false, Some("Or rent at destination")),
      Item("Waterproof Phone Case", "accessories", 1, false, None)
    ]
  }

  function AdventureItems(): (s: seq<Item>)
    ensures OrdinaryTemplates(s)
  {
    [
      Item("Hiking Boots", "footwear", 1, true, None),
      Item("Backpack", "accessories", 1, true, None),
      Item("Water Bottle", "accessories", 1, true, None),
      Item("First Aid Kit", "health", 1, true, None),
      Item("Insect Repellent", "toiletries", 1, false, None),
      Item("Multi-tool", "tools", 1, false, None),
      Item("Headlamp/Flashlight", "tools", 1, false, None),
      Item("Quick-dry Towel", "accessories", 1, false, None),
      Item("Compass", "tools", 1, false, None),
      Item("Energy Bars", "food", 5, false, None),
      Item("Water Purification Tablets", "health", 1, false, None)
    ]
  }

  function CampingItems(): (s: seq<Item>)
    ensures OrdinaryTemplates(s)
  {
    [
      Item("Tent", "equipment", 1, true, None),
      Item("Sleeping Bag", "equipment", 1, true, None),
      Item("Sleeping Pad", "equipment", 1, false, None),
      Item("Camping Stove", "equipment", 1, false, None),
      Item("Cookware", "equipment", 1, false, None),
      Item("Headlamp", "tools", 1, true, None),
      Item("Multi-tool", "tools", 1, false, None),
      Item("Insect Repellent", "toiletries", 1, true, None),
      Item("Fire Starter", "tools", 1, false, None),
      Item("Toilet Paper", "toiletries", 1, false, None),
      Item("Trash Bags", "equipment", 3, false, None)
    ]
  }

  function CruiseItems(): (s: seq<Item>)
    ensures OrdinaryTemplates(s)
  {
    [
      Item("Formal Attire", "clothing", 1, false, Some("For formal nights")),
      Item("Motion Sickness Medication", "medication", 1, false, None),
      Item("Light Jacket", "clothing", 1, false, Some("For windy deck")),
      Item("Day Bag", "accessories", 1, false, None),
      Item("Swimwear", "clothing", 2, false, None),
      Item("Sunscreen", "toiletries", 1, true, None),
      Item("Cash for Ports", "documents", 1, false, Some("Small bills"))
    ]
  }

  /** Items by trip type. */
  const TripTypeItems: map<string, seq<Item>> := map[
    "business" := BusinessItems(),
    "leisure" := LeisureItems(),
    "beach" := BeachItems(),
    "adventure" := AdventureItems(),
    "camping" := CampingItems(),
    "cruise" := CruiseItems()
  ]

  function ParisItems(): (s: seq<Item>)
    ensures OrdinaryTemplates(s)
  {
    [
      Item("Universal Power Adapter", "electronics", 1, true, None),
      Item("French Phrase Book", "documents", 1, false, None),
      Item("Comfortable Walking Shoes", "footwear", 1, true, None),
      Item("RFID-Blocking Wallet", "accessories", 1, false, Some("For pickpocket protection")),
      Item("Museum Pass", "documents", 1, false, Some("Consider purchasing in advance"))
    ]
  }

  function TokyoItems(): (s: seq<Item>)
    ensures OrdinaryTemplates(s)
  {
    [
      Item("Universal Power Adapter", "electronics", 1, true, None),
      Item("Japanese Phrase Book", "documents", 1, false, None),
      Item("Portable Wifi", "electronics", 1, false, None),
      Item("Hand Sanitizer", "toiletries", 1, false, None),
      Item("Slip-on Shoes", "footwear", 1, false, Some("Easy to remove at temples/homes")),
      Item("Comfortable Walking Shoes", "footwear", 1, true, None),
      Item("Cash", "documents", 1, false, Some("Japan is still cash-heavy"))
    ]
  }

  function NewYorkItems(): (s: seq<Item>)
    ensures OrdinaryTemplates(s)
  {
    [
      Item("Subway Map", "documents", 1, false, None),
      Item("Comfortable Walking Shoes", "footwear", 1, true, None),
      Item("City Pass", "documents", 1, false, Some("Consider for attractions")),
      Item("Umbrella", "accessories", 1, false, None),
      Item("Light Layers", "clothing", 3, false, Some("Weather can change quickly"))
    ]
  }

  function RomeItems(): (s: seq<Item>)
    ensures OrdinaryTemplates(s)
  {
    [
      Item("Universal Power Adapter", "electronics", 1, true, None),
      Item("Italian Phrase Book", "documents", 1, false, None),
      Item("Modest Clothing for Vatican", "clothing", 1, false, Some("Covers shoulders and knees")),
      Item("Comfortable Walking Shoes", "footwear", 1, true, None),
      Item("Water Bottle", "accessories", 1, false, Some("Can refill at public fountains")),
      Item("Sun Hat", "accessories", 1, false, None)
    ]
  }

  function BaliItems(): (s: seq<Item>)
    ensures OrdinaryTemplates(s)
  {
    [
      Item("Universal Power Adapter", "electronics", 1, true, None),
      Item("Sarong", "clothing", 1, false, Some("Required for temple visits")),
      Item("Insect Repellent", "toiletries", 1, true, None),
      Item("Light, Modest Clothing", "clothing", 3, false, Some("For temples")),
      Item("Sunscreen", "toiletries", 1, true, None),
      Item("Indonesian Phrase Book", "documents", 1, false, None)
    ]
  }

  function LondonItems(): (s: seq<Item>)
    ensures OrdinaryTemplates(s)
  {
    [
      Item("Universal Power Adapter", "electronics", 1, true, None),
      Item("Umbrella", "accessories", 1, true, None),
      Item("Oyster Card", "documents", 1, false, Some("For public transport")),
      Item("Rain Jacket", "clothing", 1, false, None),
      Item("Layered Clothing", "clothing", 3, false, Some("Weather changes frequently"))
    ]
  }

  function SydneyItems(): (s: seq<Item>)
    ensures OrdinaryTemplates(s)
  {
    [
      Item("Universal Power Adapter", "electronics", 1, true, None),
      Item("High SPF Sunscreen", "toiletries", 1, true, Some("Australian sun is strong")),
      Item("Insect Repellent", "toiletries", 1, false, None),
      Item("Sunglasses", "accessories", 1, true, None),
      Item("Swimwear", "clothing", 1, false, None),
      Item("Rain Jacket", "clothing", 1, false, None)
    ]
  }

  function DubaiItems(): (s: seq<Item>)
    ensures OrdinaryTemplates(s)
  {
    [
      Item("Universal Power Adapter", "electronics", 1, true, None),
      Item("Modest Clothing", "clothing", 3, true, Some("Covers shoulders and knees")),
      Item("Sunscreen", "toiletries", 1, true, None),
      Item("Sunglasses", "accessories", 1, true, None),
      Item("Scarf for Women", "accessories", 1, false, Some("For mosque visits")),
      Item("Water Bottle", "accessories", 1, true, None)
    ]
  }

  function BangkokItems(): (s: seq<Item>)
    ensures OrdinaryTemplates(s)
  {
    [
      Item("Universal Power Adapter", "electronics", 1, true, None),
      Item("Modest Clothing", "clothing", 2, false, Some("For temple visits")),
      Item("Insect Repellent", "toiletries", 1, true, None),
      Item("Thai Phrase Book", "documents", 1, false, None),
      Item("Hand Sanitizer", "toiletries", 1, false, None),
      Item("Toilet Paper", "toiletries", 1, false, Some("Not always available"))
    ]
  }

  /** Items by destination, in the order the table declares its keys: the generator
      tries the keys in this order and takes the first that matches. */
  const DestinationItems: seq<Entry> := [
    Entry("paris", ParisItems()),
    Entry("tokyo", TokyoItems()),
    Entry("new york", NewYorkItems()),
    Entry("rome", RomeItems()),
    Entry("bali", BaliItems()),
    Entry("london", LondonItems()),
    Entry("sydney", SydneyItems()),
    Entry("dubai", DubaiItems()),
    Entry("bangkok", BangkokItems())
  ]

  function SwimmingItems(): (s: seq<Item>)
    ensures OrdinaryTemplates(s)
  {
    [
      Item("Swimsuit", "clothing", 2, true, None),
      Item("Goggles", "accessories", 1, false, None),
      Item("Swim Cap", "accessories", 1, false, None),
      Item("Waterproof Sunscreen", "toiletries", 1, true, None),
      Item("Beach Towel", "accessories", 1, false, None),
      Item("Flip Flops", "footwear", 1, false, None),
      Item("Ear Plugs", "accessories", 1, false, None)
    ]
  }

  function HikingItems(): (s: seq<Item>)
    ensures OrdinaryTemplates(s)
  {
    [
      Item("Hiking Boots", "footwear", 1, true, None),
      Item("Walking Stick", "accessories", 1, false, None),
      Item("Trail Map", "documents", 1, false, None),
      Item("GPS Device", "electronics", 1, false, None),
      Item("Moisture-wicking Shirts", "clothing", 2, false, None),
      Item("Hiking Pants", "clothing", 1, true, None),
      Item("Hiking Socks", "clothing", 2, true, None),
      Item("Bandana", "accessories", 1, false, None),
      Item("Energy Bars", "food", 3, false, None),
      Item("First Aid Kit", "health", 1, true, None)
    ]
  }

  function SkiingItems(): (s: seq<Item>)
    ensures OrdinaryTemplates(s)
  {
    [
      Item("Ski Jacket", "clothing", 1, true, None),
      Item("Ski Pants", "clothing", 1, true, None),
      Item("Thermal Underwear", "clothing", 2, true, None),
      Item("Ski Gloves", "accessories", 1, true, None),
      Item("Ski Goggles", "accessories", 1, true, None),
      Item("Ski Socks", "clothing", 3, true, None),
      Item("Base Layers", "clothing", 2, true, None),
      Item("Fleece Mid-layer", "clothing", 1, false, None),
      Item("Neck Gaiter", "accessories", 1, false, None),
      Item("Lip Balm with SPF", "toiletries", 1, false, None),
      Item("Sunscreen", "toiletries", 1, true, Some("Snow reflects UV"))
    ]
  }

  function PhotographyItems(): (s: seq<Item>)
    ensures OrdinaryTemplates(s)
  {
    [
      Item("Camera", "electronics", 1, true, None),
      Item("Extra Batteries", "electronics", 2, true, None),
      Item("Memory Cards", "electronics", 2, true, None),
      Item("Camera Cleaning Kit", "accessories", 1, false, None),
      Item("Tripod", "equipment", 1, false, None),
      Item("Camera Bag", "accessories", 1, true, None),
      Item("Lens Filters", "electronics", 1, false, None),
      Item("Backup Storage Device", "electronics", 1, false, None)
    ]
  }

  function SnorkelingItems(): (s: seq<Item>)
    ensures OrdinaryTemplates(s)
  {
    [
      Item("Snorkel Mask", "equipment", 1, true, Some("Or rent at destination")),
      Item("Snorkel", "equipment", 1, true, Some("Or rent at destination")),
      Item("Fins", "equipment", 1, false, Some("Or rent at destination")),
      Item("Rashguard", "clothing", 1, false, Some("Sun protection")),
      Item("Waterproof Sunscreen", "toiletries", 1, true, None),
      Item("Waterproof Bag", "accessories", 1, false, None),
      Item("Water Shoes", "footwear", 1, false, None)
    ]
  }

  function CyclingItems(): (s: seq<Item>)
    ensures OrdinaryTemplates(s)
  {
    [
      Item("Cycling Shorts", "clothing", 2, true, None),
      Item("Cycling Jersey", "clothing", 2, false, None),
      Item("Cycling Shoes", "footwear", 1, true, None),
      Item("Helmet", "equipment", 1, true, None),
      Item("Cycling Gloves", "accessories", 1, false, None),
      Item("Sunglasses", "accessories", 1, false, None),
      Item("Repair Kit", "tools", 1, false, None),
      Item("Water Bottle", "accessories", 1, true, None),
      Item("Energy Bars/Gels", "food", 3, false, None)
    ]
  }

  function RunningItems(): (s: seq<Item>)
    ensures OrdinaryTemplates(s)
  {
    [
      Item("Running Shoes", "footwear", 1, true, None),
      Item("Running Shorts", "clothing", 2, false, None),
      Item("Moisture-wicking Shirts", "clothing", 2, false, None),
      Item("Running Socks", "clothing", 2, false, None),
      Item("Sports Watch/GPS", "electronics", 1, false, None),
      Item("Armband for Phone", "accessories", 1, false, None),
      Item("Hydration Belt", "accessories", 1, false, None),
      Item("Sunglasses", "accessories", 1, false, None),
      Item("Cap", "accessories", 1, false, None)
    ]
  }

  /** Items by activity. */
  const ActivityItems: map<string, seq<Item>> := map[
    "swimming" := SwimmingItems(),
    "hiking" := HikingItems(),
    "skiing" := SkiingItems(),
    "photography" := PhotographyItems(),
    "snorkeling" := SnorkelingItems(),
    "cycling" := CyclingItems(),
    "running" := RunningItems()
  ]

  function FemaleItems(): (s: seq<Item>)
    ensures OrdinaryTemplates(s)
  {
    [
      Item("Feminine Hygiene Products", "toiletries", 1, true, None),
      Item("Makeup", "toiletries", 1, false, None),
      Item("Hair Styling Tools", "toiletries", 1, false, None),
      Item("Hair Accessories", "accessories", 1, false, None),
      Item("Birth Control", "medication", 1, true, Some("If applicable")),
      Item("Jewelry", "accessories", 1, false, None)
    ]
  }

  function MaleItems(): (s: seq<Item>)
    ensures OrdinaryTemplates(s)
  {
    [
      Item("Razor/Shaving Cream", "toiletries", 1, false, None),
      Item("Beard Trimmer", "toiletries", 1, false, None),
      Item("Aftershave", "toiletries", 1, false, None)
    ]
  }

  /** Gender-specific items. */
  const GenderItems: map<string, seq<Item>> := map[
    "female" := FemaleItems(),
    "male" := MaleItems()
  ]

  function InfantItems(): (s: seq<Item>)
    ensures OrdinaryTemplates(s)
  {
    [
      Item("Diapers", "baby", 20, true, None),
      Item("Baby Wipes", "baby", 1, true, None),
      Item("Baby Food/Formula", "baby", 1, true, None),
      Item("Bottles", "baby", 2, true, None),
      Item("Baby Clothes", "clothing", 5, true, None),
      Item("Baby Blanket", "baby", 1, false, None),
      Item("Pacifier", "baby", 2, false, None),
      Item("Baby Carrier", "baby", 1, true, None),
      Item("Diaper Rash Cream", "baby", 1, false, None),
      Item("Baby Toys", "entertainment", 3, false, None)
    ]
  }

  function ChildItems(): (s: seq<Item>)
    ensures OrdinaryTemplates(s)
  {
    [
      Item("Kids' Clothes", "clothing", 5, true, None),
      Item("Kids' Shoes", "footwear", 2, true, None),
      Item("Favorite Toy/Stuffed Animal", "entertainment", 1, false, None),
      Item("Coloring Book/Crayons", "entertainment", 1, false, None),
      Item("Tablet with Games", "electronics", 1, false, None),
      Item("Kid-safe Sunscreen", "toiletries", 1, true, None),
      Item("Child Medication", "medication", 1, true, Some("If needed")),
      Item("Snacks", "food", 1, true, None)
    ]
  }

  function SeniorItems(): (s: seq<Item>)
    ensures OrdinaryTemplates(s)
  {
    [
      Item("Prescription Medications", "medication", 1, true, Some("Extra supply")),
      Item("Pill Organizer", "health", 1, false, None),
      Item("Reading Glasses", "accessories", 1, true, None),
      Item("Medical Alert Bracelet", "accessories", 1, false, Some("If applicable")),
      Item("Medical Insurance Cards", "documents", 1, true, None),
      Item("List of Medications", "documents", 1, true, None),
      Item("Mobility Aids", "health", 1, true, Some("If needed")),
      Item("Extra Prescription Copies", "documents", 1, true, None)
    ]
  }

  /** Items by age group. */
  const AgeItems: map<string, seq<Item>> := map[
    "infant" := InfantItems(),
    "child" := ChildItems(),
    "senior" := SeniorItems()
  ]

  /** The items generated per request rather than drawn from a table. */
  const GenericAdapter := Item("Universal Power Adapter", "electronics", 1, true, None)
  const GenericPhraseBook := Item("Travel Phrase Book/App", "documents", 1, false, None)
  const LaundrySoap := Item("Travel Laundry Soap", "toiletries", 1, false, None)
  const PresentationRemote := Item("Presentation Remote", "electronics", 1, false, None)
  const PresentationBackup := Item("Backup of Presentation", "documents", 1, true, None)

  /** The destination words that call for the tropical items. */
  const TropicalDestinations: seq<string> := ["caribbean", "bali", "hawaii", "thailand"]

  /** One key of an insertion-ordered table with its items. */
  datatype Entry = Entry(key: string, items: seq<Item>)

  /** The seven rule tables of the service, whose templates the generator's scaling
      step updates in place. */
  datatype Tables = Tables(
    base: seq<Item>,
    season: map<string, seq<Item>>,
    tripType: map<string, seq<Item>>,
    destination: seq<Entry>,
    activity: map<string, seq<Item>>,
    gender: map<string, seq<Item>>,
    age: map<string, seq<Item>>)

  /** The tables as the service starts. */
  const InitialTables := Tables(BaseItems, SeasonItems, TripTypeItems, DestinationItems, ActivityItems, GenderItems, AgeItems)

  /** The names the generator gives to the items it creates per request
      (other than the power adapter, which some destinations also list). */
  const CreatedNames: set<string> :=
    {GenericPhraseBook.name, LaundrySoap.name, PresentationRemote.name, PresentationBackup.name}

  /** What the generator relies on about a template list other than the base list:
      positive quantities, no Passport and none of the created names. */
  predicate OrdinaryTemplates(s: seq<Item>)
  {
    forall i :: 0 <= i < |s| ==> s[i].quantity >= 1 && s[i].name != "Passport" && s[i].name !in CreatedNames
  }

  lemma SeasonTemplatesOrdinary()
    ensures OrdinaryTable(SeasonItems)
    ensures "rainy" in SeasonItems && "tropical" in SeasonItems
  {
  }

  lemma TripTypeTemplatesOrdinary()
    ensures OrdinaryTable(TripTypeItems)
  {
  }

  lemma DestinationTemplatesOrdinary()
    ensures OrdinaryEntries(DestinationItems)
  {
  }

  lemma ActivityTemplatesOrdinary()
    ensures OrdinaryTable(ActivityItems)
  {
  }

  lemma PersonTemplatesOrdinary()
    ensures OrdinaryTable(GenderItems) && OrdinaryTable(AgeItems)
  {
  }

  /** Every list of a keyed table is ordinary. */
  predicate OrdinaryTable(m: map<string, seq<Item>>)
  {
    forall k | k in m :: OrdinaryTemplates(m[k])
  }

  /** Every list of an ordered table is ordinary. */
  predicate OrdinaryEntries(es: seq<Entry>)
  {
    forall i | 0 <= i < |es| :: OrdinaryTemplates(es[i].items)
  }

  /** What the generator relies on about the base list: Passport comes first, the
      names are pairwise distinct, and every item has a positive quantity, is left alone by the
      scaling step and carries none of the created names. */
  predicate BaseTemplates(s: seq<Item>)
  {
    && |s| > 0
    && s[0].name == "Passport"
    && (forall i, j :: 0 <= i < j < |s| ==> s[i].name != s[j].name)
    && (forall i :: 0 <= i < |s| ==> s[i].quantity >= 1 && s[i].name !in CreatedNames && !Scalable(s[i]))
  }

  lemma BaseFacts()
    ensures BaseTemplates(BaseItems)
  {
    BaseItemFacts();
    BaseNamesDistinct();
  }

  lemma BaseItemFacts()
    ensures |BaseItems| > 0 && BaseItems[0].name == "Passport"
    ensures forall i :: 0 <= i < |BaseItems| ==>
      BaseItems[i].quantity >= 1 && BaseItems[i].name !in CreatedNames && !Scalable(BaseItems[i])
  {
  }

  lemma BaseNamesDistinct()
    ensures forall i, j :: 0 <= i < j < |BaseItems| ==> BaseItems[i].name != BaseItems[j].name
  {
  }
}
