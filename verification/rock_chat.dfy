/** The chat text pipeline of `rockChat.ts`: the live answer, the live
    property object, and the offline answers used when no credential is
    configured or the service fails. */
module RockChat {
  import opened Options
  import opened Text
  import opened Json
  import opened Service
  import opened Extraction

  // ---------------------------------------------------------------------
  // Credential, requests and answers
  // ---------------------------------------------------------------------

  /** The key that stands for "no credential configured". */
  const PlaceholderKey := "YOUR_API_KEY"

  /** `import.meta.env.VITE_GEMINI_API_KEY || 'YOUR_API_KEY'`, where `None`
      is an unset variable. The offline answers are used exactly when the
      variable is unset, empty, or itself the placeholder. */
  function ConfiguredKey(env: Option<string>): (key: string)
    ensures key != ""
    ensures key == PlaceholderKey <==> env.None? || env.value == "" || env.value == PlaceholderKey
  {
    if env.Some? && env.value != "" then env.value else PlaceholderKey
  }

  /** Which instructions a text request carries; the prompt texts themselves
      are not modelled, only what they are about. */
  datatype ChatPrompt =
    /** The thirteen-property profile of the named rock, then a summary. */
    | ProfilePrompt(rock: string)
    /** A conversational answer to a follow-up question. */
    | FollowUpPrompt(question: string)
    /** A JSON object with the thirteen properties of the named rock. */
    | PropertiesPrompt(rockName: string)

  datatype ChatRequest = ChatRequest(
    model: string,
    temperature: real,
    maxOutputTokens: nat,
    prompt: ChatPrompt)

  type ChatService = ChatRequest -> Attempt

  /** What an operation resolves to, with the requests it made in order. */
  datatype Answer<T> = Answer(value: T, requests: seq<ChatRequest>)

  const ChatModel := "gemini-1.5-flash"
  const ChatMaxTokens := 2048

  // ---------------------------------------------------------------------
  // Classification and clean-up
  // ---------------------------------------------------------------------

  /** A query is an initial rock query unless its lower-case form contains
      "regarding"; the live and the offline path use this same test. */
  predicate IsInitialQuery(query: string) {
    !Contains(Lower(query), "regarding")
  }

  /** The classification ignores letter case: "regarding" written in
      lower case, capitalised or in capitals makes a query a follow-up. */
  lemma RegardingInAnyCase(query: string)
    ensures Contains(query, "regarding") ==> !IsInitialQuery(query)
    ensures Contains(query, "Regarding") ==> !IsInitialQuery(query)
    ensures Contains(query, "REGARDING") ==> !IsInitialQuery(query)
  {
    LowerContains(query, "regarding");
    LowerContains(query, "Regarding");
    LowerContains(query, "REGARDING");
    assert Lower("regarding") == "regarding";
    assert Lower("Regarding") == "regarding" && Lower("REGARDING") == "regarding";
  }

  /** `text.replace` with a global pattern for `*` and an empty replacement. */
  function StripAsterisks(s: string): (r: string)
    ensures '*' !in r
    ensures '*' !in s ==> r == s
    ensures |r| <= |s|
    decreases |s|
  {
    if |s| == 0 then ""
    else (if s[0] == '*' then "" else [s[0]]) + StripAsterisks(s[1..])
  }

  /** Stripping works piece by piece, so every other character is kept, in
      order. */
  lemma {:induction false} StripAsterisksAppend(a: string, b: string)
    ensures StripAsterisks(a + b) == StripAsterisks(a) + StripAsterisks(b)
    decreases |a|
  {
    if |a| > 0 {
      assert (a + b)[0] == a[0];
      assert (a + b)[1..] == a[1..] + b;
      var head := if a[0] == '*' then "" else [a[0]];
      assert StripAsterisks(a + b) == head + StripAsterisks(a[1..] + b);
      assert StripAsterisks(a) == head + StripAsterisks(a[1..]);
      StripAsterisksAppend(a[1..], b);
      assert head + (StripAsterisks(a[1..]) + StripAsterisks(b)) ==
             (head + StripAsterisks(a[1..])) + StripAsterisks(b);
    } else {
      assert a + b == b;
    }
  }

  /** Stripping removes asterisks and nothing else: a character is in the
      result exactly when it is in `s` and is not `*`. */
  lemma {:induction false} StripAsterisksKeeps(s: string, c: char)
    ensures c in StripAsterisks(s) <==> c in s && c != '*'
    decreases |s|
  {
    if |s| > 0 {
      StripAsterisksKeeps(s[1..], c);
      assert c in s[1..] ==> c in s;
    }
  }

  /** Stripping twice is stripping once. */
  lemma StripAsterisksIdempotent(s: string)
    ensures StripAsterisks(StripAsterisks(s)) == StripAsterisks(s)
  {
  }

  // ---------------------------------------------------------------------
  // The offline catalogue
  // ---------------------------------------------------------------------

  /** A catalogued rock: thirteen `Label: value` lines, then a summary
      paragraph. */
  datatype Profile = Profile(properties: seq<string>, summary: string)

  /** The answer text of a profile: its lines, a blank line, the summary. */
  function ProfileText(p: Profile): string {
    JoinWith(p.properties, "\n") + "\n\n" + p.summary
  }

  /** The five catalogued rocks. */
  datatype Rock = Granite | Limestone | Marble | Basalt | Sandstone

  /** The offline answers: what each one is, apart from its wording, which
      `ReplyText` supplies. */
  datatype Reply =
    /** The catalogued profile of a rock. */
    | CatalogueEntry(rock: Rock)
    /** The answer to an initial query about an unknown rock. */
    | NotFound(query: string)
    /** The three canned follow-up answers. */
    | GraniteFormation
    | LimestoneCaves
    | RockUses
    /** The answer to any other follow-up, naming its subject. */
    | Generic(subject: string)

  /** An offline answer and the lower-case words a query must all contain
      to get it. */
  datatype Rule = Rule(keywords: seq<string>, reply: Reply)

  predicate Matches(q: string, rule: Rule) {
    forall k :: k in rule.keywords ==> Contains(q, k)
  }

  /** The position of the first rule `q` matches, or `|rules|` when it
      matches none: the rules are tried in order and the first match wins. */
  function FirstMatch(q: string, rules: seq<Rule>): (i: nat)
    ensures i <= |rules|
    ensures i < |rules| ==> Matches(q, rules[i])
    ensures forall j :: 0 <= j < i ==> !Matches(q, rules[j])
    decreases |rules|
  {
    if |rules| == 0 then 0
    else if Matches(q, rules[0]) then 0
    else 1 + FirstMatch(q, rules[1..])
  }

  /** The profile of a catalogued rock. */
  function Catalogue(rock: Rock): Profile {
    Profile(Properties(rock), Summary(rock))
  }

  /** The thirteen property lines of a catalogued rock, line for line. */
  function Properties(rock: Rock): seq<string> {
    match rock
    case Granite => [
      "Type: Igneous (Intrusive)",
      "Mineral Composition: Quartz (20-60%), Alkali Feldspar " +
        "(35-90%), Plagioclase (10-65%), Micas (Biotite and " +
        "Muscovite), Amphibole (Hornblende)",
      "Texture: Phaneritic (coarse-grained), with visible " +
        "interlocking crystals",
      "Color: Light-colored, typically white, pink, or gray with " +
        "black mineral specks",
      "Hardness: 6-7 on Mohs scale",
      "Density: 2.65-2.75 g/cm\U{B3}",
      "Porosity & Permeability: Low porosity (0.5-1.5%), low permeability",
      "Fossil Content: None (igneous rocks do not contain fossils)",
      "Weathering & Erosion Resistance: High resistance to " +
        "weathering and erosion",
      "Formation Process: Slow cooling and crystallization of " +
        "silica-rich magma beneath Earth's surface",
      "Geological Age: Varies widely, from Precambrian to Cenozoic " +
        "(over 3 billion years to less than 65 million years)",
      "Location & Occurrence: Found in continental crust " +
        "worldwide, forms the cores of many mountain ranges",
      "Uses: Building stone, countertops, floor tiles, paving " +
        "stone, monuments, curbing"]
    case Limestone => [
      "Type: Sedimentary",
      "Mineral Composition: Primarily calcite (CaCO\U{2083}), with " +
        "some aragonite and dolomite",
      "Texture: Variable - can be clastic, crystalline, or " +
        "biologic; often fossiliferous",
      "Color: Usually white to gray, can be yellow, tan, or brown",
      "Hardness: 3-4 on Mohs scale",
      "Density: 2.5-2.7 g/cm\U{B3}",
      "Porosity & Permeability: Variable porosity (1-30%), " +
        "moderate permeability",
      "Fossil Content: Often rich in fossils (shells, corals, algae)",
      "Weathering & Erosion Resistance: Low resistance, " +
        "susceptible to chemical weathering (dissolution)",
      "Formation Process: Accumulation and lithification of " +
        "calcium carbonate sediments in marine environments",
      "Geological Age: Found in rocks of all ages, from Precambrian to Recent",
      "Location & Occurrence: Widespread in shallow, warm marine " +
        "environments, both ancient and modern",
      "Uses: Building material, cement production, agricultural " +
        "lime, flux in metallurgy"]
    case Marble => [
      "Type: Metamorphic",
      "Mineral Composition: Primarily calcite or dolomite",
      "Texture: Non-foliated, crystalline, interlocking mosaic of " +
        "recrystallized carbonate minerals",
      "Color: White when pure, various colors due to impurities " +
        "(gray, pink, green, etc.)",
      "Hardness: 3-4 on Mohs scale",
      "Density: 2.5-2.8 g/cm\U{B3}",
      "Porosity & Permeability: Low porosity (0.5-2%), low permeability",
      "Fossil Content: Rarely preserved due to recrystallization " +
        "during metamorphism",
      "Weathering & Erosion Resistance: Moderate resistance, " +
        "susceptible to acid rain",
      "Formation Process: Metamorphism of limestone or dolomite " +
        "under heat and pressure",
      "Geological Age: Various, depends on the age of the parent limestone",
      "Location & Occurrence: Found in metamorphic terrains worldwide",
      "Uses: Sculpture, building material, decorative elements, countertops"]
    case Basalt => [
      "Type: Igneous (Extrusive)",
      "Mineral Composition: Plagioclase feldspar, pyroxene, " +
        "olivine, with minor iron-titanium oxides",
      "Texture: Fine-grained (aphanitic), sometimes with vesicles " +
        "(gas bubbles)",
      "Color: Dark gray to black",
      "Hardness: 5-6 on Mohs scale",
      "Density: 2.8-3.0 g/cm\U{B3}",
      "Porosity & Permeability: Variable porosity (1-50% in " +
        "vesicular basalt), low permeability in dense basalt",
      "Fossil Content: None (igneous rocks do not contain fossils)",
      "Weathering & Erosion Resistance: Moderate to high resistance",
      "Formation Process: Rapid cooling of lava at or near Earth's surface",
      "Geological Age: Found in rocks of all ages, from Precambrian to Recent",
      "Location & Occurrence: Oceanic crust, volcanic islands, " +
        "continental flood basalts",
      "Uses: Construction aggregate, road base, railroad ballast, " +
        "asphalt pavement"]
    case Sandstone => [
      "Type: Sedimentary",
      "Mineral Composition: Primarily quartz, with feldspar, mica, " +
        "and rock fragments",
      "Texture: Clastic, with visible sand grains cemented together",
      "Color: Varies widely - tan, brown, yellow, red, gray, white",
      "Hardness: 6-7 on Mohs scale (for quartz grains)",
      "Density: 2.2-2.8 g/cm\U{B3}",
      "Porosity & Permeability: High porosity (5-25%), high permeability",
      "Fossil Content: May contain fossils, but less common than in limestone",
      "Weathering & Erosion Resistance: Variable, depending on " +
        "cement and composition",
      "Formation Process: Lithification of sand deposits through " +
        "compaction and cementation",
      "Geological Age: Found in rocks of all ages, from Precambrian to Recent",
      "Location & Occurrence: Widespread in continental and " +
        "shallow marine environments",
      "Uses: Building stone, paving, filtration, glass production"]
  }

  /** The summary paragraph of a catalogued rock. */
  function Summary(rock: Rock): string {
    match rock
    case Granite =>
      "Granite is one of the most abundant rock types in the " +
      "continental crust and has been used throughout human " +
      "history for construction due to its strength and " +
      "durability. Its distinctive speckled appearance comes from " +
      "the various minerals that compose it, with the color " +
      "variations determined by the specific mineral ratios."
    case Limestone =>
      "Limestone is fascinating because it often preserves " +
      "detailed fossils, providing valuable insights into ancient " +
      "life. It's also the primary rock type that forms karst " +
      "landscapes with caves, sinkholes, and underground drainage " +
      "systems when dissolved by slightly acidic water."
    case Marble =>
      "Marble has been prized for thousands of years for its " +
      "beauty and workability. Famous sculptures like " +
      "Michelangelo's David were carved from marble, and iconic " +
      "structures like the Taj Mahal and the Parthenon showcase " +
      "its enduring appeal as a building material."
    case Basalt =>
      "Basalt is the most common rock type on Earth's surface, " +
      "forming the majority of the ocean floor. Massive basalt " +
      "flows have created spectacular geological features like the " +
      "Giant's Causeway in Ireland and the Columbia River Basalt " +
      "Group, which covers parts of Washington, Oregon, and Idaho " +
      "with over 174,000 cubic kilometers of basalt."
    case Sandstone =>
      "Sandstone often preserves ancient environments in its " +
      "sedimentary structures, allowing geologists to reconstruct " +
      "past landscapes. Its high porosity makes it an important " +
      "reservoir rock for groundwater, oil, and natural gas, while " +
      "its varied colors have made it a popular building material " +
      "throughout history."
  }

  /** The lower-case name an initial query must contain to get a rock. */
  function RockName(rock: Rock): string {
    match rock
    case Granite => "granite"
    case Limestone => "limestone"
    case Marble => "marble"
    case Basalt => "basalt"
    case Sandstone => "sandstone"
  }

  /** The catalogue order, which is the order the rocks are tried in. */
  const CatalogueOrder: seq<Rock> := [Granite, Limestone, Marble, Basalt, Sandstone]

  /** The initial-query rules, in the order they are tried. */
  const InitialRules: seq<Rule> := [
    Rule(["granite"], CatalogueEntry(Granite)),
    Rule(["limestone"], CatalogueEntry(Limestone)),
    Rule(["marble"], CatalogueEntry(Marble)),
    Rule(["basalt"], CatalogueEntry(Basalt)),
    Rule(["sandstone"], CatalogueEntry(Sandstone))]

  /** The follow-up rules, in the order they are tried. */
  const FollowUpRules: seq<Rule> := [
    Rule(["granite", "formation"], GraniteFormation),
    Rule(["limestone", "caves"], LimestoneCaves),
    Rule(["uses"], RockUses)]

  /** The answer to an initial query no rule matches; it quotes the query
      as typed and lists example rocks. */
  function NotFoundText(query: string): string {
    NotFoundLead + Quoted(query) + NotFoundAdvice(query)
  }

  /** What follows the quoted query in the not-found answer: where to
      look instead, with example rocks. The wording is the same whatever
      the query; it is keyed by the query only to keep the text out of
      proofs that do not look at it. */
  function NotFoundAdvice(query: string): string {
    " is not available in our database. This rock or mineral " +
      "may be less common or require specialized identification. " + "\n\n" +
    "Here are some common rocks you might be interested in:\n- " +
      "Igneous rocks: Granite, Basalt, Obsidian, Pumice\n- " +
      "Sedimentary rocks: Limestone, Sandstone, Shale, " +
      "Conglomerate\n- Metamorphic rocks: Marble, Slate, Schist, " +
      "Gneiss" + "\n\n" +
    "Please try searching for one of these, or provide more " +
      "details about the rock you're interested in."
  }

  /** A text in double quotes. */
  function Quoted(s: string): string {
    "\"" + s + "\""
  }

  const NotFoundLead := "Information about "

  /** The answer to a follow-up no rule matches, naming its subject. */
  function GenericText(subject: string): string {
    GenericLead + subject +
    ". However, I can tell you that geology is a fascinating " +
      "field that studies the solid Earth, the rocks of which it " +
      "is composed, and the processes by which they change over " +
      "time." + "\n\n" +
    "If you have questions about specific rock types (igneous, " +
    "sedimentary, or metamorphic), their formation processes, " +
    "mineral composition, or other geological topics, I'd be " +
    "happy to provide more information. Feel free to ask about " +
    "granite, limestone, basalt, marble, sandstone, or other " +
    "common rock types."
  }

  const GenericLead := "I don't have specific information about that aspect of "

  /** The subject named in the generic reply: the text before the first
      colon with the first "Regarding " removed (case-sensitive). */
  function Subject(query: string): (r: string)
    ensures ':' !in r && |r| <= |query|
  {
    RemoveFirstKeepsOut(BeforeColon(query), "Regarding ", ':');
    ReplaceFirst(BeforeColon(query), "Regarding ", "")
  }

  /** The wording of an offline answer. */
  function ReplyText(reply: Reply): string {
    match reply
    case CatalogueEntry(rock) => ProfileText(Catalogue(rock))
    case NotFound(query) => NotFoundText(query)
    case Generic(subject) => GenericText(subject)
    case _ => CannedText(reply)
  }

  /** The wording of the three canned follow-up answers. */
  function CannedText(reply: Reply): string
    requires reply.GraniteFormation? || reply.LimestoneCaves? || reply.RockUses?
  {
    match reply
    case GraniteFormation =>
      "Granite forms deep beneath the Earth's surface through a " +
        "process called plutonism. It begins when magma (molten " +
        "rock) with high silica content rises from the mantle into " +
        "the crust but doesn't reach the surface. As this magma " +
        "cools very slowly over thousands to millions of years, " +
        "minerals crystallize and form the interlocking crystal " +
        "structure characteristic of granite." + "\n\n" +
      "The slow cooling allows large crystals to form, which is " +
        "why you can see the individual mineral grains in granite " +
        "with the naked eye. This texture is called \"phaneritic.\" " +
        "The primary minerals that crystallize are quartz, " +
        "feldspars, and smaller amounts of micas and amphiboles." + "\n\n" +
      "Granite typically forms in continental collision zones, " +
      "where tectonic plates converge, generating the heat and " +
      "pressure needed to create magma. After formation, granite " +
      "can be exposed at the surface through uplift and erosion of " +
      "overlying rocks over millions of years."
    case LimestoneCaves =>
      "Limestone caves form through a process called " +
        "karstification, which is essentially the dissolution of " +
        "limestone by slightly acidic water. Here's how it happens:" + "\n\n" +
      "When rainwater absorbs carbon dioxide from the atmosphere " +
        "and soil, it forms a weak carbonic acid (H2CO3). As this " +
        "acidic water percolates through cracks in limestone, it " +
        "dissolves the calcium carbonate (CaCO3) in a chemical " +
        "reaction:" + "\n\n" +
      "CaCO3 + H2CO3 \U{2192} Ca(HCO3)2 (calcium bicarbonate, " +
        "which is soluble in water)" + "\n\n" +
      "Over thousands to millions of years, this dissolution " +
        "enlarges cracks into passages and rooms, eventually forming " +
        "extensive cave systems. The process is extremely slow, with " +
        "dissolution rates typically less than 1mm per year." + "\n\n" +
      "Famous limestone cave systems include Mammoth Cave in " +
      "Kentucky (the world's longest known cave system), Carlsbad " +
      "Caverns in New Mexico, and the Postojna Cave in Slovenia. " +
      "These caves often feature spectacular formations like " +
      "stalactites, stalagmites, and flowstones, which form when " +
      "dissolved calcium carbonate redeposits as water evaporates " +
      "or loses carbon dioxide."
    case RockUses =>
      "Rocks and minerals have countless uses in our modern world, " +
        "forming the foundation of many industries:" + "\n\n" +
      "Building and Construction: Granite, limestone, marble, and " +
        "sandstone are used for buildings, monuments, countertops, " +
        "and decorative elements. Crushed stone (often limestone, " +
        "granite, or basalt) is used for concrete aggregate, road " +
        "base, and railroad ballast." + "\n\n" +
      "Manufacturing: Limestone is essential for cement " +
        "production. Silica from sandstone is used in glass " +
        "manufacturing. Various minerals provide raw materials for " +
        "ceramics, abrasives, and refractories." + "\n\n" +
      "Agriculture: Crushed limestone (agricultural lime) is " +
        "applied to soil to reduce acidity. Some mineral-rich rocks " +
        "are used as soil amendments." + "\n\n" +
      "Energy: Certain sedimentary rocks like coal provide fuel. " +
        "Porous sandstones and limestones serve as reservoir rocks " +
        "for oil and natural gas." + "\n\n" +
      "Water Filtration: Sandstone and other porous rocks are used " +
        "in water filtration systems." + "\n\n" +
      "Technology: Many rocks contain minerals essential for " +
        "electronics and technology. For example, quartz (found in " +
        "granite and sandstone) is used in watches and electronics " +
        "for its piezoelectric properties." + "\n\n" +
      "Art and Decoration: Marble, alabaster, and soapstone are " +
        "carved into sculptures. Many rocks are polished for " +
        "decorative purposes or jewelry." + "\n\n" +
      "The specific uses of a rock depend on its properties - " +
      "hardness, durability, appearance, chemical composition, and " +
      "availability all determine how we utilize different rock " +
      "types."
  }

  /** Which offline answer `getMockRockInfo(query)` gives: initial queries
      are answered from the catalogue, follow-ups from the follow-up rules,
      both matched against the lower-case query. */
  function MockReply(query: string): (r: Reply)
    ensures IsInitialQuery(query) ==> r.CatalogueEntry? || r == NotFound(query)
    ensures !IsInitialQuery(query) ==>
      r in {GraniteFormation, LimestoneCaves, RockUses, Generic(Subject(query))}
  {
    var q := Lower(query);
    if IsInitialQuery(query) then
      var i := FirstMatch(q, InitialRules);
      if i < |InitialRules| then InitialRules[i].reply else NotFound(query)
    else
      var i := FirstMatch(q, FollowUpRules);
      if i < |FollowUpRules| then FollowUpRules[i].reply else Generic(Subject(query))
  }

  /** `getMockRockInfo(query)`. */
  function MockRockInfo(query: string): string {
    ReplyText(MockReply(query))
  }

  /** The offline text for an initial query is a catalogue profile or the
      not-found answer, which quotes the query; for a follow-up it is a
      canned answer or the generic one about the query's subject. */
  lemma MockRockInfoText(query: string)
    ensures IsInitialQuery(query) ==>
      (exists rock :: MockRockInfo(query) == ProfileText(Catalogue(rock)))
      || Contains(MockRockInfo(query), Quoted(query))
    ensures !IsInitialQuery(query) ==>
      exists reply :: reply in {GraniteFormation, LimestoneCaves, RockUses, Generic(Subject(query))}
                      && MockRockInfo(query) == ReplyText(reply)
  {
    var reply := MockReply(query);
    assert MockRockInfo(query) == ReplyText(reply);
    if IsInitialQuery(query) {
      if reply.CatalogueEntry? {
        assert ReplyText(reply) == ProfileText(Catalogue(reply.rock));
      } else {
        assert ReplyText(reply) == NotFoundText(query);
        NotFoundQuotesQuery(query);
      }
    }
  }

  /** `getMockDetailedRockInfo(rockName)`: the function builds a one-entry
      table but has no `return` statement, so it yields `undefined`. */
  function MockDetailedRockInfo(rockName: string): (r: Option<Value>)
    ensures r.None?
  {
    None
  }

  /** Where a rock stands in the catalogue order. */
  function Rank(rock: Rock): (n: nat)
    ensures n < |CatalogueOrder| && CatalogueOrder[n] == rock
  {
    match rock
    case Granite => 0
    case Limestone => 1
    case Marble => 2
    case Basalt => 3
    case Sandstone => 4
  }

  /** The initial rules are the catalogue, in catalogue order, each keyed
      by the rock's name. */
  lemma InitialRulesFollowCatalogue(n: nat)
    requires n < |InitialRules|
    ensures n < |CatalogueOrder|
    ensures InitialRules[n] == Rule([RockName(CatalogueOrder[n])], CatalogueEntry(CatalogueOrder[n]))
  {
  }

  /** Each rock's rank is its place in the catalogue order. */
  lemma RankOfOrder(n: nat)
    requires n < |CatalogueOrder|
    ensures Rank(CatalogueOrder[n]) == n
  {
  }

  /** The first rule matched is at `i` exactly when rule `i` matches and
      none before it does. */
  lemma FirstMatchAt(q: string, rules: seq<Rule>, i: nat)
    requires i < |rules|
    ensures FirstMatch(q, rules) == i <==>
      Matches(q, rules[i]) && forall j :: 0 <= j < i ==> !Matches(q, rules[j])
  {
  }

  /** The catalogue answer is the one at the first matching rule. */
  lemma EntryIsFirstMatch(query: string, rock: Rock)
    ensures MockReply(query) == CatalogueEntry(rock) <==>
      IsInitialQuery(query) && FirstMatch(Lower(query), InitialRules) == Rank(rock)
  {
    var i := FirstMatch(Lower(query), InitialRules);
    if IsInitialQuery(query) && i < |InitialRules| {
      InitialRulesFollowCatalogue(i);
      RankOfOrder(i);
    }
  }

  /** No rule before position `r` matches exactly when no rock ranked
      before `r` is named. */
  lemma EarlierRulesMiss(q: string, r: nat)
    requires r <= |InitialRules|
    ensures (forall other :: Rank(other) < r ==> !Contains(q, RockName(other))) <==>
      forall j :: 0 <= j < r ==> !Matches(q, InitialRules[j])
  {
    forall n | 0 <= n < |InitialRules|
      ensures Matches(q, InitialRules[n]) <==> Contains(q, RockName(CatalogueOrder[n]))
      ensures Rank(CatalogueOrder[n]) == n
    {
      InitialRulesFollowCatalogue(n);
      RankOfOrder(n);
    }
  }

  /** An initial query gets a rock's profile exactly when its lower-case
      form names that rock and none that comes before it in the catalogue. */
  lemma CatalogueAnswer(query: string, rock: Rock)
    ensures MockReply(query) == CatalogueEntry(rock) <==>
      && IsInitialQuery(query)
      && Contains(Lower(query), RockName(rock))
      && forall other :: Rank(other) < Rank(rock) ==> !Contains(Lower(query), RockName(other))
  {
    var q := Lower(query);
    EntryIsFirstMatch(query, rock);
    EarlierRulesMiss(q, Rank(rock));
    FirstMatchAt(q, InitialRules, Rank(rock));
    InitialRulesFollowCatalogue(Rank(rock));
  }

  /** A query mentioning granite, in any letter case, gets the granite
      profile, whatever other rocks it mentions. */
  lemma GraniteWinsTies(query: string)
    requires IsInitialQuery(query) && Contains(Lower(query), "granite")
    ensures MockReply(query) == CatalogueEntry(Granite)
  {
    CatalogueAnswer(query, Granite);
  }

  /** An initial query that names none of the five rocks gets the
      not-found answer about that query. */
  lemma UnknownRockIsNotFound(query: string)
    requires IsInitialQuery(query)
    requires forall rock :: !Contains(Lower(query), RockName(rock))
    ensures MockReply(query) == NotFound(query)
  {
    var q := Lower(query);
    forall n | 0 <= n < |InitialRules|
      ensures !Matches(q, InitialRules[n])
    {
      InitialRulesFollowCatalogue(n);
      assert !Contains(q, RockName(CatalogueOrder[n]));
    }
  }

  /** The not-found answer quotes the query as typed. */
  lemma NotFoundQuotesQuery(query: string)
    ensures Contains(NotFoundText(query), Quoted(query))
  {
    ContainsMiddle(NotFoundLead, Quoted(query), NotFoundAdvice(query));
  }

  /** A follow-up that matches none of the follow-up rules gets the generic
      answer naming its subject, and one that does match gets that rule's
      answer. */
  lemma FollowUpAnswer(query: string)
    requires !IsInitialQuery(query)
    ensures MockReply(query) == Generic(Subject(query)) <==>
      forall n :: 0 <= n < |FollowUpRules| ==> !Matches(Lower(query), FollowUpRules[n])
  {
  }

  /** The follow-up rules are tried in order: granite and formation, then
      limestone and caves, then uses. */
  lemma FollowUpRuleOrder(query: string)
    requires !IsInitialQuery(query)
    ensures var q := Lower(query);
      var graniteFormation := Contains(q, "granite") && Contains(q, "formation");
      var limestoneCaves := Contains(q, "limestone") && Contains(q, "caves");
      && (MockReply(query) == GraniteFormation <==> graniteFormation)
      && (MockReply(query) == LimestoneCaves <==> !graniteFormation && limestoneCaves)
      && (MockReply(query) == RockUses <==> !graniteFormation && !limestoneCaves && Contains(q, "uses"))
  {
    var q := Lower(query);
    RuleMatches(q, "granite", "formation");
    RuleMatches(q, "limestone", "caves");
    assert Matches(q, FollowUpRules[2]) <==> Contains(q, "uses") by {
      assert FollowUpRules[2].keywords == ["uses"];
    }
  }

  /** A rule keyed by two words matches when the query contains both. */
  lemma RuleMatches(q: string, a: string, b: string)
    ensures forall r :: Matches(q, Rule([a, b], r)) <==> Contains(q, a) && Contains(q, b)
  {
    forall r ensures Matches(q, Rule([a, b], r)) <==> Contains(q, a) && Contains(q, b) {
      assert a in [a, b] && b in [a, b];
    }
  }

  /** A query that begins with "Regarding " is a follow-up. */
  lemma RegardingIsFollowUp(rock: string, rest: string)
    ensures !IsInitialQuery("Regarding " + rock + rest)
  {
    var s := "Regarding " + rock + rest;
    LowerAppend("Regarding ", rock + rest);
    assert "Regarding " + rock + rest == "Regarding " + (rock + rest);
    assert Lower("Regarding ")[..9] == "regarding";
    assert Lower(s)[..9] == "regarding";
    ContainsPrefix(Lower(s), "regarding");
  }

  /** For a query of the form `Regarding <rock>:<rest>`, the generic
      reply's subject is the rock's name up to its first colon: the whole
      name when it has no colon. */
  lemma SubjectOfRegarding(rock: string, rest: string)
    ensures Subject("Regarding " + rock + ":" + rest) == BeforeColon(rock)
  {
    var b := BeforeColon(rock);
    var t := "Regarding " + b;
    var s := "Regarding " + rock + ":" + rest;
    assert ':' !in "Regarding ";
    assert s[..|t|] == t;
    assert s[|t|] == ':' by {
      if ':' in rock {
        assert s[|t|] == rock[|b|];
      } else {
        assert s[|t|] == s[10 + |rock|];
      }
    }
    BeforeColonUnique(s, t);
    assert t[..10] == "Regarding ";
    assert IndexOf(t, "Regarding ") == Some(0);
    assert t[10..] == b;
  }

  // ---------------------------------------------------------------------
  // The live operations
  // ---------------------------------------------------------------------

  /** The request `getRockInfo` makes: the profile prompt for an initial
      query, the conversational prompt for a follow-up. */
  function RockInfoRequest(query: string): (r: ChatRequest)
    ensures r.model == ChatModel && r.temperature == 0.2 && r.maxOutputTokens == ChatMaxTokens
    ensures IsInitialQuery(query) ==> r.prompt == ProfilePrompt(query)
    ensures !IsInitialQuery(query) ==> r.prompt == FollowUpPrompt(query)
  {
    ChatRequest(ChatModel, 0.2, ChatMaxTokens,
                if IsInitialQuery(query) then ProfilePrompt(query) else FollowUpPrompt(query))
  }

  /** `getRockInfo(query)`: the offline answer when no credential is
      configured or the call fails; otherwise the reply with its asterisks
      removed. It never fails. */
  function GetRockInfo(query: string, key: string, service: ChatService): (r: Answer<string>)
    ensures |r.requests| <= 1
    ensures |r.requests| == 0 <==> key == PlaceholderKey
    ensures |r.requests| == 1 ==> r.requests[0] == RockInfoRequest(query)
    ensures |r.requests| == 1 ==> r.requests[0].prompt.ProfilePrompt? == IsInitialQuery(query)
    ensures |r.requests| == 1 && service(r.requests[0]).Replied? ==>
      r.value == StripAsterisks(service(r.requests[0]).text) && '*' !in r.value
    ensures |r.requests| == 0 || !service(r.requests[0]).Replied? ==> r.value == MockRockInfo(query)
  {
    if key == PlaceholderKey then Answer(MockRockInfo(query), [])
    else
      var request := RockInfoRequest(query);
      match service(request)
      case Replied(text) => Answer(StripAsterisks(text), [request])
      case _ => Answer(MockRockInfo(query), [request])
  }

  /** The request `getDetailedRockInfo` makes. */
  function PropertiesRequest(rockName: string): ChatRequest {
    ChatRequest(ChatModel, 0.1, ChatMaxTokens, PropertiesPrompt(rockName))
  }

  /** The two stages `getDetailedRockInfo` tries: the whole reply, then the
      greedy brace span. A span that does not parse throws, and so does
      nothing. */
  function DetailStages(text: string, parse: Parser): Option<Value> {
    match parse(text)
    case Some(v) => Some(v)
    case None => SpanStage(text, parse)
  }

  /** `getDetailedRockInfo(rockName)`: the parsed object, or `undefined`
      (the offline answer) when there is no credential, the call fails or
      neither stage parses. What it does return is exactly what the
      extraction ladder of the image analysis would give for the same reply. */
  function GetDetailedRockInfo(rockName: string, key: string, service: ChatService, parse: Parser)
    : (r: Answer<Option<Value>>)
    ensures |r.requests| <= 1
    ensures |r.requests| == 0 <==> key == PlaceholderKey
    ensures |r.requests| == 1 ==> r.requests[0] == PropertiesRequest(rockName)
    ensures r.value.Some? ==>
      |r.requests| == 1 && service(r.requests[0]).Replied? &&
      r.value == Ladder(service(r.requests[0]).text, parse)
    ensures r.value.None? <==>
      key == PlaceholderKey || !service(PropertiesRequest(rockName)).Replied? ||
      DetailStages(service(PropertiesRequest(rockName)).text, parse).None?
  {
    if key == PlaceholderKey then Answer(MockDetailedRockInfo(rockName), [])
    else
      var request := PropertiesRequest(rockName);
      match service(request)
      case Replied(text) =>
        (match DetailStages(text, parse)
         case Some(v) => Answer(Some(v), [request])
         case None => Answer(MockDetailedRockInfo(rockName), [request]))
      case _ => Answer(MockDetailedRockInfo(rockName), [request])
  }
}
