/** The rock chat page (`RockChatPage.tsx`) as a state reducer: the search
    and follow-up handlers, reset, the routing of a submit, and what a
    message shows. The handlers are asynchronous; each is split into the
    part before its first `await` and the part after, so that a reset
    arriving in between can be described. */
module ChatPage {
  import opened Options
  import opened Text
  import opened Json
  import opened Paragraphs
  import opened RockChat

  // ---------------------------------------------------------------------
  // State
  // ---------------------------------------------------------------------

  datatype Sender = User | Ai

  /** A chat message without its id and timestamp. Only AI messages that
      answer a search are structured, and only they carry details. */
  datatype Message = Message(
    content: string,
    sender: Sender,
    isStructured: bool,
    rockDetails: Option<Value>)

  function UserMessage(content: string): Message {
    Message(content, User, false, None)
  }

  function AiMessage(content: string): Message {
    Message(content, Ai, false, None)
  }

  /** The page's state: the input text, the history, the busy flag and the
      rock the conversation is about (`None` for `null`). */
  datatype ChatState = ChatState(
    query: string,
    messages: seq<Message>,
    loading: bool,
    currentRock: Option<string>)

  /** The state the page opens in. */
  const Welcome := ChatState("", [], false, None)

  /** The states the page can reach: the current rock, when there is one,
      is a non-empty name with no white space around it, as `trim` leaves
      it. */
  predicate Valid(s: ChatState) {
    s.currentRock.Some? ==> Trimmed(s.currentRock.value)
  }

  predicate Trimmed(name: string) {
    name != "" && !IsSpace(name[0]) && !IsSpace(name[|name| - 1])
  }

  /** A handler's effect: the state after it, and the requests it made. */
  datatype Turn = Turn(state: ChatState, requests: seq<ChatRequest>)

  const SearchError :=
    "I'm sorry, I couldn't retrieve information about that rock. " +
    "Please try again or ask about a different rock."

  const FollowUpError :=
    "I'm sorry, I couldn't process your question. " +
    "Please try asking in a different way."

  // ---------------------------------------------------------------------
  // Search
  // ---------------------------------------------------------------------

  /** What the awaited calls of a search resolve to. */
  datatype SearchResult = SearchResult(rockInfo: string, details: Option<Value>)

  /** `handleSearch` up to its first `await`, past the blank-input guard:
      the trimmed query becomes the current rock and the whole history. */
  function StartSearch(s: ChatState): ChatState {
    var rockName := Trim(s.query);
    s.(currentRock := Some(rockName), loading := true, messages := [UserMessage(rockName)])
  }

  /** The rest of `handleSearch`: one AI message is appended, the structured
      answer or, when a call threw (`None`), the apology; then the input is
      cleared and the page is idle again. */
  function FinishSearch(s: ChatState, outcome: Option<SearchResult>): ChatState {
    s.(messages := s.messages + [SearchReply(outcome)], loading := false, query := "")
  }

  /** `handleSearch` past its guard, for whatever its awaited calls
      resolve to: the history becomes the trimmed query and one AI message,
      structured exactly when the calls returned, and the trimmed query is
      the current rock. */
  lemma SearchTurn(s: ChatState, outcome: Option<SearchResult>)
    requires !IsBlank(s.query)
    ensures var t := FinishSearch(StartSearch(s), outcome);
      && |t.messages| == 2
      && t.messages[0] == UserMessage(Trim(s.query))
      && t.messages[1].sender == Ai
      && (t.messages[1].isStructured <==> outcome.Some?)
      && (outcome.Some? ==> t.messages[1].content == StripAsterisks(outcome.value.rockInfo))
      && (outcome.Some? ==> '*' !in t.messages[1].content && t.messages[1].rockDetails == outcome.value.details)
      && (outcome.None? ==> t.messages[1] == AiMessage(SearchError))
      && t.currentRock == Some(Trim(s.query)) && Trim(s.query) != ""
      && !t.loading && t.query == ""
  {
    var t := FinishSearch(StartSearch(s), outcome);
    var reply := SearchReply(outcome);
    assert t == s.(currentRock := Some(Trim(s.query)), loading := false, query := "",
                   messages := [UserMessage(Trim(s.query)), reply]);
  }

  /** The AI message that closes a search. */
  function SearchReply(outcome: Option<SearchResult>): (m: Message)
    ensures m.sender == Ai
    ensures m.isStructured <==> outcome.Some?
    ensures outcome.Some? ==> m.content == StripAsterisks(outcome.value.rockInfo)
    ensures outcome.Some? ==> '*' !in m.content && m.rockDetails == outcome.value.details
    ensures outcome.None? ==> m == AiMessage(SearchError)
  {
    match outcome
    case Some(result) => Message(StripAsterisks(result.rockInfo), Ai, true, result.details)
    case None => AiMessage(SearchError)
  }

  /** `handleSearch` run to completion: a blank query changes nothing and
      asks nothing; otherwise the profile is asked for first and the
      property object second, both about the trimmed query, unless no
      credential is configured. */
  function Search(s: ChatState, key: string, chat: ChatService, parse: Extraction.Parser): (r: Turn)
    ensures IsBlank(s.query) ==> r == Turn(s, [])
    ensures !IsBlank(s.query) ==>
      r.requests == if key == PlaceholderKey then []
                    else [RockInfoRequest(Trim(s.query)), PropertiesRequest(Trim(s.query))]
  {
    if IsBlank(s.query) then Turn(s, [])
    else
      var rockName := Trim(s.query);
      var info := GetRockInfo(rockName, key, chat);
      var details := GetDetailedRockInfo(rockName, key, chat, parse);
      SearchRequests(rockName, key, chat, parse);
      Turn(FinishSearch(StartSearch(s), Some(SearchResult(info.value, details.value))),
           info.requests + details.requests)
  }

  /** The two calls of a search ask, in order, for the profile and the
      property object of the rock, or nothing without a credential. */
  lemma SearchRequests(rockName: string, key: string, chat: ChatService, parse: Extraction.Parser)
    ensures GetRockInfo(rockName, key, chat).requests + GetDetailedRockInfo(rockName, key, chat, parse).requests
      == if key == PlaceholderKey then [] else [RockInfoRequest(rockName), PropertiesRequest(rockName)]
  {
    var info := GetRockInfo(rockName, key, chat);
    var details := GetDetailedRockInfo(rockName, key, chat, parse);
    assert info.requests == if key == PlaceholderKey then [] else [RockInfoRequest(rockName)];
    assert details.requests == if key == PlaceholderKey then [] else [PropertiesRequest(rockName)];
  }

  // ---------------------------------------------------------------------
  // Follow-up questions
  // ---------------------------------------------------------------------

  /** The query sent for a follow-up question about `rock`. */
  function FollowUpQuery(rock: string, question: string): string {
    "Regarding " + rock + ": " + question
  }

  /** `currentRock` as a condition: `null` and the empty name are falsy. */
  predicate HasRock(s: ChatState) {
    s.currentRock.Some? && s.currentRock.value != ""
  }

  /** `handleFollowUpQuestion` up to its `await`, past its guard: the
      question is appended as typed, untrimmed. */
  function StartFollowUp(s: ChatState): ChatState {
    s.(loading := true, messages := s.messages + [UserMessage(s.query)])
  }

  /** The rest of `handleFollowUpQuestion`: one plain AI message, the
      cleaned answer or, when the call threw (`None`), the apology. */
  function FinishFollowUp(s: ChatState, outcome: Option<string>): ChatState {
    var reply :=
      match outcome
      case Some(answer) => AiMessage(StripAsterisks(answer))
      case None => AiMessage(FollowUpError);
    s.(messages := s.messages + [reply], loading := false, query := "")
  }

  /** `handleFollowUpQuestion` past its guard, for whatever its awaited
      call resolves to: the question as typed and one plain AI message are
      appended, the earlier history and the current rock are kept. */
  lemma FollowUpTurn(s: ChatState, outcome: Option<string>)
    ensures var t := FinishFollowUp(StartFollowUp(s), outcome);
      && |t.messages| == |s.messages| + 2
      && t.messages[..|s.messages|] == s.messages
      && t.messages[|s.messages|] == UserMessage(s.query)
      && t.messages[|s.messages| + 1].sender == Ai
      && !t.messages[|s.messages| + 1].isStructured
      && (outcome.Some? ==> t.messages[|s.messages| + 1] == AiMessage(StripAsterisks(outcome.value)))
      && (outcome.Some? ==> '*' !in t.messages[|s.messages| + 1].content)
      && (outcome.None? ==> t.messages[|s.messages| + 1] == AiMessage(FollowUpError))
      && t.currentRock == s.currentRock
      && !t.loading && t.query == ""
  {
  }

  /** `handleFollowUpQuestion` run to completion: without a question or a
      current rock nothing changes and nothing is asked; otherwise at most
      the one request about the question, prefixed with the rock. */
  function FollowUp(s: ChatState, key: string, chat: ChatService): (r: Turn)
    ensures IsBlank(s.query) || !HasRock(s) ==> r == Turn(s, [])
    ensures |r.requests| <= 1
    ensures |r.requests| == 1 ==>
      r.requests[0] == RockInfoRequest(FollowUpQuery(s.currentRock.value, s.query))
  {
    if IsBlank(s.query) || !HasRock(s) then Turn(s, [])
    else
      var answer := GetRockInfo(FollowUpQuery(s.currentRock.value, s.query), key, chat);
      Turn(FinishFollowUp(StartFollowUp(s), Some(answer.value)), answer.requests)
  }

  // ---------------------------------------------------------------------
  // Reset, typing and submitting
  // ---------------------------------------------------------------------

  /** `resetChat`: the history, the current rock and the input are cleared;
      the busy flag is left as it is. */
  function Reset(s: ChatState): (r: ChatState)
    ensures r.messages == [] && r.currentRock.None? && r.query == ""
    ensures r == Welcome.(loading := s.loading)
  {
    s.(messages := [], currentRock := None, query := "")
  }

  /** Typing into the input, which is disabled while a handler is busy. */
  function Edit(s: ChatState, text: string): (r: ChatState)
    ensures r.query == (if s.loading then s.query else text)
    ensures r.(query := s.query) == s
  {
    if s.loading then s else s.(query := text)
  }

  datatype Handler = SearchHandler | FollowUpHandler

  /** The form's submit handler: the follow-up handler whenever a rock is
      current. */
  function Route(s: ChatState): (h: Handler)
    ensures s.currentRock.None? ==> h == SearchHandler
    ensures Valid(s) ==> (h == FollowUpHandler <==> s.currentRock.Some?)
  {
    if HasRock(s) then FollowUpHandler else SearchHandler
  }

  /** A submit: a blank input changes nothing and asks nothing; any other
      input is answered, leaving the page idle with an empty input and a
      current rock, after at most the two requests of a search. */
  function Submit(s: ChatState, key: string, chat: ChatService, parse: Extraction.Parser): (r: Turn)
    ensures IsBlank(s.query) ==> r == Turn(s, [])
    ensures !IsBlank(s.query) ==>
      && |r.state.messages| >= 2 && r.state.messages[|r.state.messages| - 1].sender == Ai
      && r.state.currentRock.Some? && !r.state.loading && r.state.query == ""
    ensures |r.requests| <= 2
  {
    match Route(s)
    case FollowUpHandler => FollowUp(s, key, chat)
    case SearchHandler => Search(s, key, chat, parse)
  }

  // ---------------------------------------------------------------------
  // Display
  // ---------------------------------------------------------------------

  /** The thirteen properties the details panel can show. */
  datatype Property =
    | Type | MineralComposition | Texture | Color | Hardness | Density
    | PorosityPermeability | FossilContent | WeatheringResistance
    | FormationProcess | GeologicalAge | Location | Uses

  /** The panel's fixed display order. */
  const PropertyOrder: seq<Property> := [
    Type, MineralComposition, Texture, Color, Hardness, Density,
    PorosityPermeability, FossilContent, WeatheringResistance,
    FormationProcess, GeologicalAge, Location, Uses]

  /** Where a property stands in the display order. */
  function DisplayRank(p: Property): (n: nat)
    ensures n < |PropertyOrder| && PropertyOrder[n] == p
  {
    match p
    case Type => 0
    case MineralComposition => 1
    case Texture => 2
    case Color => 3
    case Hardness => 4
    case Density => 5
    case PorosityPermeability => 6
    case FossilContent => 7
    case WeatheringResistance => 8
    case FormationProcess => 9
    case GeologicalAge => 10
    case Location => 11
    case Uses => 12
  }

  /** The key a property is read from. */
  function PropertyKey(p: Property): string {
    match p
    case Type => "type"
    case MineralComposition => "mineralComposition"
    case Texture => "texture"
    case Color => "color"
    case Hardness => "hardness"
    case Density => "density"
    case PorosityPermeability => "porosityPermeability"
    case FossilContent => "fossilContent"
    case WeatheringResistance => "weatheringResistance"
    case FormationProcess => "formationProcess"
    case GeologicalAge => "geologicalAge"
    case Location => "location"
    case Uses => "uses"
  }

  /** The label a property is shown under. */
  function Label(p: Property): string {
    match p
    case Type => "Type"
    case MineralComposition => "Mineral Composition"
    case Texture => "Texture"
    case Color => "Color"
    case Hardness => "Hardness"
    case Density => "Density"
    case PorosityPermeability => "Porosity & Permeability"
    case FossilContent => "Fossil Content"
    case WeatheringResistance => "Weathering & Erosion Resistance"
    case FormationProcess => "Formation Process"
    case GeologicalAge => "Geological Age"
    case Location => "Location & Occurrence"
    case Uses => "Uses"
  }

  /** One line of the details panel: a property, shown under its `Label`,
      and its value. */
  datatype Row = Row(property: Property, value: Value)

  /** How the panel reads a property's value from the details. */
  type Lookup = Property -> Option<Value>

  /** `details[key]` for a property's key. */
  function DetailsLookup(details: Value): Lookup {
    p => Member(details, PropertyKey(p))
  }

  /** The rows for the properties in `props` whose value is defined and
      truthy, with that value. */
  function RowsFrom(lookup: Lookup, props: seq<Property>): (rows: seq<Row>)
    ensures forall i :: 0 <= i < |rows| ==>
      && rows[i].property in props
      && DefinedTruthy(lookup(rows[i].property))
      && rows[i].value == lookup(rows[i].property).value
    decreases |props|
  {
    if |props| == 0 then []
    else
      var p := props[0];
      var rest := RowsFrom(lookup, props[1..]);
      if DefinedTruthy(lookup(p)) then [Row(p, lookup(p).value)] + rest
      else rest
  }

  /** Where the row of a property in `props` with a truthy value is: every
      such property gets one. */
  function RowIndex(lookup: Lookup, props: seq<Property>, p: Property): (i: nat)
    requires p in props && DefinedTruthy(lookup(p))
    ensures i < |RowsFrom(lookup, props)| && RowsFrom(lookup, props)[i].property == p
    decreases |props|
  {
    if props[0] == p then 0
    else if DefinedTruthy(lookup(props[0])) then 1 + RowIndex(lookup, props[1..], p)
    else RowIndex(lookup, props[1..], p)
  }

  /** The rows' properties come in display order, each at most once. */
  predicate Increasing(rows: seq<Row>) {
    forall i, j :: 0 <= i < j < |rows| ==> DisplayRank(rows[i].property) < DisplayRank(rows[j].property)
  }

  /** Rows come in the order of `props`: when `props` is in display order,
      so are the rows. */
  lemma {:induction false} RowsFromOrdered(lookup: Lookup, props: seq<Property>)
    requires forall i, j :: 0 <= i < j < |props| ==> DisplayRank(props[i]) < DisplayRank(props[j])
    ensures Increasing(RowsFrom(lookup, props))
    decreases |props|
  {
    if |props| > 0 {
      var rows := RowsFrom(lookup, props);
      var rest := RowsFrom(lookup, props[1..]);
      RowsFromOrdered(lookup, props[1..]);
      forall k | 0 <= k < |rest|
        ensures DisplayRank(props[0]) < DisplayRank(rest[k].property)
      {
        var m :| 0 <= m < |props[1..]| && props[1..][m] == rest[k].property;
        assert props[m + 1] == rest[k].property;
      }
      if DefinedTruthy(lookup(props[0])) {
        IncreasingCons(Row(props[0], lookup(props[0]).value), rest);
      }
    }
  }

  /** A row ranked below every row of an increasing list extends it. */
  lemma IncreasingCons(r: Row, rest: seq<Row>)
    requires Increasing(rest)
    requires forall k :: 0 <= k < |rest| ==> DisplayRank(r.property) < DisplayRank(rest[k].property)
    ensures Increasing([r] + rest)
  {
    var rows := [r] + rest;
    forall i, j | 0 <= i < j < |rows|
      ensures DisplayRank(rows[i].property) < DisplayRank(rows[j].property)
    {
      assert rows[j] == rest[j - 1];
      if i > 0 {
        assert rows[i] == rest[i - 1];
      }
    }
  }

  /** Each property's rank is its place in the display order. */
  lemma PropertyOrderRanked()
    ensures forall i :: 0 <= i < |PropertyOrder| ==> DisplayRank(PropertyOrder[i]) == i
  {
  }

  /** `renderRockDetails(details)`: the rows of the details panel. */
  function Rows(details: Value): (rows: seq<Row>)
    ensures !details.Obj? ==> rows == []
    ensures forall i :: 0 <= i < |rows| ==>
      && PropertyKey(rows[i].property) in details.fields
      && rows[i].value == details.fields[PropertyKey(rows[i].property)]
      && Truthy(rows[i].value)
    ensures Increasing(rows)
  {
    RowsInDisplayOrder(DetailsLookup(details));
    RowsFrom(DetailsLookup(details), PropertyOrder)
  }

  /** Over any list of properties, a property has a row exactly when it is
      listed and its value is truthy. */
  lemma RowsFromMembers(lookup: Lookup, props: seq<Property>, p: Property)
    ensures (exists i :: 0 <= i < |RowsFrom(lookup, props)| && RowsFrom(lookup, props)[i].property == p)
      <==> p in props && DefinedTruthy(lookup(p))
  {
    var rows := RowsFrom(lookup, props);
    if p in props && DefinedTruthy(lookup(p)) {
      var i := RowIndex(lookup, props, p);
      assert RowsFrom(lookup, props)[i].property == p;
    } else {
      forall i | 0 <= i < |rows|
        ensures rows[i].property != p
      {
        assert rows[i].property in props && DefinedTruthy(lookup(rows[i].property));
      }
    }
  }

  /** Over the whole display order, the rows are exactly the properties
      with a truthy value, at most once each and in display order. */
  lemma RowsFromExact(lookup: Lookup)
    ensures var rows := RowsFrom(lookup, PropertyOrder);
      && (forall p :: (exists i :: 0 <= i < |rows| && rows[i].property == p) <==> DefinedTruthy(lookup(p)))
      && Increasing(rows)
  {
    RowsInDisplayOrder(lookup);
    var rows := RowsFrom(lookup, PropertyOrder);
    forall p
      ensures (exists i :: 0 <= i < |rows| && rows[i].property == p) <==> DefinedTruthy(lookup(p))
    {
      RowsFromMembers(lookup, PropertyOrder, p);
      assert PropertyOrder[DisplayRank(p)] == p;
    }
  }

  /** Over the whole display order, the rows come in display order. */
  lemma RowsInDisplayOrder(lookup: Lookup)
    ensures Increasing(RowsFrom(lookup, PropertyOrder))
  {
    PropertyOrderRanked();
    RowsFromOrdered(lookup, PropertyOrder);
  }

  /** The panel shows a row for exactly the properties whose value in the
      details is defined and truthy, with that value, at most once each and
      in display order. Keys outside the thirteen are never shown: a row is
      for a property. */
  lemma RowsExact(details: Value)
    ensures var rows := Rows(details);
      && (forall p :: (exists i :: 0 <= i < |rows| && rows[i].property == p) <==>
            DefinedTruthy(DetailsLookup(details)(p)))
      && (forall i :: 0 <= i < |rows| ==> DetailsLookup(details)(rows[i].property) == Some(rows[i].value))
      && Increasing(rows)
  {
    RowsFromExact(DetailsLookup(details));
  }

  /** `renderNarrativeContent(content)`: a profile-like text shows only its
      last paragraph; anything else is shown whole. */
  function Narrative(content: string): (r: string)
    ensures |r| <= |content| && r == content[|content| - |r|..]
    ensures Contains(content, "Type:") && Contains(content, "Mineral Composition:") ==>
      !Contains(r, "\n\n")
  {
    if Contains(content, "Type:") && Contains(content, "Mineral Composition:")
    then
      LastParagraphIsLast(content);
      LastParagraph(content)
    else content
  }

  /** What a message shows. */
  datatype View =
    | PlainView(text: string)
    | StructuredView(narrative: string, details: Option<seq<Row>>)

  /** A structured AI message shows its narrative and, when its details
      are truthy, the panel; any other message shows its content. */
  function ViewOf(m: Message): View {
    if m.sender == Ai && m.isStructured then
      StructuredView(Narrative(m.content),
                     if DefinedTruthy(m.rockDetails) then Some(Rows(m.rockDetails.value)) else None)
    else PlainView(m.content)
  }

  /** Every message: a structured AI message shows its narrative, and the
      panel with the rows of its details exactly when they are truthy;
      any other message, the user's or a plain AI one, shows its content
      whole. */
  lemma ViewShown(m: Message)
    ensures !(m.sender == Ai && m.isStructured) ==> ViewOf(m) == PlainView(m.content)
    ensures m.sender == Ai && m.isStructured ==>
      && ViewOf(m).StructuredView?
      && ViewOf(m).narrative == Narrative(m.content)
      && (ViewOf(m).details.Some? <==> DefinedTruthy(m.rockDetails))
      && (forall d :: m.rockDetails == Some(d) && Truthy(d) ==> ViewOf(m).details == Some(Rows(d)))
  {
  }

  // ---------------------------------------------------------------------
  // What the page promises
  // ---------------------------------------------------------------------

  /** A profile-like text shows its last paragraph, and any other text is
      shown whole. */
  lemma NarrativeShown(content: string)
    ensures Contains(content, "Type:") && Contains(content, "Mineral Composition:") ==>
      IsLastParagraph(content, Narrative(content))
    ensures !(Contains(content, "Type:") && Contains(content, "Mineral Composition:")) ==>
      Narrative(content) == content
  {
    LastParagraphIsLast(content);
  }

  /** A profile without asterisks whose first two lines are its type and
      its mineral composition, and whose summary is one line, shows as its
      summary: the property lines are hidden from the narrative. */
  lemma NarrativeOfProfile(p: Profile)
    requires |p.properties| >= 2
    requires StartsWith(p.properties[0], "Type:")
    requires StartsWith(p.properties[1], "Mineral Composition:")
    requires '\n' !in p.summary && '*' !in ProfileText(p)
    ensures Narrative(StripAsterisks(ProfileText(p))) == p.summary
  {
    var a := p.properties[0];
    var b := p.properties[1];
    var rest := JoinTail(p.properties) + "\n\n" + p.summary;
    ProfilePieces(p);
    ContainsPrefix(a, "Type:");
    ContainsGrows([], a, "\n" + b + rest, "Type:");
    assert [] + a + ("\n" + b + rest) == a + ("\n" + b + rest);
    ContainsPrefix(b, "Mineral Composition:");
    ContainsGrows(a + "\n", b, rest, "Mineral Composition:");
    LastParagraphAfterBlank(JoinWith(p.properties, "\n"), p.summary);
  }

  /** The property lines after the first two, with their separator. */
  function JoinTail(parts: seq<string>): string
    requires |parts| >= 2
  {
    if |parts| == 2 then "" else "\n" + JoinWith(parts[2..], "\n")
  }

  /** A profile text is its first line, a line break, its second line and
      the rest. */
  lemma ProfilePieces(p: Profile)
    requires |p.properties| >= 2
    ensures var a := p.properties[0];
      var rest := JoinTail(p.properties) + "\n\n" + p.summary;
      && ProfileText(p) == a + ("\n" + p.properties[1] + rest)
      && ProfileText(p) == a + "\n" + p.properties[1] + rest
  {
    var parts := p.properties;
    assert parts[1..][0] == parts[1];
    assert parts[1..][1..] == parts[2..];
    assert JoinWith(parts, "\n") == parts[0] + "\n" + parts[1] + JoinTail(parts);
  }

  /** A search that gets past its guard always ends in the structured
      answer, never in the apology: the text operations never throw. The
      answer is the cleaned rock text and carries the property object. */
  lemma SearchAnswers(s: ChatState, key: string, chat: ChatService, parse: Extraction.Parser)
    requires !IsBlank(s.query)
    ensures var t := Search(s, key, chat, parse).state;
      var name := Trim(s.query);
      && |t.messages| == 2
      && t.messages[0] == UserMessage(name)
      && t.messages[1].sender == Ai && t.messages[1].isStructured
      && t.messages[1].content == StripAsterisks(GetRockInfo(name, key, chat).value)
      && t.messages[1].rockDetails == GetDetailedRockInfo(name, key, chat, parse).value
      && t.currentRock == Some(name)
      && !t.loading && t.query == ""
  {
    var name := Trim(s.query);
    var info := GetRockInfo(name, key, chat);
    var details := GetDetailedRockInfo(name, key, chat, parse);
    SearchTurn(s, Some(SearchResult(info.value, details.value)));
  }

  /** A follow-up that gets past its guard always ends in the answer,
      never in the apology: the question as typed, then the cleaned answer
      about `Regarding <rock>: <question>`, after the earlier history. */
  lemma FollowUpAnswers(s: ChatState, key: string, chat: ChatService)
    requires !IsBlank(s.query) && HasRock(s)
    ensures var t := FollowUp(s, key, chat).state;
      var answer := GetRockInfo(FollowUpQuery(s.currentRock.value, s.query), key, chat).value;
      && t.messages == s.messages + [UserMessage(s.query), AiMessage(StripAsterisks(answer))]
      && t.currentRock == s.currentRock
      && !t.loading && t.query == ""
  {
    var answer := GetRockInfo(FollowUpQuery(s.currentRock.value, s.query), key, chat).value;
    var ai := AiMessage(StripAsterisks(answer));
    assert s.messages + [UserMessage(s.query)] + [ai] == s.messages + [UserMessage(s.query), ai];
  }

  /** Without a credential a search asks nothing, answers from the
      catalogue, and shows no details panel: the offline property object
      is `undefined`. */
  lemma OfflineSearch(s: ChatState, chat: ChatService, parse: Extraction.Parser)
    requires !IsBlank(s.query)
    ensures var r := Search(s, PlaceholderKey, chat, parse);
      var m := r.state.messages[1];
      && r.requests == []
      && m.content == StripAsterisks(MockRockInfo(Trim(s.query)))
      && ViewOf(m) == StructuredView(Narrative(m.content), None)
  {
    SearchAnswers(s, PlaceholderKey, chat, parse);
  }

  /** A follow-up with a credential asks one conversational question: the
      query it sends names the rock, so it is never taken for a new rock. */
  lemma FollowUpAsks(s: ChatState, key: string, chat: ChatService)
    requires !IsBlank(s.query) && HasRock(s) && key != PlaceholderKey
    ensures var r := FollowUp(s, key, chat);
      var query := FollowUpQuery(s.currentRock.value, s.query);
      && r.requests == [RockInfoRequest(query)]
      && r.requests[0].prompt == FollowUpPrompt(query)
  {
    FollowUpQueryIsFollowUp(s.currentRock.value, s.query);
  }

  /** The query of a follow-up is classified as a follow-up. */
  lemma FollowUpQueryIsFollowUp(rock: string, question: string)
    ensures !IsInitialQuery(FollowUpQuery(rock, question))
  {
    assert FollowUpQuery(rock, question) == "Regarding " + rock + (": " + question);
    RegardingIsFollowUp(rock, ": " + question);
  }

  /** The subject of a follow-up's query is its rock's name up to the
      first colon: the whole name when it has no colon. */
  lemma FollowUpQuerySubject(rock: string, question: string)
    ensures Subject(FollowUpQuery(rock, question)) == BeforeColon(rock)
    ensures ':' !in rock ==> Subject(FollowUpQuery(rock, question)) == rock
  {
    assert FollowUpQuery(rock, question) == "Regarding " + rock + ":" + (" " + question);
    SubjectOfRegarding(rock, " " + question);
  }

  /** Without a credential, a follow-up gets one of the canned follow-up
      answers or the generic answer about the current rock, cleaned, after
      the question as typed. The generic answer names the rock up to the
      first colon in its name, since the subject is cut at the first colon
      of the composed query. */
  lemma OfflineFollowUp(s: ChatState, chat: ChatService)
    requires !IsBlank(s.query) && HasRock(s)
    ensures var r := FollowUp(s, PlaceholderKey, chat);
      var reply := MockReply(FollowUpQuery(s.currentRock.value, s.query));
      && r.requests == []
      && reply in {GraniteFormation, LimestoneCaves, RockUses, Generic(BeforeColon(s.currentRock.value))}
      && r.state.messages == s.messages + [UserMessage(s.query), AiMessage(StripAsterisks(ReplyText(reply)))]
  {
    var query := FollowUpQuery(s.currentRock.value, s.query);
    OfflineFollowUpTurn(s, chat);
    OfflineFollowUpReply(s.currentRock.value, s.query);
    assert MockRockInfo(query) == ReplyText(MockReply(query));
    var ai := AiMessage(StripAsterisks(MockRockInfo(query)));
    assert s.messages + [UserMessage(s.query)] + [ai] == s.messages + [UserMessage(s.query), ai];
  }

  /** Without a credential, a follow-up is answered with the offline text
      for its composed query, and asks nothing. */
  lemma OfflineFollowUpTurn(s: ChatState, chat: ChatService)
    requires !IsBlank(s.query) && HasRock(s)
    ensures var text := MockRockInfo(FollowUpQuery(s.currentRock.value, s.query));
      FollowUp(s, PlaceholderKey, chat) == Turn(FinishFollowUp(StartFollowUp(s), Some(text)), [])
  {
  }

  /** The offline reply to a follow-up's query: a canned answer or the
      generic one about the rock's name up to its first colon. */
  lemma OfflineFollowUpReply(rock: string, question: string)
    ensures MockReply(FollowUpQuery(rock, question)) in
      {GraniteFormation, LimestoneCaves, RockUses, Generic(BeforeColon(rock))}
  {
    FollowUpQueryIsFollowUp(rock, question);
    FollowUpQuerySubject(rock, question);
  }

  /** Once a search has set a rock, every submit is a follow-up; before
      that, or after a reset, every submit is a search. */
  lemma RouteFollowsRock(s: ChatState)
    requires Valid(s)
    ensures Route(s) == FollowUpHandler <==> s.currentRock.Some?
  {
  }

  /** Submitting, resetting and typing keep the current rock a non-empty
      trimmed name. */
  lemma ValidInvariant(s: ChatState, key: string, chat: ChatService, parse: Extraction.Parser, text: string)
    requires Valid(s)
    ensures Valid(Submit(s, key, chat, parse).state)
    ensures Valid(Reset(s)) && Valid(Edit(s, text))
  {
    if Route(s) == SearchHandler && !IsBlank(s.query) {
      SearchAnswers(s, key, chat, parse);
      TrimShape(s.query);
    }
  }

  /** The handlers cannot be cancelled: a reset while a search is awaiting
      empties the page, and the late answer then lands in it alone, with
      no rock set, so the next submit starts a new search. */
  lemma ResetDuringSearch(s: ChatState, outcome: Option<SearchResult>)
    ensures var t := FinishSearch(Reset(StartSearch(s)), outcome);
      && |t.messages| == 1 && t.messages[0].sender == Ai
      && t.currentRock.None? && !t.loading
      && Route(t) == SearchHandler
  {
  }

  /** Likewise a reset while a follow-up is awaiting leaves only the late
      answer. */
  lemma ResetDuringFollowUp(s: ChatState, outcome: Option<string>)
    ensures var t := FinishFollowUp(Reset(StartFollowUp(s)), outcome);
      && |t.messages| == 1 && t.messages[0].sender == Ai
      && t.currentRock.None? && !t.loading
      && Route(t) == SearchHandler
  {
  }
}
