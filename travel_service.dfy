// The conversational planner around the tools: the message clean-up before
// extraction, the extractor step that keeps only the details it found, the
// check for missing required details, the choice among the three chatbot
// prompts, and the flags `process_conversation` returns once the graph has
// run. The language model and the graph runner are parameters: what the model
// extracts is a function of the conversation, and the messages after a run
// are given.
module Conversation {
  import opened Common

  // ---------------------------------------------------------------------
  // Messages

  /** A JSON value as `json.loads` yields it. */
  datatype Json =
    | JNull
    | JBool(b: bool)
    | JNumber(n: real)
    | JString(s: string)
    | JArray(items: seq<Json>)
    | JObject(fields: seq<(string, Json)>)

  /** What a tool message holds: a string, a dictionary, or something else
      (a list of content blocks). */
  datatype Content = Text(s: string) | Dict(fields: seq<(string, Json)>) | OtherContent

  datatype Message =
    | Human(text: string)
    | Ai(text: string)
    | System(text: string)
    | Tool(content: Content)
  {
    /** `message.content` */
    function ContentOf(): Content {
      if Tool? then content else Text(text)
    }
  }

  // ---------------------------------------------------------------------
  // `_sanitize_message`

  /** `text.replace("박", "일")`: every '박' becomes '일', nothing else moves. */
  function Sanitize(text: string): (r: string)
    ensures |r| == |text|
    ensures forall i :: 0 <= i < |text| && text[i] != '박' ==> r[i] == text[i]
    ensures forall i :: 0 <= i < |text| && text[i] == '박' ==> r[i] == '일'
  {
    if text == [] then []
    else
      var c := text[|text| - 1];
      Sanitize(text[..|text| - 1]) + [if c == '박' then '일' else c]
  }

  /** The cleaned text holds no '박' at all. */
  lemma SanitizeRemovesAll(text: string)
    ensures '박' !in Sanitize(text)
  {
    var r := Sanitize(text);
    assert forall i :: 0 <= i < |r| ==> r[i] != '박';
  }

  /** Cleaning twice is cleaning once. */
  lemma SanitizeIdempotent(text: string)
    ensures Sanitize(Sanitize(text)) == Sanitize(text)
  {
    var r := Sanitize(text);
    SanitizeRemovesAll(text);
    assert forall i :: 0 <= i < |r| ==> r[i] != '박';
  }

  /** A text without '박' is left as it is. */
  lemma SanitizeKeepsClean(text: string)
    requires '박' !in text
    ensures Sanitize(text) == text
  {
    assert forall i :: 0 <= i < |text| ==> text[i] != '박';
  }

  // ---------------------------------------------------------------------
  // `_extractor_node`

  /** `TravelDetails`: what the extractor model found, each field possibly
      absent. */
  datatype Details = Details(destination: Option<string>, startDate: Option<string>, duration: Option<string>,
                             people: Option<string>, budget: Option<string>, travelType: Option<string>,
                             requirements: Option<string>)

  /** `extraction.dict().items()`, in field order. */
  function Items(d: Details): (r: seq<(string, Option<string>)>)
    ensures |r| == 7
    ensures r[0].0 == "destination" && r[1].0 == "start_date" && r[2].0 == "duration"
    ensures r[3].0 == "people" && r[4].0 == "budget" && r[5].0 == "travel_type"
    ensures r[6].0 == "requirements"
  {
    [("destination", d.destination), ("start_date", d.startDate), ("duration", d.duration),
     ("people", d.people), ("budget", d.budget), ("travel_type", d.travelType),
     ("requirements", d.requirements)]
  }

  /** The seven names differ from one another. */
  lemma ItemsDistinct(items: seq<(string, Option<string>)>)
    requires |items| == 7
    requires items[0].0 == "destination" && items[1].0 == "start_date" && items[2].0 == "duration"
    requires items[3].0 == "people" && items[4].0 == "budget" && items[5].0 == "travel_type"
    requires items[6].0 == "requirements"
    ensures forall i, j :: 0 <= i < j < 7 ==> items[i].0 != items[j].0
  {
  }

  /** `{k: v for k, v in items if v is not None}`: a key is kept exactly when
      some item with it has a value, and then (the last such item winning)
      maps to that value. */
  function KeepPresent(items: seq<(string, Option<string>)>): (r: map<string, string>)
    ensures forall k :: k in r <==> exists i :: 0 <= i < |items| && items[i].0 == k && items[i].1.Some?
    ensures forall i :: 0 <= i < |items| && items[i].1.Some? && (forall j :: i < j < |items| ==> items[j].0 != items[i].0)
              ==> r[items[i].0] == items[i].1.value
  {
    if items == [] then map[]
    else
      var front := items[..|items| - 1];
      var m := KeepPresent(front);
      var last := items[|items| - 1];
      assert forall i :: 0 <= i < |front| ==> front[i] == items[i];
      if last.1.Some? then m[last.0 := last.1.value] else m
  }

  /** The conversation handed to the extractor: the last message's text
      cleaned, the earlier messages as they are. */
  function SanitizedConversation(messages: seq<Message>): (r: seq<Message>)
    requires messages != [] && messages[|messages| - 1].Human?
    ensures |r| == |messages| && r[..|r| - 1] == messages[..|messages| - 1]
    ensures r[|r| - 1] == Human(Sanitize(messages[|messages| - 1].text))
  {
    messages[..|messages| - 1] + [Human(Sanitize(messages[|messages| - 1].text))]
  }

  /** `_extractor_node(state)` with `extract` standing for the structured
      output model: only a human last message is read, cleaned first, and
      only the details found become the state update. */
  function ExtractorNode(messages: seq<Message>, extract: seq<Message> -> Details): (update: map<string, string>)
    requires messages != []
    ensures !messages[|messages| - 1].Human? ==> update == map[]
    ensures messages[|messages| - 1].Human? ==>
      var found := extract(SanitizedConversation(messages));
      forall i :: 0 <= i < 7 ==>
        (Items(found)[i].0 in update <==> Items(found)[i].1.Some?)
        && (Items(found)[i].1.Some? ==> update[Items(found)[i].0] == Items(found)[i].1.value)
  {
    if messages[|messages| - 1].Human? then
      var items := Items(extract(SanitizedConversation(messages)));
      ItemsDistinct(items);
      KeepPresent(items)
    else map[]
  }

  /** The names of the details, the state's slots. */
  const DetailNames: set<string> := {"destination", "start_date", "duration", "people", "budget", "travel_type", "requirements"}

  /** The update only ever names a detail, and merging it into the state
      leaves every slot it does not name as it was. */
  lemma UpdateOnlyFillsSlots(messages: seq<Message>, extract: seq<Message> -> Details, slots: map<string, string>)
    requires messages != []
    ensures forall k :: k in ExtractorNode(messages, extract) ==> k in DetailNames
    ensures forall k :: k in slots && k !in ExtractorNode(messages, extract) ==> (slots + ExtractorNode(messages, extract))[k] == slots[k]
  {
    if messages[|messages| - 1].Human? {
      var items := Items(extract(SanitizedConversation(messages)));
      assert forall i :: 0 <= i < 7 ==> items[i].0 in DetailNames;
    }
  }

  // ---------------------------------------------------------------------
  // `_chatbot_node`: the missing details and the prompt chosen

  /** `required_slots`: each required slot with the label the user sees, in
      the order they are asked for. `requirements` is not among them. */
  const RequiredSlots: seq<(string, string)> := [
    ("destination", "여행지"), ("start_date", "출발 날짜"), ("duration", "여행 기간"),
    ("people", "인원"), ("budget", "예산"), ("travel_type", "여행 스타일")
  ]

  /** `not state.get(key)`: a slot never filled, or filled with "". A slot
      counts as known exactly when it holds a non-empty text. */
  predicate Falsy(slots: map<string, string>, key: string)
    ensures !Falsy(slots, key) <==> key in slots && |slots[key]| > 0
  {
    key !in slots || slots[key] == ""
  }

  /** The labels of the slots among `required` that are falsy, in order. */
  function MissingAmong(required: seq<(string, string)>, slots: map<string, string>): (r: seq<string>)
    ensures |r| <= |required|
    ensures forall name :: name in r <==>
      exists i :: 0 <= i < |required| && required[i].1 == name && Falsy(slots, required[i].0)
    ensures IsSubsequence(r, Labels(required))
  {
    if required == [] then []
    else
      var rest := MissingAmong(required[..|required| - 1], slots);
      var last := required[|required| - 1];
      LabelsSnoc(required);
      if Falsy(slots, last.0) then
        SubsequenceSnoc(rest, Labels(required[..|required| - 1]), last.1);
        rest + [last.1]
      else
        SubsequenceExtend(rest, Labels(required[..|required| - 1]), last.1);
        rest
  }

  function Labels(required: seq<(string, string)>): (r: seq<string>)
    ensures |r| == |required|
    ensures forall i :: 0 <= i < |required| ==> r[i] == required[i].1
  {
    if required == [] then [] else Labels(required[..|required| - 1]) + [required[|required| - 1].1]
  }

  lemma LabelsSnoc(required: seq<(string, string)>)
    requires required != []
    ensures Labels(required) == Labels(required[..|required| - 1]) + [required[|required| - 1].1]
  {
  }

  lemma SubsequenceSnoc<T>(a: seq<T>, b: seq<T>, x: T)
    requires IsSubsequence(a, b)
    ensures IsSubsequence(a + [x], b + [x])
  {
    assert (a + [x])[..|a|] == a;
    assert (b + [x])[..|b|] == b;
  }

  lemma SubsequenceExtend<T>(a: seq<T>, b: seq<T>, x: T)
    requires IsSubsequence(a, b)
    ensures IsSubsequence(a, b + [x])
  {
    assert (b + [x])[..|b|] == b;
  }

  /** `missing_slots` for a state. */
  function MissingLabels(slots: map<string, string>): (r: seq<string>)
    ensures IsSubsequence(r, ["여행지", "출발 날짜", "여행 기간", "인원", "예산", "여행 스타일"])
  {
    assert Labels(RequiredSlots) == ["여행지", "출발 날짜", "여행 기간", "인원", "예산", "여행 스타일"];
    MissingAmong(RequiredSlots, slots)
  }

  /** `missing_slots` for a state, built by the loop over `required_slots`. */
  method MissingSlots(slots: map<string, string>) returns (missing: seq<string>)
    ensures missing == MissingLabels(slots)
  {
    missing := CollectMissing(RequiredSlots, slots);
  }

  /** The loop building `missing_slots`, over any list of required slots. */
  method CollectMissing(required: seq<(string, string)>, slots: map<string, string>) returns (missing: seq<string>)
    ensures missing == MissingAmong(required, slots)
  {
    missing := [];
    for i := 0 to |required|
      invariant missing == MissingAmong(required[..i], slots)
    {
      assert required[..i + 1][..i] == required[..i];
      var (key, name) := required[i];
      if Falsy(slots, key) {
        missing := missing + [name];
      }
    }
    assert required[..|required|] == required;
  }

  /** A label is reported exactly when its slot is falsy; nothing is
      missing exactly when all six slots hold a non-empty value. */
  lemma MissingExactly(slots: map<string, string>)
    ensures forall i :: 0 <= i < |RequiredSlots| ==>
      (RequiredSlots[i].1 in MissingLabels(slots) <==> Falsy(slots, RequiredSlots[i].0))
    ensures MissingLabels(slots) == [] <==> forall i :: 0 <= i < |RequiredSlots| ==> !Falsy(slots, RequiredSlots[i].0)
  {
    var r := MissingLabels(slots);
    forall i | 0 <= i < |RequiredSlots|
      ensures RequiredSlots[i].1 in r ==> Falsy(slots, RequiredSlots[i].0)
    {
      if RequiredSlots[i].1 in r {
        var j :| 0 <= j < |RequiredSlots| && RequiredSlots[j].1 == RequiredSlots[i].1 && Falsy(slots, RequiredSlots[j].0);
        assert j == i;
      }
    }
    if r != [] {
      assert r[0] in r;
    }
  }

  /** The extra requests never make a detail missing, nor complete one. */
  lemma RequirementsNeverRequired(slots: map<string, string>, value: string)
    ensures MissingLabels(slots["requirements" := value]) == MissingLabels(slots)
    ensures MissingLabels(slots - {"requirements"}) == MissingLabels(slots)
  {
    assert forall i :: 0 <= i < |RequiredSlots| ==> RequiredSlots[i].0 != "requirements";
    MissingIgnores(RequiredSlots, slots, slots["requirements" := value]);
    MissingIgnores(RequiredSlots, slots, slots - {"requirements"});
  }

  /** Two states that agree on the falsiness of every listed slot miss the
      same labels. */
  lemma {:induction false} MissingIgnores(required: seq<(string, string)>, a: map<string, string>, b: map<string, string>)
    requires forall i :: 0 <= i < |required| ==> (Falsy(a, required[i].0) <==> Falsy(b, required[i].0))
    ensures MissingAmong(required, a) == MissingAmong(required, b)
  {
    if required != [] {
      MissingIgnores(required[..|required| - 1], a, b);
    }
  }

  /** The prompt the chatbot node answers with. */
  datatype Branch =
    | FinalSummary      // the tool has answered and every detail is known
    | Ask(missing: seq<string>)  // details are missing: ask for them
    | CallTools         // every detail is known: call the itinerary tool

  /** The choice in `_chatbot_node`: a tool result with nothing missing is
      summarised; anything missing is asked for, even after a tool result;
      otherwise the tools are called. */
  function ChooseBranch(slots: map<string, string>, messages: seq<Message>): (r: Branch)
    requires messages != []
    ensures r == FinalSummary <==> messages[|messages| - 1].Tool? && MissingLabels(slots) == []
    ensures r.Ask? <==> MissingLabels(slots) != []
    ensures r.Ask? ==> r.missing == MissingLabels(slots)
    ensures r == CallTools <==> !messages[|messages| - 1].Tool? && MissingLabels(slots) == []
  {
    var missing := MissingLabels(slots);
    if messages[|messages| - 1].Tool? && missing == [] then FinalSummary
    else if missing != [] then Ask(missing)
    else CallTools
  }

  /** `_chatbot_node`'s decision: the missing labels gathered in the loop,
      then the branch. */
  method ChatbotBranch(slots: map<string, string>, messages: seq<Message>) returns (branch: Branch)
    requires messages != []
    ensures branch == ChooseBranch(slots, messages)
  {
    var missing := MissingSlots(slots);
    var last := messages[|messages| - 1];
    if last.Tool? && missing == [] {
      branch := FinalSummary;
    } else if missing != [] {
      branch := Ask(missing);
    } else {
      branch := CallTools;
    }
  }

  /** With all six details known the choice is between summarising and
      calling the tools, decided by whether a tool has just answered. */
  lemma CompleteDetailsNeverAsk(slots: map<string, string>, messages: seq<Message>)
    requires messages != []
    requires forall i :: 0 <= i < |RequiredSlots| ==> !Falsy(slots, RequiredSlots[i].0)
    ensures ChooseBranch(slots, messages) == (if messages[|messages| - 1].Tool? then FinalSummary else CallTools)
  {
    MissingExactly(slots);
  }

  // ---------------------------------------------------------------------
  // `process_conversation`: the flags returned after a run

  /** The text of `f"{user_id}"`: Python prints a missing id as "None". */
  function UserText(userId: Option<string>): (r: string)
    ensures userId.Some? ==> r == userId.value
    ensures userId.None? ==> r == "None"
  {
    if userId.Some? then userId.value else "None"
  }

  /** `thread_id or f"{user_id}-travel-chat"`: a given non-empty thread id
      is used as it is. */
  function ThreadId(threadId: Option<string>, userId: Option<string>): (r: string)
    ensures threadId.Some? && threadId.value != "" ==> r == threadId.value
  {
    if threadId.Some? && threadId.value != "" then threadId.value else UserText(userId) + "-travel-chat"
  }

  /** Without a thread id, every user gets a thread of their own, named
      after them. */
  lemma DefaultThreadPerUser(threadId: Option<string>, u: string, v: string)
    requires threadId.None? || threadId == Some("")
    ensures ThreadId(threadId, Some(u)) == u + "-travel-chat"
    ensures ThreadId(threadId, Some(u)) == ThreadId(threadId, Some(v)) <==> u == v
  {
    var s := "-travel-chat";
    if u + s == v + s {
      assert |u| == |v|;
      assert (u + s)[..|u|] == u;
      assert (v + s)[..|v|] == v;
    }
  }

  /** What `plan_data` holds: a decoded JSON value, or the raw text when it
      does not decode. */
  datatype PlanData = Decoded(value: Json) | Raw(text: string)

  /** Message `i` is the last tool message. */
  ghost predicate LastToolAt(messages: seq<Message>, i: int) {
    0 <= i < |messages| && messages[i].Tool? && forall j :: i < j < |messages| ==> !messages[j].Tool?
  }

  /** The contents of the tool messages, in order: the list `tool_messages`
      is made from. */
  function ToolContents(messages: seq<Message>): (r: seq<Content>)
    ensures |r| <= |messages|
  {
    if messages == [] then []
    else
      var last := messages[|messages| - 1];
      ToolContents(messages[..|messages| - 1]) + if last.Tool? then [last.content] else []
  }

  /** There are tool contents exactly when some message is a tool message. */
  lemma {:induction false} ToolContentsEmpty(messages: seq<Message>)
    ensures ToolContents(messages) == [] <==> forall i :: 0 <= i < |messages| ==> !messages[i].Tool?
  {
    if messages != [] {
      var front := messages[..|messages| - 1];
      ToolContentsEmpty(front);
      assert forall i :: 0 <= i < |front| ==> front[i] == messages[i];
    }
  }

  /** The last tool content is the content of the last tool message. */
  lemma {:induction false} ToolContentsLast(messages: seq<Message>)
    ensures var r := ToolContents(messages);
      r != [] ==> exists i :: LastToolAt(messages, i) && r[|r| - 1] == messages[i].content
  {
    if messages != [] {
      var front := messages[..|messages| - 1];
      var rest := ToolContents(front);
      if messages[|messages| - 1].Tool? {
        assert LastToolAt(messages, |messages| - 1);
      } else if rest != [] {
        ToolContentsLast(front);
        var i :| LastToolAt(front, i) && rest[|rest| - 1] == front[i].content;
        assert LastToolAt(messages, i);
      }
    }
  }

  /** `plan_data` from the last tool message's content: a string is decoded
      (kept raw when `decode` rejects it), a dictionary is taken as it is,
      anything else gives none. */
  function PlanFrom(content: Content, decode: string -> Option<Json>): (r: Option<PlanData>)
    ensures content.Text? ==> r.Some? && (r.value.Raw? <==> decode(content.s).None?)
    ensures content.Text? && r.value.Raw? ==> r.value.text == content.s
    ensures content.Text? && r.value.Decoded? ==> Some(r.value.value) == decode(content.s)
    ensures content.Dict? ==> r == Some(Decoded(JObject(content.fields)))
    ensures content.OtherContent? ==> r.None?
  {
    match content
    case Text(s) =>
      (match decode(s)
       case Some(j) => Some(Decoded(j))
       case None => Some(Raw(s)))
    case Dict(fields) => Some(Decoded(JObject(fields)))
    case OtherContent => None
  }

  /** The answer of `process_conversation`. */
  datatype ConversationResult = ConversationResult(response: Content, threadId: string, isCompleted: bool,
                                                   planDone: bool, planData: Option<PlanData>)

  /** `process_conversation(message, thread_id, user_id)`, given the messages
      `result` of the run: the last message answers; the plan is complete
      when a tool has run and the model spoke last, and only then is the
      last tool result read as the plan. */
  function ProcessResult(result: seq<Message>, threadId: Option<string>, userId: Option<string>,
                         decode: string -> Option<Json>): (r: ConversationResult)
    requires result != []
    ensures r.response == result[|result| - 1].ContentOf()
    ensures r.threadId == ThreadId(threadId, userId)
    ensures r.isCompleted <==> (exists i :: 0 <= i < |result| && result[i].Tool?) && result[|result| - 1].Ai?
    ensures r.planDone == r.isCompleted
    ensures !r.isCompleted ==> r.planData.None?
    ensures r.isCompleted ==> exists i :: LastToolAt(result, i) && r.planData == PlanFrom(result[i].content, decode)
  {
    var last := result[|result| - 1];
    var tools := ToolContents(result);
    ToolContentsEmpty(result);
    ToolContentsLast(result);
    var completed := tools != [] && last.Ai?;
    ConversationResult(last.ContentOf(), ThreadId(threadId, userId), completed, completed,
                       if completed then PlanFrom(tools[|tools| - 1], decode) else None)
  }
}
