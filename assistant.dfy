/** The AI assistant panel: a chat log that the user extends by sending
    non-blank input, with a canned reply arriving one second later, the
    quick-action buttons that fill the input box, and the colour of each
    insight card. The reply's text and confidence are drawn with
    `Math.random`; here the two draws are parameters in [0, 1). */
module Assistant {
  import opened Seqs
  import opened Text

  datatype Sender = User | Ai | System
  datatype ActionType = Suggestion | Warning | Info | Optimization

  datatype Message = Message(
    id: string, sender: Sender, content: string, timestamp: string,
    confidence: Option<int>, actionType: Option<ActionType>)

  datatype Insight = Insight(
    id: string, title: string, description: string, impact: string,
    kind: string, value: string)

  // ---------------------------------------------------------------------
  // The canned reply.

  const Analyzing: string :=
    "Analyzing current traffic patterns. Based on the data, I recommend prioritizing express trains during peak hours."
  const Efficiency: string :=
    "Current system efficiency is at 82%. I've identified 3 optimization opportunities for your consideration."
  const Congestion: string :=
    "Station congestion detected at Platform 2. Suggest rerouting next 2 local trains to Platform 4."
  const Predictive: string :=
    "Predictive analysis shows potential 15-minute delay for Rajdhani Express. Recommend clearing Track 1 immediately."

  const Responses: seq<string> := [Analyzing, Efficiency, Congestion, Predictive]

  /** A value `Math.random()` can return. */
  predicate IsDraw(x: real)
  {
    0.0 <= x < 1.0
  }

  /** `generateAIResponse`: `responses[Math.floor(Math.random() * 4)]`; the
      user's text plays no part. */
  function GenerateResponse(draw: real): (r: string)
    requires IsDraw(draw)
    ensures r in Responses
  {
    var k := (draw * 4.0).Floor;
    assert 0 <= k < 4;
    Responses[k]
  }

  /** Each of the four replies is drawn for a quarter of the range. */
  lemma EveryResponseReachable(k: int, draw: real)
    requires 0 <= k < 4
    requires k as real / 4.0 <= draw < (k + 1) as real / 4.0
    ensures IsDraw(draw) && GenerateResponse(draw) == Responses[k]
  {
    assert k as real <= draw * 4.0 < (k + 1) as real;
  }

  /** `Math.floor(Math.random() * 20) + 80`. */
  function Confidence(draw: real): (c: int)
    requires IsDraw(draw)
    ensures 80 <= c <= 99
  {
    (draw * 20.0).Floor + 80
  }

  /** Every confidence from 80 to 99 can come out. */
  lemma EveryConfidenceReachable(c: int)
    requires 80 <= c <= 99
    ensures IsDraw((c - 80) as real / 20.0) && Confidence((c - 80) as real / 20.0) == c
  {
    var draw := (c - 80) as real / 20.0;
    assert draw * 20.0 == (c - 80) as real;
  }

  /** The reply message built when the timer fires. */
  function Reply(id: string, timestamp: string, pick: real, conf: real): (m: Message)
    requires IsDraw(pick) && IsDraw(conf)
    ensures m.sender == Ai && m.actionType == Some(Info)
    ensures m.content in Responses
    ensures m.confidence.Some? && 80 <= m.confidence.value <= 99
  {
    Message(id, Ai, GenerateResponse(pick), timestamp, Some(Confidence(conf)), Some(Info))
  }

  // ---------------------------------------------------------------------
  // The input box.

  /** `!inputMessage.trim()` is false: the Send button is enabled and a send
      goes through. */
  predicate CanSend(input: string)
  {
    Trim(input) != []
  }

  /** Send is disabled exactly for input made only of white space, the
      empty input included. */
  lemma CanSendIffNotBlank(input: string)
    ensures CanSend(input) <==> !AllSpace(input)
    ensures !CanSend("")
  {
    TrimEmptyIffBlank(input);
    TrimEmptyIffBlank("");
  }

  datatype QuickAction = SystemEfficiency | PredictConflicts | OptimizePlatforms

  const EfficiencyPrompt: string := "What's the current system efficiency?"
  const ConflictsPrompt: string := "Predict conflicts for next 30 minutes"
  const PlatformsPrompt: string := "Optimize platform utilization"

  /** The text a quick-action button puts in the input box. */
  function PromptText(q: QuickAction): string
  {
    match q
    case SystemEfficiency => EfficiencyPrompt
    case PredictConflicts => ConflictsPrompt
    case OptimizePlatforms => PlatformsPrompt
  }

  /** Input starting with a visible character can be sent. */
  lemma VisibleFirstCanSend(input: string)
    requires |input| > 0 && !IsSpace(input[0])
    ensures CanSend(input)
  {
    CanSendIffNotBlank(input);
  }

  /** A quick action leaves the Send button enabled. */
  lemma QuickPromptsCanBeSent(q: QuickAction)
    ensures CanSend(PromptText(q))
  {
    var p := PromptText(q);
    assert |p| > 0 && !IsSpace(p[0]) by {
      match q
      case SystemEfficiency => assert p[0] == 'W';
      case PredictConflicts => assert p[0] == 'P';
      case OptimizePlatforms => assert p[0] == 'O';
    }
    VisibleFirstCanSend(p);
  }

  // ---------------------------------------------------------------------
  // The chat log.

  /** The panel's state: the log, the input box, and how many replies are
      still on their one-second timer. */
  datatype ChatState = ChatState(messages: seq<Message>, input: string, pending: nat)

  /** `onChange` of the input box, or a quick-action button. */
  function TypeStep(st: ChatState, text: string): (r: ChatState)
    ensures r.input == text && r.messages == st.messages && r.pending == st.pending
  {
    st.(input := text)
  }

  /** `handleSendMessage` (Send button or Enter): blank input is ignored;
      otherwise the input, untrimmed, becomes a user message at the end of
      the log, the box is cleared and a reply is scheduled. */
  function SendStep(st: ChatState, id: string, timestamp: string): (r: ChatState)
    ensures !CanSend(st.input) ==> r == st
    ensures CanSend(st.input) ==>
              && r.messages == st.messages + [Message(id, User, st.input, timestamp, None, None)]
              && r.input == "" && r.pending == st.pending + 1
  {
    if !CanSend(st.input) then st
    else ChatState(st.messages + [Message(id, User, st.input, timestamp, None, None)], "", st.pending + 1)
  }

  /** A scheduled reply arrives; with none scheduled nothing happens. */
  function DeliverStep(st: ChatState, id: string, timestamp: string, pick: real, conf: real): (r: ChatState)
    requires IsDraw(pick) && IsDraw(conf)
    ensures st.pending == 0 ==> r == st
    ensures st.pending > 0 ==>
              && r.messages == st.messages + [Reply(id, timestamp, pick, conf)]
              && r.input == st.input && r.pending == st.pending - 1
  {
    if st.pending == 0 then st
    else st.(messages := st.messages + [Reply(id, timestamp, pick, conf)], pending := st.pending - 1)
  }

  datatype ChatAction =
    | Type(text: string)
    | Quick(q: QuickAction)
    | Send(id: string, timestamp: string)
    | Deliver(id: string, timestamp: string, pick: real, conf: real)

  predicate WellDrawn(a: ChatAction)
  {
    a.Deliver? ==> IsDraw(a.pick) && IsDraw(a.conf)
  }

  function Step(st: ChatState, a: ChatAction): ChatState
    requires WellDrawn(a)
  {
    match a
    case Type(text) => TypeStep(st, text)
    case Quick(q) => TypeStep(st, PromptText(q))
    case Send(id, ts) => SendStep(st, id, ts)
    case Deliver(id, ts, pick, conf) => DeliverStep(st, id, ts, pick, conf)
  }

  function Run(st: ChatState, acts: seq<ChatAction>): ChatState
    requires forall i :: 0 <= i < |acts| ==> WellDrawn(acts[i])
    decreases |acts|
  {
    if acts == [] then st else Run(Step(st, acts[0]), acts[1..])
  }

  /** The number of messages in `ms` from `who`. */
  function SentBy(ms: seq<Message>, who: Sender): nat
  {
    if ms == [] then 0
    else SentBy(ms[..|ms| - 1], who) + (if ms[|ms| - 1].sender == who then 1 else 0)
  }

  function UserCount(ms: seq<Message>): nat
  {
    SentBy(ms, User)
  }

  function AiCount(ms: seq<Message>): nat
  {
    SentBy(ms, Ai)
  }

  /** A message added at the end raises the count of its sender by one. */
  lemma CountsAfterAppend(ms: seq<Message>, m: Message)
    ensures UserCount(ms + [m]) == UserCount(ms) + (if m.sender == User then 1 else 0)
    ensures AiCount(ms + [m]) == AiCount(ms) + (if m.sender == Ai then 1 else 0)
  {
    assert (ms + [m])[..|ms|] == ms;
  }

  /** One action keeps the log as a prefix and keeps the balance of user
      messages against replies delivered and pending. */
  lemma StepKeepsHistory(st: ChatState, a: ChatAction)
    requires WellDrawn(a)
    ensures var n := Step(st, a);
            && |st.messages| <= |n.messages| && n.messages[..|st.messages|] == st.messages
            && UserCount(n.messages) - UserCount(st.messages)
               == AiCount(n.messages) - AiCount(st.messages) + n.pending - st.pending
  {
    match a
    case Send(id, ts) =>
      if CanSend(st.input) {
        CountsAfterAppend(st.messages, Message(id, User, st.input, ts, None, None));
      }
    case Deliver(id, ts, pick, conf) =>
      if st.pending > 0 {
        CountsAfterAppend(st.messages, Reply(id, ts, pick, conf));
      }
    case _ =>
  }

  /** Whatever happens in the panel, the messages already in the log stay
      where they are, unchanged, and every reply added answers a message the
      user sent: the user messages added equal the replies added plus the
      replies still pending. */
  lemma {:induction false} RunKeepsHistory(st: ChatState, acts: seq<ChatAction>)
    requires forall i :: 0 <= i < |acts| ==> WellDrawn(acts[i])
    ensures var r := Run(st, acts);
            && |st.messages| <= |r.messages| && r.messages[..|st.messages|] == st.messages
            && UserCount(r.messages) - UserCount(st.messages)
               == AiCount(r.messages) - AiCount(st.messages) + r.pending - st.pending
    decreases |acts|
  {
    if acts != [] {
      var next := Step(st, acts[0]);
      StepKeepsHistory(st, acts[0]);
      RunKeepsHistory(next, acts[1..]);
      var r := Run(st, acts);
      assert r == Run(next, acts[1..]);
      assert r.messages[..|st.messages|] == r.messages[..|next.messages|][..|st.messages|];
    }
  }

  // ---------------------------------------------------------------------
  // Insight cards.

  const HighColor: string := "border-destructive bg-destructive/5"
  const MediumColor: string := "border-warning bg-warning/5"
  const DefaultColor: string := "border-primary bg-primary/5"

  /** `getInsightColor(impact, type)`: the type plays no part; 'high' and
      'medium' have their own colour, every other impact the default one. */
  function InsightColor(impact: string, kind: string): (r: string)
    ensures r == HighColor <==> impact == "high"
    ensures r == MediumColor <==> impact == "medium"
    ensures r == DefaultColor <==> impact != "high" && impact != "medium"
  {
    assert HighColor[8] != MediumColor[8] && MediumColor[8] != DefaultColor[8] && HighColor[8] != DefaultColor[8];
    if impact == "high" then HighColor
    else if impact == "medium" then MediumColor
    else DefaultColor
  }

  // ---------------------------------------------------------------------
  // Initial data.

  const OnlineNotice: string :=
    "AI Traffic Control Assistant is online. Monitoring 10 stations and 24 active trains."
  const ConflictNotice: string :=
    "Detected potential conflict: Train MGS EXP (Track 3) and DFC 321 (Track 4) approaching Track 5 simultaneously. Recommend holding DFC 321 for 3 minutes."
  const UtilizationNotice: string :=
    "Platform utilization analysis complete. Current efficiency: 78%. Recommended actions to improve throughput by 15%."

  function MockMessages(): seq<Message>
  {
    [ Message("1", System, OnlineNotice, "09:30", None, None),
      Message("2", Ai, ConflictNotice, "09:32", Some(95), Some(Suggestion)),
      Message("3", Ai, UtilizationNotice, "09:35", Some(88), Some(Optimization)) ]
  }

  function MockInsights(): seq<Insight>
  {
    [ Insight("1", "Delay Optimization", "Rerouting freight trains can reduce overall delays by 12 minutes",
              "high", "optimization", "12m saved"),
      Insight("2", "Throughput Increase", "Platform 3 utilization can be improved by 25%",
              "medium", "efficiency", "+25% utilization"),
      Insight("3", "Conflict Prediction", "Potential conflict detected between MGS EXP and DFC goods at 14:30",
              "high", "conflict", "In 15 minutes") ]
  }

  // ---------------------------------------------------------------------
  // The panel.

  class AssistantPanel {
    var messages: seq<Message>
    var inputMessage: string
    var pendingReplies: nat
    const insights: seq<Insight>

    function State(): ChatState
      reads this
    {
      ChatState(messages, inputMessage, pendingReplies)
    }

    constructor ()
      ensures State() == ChatState(MockMessages(), "", 0)
      ensures insights == MockInsights()
    {
      messages := MockMessages();
      inputMessage := "";
      pendingReplies := 0;
      insights := MockInsights();
    }

    /** A keystroke in the input box. */
    method SetInput(text: string)
      modifies this
      ensures State() == TypeStep(old(State()), text)
    {
      inputMessage := text;
    }

    /** A quick-action button: fills the box, sends nothing. */
    method ChooseQuickAction(q: QuickAction)
      modifies this
      ensures State() == TypeStep(old(State()), PromptText(q))
      ensures messages == old(messages)
    {
      inputMessage := PromptText(q);
    }

    /** The message id and the clock reading are what `Date.now()` and
        `toLocaleTimeString` give at the time of the click. */
    method SendMessage(id: string, timestamp: string)
      modifies this
      ensures State() == SendStep(old(State()), id, timestamp)
    {
      if Trim(inputMessage) == [] {
        return;
      }
      messages := messages + [Message(id, User, inputMessage, timestamp, None, None)];
      inputMessage := "";
      pendingReplies := pendingReplies + 1;
    }

    /** The one-second timer of an earlier send fires; `pick` and `conf` are
        the two `Math.random()` draws. */
    method DeliverReply(id: string, timestamp: string, pick: real, conf: real)
      requires pendingReplies > 0
      requires IsDraw(pick) && IsDraw(conf)
      modifies this
      ensures State() == DeliverStep(old(State()), id, timestamp, pick, conf)
    {
      messages := messages + [Reply(id, timestamp, pick, conf)];
      pendingReplies := pendingReplies - 1;
    }
  }
}
