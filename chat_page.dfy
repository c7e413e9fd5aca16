/**
 * The Streamlit chat page: the per-browser session state (current
 * conversation, archived conversations, the index-to-session map, the
 * consecutive-error counter, the template flag and the pending input), the
 * classification of one request to the proxy into a reply or an error text,
 * and what the page records and shows afterwards.
 *
 * Rendering, the spinner delays and logging change no state and are not
 * modelled; the HTTP request is the `FetchOutcome` parameter.
 */
module ChatPage {
  import opened Wrappers
  import opened JsonValues
  import opened PyStrings

  datatype Role = User | Assistant

  /** One entry of `messages`: `{"role": ..., "content": ...}`. */
  datatype Message = Message(role: Role, content: Json)

  /** One entry of `chat_history`: the tuple `(messages, session_id)`. */
  datatype Conversation = Conversation(messages: seq<Message>, sessionId: string)

  // ---------------------------------------------------------------------
  // The outcome of one request to the proxy
  // ---------------------------------------------------------------------

  /** What `response.json()` makes of the body. */
  datatype ParseResult = Parsed(value: Json) | Malformed(detail: string)

  /**
   * What `requests.post(API_URL, json=payload, timeout=API_TIMEOUT)` did:
   * an HTTP response, a `ConnectionError` (a connect timeout is one too and
   * is caught by that clause first), a read `Timeout`, or any other
   * exception; `detail` is the exception's `str`.
   */
  datatype FetchOutcome =
    | Responded(status: nat, text: string, body: ParseResult)
    | ConnectionFailed(detail: string)
    | TimedOut(detail: string)
    | OtherFailure(detail: string)

  /** `response_container` after `fetch_response` has run. */
  datatype Container = Container(response: Option<Json>, error: Option<string>)

  const NoResponseReceived: Json := JStr("No response received")

  /**
   * Whether the log line `response_container['response'][:50]` can slice
   * the reply: only strings and lists can be sliced.
   */
  predicate Sliceable(reply: Json)
  {
    reply.JStr? || reply.JList?
  }

  /**
   * The text of the `TypeError` raised by slicing a reply that is not a
   * string or a list (the wording of Python 3.11 and earlier for a dict).
   */
  function SliceErrorText(reply: Json): string
  {
    if reply.JObject? then "unhashable type: 'slice'"
    else "'" + PyTypeName(reply) + "' object is not subscriptable"
  }

  /** The status-200 branch once the body parsed. */
  function ClassifyParsed(v: Json): (c: Container)
    ensures c.response.Some? <==> v.JObject?
    ensures v.JObject? ==> c.response == Some(Get(v.fields, "response", NoResponseReceived))
    ensures c.error.None? <==> v.JObject? && Sliceable(Get(v.fields, "response", NoResponseReceived))
    ensures c.error.Some? ==> StartsWith(c.error.value, "Unexpected error: ")
  {
    match v
    case JObject(fields) =>
      var reply := Get(fields, "response", NoResponseReceived);
      if Sliceable(reply) then Container(Some(reply), None)
      else Container(Some(reply), Some("Unexpected error: " + SliceErrorText(reply)))
    case _ =>
      Container(None, Some("Unexpected error: '" + PyTypeName(v) + "' object has no attribute 'get'"))
  }

  /** `fetch_response`: the container it leaves behind for one outcome. */
  function Classify(o: FetchOutcome): (c: Container)
    ensures c.error.None? ==> c.response.Some?
    ensures c.error.Some? ==> |c.error.value| > 0
  {
    match o
    case Responded(status, text, body) =>
      if status == 200 then
        match body
        case Malformed(detail) => Container(None, Some("Invalid JSON response: " + detail))
        case Parsed(v) => ClassifyParsed(v)
      else
        Container(None, Some("Service error: " + DecimalString(status) + " - " + Take(text, 100)))
    case ConnectionFailed(detail) => Container(None, Some("Connection error: " + detail))
    case TimedOut(detail) => Container(None, Some("Request timeout: " + detail))
    case OtherFailure(detail) => Container(None, Some("Unexpected error: " + detail))
  }

  /**
   * An independent description of a successful request: status 200, a body
   * that is a JSON object, and a `response` field (or the default text)
   * that is a string or a list.
   */
  predicate Delivers(o: FetchOutcome, reply: Json)
  {
    && o.Responded? && o.status == 200 && o.body.Parsed? && o.body.value.JObject?
    && reply == Get(o.body.value.fields, "response", NoResponseReceived)
    && Sliceable(reply)
  }

  /** A request ends without an error exactly when it delivers its reply. */
  lemma ClassifySucceedsIff(o: FetchOutcome)
    ensures Classify(o).error.None? <==> exists reply :: Delivers(o, reply)
    ensures forall reply :: Delivers(o, reply) ==> Classify(o).response == Some(reply)
  {
    if Classify(o).error.None? {
      assert Delivers(o, Classify(o).response.value);
    }
  }

  // ---------------------------------------------------------------------
  // The consecutive-error counter
  // ---------------------------------------------------------------------

  /** `error_count` after one request: one more on an error, back to 0 otherwise. */
  function NextErrorCount(count: nat, c: Container): (next: nat)
    ensures next > 0 <==> c.error.Some?
    ensures c.error.Some? ==> next == count + 1
  {
    if c.error.Some? then count + 1 else 0
  }

  predicate Fails(o: FetchOutcome)
  {
    Classify(o).error.Some?
  }

  /** `error_count` after a series of requests, oldest first. */
  function ErrorCountAfter(count: nat, outcomes: seq<FetchOutcome>): (n: nat)
    ensures n <= count + |outcomes|
    ensures outcomes != [] ==> (n > 0 <==> Fails(outcomes[|outcomes| - 1]))
  {
    if outcomes == [] then count
    else NextErrorCount(ErrorCountAfter(count, outcomes[..|outcomes| - 1]), Classify(outcomes[|outcomes| - 1]))
  }

  /**
   * Starting from the value 0 that initialisation and "New Chat" set,
   * `error_count` is the length of the run of failed requests at the end
   * of the series: those all failed, and the one before them did not.
   */
  lemma {:induction false} ErrorCountIsTrailingFailures(outcomes: seq<FetchOutcome>)
    ensures var n := ErrorCountAfter(0, outcomes);
      && n <= |outcomes|
      && (forall i :: |outcomes| - n <= i < |outcomes| ==> Fails(outcomes[i]))
      && (n < |outcomes| ==> !Fails(outcomes[|outcomes| - n - 1]))
  {
    if outcomes != [] {
      var init := outcomes[..|outcomes| - 1];
      ErrorCountIsTrailingFailures(init);
      var m := ErrorCountAfter(0, init);
      forall i | |outcomes| - ErrorCountAfter(0, outcomes) <= i < |outcomes|
        ensures Fails(outcomes[i])
      {
        if i < |outcomes| - 1 {
          assert outcomes[i] == init[i];
        }
      }
      if Fails(outcomes[|outcomes| - 1]) && m + 1 < |outcomes| {
        assert outcomes[|outcomes| - (m + 1) - 1] == init[|init| - m - 1];
      }
    }
  }

  /**
   * Each kind of failure adds exactly one to the counter: a non-200 status,
   * a malformed body, a connection failure, a timeout, any other exception;
   * a delivered reply resets it.
   */
  lemma CounterStep(count: nat, o: FetchOutcome)
    ensures (|| o.ConnectionFailed? || o.TimedOut? || o.OtherFailure?
             || (o.Responded? && (o.status != 200 || o.body.Malformed?))) ==>
              NextErrorCount(count, Classify(o)) == count + 1
    ensures (&& o.Responded? && o.status == 200 && o.body.Parsed?
             && (!o.body.value.JObject? || !Sliceable(Get(o.body.value.fields, "response", NoResponseReceived)))) ==>
              NextErrorCount(count, Classify(o)) == count + 1
    ensures (forall reply :: !Delivers(o, reply)) ==> NextErrorCount(count, Classify(o)) == count + 1
    ensures forall reply :: Delivers(o, reply) ==> NextErrorCount(count, Classify(o)) == 0
  {
    ClassifySucceedsIff(o);
  }

  /** Failures count up from wherever the counter stands. */
  lemma {:induction false} FailuresAccumulate(count: nat, outcomes: seq<FetchOutcome>)
    requires forall i :: 0 <= i < |outcomes| ==> Fails(outcomes[i])
    ensures ErrorCountAfter(count, outcomes) == count + |outcomes|
  {
    if outcomes != [] {
      var init := outcomes[..|outcomes| - 1];
      assert forall i :: 0 <= i < |init| ==> init[i] == outcomes[i];
      FailuresAccumulate(count, init);
    }
  }

  /** The suggestion appended to an error once three requests in a row failed. */
  const RestartHint := "\n\n" + "Try starting a new conversation " + "to reset the connection."

  lemma RestartHintLacksCapitals()
    ensures |RestartHint| > 0 && RestartHint[0] == '\n'
    ensures 'C' !in RestartHint && 'S' !in RestartHint
  {
  }

  /** The error text the page shows, given the counter after the request. */
  function DisplayedError(error: string, count: nat): (shown: string)
    ensures count < 3 ==> shown == error
    ensures count >= 3 ==> |shown| > |error| && shown[..|error|] == error
    ensures count >= 3 ==> shown == error + RestartHint
  {
    if count >= 3 then error + RestartHint else error
  }

  /**
   * In a fresh conversation the counter reaches 3, and the hint is shown,
   * exactly when the last request and the two before it all failed.
   */
  lemma HintAfterThreeFailuresInARow(outcomes: seq<FetchOutcome>)
    requires |outcomes| > 0 && Fails(outcomes[|outcomes| - 1])
    ensures ErrorCountAfter(0, outcomes) >= 3 <==>
      (|outcomes| >= 3 && Fails(outcomes[|outcomes| - 2]) && Fails(outcomes[|outcomes| - 3]))
  {
    ErrorCountIsTrailingFailures(outcomes);
    var n := ErrorCountAfter(0, outcomes);
    var last := |outcomes| - 1;
    if n >= 3 {
      assert Fails(outcomes[last - 1]) && Fails(outcomes[last - 2]);
    } else if |outcomes| >= 3 {
      var j := last - n;
      assert !Fails(outcomes[j]);
      assert j == last || j == last - 1 || j == last - 2;
    }
  }

  // ---------------------------------------------------------------------
  // When the page apologises
  // ---------------------------------------------------------------------

  /** The substring test that decides whether an apology is recorded. */
  predicate ApologyNeeded(text: string)
  {
    Contains(text, "Connection error") || Contains(text, "Service unavailable")
  }

  const ApologyText := "Sorry, I'm having trouble connecting to the service. Please try again later."

  /** A prefix without a capital C or S does not change the apology test. */
  lemma ApologyAfterForeignPrefix(p: string, s: string)
    requires 'C' !in p && 'S' !in p
    ensures ApologyNeeded(p + s) == ApologyNeeded(s)
  {
    ContainsAfterForeignPrefix(p, s, "Connection error");
    ContainsAfterForeignPrefix(p, s, "Service unavailable");
  }

  /** A text without a capital C or S never triggers the apology. */
  lemma NoApologyWithoutCapitals(text: string)
    requires 'C' !in text && 'S' !in text
    ensures !ApologyNeeded(text)
  {
    NotContainsWithoutFirstChar(text, "Connection error");
    NotContainsWithoutFirstChar(text, "Service unavailable");
  }

  /** Appending the restart hint never changes whether the page apologises. */
  lemma HintKeepsApology(error: string, count: nat)
    ensures ApologyNeeded(DisplayedError(error, count)) == ApologyNeeded(error)
  {
    if count >= 3 {
      RestartHintLacksCapitals();
      ContainsBeforeForeignSuffix(error, RestartHint, "Connection error");
      ContainsBeforeForeignSuffix(error, RestartHint, "Service unavailable");
    }
  }

  lemma TypeNameHasNoCapitals(v: Json)
    ensures 'C' !in PyTypeName(v) && 'S' !in PyTypeName(v)
  {
  }

  lemma UnexpectedErrorLacksCapitals()
    ensures 'C' !in "Unexpected error: " && 'S' !in "Unexpected error: "
  {
  }

  lemma RequestTimeoutLacksCapitals()
    ensures 'C' !in "Request timeout: " && 'S' !in "Request timeout: "
  {
  }

  lemma NoAttributeGetLacksCapitals()
    ensures 'C' !in "' object has no attribute 'get'" && 'S' !in "' object has no attribute 'get'"
  {
  }

  lemma SliceErrorLacksCapitals(reply: Json)
    ensures 'C' !in SliceErrorText(reply) && 'S' !in SliceErrorText(reply)
  {
    TypeNameHasNoCapitals(reply);
    assert 'C' !in "' object is not subscriptable" && 'S' !in "' object is not subscriptable";
  }

  /** Errors about the shape of a 200 body never trigger the apology. */
  lemma ShapeErrorsNeverApologise(v: Json)
    requires ClassifyParsed(v).error.Some?
    ensures !ApologyNeeded(ClassifyParsed(v).error.value)
  {
    UnexpectedErrorLacksCapitals();
    match v
    case JObject(fields) =>
      var reply := Get(fields, "response", NoResponseReceived);
      SliceErrorLacksCapitals(reply);
      NoApologyWithoutCapitals("Unexpected error: " + SliceErrorText(reply));
    case _ =>
      TypeNameHasNoCapitals(v);
      NoAttributeGetLacksCapitals();
      NoApologyWithoutCapitals("Unexpected error: '" + PyTypeName(v) + "' object has no attribute 'get'");
  }

  /** The text of a non-200 response decides the apology, the status line does not. */
  lemma ServiceErrorApology(status: nat, text: string)
    ensures ApologyNeeded("Service error: " + DecimalString(status) + " - " + text) ==
            ApologyNeeded(text)
  {
    var p := "Service error: " + DecimalString(status) + " - ";
    ServiceErrorPrefix(DecimalString(status));
    ContainsAfterForeignPrefix(p, text, "Connection error");
    ContainsAfterNearlyForeignPrefix("", p, text, "Service unavailable", 8);
    assert "" + p + text == p + text;
  }

  /** The status line has its only capital S at its head, followed by "ervice e". */
  lemma ServiceErrorPrefix(digits: string)
    requires forall i :: 0 <= i < |digits| ==> '0' <= digits[i] <= '9'
    ensures var p := "Service error: " + digits + " - ";
      && 'C' !in p && |p| > 8 && p[8] == 'e' && 'S' !in p[1..]
  {
    var p := "Service error: " + digits + " - ";
    assert 'C' !in digits && 'S' !in digits;
    assert p[1..] == "ervice error: " + digits + " - ";
  }

  /** The detail of a malformed body decides the apology, the fixed text does not. */
  lemma InvalidJsonApology(detail: string)
    ensures ApologyNeeded("Invalid JSON response: " + detail) == ApologyNeeded(detail)
  {
    var x := "Invalid J";
    var y := "SON response: ";
    assert "Invalid JSON response: " == x + y;
    ContainsAfterForeignPrefix(x + y, detail, "Connection error");
    ContainsAfterNearlyForeignPrefix(x, y, detail, "Service unavailable", 1);
  }

  /**
   * The independent description of when an apology is recorded: always
   * after a connection failure; after a timeout or any other exception, or
   * a malformed body, when the exception's text mentions one of the two
   * phrases; after a non-200 status when the first 100 characters of the
   * body do; never after a well-formed or wrongly shaped 200 body.
   */
  predicate ApologyCause(o: FetchOutcome)
  {
    match o
    case ConnectionFailed(_) => true
    case TimedOut(detail) => ApologyNeeded(detail)
    case OtherFailure(detail) => ApologyNeeded(detail)
    case Responded(status, text, body) =>
      if status != 200 then ApologyNeeded(Take(text, 100))
      else body.Malformed? && ApologyNeeded(body.detail)
  }

  /** Whether the page records the apology after the request, given the counter before it. */
  predicate Apologises(o: FetchOutcome, count: nat)
  {
    var c := Classify(o);
    c.error.Some? && ApologyNeeded(DisplayedError(c.error.value, NextErrorCount(count, c)))
  }

  /** The page apologises exactly for the causes above, whatever the counter. */
  lemma ApologisesIffCause(o: FetchOutcome, count: nat)
    ensures Apologises(o, count) <==> ApologyCause(o)
  {
    var c := Classify(o);
    if c.error.Some? {
      HintKeepsApology(c.error.value, NextErrorCount(count, c));
    }
    match o
    case ConnectionFailed(detail) =>
      assert ("Connection error: " + detail)[..16] == "Connection error";
    case TimedOut(detail) =>
      RequestTimeoutLacksCapitals();
      ApologyAfterForeignPrefix("Request timeout: ", detail);
    case OtherFailure(detail) =>
      UnexpectedErrorLacksCapitals();
      ApologyAfterForeignPrefix("Unexpected error: ", detail);
    case Responded(status, text, body) =>
      if status != 200 {
        ServiceErrorApology(status, Take(text, 100));
      } else {
        match body
        case Malformed(detail) => InvalidJsonApology(detail);
        case Parsed(v) =>
          if c.error.Some? {
            ShapeErrorsNeverApologise(v);
          }
      }
  }

  // ---------------------------------------------------------------------
  // What one request adds to the conversation and shows
  // ---------------------------------------------------------------------

  /** What the page shows in the assistant's placeholder. */
  datatype Display = ErrorBox(text: string) | ReplyShown(reply: Json)

  /**
   * The messages one request appends: the user's message, then either the
   * reply or, after an error, the apology when the error text calls for it.
   * `count` is the counter after the request.
   */
  function Exchange(userInput: string, c: Container, count: nat): (added: seq<Message>)
    requires c.error.None? ==> c.response.Some?
    ensures 1 <= |added| <= 2
    ensures added[0] == Message(User, JStr(userInput))
    ensures forall i :: 1 <= i < |added| ==> added[i].role == Assistant
    ensures c.error.None? ==> added == [Message(User, JStr(userInput)), Message(Assistant, c.response.value)]
    ensures c.error.Some? && |added| == 2 ==> added[1].content == JStr(ApologyText)
  {
    [Message(User, JStr(userInput))] +
    if c.error.Some? then
      if ApologyNeeded(DisplayedError(c.error.value, count)) then [Message(Assistant, JStr(ApologyText))] else []
    else [Message(Assistant, c.response.value)]
  }

  function Shown(c: Container, count: nat): (d: Display)
    requires c.error.None? ==> c.response.Some?
    ensures d.ErrorBox? <==> c.error.Some?
    ensures c.error.Some? ==> StartsWith(d.text, c.error.value)
    ensures c.error.Some? ==> d.text == DisplayedError(c.error.value, count)
    ensures c.error.None? ==> d.reply == c.response.value
  {
    if c.error.Some? then ErrorBox(DisplayedError(c.error.value, count)) else ReplyShown(c.response.value)
  }

  /**
   * The conversation grows by the user's message and at most one assistant
   * message: the delivered reply on success, the apology exactly for its
   * causes, nothing otherwise; an error never enters the conversation as
   * text of its own.
   */
  lemma ExchangeOutcome(userInput: string, o: FetchOutcome, count: nat)
    ensures var c := Classify(o);
      var added := Exchange(userInput, c, NextErrorCount(count, c));
      && 1 <= |added| <= 2
      && added[0] == Message(User, JStr(userInput))
      && (forall reply :: Delivers(o, reply) ==> added == [Message(User, JStr(userInput)), Message(Assistant, reply)])
      && (Fails(o) ==> (|added| == 2 <==> ApologyCause(o)))
      && (Fails(o) && |added| == 2 ==> added[1] == Message(Assistant, JStr(ApologyText)))
  {
    ApologisesIffCause(o, count);
    ClassifySucceedsIff(o);
  }

  // ---------------------------------------------------------------------
  // Archived conversations and the index-to-session map
  // ---------------------------------------------------------------------

  /** `chat_history` after "New Chat": the current conversation is kept only if it has messages. */
  function ArchivedHistory(history: seq<Conversation>, messages: seq<Message>, sessionId: string): (r: seq<Conversation>)
    ensures messages == [] ==> r == history
    ensures messages != [] ==> |r| == |history| + 1 && r[|history|] == Conversation(messages, sessionId)
    ensures r[..|history|] == history
  {
    if messages == [] then history else history + [Conversation(messages, sessionId)]
  }

  /** `session_map` after "New Chat": the new 1-based index names the archived session. */
  function ArchivedMap(sessionMap: map<nat, string>, history: seq<Conversation>,
                       messages: seq<Message>, sessionId: string): (r: map<nat, string>)
    ensures messages == [] ==> r == sessionMap
    ensures messages != [] ==> r.Keys == sessionMap.Keys + {|history| + 1} && r[|history| + 1] == sessionId
    ensures forall i :: i in sessionMap && i != |history| + 1 ==> i in r && r[i] == sessionMap[i]
  {
    if messages == [] then sessionMap else sessionMap[|history| + 1 := sessionId]
  }

  /** `del chat_history[idx-1]`. */
  function RemoveConversation(history: seq<Conversation>, idx: nat): (r: seq<Conversation>)
    requires 1 <= idx <= |history|
    ensures |r| == |history| - 1
    ensures forall i :: 0 <= i < idx - 1 ==> r[i] == history[i]
    ensures forall i :: idx - 1 <= i < |r| ==> r[i] == history[i + 1]
  {
    history[..idx - 1] + history[idx..]
  }

  /** `if idx in session_map: del session_map[idx]`. */
  function ForgetIndex(sessionMap: map<nat, string>, idx: nat): (r: map<nat, string>)
    ensures r.Keys == sessionMap.Keys - {idx}
    ensures forall i :: i in r ==> r[i] == sessionMap[i]
  {
    sessionMap - {idx}
  }

  /**
   * `session_map` describes `chat_history`: its keys are the 1-based
   * indices of the archived conversations, each naming that conversation's
   * session.
   */
  ghost predicate MapMirrorsHistory(history: seq<Conversation>, sessionMap: map<nat, string>)
  {
    && (forall i :: i in sessionMap <==> 1 <= i <= |history|)
    && (forall i :: i in sessionMap ==> sessionMap[i] == history[i - 1].sessionId)
  }

  /** "New Chat" keeps the map describing the history. */
  lemma ArchiveKeepsMirror(history: seq<Conversation>, sessionMap: map<nat, string>,
                           messages: seq<Message>, sessionId: string)
    requires MapMirrorsHistory(history, sessionMap)
    ensures MapMirrorsHistory(ArchivedHistory(history, messages, sessionId),
                              ArchivedMap(sessionMap, history, messages, sessionId))
  {
  }

  /**
   * The conversation "New Chat" archives is listed under the index that
   * its `session_map` entry names, so `Load` of that index (which reads
   * entry index-1) restores exactly its messages and session id.
   */
  lemma ArchiveThenLoad(history: seq<Conversation>, sessionMap: map<nat, string>,
                        messages: seq<Message>, sessionId: string)
    requires messages != []
    ensures var h := ArchivedHistory(history, messages, sessionId);
      var m := ArchivedMap(sessionMap, history, messages, sessionId);
      var idx := |h|;
      && 1 <= idx <= |h| && idx in m
      && h[idx - 1].messages == messages && h[idx - 1].sessionId == sessionId
      && m[idx] == h[idx - 1].sessionId
  {
  }

  /**
   * "Delete" keeps the map describing the history only when it removes the
   * last conversation: removing an earlier one shifts the later
   * conversations down while their map entries keep the old indices.
   */
  lemma DeleteKeepsMirrorIffLast(history: seq<Conversation>, sessionMap: map<nat, string>, idx: nat)
    requires MapMirrorsHistory(history, sessionMap)
    requires 1 <= idx <= |history|
    ensures MapMirrorsHistory(RemoveConversation(history, idx), ForgetIndex(sessionMap, idx)) <==> idx == |history|
  {
    if idx < |history| {
      assert |history| in ForgetIndex(sessionMap, idx);
    }
  }

  // ---------------------------------------------------------------------
  // The session state
  // ---------------------------------------------------------------------

  /** The keys the page initialises in `st.session_state`. */
  datatype StateKey = MessagesKey | ChatHistoryKey | TemplateUsedKey | CurrentSessionIdKey | SessionMapKey | ErrorCountKey

  const AllKeys: set<StateKey> :=
    {MessagesKey, ChatHistoryKey, TemplateUsedKey, CurrentSessionIdKey, SessionMapKey, ErrorCountKey}

  /** The suggested questions shown on an empty, unused conversation. */
  const TemplateQuestions: seq<string> := [
    "Can you explain Godiva's approach to creating tax-efficient retirement income strategies?",
    "What investment strategies does Godiva recommend for preserving wealth across generations?",
    "How does Godiva's wealth management service address inheritance tax planning?",
    "What are the key considerations in Godiva's pension transfer advisory process?",
    "How does Godiva balance risk and return in long-term investment portfolios?",
    "What tax-efficient savings vehicles does Godiva recommend for high-net-worth individuals?",
    "How does Godiva's trust planning service protect family assets?",
    "What ethical investment options are available through Godiva's portfolios?",
    "How does Godiva help clients navigate complex cross-border wealth management scenarios?",
    "What strategies does Godiva employ to safeguard investments during market volatility?"
  ]

  /** Python's truthiness of an optional string: present and non-empty. */
  predicate Truthy(s: Option<string>)
  {
    s.Some? && s.value != ""
  }

  /**
   * `st.session_state` of one browser session. `present` records which of
   * the initialised keys exist; `pendingInput` is `None` both when the key
   * is absent and when it holds `None`.
   */
  class SessionState {
    var present: set<StateKey>
    var messages: seq<Message>
    var chatHistory: seq<Conversation>
    var templateUsed: bool
    var currentSessionId: string
    var sessionMap: map<nat, string>
    var errorCount: nat
    var pendingInput: Option<string>

    ghost predicate Initialised()
      reads this
    {
      present == AllKeys
    }

    /** A new browser session: nothing set yet. */
    constructor()
      ensures present == {} && pendingInput == None
    {
      present := {};
      messages := [];
      chatHistory := [];
      templateUsed := false;
      currentSessionId := "";
      sessionMap := map[];
      errorCount := 0;
      pendingInput := None;
    }

    /**
     * The initialisation block that runs on every rerun: each absent key is
     * set to its initial value (`freshId` stands for `str(uuid.uuid4())`),
     * present keys are left alone.
     */
    method Initialise(freshId: string)
      modifies this
      ensures Initialised()
      ensures messages == if MessagesKey in old(present) then old(messages) else []
      ensures chatHistory == if ChatHistoryKey in old(present) then old(chatHistory) else []
      ensures templateUsed == (TemplateUsedKey in old(present) && old(templateUsed))
      ensures currentSessionId == if CurrentSessionIdKey in old(present) then old(currentSessionId) else freshId
      ensures sessionMap == if SessionMapKey in old(present) then old(sessionMap) else map[]
      ensures errorCount == if ErrorCountKey in old(present) then old(errorCount) else 0
      ensures pendingInput == old(pendingInput)
    {
      if MessagesKey !in present {
        messages := [];
      }
      if ChatHistoryKey !in present {
        chatHistory := [];
      }
      if TemplateUsedKey !in present {
        templateUsed := false;
      }
      if CurrentSessionIdKey !in present {
        currentSessionId := freshId;
      }
      if SessionMapKey !in present {
        sessionMap := map[];
      }
      if ErrorCountKey !in present {
        errorCount := 0;
      }
      // every key that was absent has now been set
      present := AllKeys;
    }

    /** "Load": show an archived conversation again and continue its session. */
    method Load(idx: nat)
      requires Initialised() && 1 <= idx <= |chatHistory|
      modifies this
      ensures messages == old(chatHistory[idx - 1].messages)
      ensures currentSessionId == old(chatHistory[idx - 1].sessionId)
      ensures present == old(present) && chatHistory == old(chatHistory) && sessionMap == old(sessionMap)
      ensures templateUsed == old(templateUsed) && errorCount == old(errorCount)
      ensures pendingInput == old(pendingInput)
    {
      var conv := chatHistory[idx - 1];
      messages := conv.messages;
      currentSessionId := conv.sessionId;
    }

    /** "Delete": drop an archived conversation and its map entry. */
    method Delete(idx: nat)
      requires Initialised() && 1 <= idx <= |chatHistory|
      modifies this
      ensures chatHistory == RemoveConversation(old(chatHistory), idx)
      ensures sessionMap == ForgetIndex(old(sessionMap), idx)
      ensures present == old(present) && messages == old(messages)
      ensures currentSessionId == old(currentSessionId)
      ensures templateUsed == old(templateUsed) && errorCount == old(errorCount)
      ensures pendingInput == old(pendingInput)
    {
      chatHistory := chatHistory[..idx - 1] + chatHistory[idx..];
      if idx in sessionMap {
        sessionMap := sessionMap - {idx};
      }
    }

    /**
     * "New Chat": archive the current conversation if it has messages, then
     * start an empty one under `freshId` with the template offer and the
     * error counter reset.
     */
    method NewChat(freshId: string)
      requires Initialised()
      modifies this
      ensures chatHistory == ArchivedHistory(old(chatHistory), old(messages), old(currentSessionId))
      ensures sessionMap == ArchivedMap(old(sessionMap), old(chatHistory), old(messages), old(currentSessionId))
      ensures messages == [] && !templateUsed && currentSessionId == freshId && errorCount == 0
      ensures present == old(present) && pendingInput == old(pendingInput)
    {
      if messages != [] {
        var newIdx := |chatHistory| + 1;
        chatHistory := chatHistory + [Conversation(messages, currentSessionId)];
        sessionMap := sessionMap[newIdx := currentSessionId];
      }
      messages := [];
      templateUsed := false;
      currentSessionId := freshId;
      errorCount := 0;
    }

    /** Clicking suggested question `idx`, offered only on an empty, unused conversation. */
    method SelectTemplate(idx: nat)
      requires Initialised() && messages == [] && !templateUsed
      requires idx < |TemplateQuestions|
      modifies this
      ensures pendingInput == Some(TemplateQuestions[idx]) && Truthy(pendingInput)
      ensures templateUsed
      ensures present == old(present) && messages == old(messages) && chatHistory == old(chatHistory)
      ensures currentSessionId == old(currentSessionId) && sessionMap == old(sessionMap)
      ensures errorCount == old(errorCount)
    {
      pendingInput := Some(TemplateQuestions[idx]);
      templateUsed := true;
    }

    /**
     * Choosing this run's input: a pending question wins over what was typed
     * (`typed`, the value of the chat input box) and is consumed.
     */
    method TakeInput(typed: Option<string>) returns (input: Option<string>)
      modifies this
      ensures Truthy(old(pendingInput)) ==> input == old(pendingInput) && pendingInput == None
      ensures !Truthy(old(pendingInput)) ==> input == typed && pendingInput == old(pendingInput)
      ensures present == old(present) && messages == old(messages) && chatHistory == old(chatHistory)
      ensures templateUsed == old(templateUsed) && currentSessionId == old(currentSessionId)
      ensures sessionMap == old(sessionMap) && errorCount == old(errorCount)
    {
      if Truthy(pendingInput) {
        input := pendingInput;
        pendingInput := None;
      } else {
        input := typed;
      }
    }

    /**
     * One submitted input: record the user's message, run the request
     * (whose outcome is `outcome`), update the counter, then show the reply
     * or the error and record the reply or, when called for, the apology.
     */
    method Submit(userInput: string, outcome: FetchOutcome) returns (shown: Display)
      requires Initialised() && userInput != ""
      modifies this
      ensures errorCount == NextErrorCount(old(errorCount), Classify(outcome))
      ensures messages == old(messages) + Exchange(userInput, Classify(outcome), errorCount)
      ensures shown == Shown(Classify(outcome), errorCount)
      ensures present == old(present) && chatHistory == old(chatHistory) && templateUsed == old(templateUsed)
      ensures currentSessionId == old(currentSessionId) && sessionMap == old(sessionMap)
      ensures pendingInput == old(pendingInput)
    {
      messages := messages + [Message(User, JStr(userInput))];
      var container := Classify(outcome);
      if container.error.Some? {
        errorCount := errorCount + 1;
      } else {
        errorCount := 0;
      }
      if container.error.Some? {
        var errorMessage := container.error.value;
        if errorCount >= 3 {
          errorMessage := errorMessage + RestartHint;
        }
        shown := ErrorBox(errorMessage);
        if ApologyNeeded(errorMessage) {
          messages := messages + [Message(Assistant, JStr(ApologyText))];
        }
      } else {
        var botResponse := container.response.value;
        messages := messages + [Message(Assistant, botResponse)];
        shown := ReplyShown(botResponse);
      }
    }
  }

}
