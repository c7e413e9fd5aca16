/**
 * The LitServe proxy of chat_server.py: it decodes an inbound
 * `{query, session_id}` request, binds the query and the session id into a
 * copy of the fixed pipeline configuration (`TWEAKS`), posts the payload to
 * the remote pipeline and reshapes the answer into `{response: ...}`.
 *
 * The remote pipeline is an oracle from the outbound payload to an outcome;
 * the fresh id that `uuid4` would produce is a parameter. Python's deep copy
 * followed by `dict.update` on the copy becomes a map override on a value,
 * so the master table is a constant that no operation can change.
 */
module ChatServer {
  import opened JsonValues

  /** One pipeline component's parameter block. */
  type Component = map<string, Json>

  /** The twelve pipeline components named in the configuration table. */
  datatype ComponentId =
    | ChatInput | Milvus | Prompt | Memory | ParseData | ChatOutput
    | OllamaEmbeddings | OllamaModel | TextInput | RedisChatMemory
    | StoreMessageA | StoreMessageB

  /** The JSON key under which each component travels. */
  function Name(id: ComponentId): string
  {
    match id
    case ChatInput => "ChatInput-8fGO2"
    case Milvus => "Milvus-tbjwD"
    case Prompt => "Prompt-Ciphp"
    case Memory => "Memory-3Qm7y"
    case ParseData => "ParseData-FAWPR"
    case ChatOutput => "ChatOutput-TR3Kc"
    case OllamaEmbeddings => "OllamaEmbeddings-EarNo"
    case OllamaModel => "OllamaModel-RdzdC"
    case TextInput => "TextInput-uI2CW"
    case RedisChatMemory => "RedisChatMemory-03Kf3"
    case StoreMessageA => "StoreMessage-MfcnZ"
    case StoreMessageB => "StoreMessage-ar6CI"
  }

  /** No two components share a key, so the table is a well-formed JSON object. */
  lemma NamesDistinct(a: ComponentId, b: ComponentId)
    ensures Name(a) == Name(b) <==> a == b
  {
  }

  /** Component to parameter block. */
  type Tweaks = map<ComponentId, Component>

  /** The three components that `predict` rebinds. */
  const BoundIds: set<ComponentId> := {ChatInput, RedisChatMemory, Memory}

  /** The Redis key time-to-live, 48 hours in seconds. */
  const SessionTtl := 172800
  const KeyPrefixStem := "godiva:"

  /** Stand-ins for the two long prose strings of the table (their text is carried through unchanged). */
  const PromptTemplateText := "Answer the user's question using only information from the provided context."
  const SystemMessageText := "# Godiva Wealth Management AI Assistant System Prompt"

  // The master configuration table `TWEAKS`, one constant per component.

  const ChatInputTemplate: Component := map[
    "files" := JStr(""),
    "background_color" := JStr(""),
    "chat_icon" := JStr(""),
    "input_value" := JStr(""),
    "sender" := JStr("User"),
    "sender_name" := JStr("User"),
    "session_id" := JStr(""),
    "should_store_message" := JBool(true),
    "text_color" := JStr("")
  ]

  const MilvusTemplate: Component := map[
    "collection_description" := JStr("web scraped data from godiva"),
    "collection_name" := JStr("godiva_json"),
    "connection_args" := JObject(map[]),
    "consistency_level" := JStr("Strong"),
    "drop_old" := JBool(false),
    "index_params" := JObject(map[]),
    "number_of_results" := JInt(3),
    "password" := JStr("Milvus Token"),
    "primary_field" := JStr("pk"),
    "search_params" := JObject(map[]),
    "search_query" := JStr(""),
    "text_field" := JStr("content"),
    "timeout" := JNull,
    "uri" := JStr("Milvus URL"),
    "vector_field" := JStr("vector")
  ]

  const PromptTemplate: Component := map[
    "template" := JStr(PromptTemplateText),
    "tool_placeholder" := JStr(""),
    "question" := JStr(""),
    "conversation_history" := JStr(""),
    "context" := JStr("")
  ]

  const MemoryTemplate: Component := map[
    "n_messages" := JInt(100),
    "order" := JStr("Ascending"),
    "sender" := JStr("Machine and User"),
    "sender_name" := JStr(""),
    "session_id" := JStr(""),
    "template" := JStr("{sender_name}: {text}")
  ]

  const ParseDataTemplate: Component := map[
    "sep" := JStr("\n"),
    "template" := JStr("{text} , {title}")
  ]

  const ChatOutputTemplate: Component := map[
    "background_color" := JStr(""),
    "chat_icon" := JStr(""),
    "clean_data" := JBool(false),
    "data_template" := JStr("{text}"),
    "sender" := JStr("Machine"),
    "sender_name" := JStr("AI Assistant"),
    "session_id" := JStr(""),
    "should_store_message" := JBool(true),
    "text_color" := JStr("")
  ]

  const OllamaEmbeddingsTemplate: Component := map[
    "base_url" := JStr("Ollama URL"),
    "model_name" := JStr("nomic-embed-text:latest")
  ]

  const OllamaModelTemplate: Component := map[
    "base_url" := JStr("Ollama URL"),
    "format" := JStr(""),
    "input_value" := JStr(""),
    "metadata" := JObject(map[]),
    "mirostat" := JStr("Disabled"),
    "mirostat_eta" := JNull,
    "mirostat_tau" := JNull,
    "model_name" := JStr("llama3.3:latest"),
    "num_ctx" := JNull,
    "num_gpu" := JNull,
    "num_thread" := JNull,
    "repeat_last_n" := JNull,
    "repeat_penalty" := JNull,
    "stop_tokens" := JStr(""),
    "stream" := JBool(false),
    "system" := JStr(""),
    "system_message" := JStr(SystemMessageText),
    "tags" := JStr(""),
    "temperature" := JFloat(0.18),
    "template" := JStr(""),
    "tfs_z" := JNull,
    "timeout" := JNull,
    "tool_model_enabled" := JBool(false),
    "top_k" := JNull,
    "top_p" := JNull,
    "verbose" := JBool(false)
  ]

  const TextInputTemplate: Component := map[
    "input_value" := JStr("")
  ]

  const RedisChatMemoryTemplate: Component := map[
    "database" := JStr("9"),
    "host" := JStr("Redis URL"),
    "key_prefix" := JStr(""),
    "password" := JStr(""),
    "port" := JInt(6380),
    "session_id" := JStr(""),
    "username" := JStr("")
  ]

  const StoreMessageATemplate: Component := map[
    "message" := JStr(""),
    "sender" := JStr(""),
    "sender_name" := JStr(""),
    "session_id" := JStr("")
  ]

  const StoreMessageBTemplate: Component := map[
    "message" := JStr(""),
    "sender" := JStr(""),
    "sender_name" := JStr(""),
    "session_id" := JStr("")
  ]

  const AllComponentIds: set<ComponentId> := {
    ChatInput, Milvus, Prompt, Memory, ParseData, ChatOutput,
    OllamaEmbeddings, OllamaModel, TextInput, RedisChatMemory,
    StoreMessageA, StoreMessageB
  }

  /** The master configuration table `TWEAKS`: every component with its template. */
  const MasterTweaks: Tweaks := map id | id in AllComponentIds :: TemplateOf(id)

  // ---------------------------------------------------------------------
  // GET /health
  // ---------------------------------------------------------------------

  /** The readiness body; it takes no input, so it cannot depend on the remote pipeline. */
  function HealthCheck(): (body: map<string, Json>)
    ensures body.Keys == {"status", "service"}
    ensures body["status"] == JStr("ready") && body["service"] == JStr("chat_api")
  {
    map["status" := JStr("ready"), "service" := JStr("chat_api")]
  }

  // ---------------------------------------------------------------------
  // decode_request
  // ---------------------------------------------------------------------

  datatype Input = Input(query: string, sessionId: string)

  /**
   * `decode_request`: missing fields get defaults, present ones pass through
   * untouched (no trimming, no rejection of empty strings).
   */
  function DecodeRequest(request: map<string, string>, freshId: string): (input: Input)
    ensures "query" in request ==> input.query == request["query"]
    ensures "query" !in request ==> input.query == ""
    ensures "session_id" in request ==> input.sessionId == request["session_id"]
    ensures "session_id" !in request ==> input.sessionId == freshId
  {
    Input(
      if "query" in request then request["query"] else "",
      if "session_id" in request then request["session_id"] else freshId)
  }

  /** Decoding loses nothing: any query and session id, empty ones included, come back as sent, whatever else the body holds. */
  lemma DecodeIsLossless(query: string, sessionId: string, extra: map<string, string>, freshId: string)
    ensures DecodeRequest(extra["query" := query]["session_id" := sessionId], freshId) == Input(query, sessionId)
  {
  }

  /** A missing query becomes the empty string. */
  lemma DecodeDefaultsQuery(request: map<string, string>, freshId: string)
    requires "query" !in request
    ensures DecodeRequest(request, freshId).query == ""
  {
  }

  /** The fresh id matters exactly when the request carries no `session_id` key. */
  lemma FreshIdUsedOnlyWhenAbsent(request: map<string, string>, freshA: string, freshB: string)
    requires freshA != freshB
    ensures DecodeRequest(request, freshA).sessionId == DecodeRequest(request, freshB).sessionId
            <==> "session_id" in request
    ensures "session_id" !in request ==> DecodeRequest(request, freshA).sessionId == freshA
  {
  }

  // ---------------------------------------------------------------------
  // predict: binding the session into a copy of TWEAKS
  // ---------------------------------------------------------------------

  /** Python's `d.update(changes)` and `{**d, **changes}`: later keys win. */
  function Update<K, V>(d: map<K, V>, changes: map<K, V>): (r: map<K, V>)
    ensures r.Keys == d.Keys + changes.Keys
    ensures forall k :: k in changes ==> r[k] == changes[k]
    ensures forall k :: k in d && k !in changes ==> r[k] == d[k]
  {
    d + changes
  }

  /** `after` is `before` with exactly the fields of `changes` set, nothing else touched. */
  ghost predicate OverridesOnly(before: Component, after: Component, changes: Component)
  {
    && after.Keys == before.Keys + changes.Keys
    && (forall f :: f in changes ==> after[f] == changes[f])
    && (forall f :: f in before && f !in changes ==> after[f] == before[f])
  }

  predicate HasBoundComponents(master: Tweaks)
  {
    ChatInput in master && RedisChatMemory in master && Memory in master
  }

  function ChatInputChanges(query: string, sessionId: string): Component
  {
    map["input_value" := JStr(query), "session_id" := JStr(sessionId)]
  }

  function RedisChanges(sessionId: string): Component
  {
    map["session_id" := JStr(sessionId),
        "key_prefix" := JStr(KeyPrefixStem + sessionId),
        "ttl" := JInt(SessionTtl)]
  }

  function MemoryChanges(sessionId: string): Component
  {
    map["session_id" := JStr(sessionId)]
  }

  /** The argument of `updated_tweaks.update(...)`: the three rebuilt components. */
  function SessionOverrides(master: Tweaks, query: string, sessionId: string): (overrides: Tweaks)
    requires HasBoundComponents(master)
    ensures overrides.Keys == BoundIds
    ensures OverridesOnly(master[ChatInput], overrides[ChatInput], ChatInputChanges(query, sessionId))
    ensures OverridesOnly(master[RedisChatMemory], overrides[RedisChatMemory], RedisChanges(sessionId))
    ensures OverridesOnly(master[Memory], overrides[Memory], MemoryChanges(sessionId))
  {
    map[
      ChatInput := Update(master[ChatInput], ChatInputChanges(query, sessionId)),
      RedisChatMemory := Update(master[RedisChatMemory], RedisChanges(sessionId)),
      Memory := Update(master[Memory], MemoryChanges(sessionId))
    ]
  }

  /** The deep copy of `master` after `update(SessionOverrides(...))`. */
  function BindSession(master: Tweaks, query: string, sessionId: string): (bound: Tweaks)
    requires HasBoundComponents(master)
    ensures bound.Keys == master.Keys
  {
    Update(master, SessionOverrides(master, query, sessionId))
  }

  /**
   * What the binding changes and what it leaves alone: the three
   * session-aware components get exactly their new fields, every other
   * component is the template's, and no component is added or dropped.
   */
  lemma BindingFrame(master: Tweaks, query: string, sessionId: string)
    requires HasBoundComponents(master)
    ensures var bound := BindSession(master, query, sessionId);
      && bound.Keys == master.Keys
      && (forall name :: name in master && name !in BoundIds ==> bound[name] == master[name])
      && OverridesOnly(master[ChatInput], bound[ChatInput], ChatInputChanges(query, sessionId))
      && OverridesOnly(master[RedisChatMemory], bound[RedisChatMemory], RedisChanges(sessionId))
      && OverridesOnly(master[Memory], bound[Memory], MemoryChanges(sessionId))
  {
  }

  /**
   * Where the query and the session id end up: in the named fields of the
   * three rebound components; every other `session_id` field keeps the
   * template's value.
   */
  lemma BoundFieldValues(master: Tweaks, query: string, sessionId: string)
    requires HasBoundComponents(master)
    ensures var t := BindSession(master, query, sessionId);
      && t[ChatInput]["input_value"] == JStr(query)
      && t[ChatInput]["session_id"] == JStr(sessionId)
      && t[RedisChatMemory]["session_id"] == JStr(sessionId)
      && t[RedisChatMemory]["key_prefix"] == JStr("godiva:" + sessionId)
      && t[RedisChatMemory]["ttl"] == JInt(172800)
      && t[Memory]["session_id"] == JStr(sessionId)
      && (forall id :: id in t && id !in BoundIds ==> t[id] == master[id])
  {
    BindingFrame(master, query, sessionId);
  }

  /**
   * Binding overwrites every field an earlier binding wrote, so the payload
   * for a request depends on that request alone, even on a table already
   * polluted by a previous binding.
   */
  lemma {:induction false} RebindingForgetsEarlierBinding(master: Tweaks, q1: string, s1: string, q2: string, s2: string)
    requires HasBoundComponents(master)
    ensures HasBoundComponents(BindSession(master, q1, s1))
    ensures BindSession(BindSession(master, q1, s1), q2, s2) == BindSession(master, q2, s2)
  {
    var once := BindSession(master, q1, s1);
    RebuiltComponentsForget(master, q1, s1, q2, s2);
    UpdateTwice(master, SessionOverrides(master, q1, s1), SessionOverrides(master, q2, s2));
  }

  /** The rebuilt components do not depend on an earlier binding either. */
  lemma {:induction false} RebuiltComponentsForget(master: Tweaks, q1: string, s1: string, q2: string, s2: string)
    requires HasBoundComponents(master)
    ensures HasBoundComponents(BindSession(master, q1, s1))
    ensures SessionOverrides(BindSession(master, q1, s1), q2, s2) == SessionOverrides(master, q2, s2)
    ensures SessionOverrides(master, q1, s1).Keys == SessionOverrides(master, q2, s2).Keys
  {
    RebuiltComponentsAgree(master, q1, s1, q2, s2);
  }

  /** Component by component: rebuilding after an earlier binding gives the same blocks. */
  lemma {:induction false} RebuiltComponentsAgree(master: Tweaks, q1: string, s1: string, q2: string, s2: string)
    requires HasBoundComponents(master)
    ensures var once := BindSession(master, q1, s1);
      && HasBoundComponents(once)
      && Update(once[ChatInput], ChatInputChanges(q2, s2)) == Update(master[ChatInput], ChatInputChanges(q2, s2))
      && Update(once[RedisChatMemory], RedisChanges(s2)) == Update(master[RedisChatMemory], RedisChanges(s2))
      && Update(once[Memory], MemoryChanges(s2)) == Update(master[Memory], MemoryChanges(s2))
  {
    var once := BindSession(master, q1, s1);
    BindingFrame(master, q1, s1);
    ChangesShareFields(q1, s1, q2, s2);
    ComponentRebuildForgets(master[ChatInput], once[ChatInput], ChatInputChanges(q1, s1), ChatInputChanges(q2, s2));
    ComponentRebuildForgets(master[RedisChatMemory], once[RedisChatMemory], RedisChanges(s1), RedisChanges(s2));
    ComponentRebuildForgets(master[Memory], once[Memory], MemoryChanges(s1), MemoryChanges(s2));
  }

  /** Every binding writes the same fields. */
  lemma ChangesShareFields(q1: string, s1: string, q2: string, s2: string)
    ensures ChatInputChanges(q1, s1).Keys == ChatInputChanges(q2, s2).Keys == {"input_value", "session_id"}
    ensures RedisChanges(s1).Keys == RedisChanges(s2).Keys == {"session_id", "key_prefix", "ttl"}
    ensures MemoryChanges(s1).Keys == MemoryChanges(s2).Keys == {"session_id"}
  {
  }

  /** Rebuilding a component that was already rebuilt with the same fields. */
  lemma ComponentRebuildForgets(before: Component, after: Component, first: Component, second: Component)
    requires OverridesOnly(before, after, first)
    requires first.Keys == second.Keys
    ensures Update(after, second) == Update(before, second)
  {
    assert after == Update(before, first);
    UpdateTwice(before, first, second);
  }

  /** A second update that covers every key of the first one erases it. */
  lemma UpdateTwice<K, V>(d: map<K, V>, first: map<K, V>, second: map<K, V>)
    requires first.Keys <= second.Keys
    ensures Update(Update(d, first), second) == Update(d, second)
  {
    assert (d + first) + second == d + second;
  }

  /** The outbound JSON body `{output_type, input_type, tweaks}`. */
  datatype Payload = Payload(outputType: string, inputType: string, tweaks: Tweaks)

  function BuildPayload(master: Tweaks, query: string, sessionId: string): (p: Payload)
    requires HasBoundComponents(master)
    ensures p.outputType == "chat" && p.inputType == "chat"
    ensures p.tweaks.Keys == master.Keys
    ensures p.tweaks == BindSession(master, query, sessionId)
  {
    Payload("chat", "chat", BindSession(master, query, sessionId))
  }

  // ---------------------------------------------------------------------
  // Facts about the concrete table
  // ---------------------------------------------------------------------

  /** The template of one component, as `TWEAKS` lists it. */
  function TemplateOf(id: ComponentId): Component
  {
    match id
    case ChatInput => ChatInputTemplate
    case Milvus => MilvusTemplate
    case Prompt => PromptTemplate
    case Memory => MemoryTemplate
    case ParseData => ParseDataTemplate
    case ChatOutput => ChatOutputTemplate
    case OllamaEmbeddings => OllamaEmbeddingsTemplate
    case OllamaModel => OllamaModelTemplate
    case TextInput => TextInputTemplate
    case RedisChatMemory => RedisChatMemoryTemplate
    case StoreMessageA => StoreMessageATemplate
    case StoreMessageB => StoreMessageBTemplate
  }

  /** `TWEAKS` holds all twelve components, each with its template. */
  lemma MasterComponents()
    ensures HasBoundComponents(MasterTweaks)
    ensures forall id :: id in MasterTweaks && MasterTweaks[id] == TemplateOf(id)
  {
    forall id: ComponentId
      ensures id in AllComponentIds
    {
      match id
      case ChatInput =>
      case Milvus =>
      case Prompt =>
      case Memory =>
      case ParseData =>
      case ChatOutput =>
      case OllamaEmbeddings =>
      case OllamaModel =>
      case TextInput =>
      case RedisChatMemory =>
      case StoreMessageA =>
      case StoreMessageB =>
    }
  }

  /** The components whose template carries a `session_id` field. */
  const SessionAwareIds: set<ComponentId> :=
    {ChatInput, Memory, ChatOutput, RedisChatMemory, StoreMessageA, StoreMessageB}

  /** Six templates carry a `session_id` field, every one of them empty. */
  lemma TemplateSessionField(id: ComponentId)
    ensures "session_id" in TemplateOf(id) <==> id in SessionAwareIds
    ensures "session_id" in TemplateOf(id) ==> TemplateOf(id)["session_id"] == JStr("")
  {
    match id
    case Milvus => RetrievalTemplatesLackSession();
    case Prompt => RetrievalTemplatesLackSession();
    case ParseData => RetrievalTemplatesLackSession();
    case OllamaEmbeddings => ModelTemplatesLackSession();
    case OllamaModel => ModelTemplatesLackSession();
    case TextInput => ModelTemplatesLackSession();
    case _ =>
  }

  lemma RetrievalTemplatesLackSession()
    ensures "session_id" !in MilvusTemplate
    ensures "session_id" !in PromptTemplate
    ensures "session_id" !in ParseDataTemplate
  {
  }

  lemma ModelTemplatesLackSession()
    ensures "session_id" !in OllamaEmbeddingsTemplate
    ensures "session_id" !in OllamaModelTemplate
    ensures "session_id" !in TextInputTemplate
  {
  }

  /** The Redis template has no `ttl` field: the binding adds one. */
  lemma RedisTemplateHasNoTtl()
    ensures RedisChatMemory in MasterTweaks
    ensures "ttl" !in MasterTweaks[RedisChatMemory]
    ensures MasterTweaks[RedisChatMemory]["key_prefix"] == JStr("")
  {
    MasterComponents();
    assert "ttl" !in RedisChatMemoryTemplate;
  }

  /**
   * The `session_id` field of one component after binding: the session id
   * for the three rebound components, the table's own value for the rest.
   */
  lemma SessionFieldAfterBinding(master: Tweaks, query: string, sessionId: string, id: ComponentId)
    requires HasBoundComponents(master)
    ensures var t := BindSession(master, query, sessionId);
      && (id in t && "session_id" in t[id] <==>
            id in BoundIds || (id in master && "session_id" in master[id]))
      && (id in t && "session_id" in t[id] ==>
            t[id]["session_id"] == if id in BoundIds then JStr(sessionId) else master[id]["session_id"])
  {
    BindingFrame(master, query, sessionId);
  }

  /**
   * The binding is partial: of the six components of `TWEAKS` that carry a
   * `session_id` field, the three rebound ones receive the session id, and
   * the chat output and both message stores keep the empty string.
   */
  lemma PartialSessionBinding(query: string, sessionId: string)
    ensures HasBoundComponents(MasterTweaks)
    ensures var t := BuildPayload(MasterTweaks, query, sessionId).tweaks;
      && (forall id :: id in t && "session_id" in t[id] <==> id in SessionAwareIds)
      && (forall id :: id in t && "session_id" in t[id] ==>
            t[id]["session_id"] == if id in BoundIds then JStr(sessionId) else JStr(""))
  {
    MasterComponents();
    forall id
      ensures var t := BindSession(MasterTweaks, query, sessionId);
        && (id in t && "session_id" in t[id] <==> id in SessionAwareIds)
        && (id in t && "session_id" in t[id] ==>
              t[id]["session_id"] == if id in BoundIds then JStr(sessionId) else JStr(""))
    {
      SessionFieldAfterBinding(MasterTweaks, query, sessionId, id);
      TemplateSessionField(id);
    }
  }

  // ---------------------------------------------------------------------
  // predict: the remote call and the error collapse
  // ---------------------------------------------------------------------

  /**
   * What the single POST to the remote pipeline yields: an answer (standing
   * for the processed response, whose extraction is not part of the code), or
   * any failure (timeout, connection error, non-2xx status via
   * `raise_for_status`).
   */
  datatype RemoteOutcome = Answered(reply: Json) | Unavailable

  /** The collapsed failure result `{"error": "Service unavailable"}`. */
  const ServiceUnavailable: map<string, Json> := map["error" := JStr("Service unavailable")]

  /**
   * `predict` with the evidently intended success path, over the
   * configuration table `master` (the deployed server passes `TWEAKS`): one
   * call to the remote pipeline with the bound payload; an answer is returned
   * as `{"bot_response": ...}`, every failure collapses to
   * `ServiceUnavailable`.
   */
  function Predict(master: Tweaks, input: Input, remote: Payload -> RemoteOutcome): (output: map<string, Json>)
    requires HasBoundComponents(master)
    ensures var outcome := remote(BuildPayload(master, input.query, input.sessionId));
      && (outcome.Answered? ==> output == map["bot_response" := outcome.reply])
      && (outcome.Unavailable? ==> output == ServiceUnavailable)
  {
    var payload := BuildPayload(master, input.query, input.sessionId);
    match remote(payload)
    case Answered(reply) => map["bot_response" := reply]
    case Unavailable => ServiceUnavailable
  }

  /**
   * `predict` as written: after a successful POST, line 190 reads the
   * undefined name `processed_response`; the `NameError` is caught by the
   * `except Exception` clause, so every call ends in `ServiceUnavailable`.
   */
  function PredictAsWritten(master: Tweaks, input: Input, remote: Payload -> RemoteOutcome): (output: map<string, Json>)
    requires HasBoundComponents(master)
    ensures output == ServiceUnavailable
  {
    var payload := BuildPayload(master, input.query, input.sessionId);
    match remote(payload)
    case Answered(_) => ServiceUnavailable
    case Unavailable => ServiceUnavailable
  }

  /** The result of `predict` has one of exactly two shapes. */
  lemma PredictShapes(master: Tweaks, input: Input, remote: Payload -> RemoteOutcome)
    requires HasBoundComponents(master)
    ensures var out := Predict(master, input, remote);
      || out.Keys == {"bot_response"}
      || out == map["error" := JStr("Service unavailable")]
  {
  }

  /** As written, a pipeline that answers is indistinguishable from one that is down. */
  lemma AsWrittenDiscardsAnswers(master: Tweaks, input: Input)
    requires HasBoundComponents(master)
    ensures var answering := (p: Payload) => Answered(JStr("an answer"));
      && Predict(master, input, answering) == map["bot_response" := JStr("an answer")]
      && PredictAsWritten(master, input, answering) == ServiceUnavailable
      && PredictAsWritten(master, input, answering) != Predict(master, input, answering)
  {
    var answering := (p: Payload) => Answered(JStr("an answer"));
    assert "error" !in Predict(master, input, answering);
  }

  // ---------------------------------------------------------------------
  // encode_response and the whole request
  // ---------------------------------------------------------------------

  /** `encode_response`: `{"response": bot_response}`, or `"Error"` when there is none. */
  function EncodeResponse(output: map<string, Json>): (response: map<string, Json>)
    ensures response.Keys == {"response"}
    ensures "bot_response" in output ==> response["response"] == output["bot_response"]
    ensures "bot_response" !in output ==> response["response"] == JStr("Error")
  {
    map["response" := Get(output, "bot_response", JStr("Error"))]
  }

  /** One POST /predict: decode, predict, encode. */
  function Handle(master: Tweaks, request: map<string, string>, freshId: string,
                  remote: Payload -> RemoteOutcome): (response: map<string, Json>)
    requires HasBoundComponents(master)
    ensures response.Keys == {"response"}
  {
    EncodeResponse(Predict(master, DecodeRequest(request, freshId), remote))
  }

  function HandleAsWritten(master: Tweaks, request: map<string, string>, freshId: string,
                           remote: Payload -> RemoteOutcome): (response: map<string, Json>)
    requires HasBoundComponents(master)
    ensures response.Keys == {"response"}
    ensures response["response"] == JStr("Error")
  {
    EncodeResponse(PredictAsWritten(master, DecodeRequest(request, freshId), remote))
  }

  /**
   * The client sees the pipeline's answer, or the bare word "Error": the
   * failure text "Service unavailable" never leaves the proxy.
   */
  lemma HandleReplies(master: Tweaks, request: map<string, string>, freshId: string,
                      remote: Payload -> RemoteOutcome)
    requires HasBoundComponents(master)
    ensures var input := DecodeRequest(request, freshId);
      var outcome := remote(BuildPayload(master, input.query, input.sessionId));
      Handle(master, request, freshId, remote) ==
        map["response" := if outcome.Answered? then outcome.reply else JStr("Error")]
  {
  }

  /**
   * As written, the answer carries no information: whatever was asked, in
   * whichever session, and whatever the pipeline did, every request is
   * answered `{"response": "Error"}`.
   */
  lemma HandleAsWrittenAlwaysErrors(master: Tweaks, request1: map<string, string>, freshId1: string,
                                    remote1: Payload -> RemoteOutcome, request2: map<string, string>,
                                    freshId2: string, remote2: Payload -> RemoteOutcome)
    requires HasBoundComponents(master)
    ensures HandleAsWritten(master, request1, freshId1, remote1) == HandleAsWritten(master, request2, freshId2, remote2)
    ensures HandleAsWritten(master, request1, freshId1, remote1) == map["response" := JStr("Error")]
  {
    var r := HandleAsWritten(master, request1, freshId1, remote1);
    assert r == map["response" := JStr("Error")];
  }

}
