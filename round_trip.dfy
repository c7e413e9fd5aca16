/**
 * The chat page talking to the proxy: the body the page posts, what the
 * proxy makes of it, and what the page then records. The proxy's HTTP
 * response reaches the page with status 200 and its JSON object as body.
 */
module RoundTrip {
  import opened Wrappers
  import opened JsonValues
  import S = ChatServer
  import P = ChatPage

  /** The body `fetch_response` posts: `{"query": ..., "session_id": ...}`. */
  function PagePayload(userInput: string, sessionId: string): (body: map<string, string>)
    ensures body.Keys == {"query", "session_id"}
  {
    map["query" := userInput, "session_id" := sessionId]
  }

  /**
   * The proxy reads back exactly what the page sent, without inventing a
   * session id, and binds the page's session into the chat input, the Redis
   * memory and the memory component of the pipeline's configuration.
   */
  lemma PageSessionReachesPipeline(master: S.Tweaks, userInput: string, sessionId: string, freshId: string)
    requires S.HasBoundComponents(master)
    ensures S.DecodeRequest(PagePayload(userInput, sessionId), freshId) == S.Input(userInput, sessionId)
    ensures var t := S.BuildPayload(master, userInput, sessionId).tweaks;
      && t[S.ChatInput]["input_value"] == JStr(userInput)
      && t[S.ChatInput]["session_id"] == JStr(sessionId)
      && t[S.RedisChatMemory]["session_id"] == JStr(sessionId)
      && t[S.Memory]["session_id"] == JStr(sessionId)
  {
    S.DecodeIsLossless(userInput, sessionId, map[], freshId);
    assert PagePayload(userInput, sessionId) == map[] + map["query" := userInput, "session_id" := sessionId];
    S.BoundFieldValues(master, userInput, sessionId);
  }

  /** The proxy's answer as the page receives it. */
  function ProxyResponse(response: map<string, Json>, text: string): P.FetchOutcome
  {
    P.Responded(200, text, P.Parsed(JObject(response)))
  }

  /**
   * With the intended proxy, a pipeline answer that is a string or a list
   * becomes the assistant's message; an unavailable pipeline shows up as the
   * assistant message "Error", not as an error: the counter is reset and no
   * apology is recorded.
   */
  lemma ProxyRepliesReachConversation(master: S.Tweaks, userInput: string, sessionId: string, freshId: string,
                                      remote: S.Payload -> S.RemoteOutcome, text: string, count: nat)
    requires S.HasBoundComponents(master)
    ensures var outcome := remote(S.BuildPayload(master, userInput, sessionId));
      var o := ProxyResponse(S.Handle(master, PagePayload(userInput, sessionId), freshId, remote), text);
      var c := P.Classify(o);
      && (outcome.Answered? && P.Sliceable(outcome.reply) ==> P.Delivers(o, outcome.reply))
      && (outcome.Unavailable? ==>
            && P.Delivers(o, JStr("Error"))
            && P.NextErrorCount(count, c) == 0
            && P.Exchange(userInput, c, 0) ==
                 [P.Message(P.User, JStr(userInput)), P.Message(P.Assistant, JStr("Error"))])
  {
    PageSessionReachesPipeline(master, userInput, sessionId, freshId);
    S.HandleReplies(master, PagePayload(userInput, sessionId), freshId, remote);
    var o := ProxyResponse(S.Handle(master, PagePayload(userInput, sessionId), freshId, remote), text);
    P.ClassifySucceedsIff(o);
  }

  /**
   * With the proxy as written, every request the page sends comes back as
   * the assistant message "Error": the counter never grows, so neither the
   * restart hint nor the apology ever appears, whatever the pipeline did.
   */
  lemma AsWrittenPageAlwaysShowsError(master: S.Tweaks, userInput: string, sessionId: string, freshId: string,
                                      remote: S.Payload -> S.RemoteOutcome, text: string, count: nat)
    requires S.HasBoundComponents(master)
    ensures var o := ProxyResponse(S.HandleAsWritten(master, PagePayload(userInput, sessionId), freshId, remote), text);
      var c := P.Classify(o);
      && P.Delivers(o, JStr("Error"))
      && !P.Fails(o)
      && P.NextErrorCount(count, c) == 0
      && !P.Apologises(o, count)
      && P.Exchange(userInput, c, 0) ==
           [P.Message(P.User, JStr(userInput)), P.Message(P.Assistant, JStr("Error"))]
  {
    S.HandleAsWrittenAlwaysErrors(master, PagePayload(userInput, sessionId), freshId, remote,
                                  PagePayload(userInput, sessionId), freshId, remote);
    var o := ProxyResponse(S.HandleAsWritten(master, PagePayload(userInput, sessionId), freshId, remote), text);
    P.ClassifySucceedsIff(o);
  }

}
