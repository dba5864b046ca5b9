/**
 * `DuckChatModel`, the model the plugin framework drives: it turns a prompt and
 * the prior conversation into the upstream message list, picks the token,
 * sends the chat request, records the refreshed token on the prompt, and hands
 * back the decoded fragments one by one or as a single string.
 */
module DuckChatModels {
  import opened ChatTypes
  import opened DuckChatClient

  const ChatUrl: string := "https://duckduckgo.com/duckchat/v1/chat"
  const IndexErrorMessage: string := "list index out of range"

  /** One earlier response of the conversation: its prompt text, its text, and the token recorded on its prompt's options. */
  datatype PriorResponse = PriorResponse(prompt: string, text: string, vqd: Option<string>)

  /**
   * The framework's prompt: its text and system text are fixed; `vqd` is the
   * `options.vqd` field that a turn overwrites.
   */
  class Prompt {
    const prompt: string
    const system: Option<string>
    var vqd: Option<string>

    constructor (prompt: string, system: Option<string>)
      ensures this.prompt == prompt && this.system == system && vqd == None
    {
      this.prompt := prompt;
      this.system := system;
      vqd := None;
    }
  }

  // ---------------------------------------------------------------------------
  // Message list
  // ---------------------------------------------------------------------------

  /** Each prior response as a user message followed by an assistant message, in order. */
  function Unroll(responses: seq<PriorResponse>): (messages: seq<Message>)
  {
    if responses == [] then []
    else
      var last := responses[|responses| - 1];
      Unroll(responses[..|responses| - 1]) + [Message(User, last.prompt), Message(Assistant, last.text)]
  }

  /**
   * The message list for a prompt. A conversation that is present, even one
   * with no responses, takes the second branch.
   */
  function MessagesFor(text: string, system: Option<string>, conversation: Option<seq<PriorResponse>>): (messages: seq<Message>)
  {
    match conversation
    case None => [Message(User, if Truthy(system) then text + " " + system.value else text)]
    case Some(responses) => Unroll(responses) + [Message(User, text)]
  }

  lemma {:induction false} UnrollShape(responses: seq<PriorResponse>)
    ensures |Unroll(responses)| == 2 * |responses|
    ensures forall i :: 0 <= i < |responses| ==>
              Unroll(responses)[2 * i] == Message(User, responses[i].prompt) &&
              Unroll(responses)[2 * i + 1] == Message(Assistant, responses[i].text)
  {
    if responses != [] {
      var init := responses[..|responses| - 1];
      UnrollShape(init);
      forall i | 0 <= i < |responses| - 1
        ensures Unroll(responses)[2 * i] == Message(User, responses[i].prompt)
        ensures Unroll(responses)[2 * i + 1] == Message(Assistant, responses[i].text)
      {
        assert init[i] == responses[i];
      }
    }
  }

  /**
   * Shape of the message list. Without a conversation: one user message, the
   * prompt, with the system text glued on after exactly one space when it is
   * truthy. With a conversation of N responses: 2N+1 messages, user/assistant
   * per response in order, then the prompt as a user message; the system text
   * is not used.
   */
  lemma MessagesForShape(text: string, system: Option<string>, conversation: Option<seq<PriorResponse>>)
    ensures var m := MessagesFor(text, system, conversation);
            conversation.None? ==>
              |m| == 1 && m[0].role == User &&
              m[0].content == (if Truthy(system) then text + " " + system.value else text)
    ensures var m := MessagesFor(text, system, conversation);
            conversation.Some? ==>
              var rs := conversation.value;
              |m| == 2 * |rs| + 1 &&
              (forall i :: 0 <= i < |rs| ==>
                 m[2 * i] == Message(User, rs[i].prompt) && m[2 * i + 1] == Message(Assistant, rs[i].text)) &&
              m[2 * |rs|] == Message(User, text)
    ensures conversation.Some? ==> MessagesFor(text, system, conversation) == MessagesFor(text, None, conversation)
  {
    if conversation.Some? {
      UnrollShape(conversation.value);
    }
  }

  // ---------------------------------------------------------------------------
  // A whole turn
  // ---------------------------------------------------------------------------

  /** Fragments joined in order with no separator. */
  function Concat(parts: seq<string>): (joined: string)
  {
    if parts == [] then "" else Concat(parts[..|parts| - 1]) + parts[|parts| - 1]
  }

  lemma {:induction false} ConcatAppend(a: seq<string>, b: seq<string>)
    ensures Concat(a + b) == Concat(a) + Concat(b)
    decreases |b|
  {
    if b == [] {
      assert a + b == a;
    } else {
      var init := b[..|b| - 1];
      ConcatAppend(a, init);
      assert (a + b)[..|a + b| - 1] == a + init;
    }
  }

  /**
   * What a turn does: what it yields or raises, the requests it issues, the
   * token slot afterwards, and the prompt's `options.vqd` afterwards.
   */
  datatype Turn = Turn(output: Result<seq<string>, Error>, sent: seq<HttpRequest>, cache: Option<string>, vqd: Option<string>)

  /** The requests a token fetch issued. */
  function Requests(sent: Option<HttpRequest>): (requests: seq<HttpRequest>)
  {
    if sent.Some? then [sent.value] else []
  }

  /**
   * One turn of `execute` for model `modelId`, a prompt with text `text`,
   * system text `system` and recorded token `vqd0`, with the token slot at
   * `cache0`; `statusReply` and `chatReply` are what the two endpoints answer
   * if asked, and `parse` is the JSON parser.
   */
  function TurnSpec(modelId: string, text: string, system: Option<string>, vqd0: Option<string>, cache0: Option<string>,
                    stream: bool, conversation: Option<seq<PriorResponse>>,
                    statusReply: HttpResponse, chatReply: HttpResponse, parse: string -> Parsed): (t: Turn)
  {
    var messages := MessagesFor(text, system, conversation);
    if conversation.Some? && |conversation.value| == 0 then
      Turn(Err(IndexError(IndexErrorMessage)), [], cache0, vqd0)
    else
      var fetched :=
        if conversation.Some? then VqdFetch(Ok(conversation.value[|conversation.value| - 1].vqd), cache0, None)
        else FetchVqdSpec(cache0, statusReply);
      var sent := Requests(fetched.sent);
      if fetched.result.Err? then
        Turn(Err(RuntimeError("Failed to fetch vqd: " + fetched.result.error.message)), sent, fetched.cache, vqd0)
      else
        var request := ChatRequest(ChatUrl, fetched.result.value, modelId, messages);
        match DuckChat.FetchResponse(chatReply)
        case Err(e) =>
          Turn(Err(RuntimeError("Error during chat: " + e.message)), sent + [request], fetched.cache, vqd0)
        case Ok(reply) =>
          var fragments := Decode(reply.lines, parse);
          Turn(Ok(if stream then fragments else [Concat(fragments)]), sent + [request], fetched.cache,
               Some(HeaderGetOr(reply.headers, VqdHeader, "")))
  }

  /**
   * With a non-empty conversation the token is the one recorded on the last
   * response's prompt: no status request goes out, the slot is untouched, and
   * the only request is the chat POST carrying that token and the messages.
   */
  lemma ConversationReusesRecordedToken(modelId: string, text: string, system: Option<string>, vqd0: Option<string>,
                                        cache0: Option<string>, stream: bool, responses: seq<PriorResponse>,
                                        statusReply: HttpResponse, chatReply: HttpResponse, parse: string -> Parsed)
    requires |responses| > 0
    ensures var t := TurnSpec(modelId, text, system, vqd0, cache0, stream, Some(responses), statusReply, chatReply, parse);
            t.cache == cache0 &&
            t.sent == [Post(ChatUrl, ChatHeaders(responses[|responses| - 1].vqd),
                            Payload(modelId, MessagesFor(text, None, Some(responses))))]
  {
  }

  /**
   * Without a conversation the token is whatever `fetch_vqd` returns: the chat
   * POST follows the fetch's own request (if any) and carries that token and
   * the built messages, and the slot afterwards is what the fetch left; the
   * chat reply's x-vqd-4 header never reaches the slot.
   */
  lemma FreshTurnUsesFetchedToken(modelId: string, text: string, system: Option<string>, vqd0: Option<string>,
                                  cache0: Option<string>, stream: bool,
                                  statusReply: HttpResponse, chatReply: HttpResponse, parse: string -> Parsed)
    ensures var f := FetchVqdSpec(cache0, statusReply);
            var t := TurnSpec(modelId, text, system, vqd0, cache0, stream, None, statusReply, chatReply, parse);
            t.cache == f.cache &&
            (f.result.Ok? ==> t.sent == Requests(f.sent) + [ChatRequest(ChatUrl, f.result.value, modelId, MessagesFor(text, system, None))])
  {
  }

  /** With a truthy slot and no conversation, the only request is the chat POST, carrying the slot's token. */
  lemma WarmTurnSendsCachedToken(modelId: string, text: string, system: Option<string>, vqd0: Option<string>,
                                 cache0: Option<string>, stream: bool,
                                 statusReply: HttpResponse, chatReply: HttpResponse, parse: string -> Parsed)
    requires Truthy(cache0)
    ensures var t := TurnSpec(modelId, text, system, vqd0, cache0, stream, None, statusReply, chatReply, parse);
            t.cache == cache0 && |t.sent| == 1 && t.sent[0].Post? &&
            VqdHeader in t.sent[0].headers && t.sent[0].headers[VqdHeader] == cache0.value
  {
  }

  /** A conversation that is present but holds no response raises IndexError before any request. */
  lemma EmptyConversationRaises(modelId: string, text: string, system: Option<string>, vqd0: Option<string>,
                                cache0: Option<string>, stream: bool,
                                statusReply: HttpResponse, chatReply: HttpResponse, parse: string -> Parsed)
    ensures var t := TurnSpec(modelId, text, system, vqd0, cache0, stream, Some([]), statusReply, chatReply, parse);
            t.output.Err? && t.output.error.IndexError? && t.sent == [] && t.cache == cache0 && t.vqd == vqd0
  {
  }

  /**
   * Without a conversation the token comes from `fetch_vqd`. When that fails the
   * turn raises a RuntimeError naming the fetch phase, carrying the rate-limit
   * text for a 429 and the status and body otherwise; nothing else is sent.
   */
  lemma FetchFailureIsWrapped(modelId: string, text: string, system: Option<string>, vqd0: Option<string>,
                              cache0: Option<string>, stream: bool,
                              statusReply: HttpResponse, chatReply: HttpResponse, parse: string -> Parsed)
    requires !Truthy(cache0) && statusReply.status != 200
    ensures var t := TurnSpec(modelId, text, system, vqd0, cache0, stream, None, statusReply, chatReply, parse);
            t.sent == [StatusRequest()] && t.cache == cache0 && t.vqd == vqd0 &&
            t.output == Err(RuntimeError("Failed to fetch vqd: " +
              if statusReply.status == 429 then RateLimitMessage
              else "Failed to initialize chat: " + IntToString(statusReply.status) + " " + statusReply.text))
  {
  }

  /**
   * Once a token is in hand, a chat reply other than 200 (429 included) makes
   * the turn raise a RuntimeError naming the chat phase, and the prompt's token
   * is left as it was.
   */
  lemma ChatFailureIsWrapped(modelId: string, text: string, system: Option<string>, vqd0: Option<string>,
                             cache0: Option<string>, stream: bool, conversation: Option<seq<PriorResponse>>,
                             statusReply: HttpResponse, chatReply: HttpResponse, parse: string -> Parsed)
    requires conversation.Some? ==> |conversation.value| > 0
    requires conversation.None? ==> Truthy(cache0) || statusReply.status == 200
    requires chatReply.status != 200
    ensures var t := TurnSpec(modelId, text, system, vqd0, cache0, stream, conversation, statusReply, chatReply, parse);
            t.vqd == vqd0 &&
            t.output == Err(RuntimeError("Error during chat: Failed to send message: " +
                                         IntToString(chatReply.status) + " " + chatReply.text))
  {
    var detail := "Failed to send message: " + IntToString(chatReply.status) + " " + chatReply.text;
    assert DuckChat.FetchResponse(chatReply) == Err(GenericError(detail));
    var fetched :=
      if conversation.Some? then VqdFetch(Ok(conversation.value[|conversation.value| - 1].vqd), cache0, None)
      else FetchVqdSpec(cache0, statusReply);
    assert fetched.result.Ok?;
    assert "Error during chat: " + detail
        == "Error during chat: Failed to send message: " + IntToString(chatReply.status) + " " + chatReply.text;
  }

  /**
   * A turn succeeds exactly when a token was obtained and the chat reply is
   * 200; then the prompt's token becomes the reply's x-vqd-4 header, or "" when
   * it has none. A failed turn yields nothing and leaves the prompt's token alone.
   */
  lemma TurnOutcome(modelId: string, text: string, system: Option<string>, vqd0: Option<string>,
                    cache0: Option<string>, stream: bool, conversation: Option<seq<PriorResponse>>,
                    statusReply: HttpResponse, chatReply: HttpResponse, parse: string -> Parsed)
    ensures var t := TurnSpec(modelId, text, system, vqd0, cache0, stream, conversation, statusReply, chatReply, parse);
            var tokenOk := if conversation.Some? then |conversation.value| > 0
                           else Truthy(cache0) || statusReply.status == 200;
            (t.output.Ok? <==> tokenOk && chatReply.status == 200) &&
            (t.output.Ok? ==> t.vqd == Some(HeaderGetOr(chatReply.headers, VqdHeader, ""))) &&
            (t.output.Err? ==> t.vqd == vqd0)
  {
  }

  /**
   * Batch and stream mode differ only in what is yielded: the batch turn yields
   * exactly one string, the in-order, separator-free concatenation of the
   * fragments the stream turn yields, which are the decoded fragments.
   */
  lemma BatchIsConcatenatedStream(modelId: string, text: string, system: Option<string>, vqd0: Option<string>,
                                  cache0: Option<string>, conversation: Option<seq<PriorResponse>>,
                                  statusReply: HttpResponse, chatReply: HttpResponse, parse: string -> Parsed)
    ensures var s := TurnSpec(modelId, text, system, vqd0, cache0, true, conversation, statusReply, chatReply, parse);
            var b := TurnSpec(modelId, text, system, vqd0, cache0, false, conversation, statusReply, chatReply, parse);
            s.sent == b.sent && s.cache == b.cache && s.vqd == b.vqd &&
            (s.output.Err? <==> b.output.Err?) &&
            (s.output.Err? ==> s.output == b.output) &&
            (s.output.Ok? ==> s.output.value == Decode(chatReply.lines, parse) && b.output == Ok([Concat(s.output.value)]))
  {
  }

  /**
   * Token hand-off between turns: after a first turn that succeeds, a second
   * turn in the same conversation, whose last response is the first one with
   * the token the first turn recorded, sends exactly that token and issues no
   * status request.
   */
  lemma NextTurnReusesToken(modelId: string, text1: string, system1: Option<string>, cache0: Option<string>,
                            stream1: bool, statusReply1: HttpResponse, chatReply1: HttpResponse,
                            earlier: seq<PriorResponse>, responseText: string, text2: string, system2: Option<string>,
                            vqd2: Option<string>, stream2: bool,
                            statusReply2: HttpResponse, chatReply2: HttpResponse, parse: string -> Parsed)
    requires TurnSpec(modelId, text1, system1, None, cache0, stream1, None, statusReply1, chatReply1, parse).output.Ok?
    ensures var t1 := TurnSpec(modelId, text1, system1, None, cache0, stream1, None, statusReply1, chatReply1, parse);
            var conversation := earlier + [PriorResponse(text1, responseText, t1.vqd)];
            var t2 := TurnSpec(modelId, text2, system2, vqd2, t1.cache, stream2, Some(conversation), statusReply2, chatReply2, parse);
            t1.vqd == Some(HeaderGetOr(chatReply1.headers, VqdHeader, "")) &&
            t2.cache == t1.cache &&
            |t2.sent| == 1 && t2.sent[0].Post? && t2.sent[0].headers[VqdHeader] == t1.vqd.value
  {
  }

  /** The stream of the adapter's own batch test decodes to its one message. */
  lemma TestStreamDecodes(parse: string -> Parsed, lines: seq<string>)
    requires parse("{\"message\": \"I am fine.\"}") == JsonObject(Some("I am fine."))
    requires lines == ["data: {\"message\": \"I am fine.\"}", "data: [DONE]"]
    ensures Decode(lines, parse) == ["I am fine."]
  {
    var line := "data: {\"message\": \"I am fine.\"}";
    assert DataPrefix <= line && line[|DataPrefix|..] == "{\"message\": \"I am fine.\"}";
    assert LineFragment(line, parse) == ["I am fine."];
    assert Collect([line], parse) == ["I am fine."];
    assert lines == [line] + [DoneLine] + [];
    DecodeStopsAtDone([line], [], parse);
  }

  /**
   * The batch turn without a conversation from the adapter's own test: token
   * "test_vqd" already in the slot, one data line and the sentinel; the turn
   * yields "I am fine." and records "new_vqd".
   */
  lemma BatchTurnExample(parse: string -> Parsed, chatReply: HttpResponse, statusReply: HttpResponse)
    requires parse("{\"message\": \"I am fine.\"}") == JsonObject(Some("I am fine."))
    requires chatReply == HttpResponse(200, map[VqdHeader := "new_vqd"], "",
                                       ["data: {\"message\": \"I am fine.\"}", "data: [DONE]"])
    ensures var t := TurnSpec("gpt-4o-mini", "Hello, how are you?", None, None, Some("test_vqd"), false, None,
                              statusReply, chatReply, parse);
            t.output == Ok(["I am fine."]) && t.vqd == Some("new_vqd") && |t.sent| == 1
  {
    var t := TurnSpec("gpt-4o-mini", "Hello, how are you?", None, None, Some("test_vqd"), false, None,
                      statusReply, chatReply, parse);
    TestStreamDecodes(parse, chatReply.lines);
    assert Truthy(Some("test_vqd"));
    assert FetchVqdSpec(Some("test_vqd"), statusReply).result == Ok(Some("test_vqd"));
    assert DuckChat.FetchResponse(chatReply) == Ok(chatReply);
    assert HeaderGetOr(chatReply.headers, VqdHeader, "") == "new_vqd";
    var d := Decode(chatReply.lines, parse);
    assert t.output == Ok([Concat(d)]);
    assert d[..0] == [];
    assert Concat(d) == "I am fine.";
  }

  // ---------------------------------------------------------------------------
  // The model
  // ---------------------------------------------------------------------------

  class DuckChatModel {
    const modelId: string

    constructor (modelId: string)
      ensures this.modelId == modelId
    {
      this.modelId := modelId;
    }

    /** `build_messages`: the upstream message list for `prompt` and the prior conversation. */
    method BuildMessages(prompt: Prompt, conversation: Option<seq<PriorResponse>>) returns (messages: seq<Message>)
      ensures messages == MessagesFor(prompt.prompt, prompt.system, conversation)
    {
      messages := [];
      if conversation.None? {
        if Truthy(prompt.system) {
          messages := messages + [Message(User, prompt.prompt + " " + prompt.system.value)];
        } else {
          messages := messages + [Message(User, prompt.prompt)];
        }
        return;
      }
      var responses := conversation.value;
      for i := 0 to |responses|
        invariant messages == Unroll(responses[..i])
      {
        assert responses[..i + 1][..i] == responses[..i];
        messages := messages + [Message(User, responses[i].prompt)];
        messages := messages + [Message(Assistant, responses[i].text)];
      }
      assert responses[..|responses|] == responses;
      messages := messages + [Message(User, prompt.prompt)];
    }

    /**
     * `execute`: one turn. `chat` holds the process-wide token slot; the
     * prompt's `vqd` is overwritten on success. The result is what the
     * generator yields, or the exception it raises.
     */
    method Execute(chat: DuckChat, prompt: Prompt, stream: bool, conversation: Option<seq<PriorResponse>>,
                   statusReply: HttpResponse, chatReply: HttpResponse, parse: string -> Parsed)
      returns (output: Result<seq<string>, Error>, sent: seq<HttpRequest>)
      modifies chat, prompt
      ensures Turn(output, sent, chat.vqdCache, prompt.vqd)
              == TurnSpec(modelId, prompt.prompt, prompt.system, old(prompt.vqd), old(chat.vqdCache),
                          stream, conversation, statusReply, chatReply, parse)
    {
      var messages := BuildMessages(prompt, conversation);
      sent := [];
      var vqd: Option<string>;
      if conversation.Some? {
        if |conversation.value| == 0 {
          output := Err(IndexError(IndexErrorMessage));
          return;
        }
        vqd := conversation.value[|conversation.value| - 1].vqd;
      } else {
        var fetched, request := chat.FetchVqd(statusReply);
        sent := Requests(request);
        if fetched.Err? {
          output := Err(RuntimeError("Failed to fetch vqd: " + fetched.error.message));
          return;
        }
        vqd := fetched.value;
      }
      sent := sent + [ChatRequest(ChatUrl, vqd, modelId, messages)];
      var checked := DuckChat.FetchResponse(chatReply);
      if checked.Err? {
        output := Err(RuntimeError("Error during chat: " + checked.error.message));
        return;
      }
      var reply := checked.value;
      prompt.vqd := Some(HeaderGetOr(reply.headers, VqdHeader, ""));
      var fragments, consumed := DuckChat.ProcessStream(reply.lines, parse);
      if stream {
        output := Ok(fragments);
      } else {
        var finalMessage := "";
        for i := 0 to |fragments|
          invariant finalMessage == Concat(fragments[..i])
        {
          assert fragments[..i + 1][..i] == fragments[..i];
          finalMessage := finalMessage + fragments[i];
        }
        assert fragments[..|fragments|] == fragments;
        output := Ok([finalMessage]);
      }
    }
  }
}
