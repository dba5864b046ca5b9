/**
 * The `DuckChat` helper of the adapter: the process-wide token (VQD) slot and
 * its fetch, the status check of the chat request, and the line decoder of the
 * event stream. The network is replaced by the `HttpResponse` the server would
 * give; the JSON parser is the oracle `parse`.
 */
module DuckChatClient {
  import opened ChatTypes

  const StatusUrl: string := "https://duckduckgo.com/duckchat/v1/status"
  const VqdHeader: string := "x-vqd-4"
  const DataPrefix: string := "data: "
  const DoneLine: string := "data: [DONE]"
  const RateLimitMessage: string := "Too many requests. Please try again later."

  /** The GET that asks the status endpoint to issue a token. */
  function StatusRequest(): (r: HttpRequest)
    ensures r.Get? && r.url == StatusUrl
    ensures r.headers.Keys == {"x-vqd-accept"} && r.headers["x-vqd-accept"] == "1"
  {
    Get(StatusUrl, map["x-vqd-accept" := "1"])
  }

  /** Headers of a chat request; a token of None is dropped from the headers by the HTTP client. */
  function ChatHeaders(vqd: Option<string>): (h: map<string, string>)
    ensures VqdHeader in h <==> vqd.Some?
    ensures vqd.Some? ==> h[VqdHeader] == vqd.value
    ensures "Content-Type" in h && h["Content-Type"] == "application/json"
    ensures "Accept" in h && h["Accept"] == "text/event-stream"
    ensures h.Keys <= {VqdHeader, "Content-Type", "Accept"}
  {
    var fixed := map["Content-Type" := "application/json", "Accept" := "text/event-stream"];
    if vqd.Some? then fixed[VqdHeader := vqd.value] else fixed
  }

  /** The streaming POST that carries the token and the payload `{model, messages}`. */
  function ChatRequest(chatUrl: string, vqd: Option<string>, model: string, messages: seq<Message>): (r: HttpRequest)
    ensures r.Post? && r.url == chatUrl
    ensures r.json.model == model && r.json.messages == messages
    ensures VqdHeader in r.headers <==> vqd.Some?
    ensures vqd.Some? ==> r.headers[VqdHeader] == vqd.value
    ensures "Content-Type" in r.headers && r.headers["Content-Type"] == "application/json"
    ensures "Accept" in r.headers && r.headers["Accept"] == "text/event-stream"
    ensures r.headers.Keys <= {VqdHeader, "Content-Type", "Accept"}
  {
    Post(chatUrl, ChatHeaders(vqd), Payload(model, messages))
  }

  // ---------------------------------------------------------------------------
  // The token slot
  // ---------------------------------------------------------------------------

  /** What one call of `fetch_vqd` does: its result, the slot afterwards, and the request it issued. */
  datatype VqdFetch = VqdFetch(result: Result<Option<string>, Error>, cache: Option<string>, sent: Option<HttpRequest>)

  /**
   * One call of `fetch_vqd` on slot `cache`, where `reply` is what the status
   * endpoint answers if it is asked.
   */
  function FetchVqdSpec(cache: Option<string>, reply: HttpResponse): (f: VqdFetch)
    // a request goes out exactly when the slot is falsy, and it is the status GET
    ensures f.sent.None? <==> Truthy(cache)
    ensures f.sent.Some? ==> f.sent.value == StatusRequest()
    // a returned token is what the slot now holds
    ensures f.result.Ok? ==> f.cache == f.result.value
    // a truthy slot is returned as it is
    ensures Truthy(cache) ==> f.result == Ok(cache)
    // a fresh token is the x-vqd-4 header of a 200 reply
    ensures !Truthy(cache) ==> (f.result.Ok? <==> reply.status == 200)
    ensures !Truthy(cache) && f.result.Ok? ==> f.result.value == HeaderGet(reply.headers, VqdHeader)
    // a failure leaves the slot alone, and only a 429 is a RateLimitError
    ensures f.result.Err? ==> f.cache == cache
    ensures f.result.Err? ==> (f.result.error.RateLimitError? <==> reply.status == 429)
    ensures f.result.Err? && reply.status == 429 ==> f.result.error.message == RateLimitMessage
    ensures f.result.Err? && reply.status != 429 ==>
              f.result.error == GenericError("Failed to initialize chat: " + IntToString(reply.status) + " " + reply.text)
  {
    if Truthy(cache) then
      VqdFetch(Ok(cache), cache, None)
    else if reply.status == 200 then
      var token := HeaderGet(reply.headers, VqdHeader);
      VqdFetch(Ok(token), token, Some(StatusRequest()))
    else if reply.status == 429 then
      VqdFetch(Err(RateLimitError(RateLimitMessage)), cache, Some(StatusRequest()))
    else
      VqdFetch(Err(GenericError("Failed to initialize chat: " + IntToString(reply.status) + " " + reply.text)),
               cache, Some(StatusRequest()))
  }

  /** What a run of `fetch_vqd` calls does: each call's result, the requests issued, the final slot. */
  datatype FetchRun = FetchRun(results: seq<Result<Option<string>, Error>>, requests: nat, cache: Option<string>)

  /** `fetch_vqd` called once per reply in `replies`, in order, starting from slot `cache`. */
  function FetchEach(cache: Option<string>, replies: seq<HttpResponse>): (run: FetchRun)
    ensures |run.results| == |replies|
    ensures run.requests <= |replies|
    decreases |replies|
  {
    if replies == [] then FetchRun([], 0, cache)
    else
      var f := FetchVqdSpec(cache, replies[0]);
      var rest := FetchEach(f.cache, replies[1..]);
      FetchRun([f.result] + rest.results, (if f.sent.Some? then 1 else 0) + rest.requests, rest.cache)
  }

  /** With a truthy slot no call ever issues a request, and every call returns the slot. */
  lemma {:induction false} WarmCacheServesEveryCall(cache: Option<string>, replies: seq<HttpResponse>)
    requires Truthy(cache)
    ensures FetchEach(cache, replies).requests == 0
    ensures FetchEach(cache, replies).cache == cache
    ensures forall i :: 0 <= i < |replies| ==> FetchEach(cache, replies).results[i] == Ok(cache)
  {
    if replies != [] {
      WarmCacheServesEveryCall(cache, replies[1..]);
    }
  }

  /** Once a call returns a truthy token, every later call returns that same token. */
  lemma {:induction false} TokenStableOnceTruthy(cache: Option<string>, replies: seq<HttpResponse>, i: nat)
    requires i < |replies|
    requires FetchEach(cache, replies).results[i].Ok?
    requires Truthy(FetchEach(cache, replies).results[i].value)
    ensures forall j :: i <= j < |replies| ==> FetchEach(cache, replies).results[j] == FetchEach(cache, replies).results[i]
    decreases |replies|
  {
    var f := FetchVqdSpec(cache, replies[0]);
    if i == 0 {
      WarmCacheServesEveryCall(f.cache, replies[1..]);
    } else {
      TokenStableOnceTruthy(f.cache, replies[1..], i - 1);
    }
  }

  /** The slot only ever holds what it started with or the x-vqd-4 header of some 200 reply. */
  lemma {:induction false} CacheComesFromReplies(cache: Option<string>, replies: seq<HttpResponse>)
    ensures var c := FetchEach(cache, replies).cache;
            c == cache || exists i :: 0 <= i < |replies| && replies[i].status == 200 && c == HeaderGet(replies[i].headers, VqdHeader)
    decreases |replies|
  {
    if replies != [] {
      var f := FetchVqdSpec(cache, replies[0]);
      CacheComesFromReplies(f.cache, replies[1..]);
      var c := FetchEach(cache, replies).cache;
      if c != f.cache {
        var i :| 0 <= i < |replies| - 1 && replies[1..][i].status == 200 && c == HeaderGet(replies[1..][i].headers, VqdHeader);
        assert replies[i + 1] == replies[1..][i];
      }
    }
  }

  // ---------------------------------------------------------------------------
  // The event-stream decoder
  // ---------------------------------------------------------------------------

  /** Index of the first sentinel line, or the number of lines when there is none. */
  function FirstDone(lines: seq<string>): (k: nat)
    ensures k <= |lines|
    ensures k < |lines| ==> lines[k] == DoneLine
    ensures forall i :: 0 <= i < k ==> lines[i] != DoneLine
  {
    if lines == [] || lines[0] == DoneLine then 0 else 1 + FirstDone(lines[1..])
  }

  /** What one line before the sentinel contributes: its non-empty `message`, or nothing. */
  function LineFragment(line: string, parse: string -> Parsed): (r: seq<string>)
    ensures |r| <= 1
  {
    if line != "" && DataPrefix <= line then
      match parse(line[|DataPrefix|..])
      case JsonObject(Some(m)) => if m != "" then [m] else []
      case _ => []
    else []
  }

  /** The fragments of a run of lines that holds no sentinel, in order. */
  function Collect(lines: seq<string>, parse: string -> Parsed): (fragments: seq<string>)
  {
    if lines == [] then [] else LineFragment(lines[0], parse) + Collect(lines[1..], parse)
  }

  /** The fragments `process_stream` yields for the lines of a response. */
  function Decode(lines: seq<string>, parse: string -> Parsed): (fragments: seq<string>)
  {
    Collect(lines[..FirstDone(lines)], parse)
  }

  lemma {:induction false} CollectAppend(a: seq<string>, b: seq<string>, parse: string -> Parsed)
    ensures Collect(a + b, parse) == Collect(a, parse) + Collect(b, parse)
  {
    if a == [] {
      assert a + b == b;
    } else {
      assert (a + b)[1..] == a[1..] + b;
      CollectAppend(a[1..], b, parse);
    }
  }

  /**
   * A fragment is produced exactly by a data line whose payload parses to an
   * object with that non-empty message.
   */
  lemma {:induction false} CollectMembers(lines: seq<string>, parse: string -> Parsed, f: string)
    ensures f in Collect(lines, parse) <==>
              exists i :: 0 <= i < |lines| && LineFragment(lines[i], parse) == [f]
  {
    if lines != [] {
      CollectMembers(lines[1..], parse, f);
      if f in Collect(lines, parse) && f !in LineFragment(lines[0], parse) {
        var i :| 0 <= i < |lines| - 1 && LineFragment(lines[1..][i], parse) == [f];
        assert lines[i + 1] == lines[1..][i];
      }
      if exists i :: 0 <= i < |lines| && LineFragment(lines[i], parse) == [f] {
        var i :| 0 <= i < |lines| && LineFragment(lines[i], parse) == [f];
        if i > 0 {
          assert lines[1..][i - 1] == lines[i];
        }
      }
    }
  }

  /** A line yields a fragment exactly when it is a data line whose payload parses to a non-empty message. */
  lemma LineFragmentExactly(line: string, parse: string -> Parsed, f: string)
    ensures LineFragment(line, parse) == [f] <==>
              DataPrefix <= line && parse(line[|DataPrefix|..]) == JsonObject(Some(f)) && f != ""
  {
  }

  /**
   * Decoder output: the fragments are exactly the non-empty messages of data
   * lines that come before the first sentinel, and none of them is empty.
   */
  lemma DecodeMembers(lines: seq<string>, parse: string -> Parsed, f: string)
    ensures f in Decode(lines, parse) <==>
              exists i :: 0 <= i < FirstDone(lines) && DataPrefix <= lines[i] && f != "" &&
                          parse(lines[i][|DataPrefix|..]) == JsonObject(Some(f))
    ensures f in Decode(lines, parse) ==> f != ""
  {
    var k := FirstDone(lines);
    CollectMembers(lines[..k], parse, f);
    forall i | 0 <= i < k
      ensures LineFragment(lines[..k][i], parse) == [f] <==>
                DataPrefix <= lines[i] && parse(lines[i][|DataPrefix|..]) == JsonObject(Some(f)) && f != ""
    {
      assert lines[..k][i] == lines[i];
      LineFragmentExactly(lines[i], parse, f);
    }
  }

  /** Nothing after the first sentinel line is looked at. */
  lemma DecodeStopsAtDone(before: seq<string>, after: seq<string>, parse: string -> Parsed)
    requires forall i :: 0 <= i < |before| ==> before[i] != DoneLine
    ensures Decode(before + [DoneLine] + after, parse) == Collect(before, parse)
  {
    var lines := before + [DoneLine] + after;
    var k := FirstDone(lines);
    assert lines[|before|] == DoneLine;
    assert k == |before|;
    assert lines[..k] == before;
  }

  /**
   * A line that is empty, lacks the data prefix, fails to parse, or carries no
   * non-empty message yields nothing and does not stop decoding.
   */
  lemma DecodeSkipsLine(line: string, rest: seq<string>, parse: string -> Parsed)
    requires line != DoneLine
    requires line == "" || !(DataPrefix <= line) || parse(line[|DataPrefix|..]).ParseFailure?
             || parse(line[|DataPrefix|..]).message.None? || parse(line[|DataPrefix|..]).message == Some("")
    ensures Decode([line] + rest, parse) == Decode(rest, parse)
  {
    var lines := [line] + rest;
    assert lines[1..] == rest;
    assert FirstDone(lines) == 1 + FirstDone(rest);
    assert lines[..FirstDone(lines)][1..] == rest[..FirstDone(rest)];
  }

  /**
   * Lines are decoded as they arrive: decoding the first n lines yields a
   * prefix of what decoding all of them yields, so no fragment is ever retracted.
   */
  lemma DecodePrefix(lines: seq<string>, n: nat, parse: string -> Parsed)
    requires n <= |lines|
    ensures Decode(lines[..n], parse) <= Decode(lines, parse)
  {
    var k := FirstDone(lines);
    var m := FirstDone(lines[..n]);
    assert m == if n < k then n else k by {
      if m < n {
        assert lines[..n][m] == lines[m];
      }
    }
    assert lines[..n][..m] == lines[..m];
    assert lines[..k] == lines[..m] + lines[m..k];
    CollectAppend(lines[..m], lines[m..k], parse);
  }

  /** Two data lines, the sentinel, then one more data line: only the first two messages come out, whatever the last line parses to. */
  lemma DecoderExample(parse: string -> Parsed)
    requires parse("{\"message\": \"A\"}") == JsonObject(Some("A"))
    requires parse("{\"message\":\"B\"}") == JsonObject(Some("B"))
    ensures Decode(["data: {\"message\": \"A\"}", "data: {\"message\":\"B\"}", "data: [DONE]", "data: {\"message\":\"C\"}"], parse)
            == ["A", "B"]
  {
  }

  // ---------------------------------------------------------------------------
  // The helper class
  // ---------------------------------------------------------------------------

  /**
   * `DuckChat`. Its one field is the class attribute `_vqd_cache`: one slot
   * for the whole process, shared by every instance, so one object of this
   * class stands for it.
   */
  class DuckChat {
    var vqdCache: Option<string>

    /** The slot is empty when the process starts. */
    constructor ()
      ensures vqdCache == None
    {
      vqdCache := None;
    }

    /**
     * `fetch_vqd`: return the slot when it is truthy, else ask the status
     * endpoint (whose answer is `reply`) and dispatch on the status code.
     */
    method FetchVqd(reply: HttpResponse) returns (r: Result<Option<string>, Error>, sent: Option<HttpRequest>)
      modifies this
      ensures VqdFetch(r, vqdCache, sent) == FetchVqdSpec(old(vqdCache), reply)
    {
      if Truthy(vqdCache) {
        return Ok(vqdCache), None;
      }
      sent := Some(StatusRequest());
      if reply.status == 200 {
        vqdCache := HeaderGet(reply.headers, VqdHeader);
        r := Ok(vqdCache);
      } else if reply.status == 429 {
        r := Err(RateLimitError(RateLimitMessage));
      } else {
        r := Err(GenericError("Failed to initialize chat: " + IntToString(reply.status) + " " + reply.text));
      }
    }

    /**
     * The status check of `fetch_response` on the server's `reply` to the chat
     * POST: a 200 reply is handed back untouched, every other status, 429
     * included, is a plain error naming the status and the body.
     */
    static function FetchResponse(reply: HttpResponse): (r: Result<HttpResponse, Error>)
      ensures r.Ok? <==> reply.status == 200
      ensures r.Ok? ==> r.value == reply
      ensures r.Err? ==> r.error == GenericError("Failed to send message: " + IntToString(reply.status) + " " + reply.text)
      ensures r.Err? ==> !r.error.RateLimitError?
    {
      if reply.status != 200 then
        Err(GenericError("Failed to send message: " + IntToString(reply.status) + " " + reply.text))
      else
        Ok(reply)
    }

    /**
     * `process_stream`: walk the lines in arrival order, stop at the sentinel,
     * and collect the non-empty messages of the data lines that parse.
     * `consumed` counts the lines read from the stream.
     */
    static method ProcessStream(lines: seq<string>, parse: string -> Parsed) returns (fragments: seq<string>, consumed: nat)
      ensures fragments == Decode(lines, parse)
      ensures consumed == if FirstDone(lines) < |lines| then FirstDone(lines) + 1 else |lines|
    {
      fragments, consumed := [], 0;
      var i := 0;
      while i < |lines|
        invariant i <= FirstDone(lines)
        invariant consumed == i
        invariant fragments == Collect(lines[..i], parse)
      {
        var line := lines[i];
        consumed := consumed + 1;
        if line != "" {
          if line == DoneLine {
            break;
          }
          if DataPrefix <= line {
            match parse(line[|DataPrefix|..]) {
              case ParseFailure =>
              case JsonObject(message) =>
                if message.Some? && message.value != "" {
                  fragments := fragments + [message.value];
                }
            }
          }
        }
        CollectAppend(lines[..i], [line], parse);
        assert lines[..i + 1] == lines[..i] + [line];
        i := i + 1;
      }
    }
  }
}
