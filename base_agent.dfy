/** What every agent shares: the shape of its result records, the chat request it sends to
    OpenAI, and the gateway that sends those requests one at a time, at least a second apart.
    Time is in integer milliseconds; the OpenAI SDK is an oracle given per request. */
module BaseAgent {
  import opened Wrappers
  import opened Json
  import opened Strings

  // ---------------------------------------------------------------- result records

  /** `{"status": …, "message": …, "data": …}`, the record every `execute` returns. */
  datatype Reply = Reply(status: string, message: string, data: Value) {
    function ToValue(): (v: Value)
      ensures v.Obj? && v.fields.Keys == {"status", "message", "data"}
    {
      Obj(map["status" := Str(status), "message" := Str(message), "data" := data])
    }
  }

  /** Reads a result record back from its dict form. */
  function FromValue(v: Value): (r: Option<Reply>)
    ensures r.Some? ==> r.value.ToValue() == v
  {
    if v.Obj? && v.fields.Keys == {"status", "message", "data"}
      && v.fields["status"].Str? && v.fields["message"].Str?
    then
      var r := Reply(v.fields["status"].s, v.fields["message"].s, v.fields["data"]);
      assert r.ToValue().fields == v.fields;
      Some(r)
    else None
  }

  /** A record survives the trip to its dict form and back. */
  lemma ReplyRoundTrip(r: Reply)
    ensures FromValue(r.ToValue()) == Some(r)
  {
  }

  /** `_format_error`: status "error", the exception's text, no data. */
  function FormatError(message: string): (r: Reply)
    ensures r.status == "error" && r.message == message && r.data == Null
  {
    Reply("error", message, Null)
  }

  /** `_format_success`: status "success" with the message and data given. */
  function FormatSuccess(message: string, data: Value): (r: Reply)
    ensures r.status == "success" && r.message == message && r.data == data
  {
    Reply("success", message, data)
  }

  /** An error record and a success record are never the same record, whatever they carry. */
  lemma ErrorIsNotSuccess(m1: string, m2: string, d: Value)
    ensures FormatError(m1).ToValue() != FormatSuccess(m2, d).ToValue()
  {
    assert FormatError(m1).ToValue().fields["status"] == Str("error");
    assert FormatSuccess(m2, d).ToValue().fields["status"] == Str("success");
  }

  // ---------------------------------------------------------------- one OpenAI request

  datatype Message = Message(role: string, content: string)

  const KeyNotSet: string := "OPENAI_API_KEY is not set."

  /** `if system_prompt:` is true for a given, non-empty system prompt. */
  predicate HasSystemPrompt(systemPrompt: Option<string>) {
    systemPrompt.Some? && systemPrompt.value != []
  }

  /** The messages `_make_openai_request` sends. */
  function ChatMessages(prompt: string, systemPrompt: Option<string>): (r: seq<Message>)
    ensures 1 <= |r| <= 2
    ensures r[|r| - 1] == Message("user", prompt)
    ensures |r| == 2 <==> HasSystemPrompt(systemPrompt)
    ensures |r| == 2 ==> r[0] == Message("system", systemPrompt.value)
  {
    (if HasSystemPrompt(systemPrompt) then [Message("system", systemPrompt.value)] else [])
      + [Message("user", prompt)]
  }

  /** An unset key is None or the empty string (`if not self.openai_api_key`). */
  predicate KeySet(apiKey: Option<string>) {
    apiKey.Some? && apiKey.value != []
  }

  /** What `_make_openai_request` returns (or raises) given what the SDK answers to the
      messages it is sent. */
  function Outcome(apiKey: Option<string>, prompt: string, systemPrompt: Option<string>,
                   sdk: seq<Message> -> Result<string, string>): (r: Result<string, string>)
    ensures !KeySet(apiKey) ==> r == Failure(KeyNotSet)
    ensures KeySet(apiKey) ==> (r.Success? <==> sdk(ChatMessages(prompt, systemPrompt)).Success?)
    ensures r.Success? ==>
      Trimmed(r.value) && r.value == Strip(sdk(ChatMessages(prompt, systemPrompt)).value)
  {
    if !KeySet(apiKey) then Failure(KeyNotSet)
    else
      match sdk(ChatMessages(prompt, systemPrompt))
      case Success(content) => Success(Strip(content))
      case Failure(e) => Failure(e)
  }

  /** `_make_openai_request`: refuses before building anything when the key is unset; otherwise
      builds the message list, asks the SDK and strips the answer. */
  method MakeRequest(apiKey: Option<string>, prompt: string, systemPrompt: Option<string>,
                     sdk: seq<Message> -> Result<string, string>) returns (r: Result<string, string>)
    ensures r == Outcome(apiKey, prompt, systemPrompt, sdk)
  {
    if apiKey.None? || apiKey.value == [] {
      return Failure(KeyNotSet);
    }
    var messages: seq<Message> := [];
    if systemPrompt.Some? && systemPrompt.value != [] {
      messages := messages + [Message("system", systemPrompt.value)];
    }
    messages := messages + [Message("user", prompt)];
    assert messages == ChatMessages(prompt, systemPrompt);
    var answer := sdk(messages);
    match answer {
      case Success(content) => r := Success(Strip(content));
      case Failure(e) => r := Failure(e);
    }
  }

  // ---------------------------------------------------------------- the request gateway

  /** `min_request_interval`, 1.0 s. */
  const MinRequestInterval: int := 1000
  /** The `asyncio.sleep(0.1)` after every turn of the processing loop. */
  const PollDelay: int := 100

  /** How long the processor sleeps before a request, given the time since the last success. */
  function Wait(elapsed: int): (w: nat)
    ensures elapsed < MinRequestInterval ==> elapsed + w == MinRequestInterval
    ensures elapsed >= MinRequestInterval ==> w == 0
  {
    if elapsed < MinRequestInterval then MinRequestInterval - elapsed else 0
  }

  /** A queued `_call_openai(prompt, system_prompt)`. */
  datatype Request = Request(prompt: string, systemPrompt: Option<string>)

  /** What the SDK does with one request: its answer, and how long it takes. */
  datatype Completion = Completion(sdk: seq<Message> -> Result<string, string>, duration: nat)

  /** One resolved future: the request, when it was sent and answered, and its result. */
  datatype Served = Served(request: Request, start: int, finish: int, reply: Result<string, string>)

  /** A stretch of processing: what was served, the clock after it and `last_request_time`. */
  datatype Run = Run(trace: seq<Served>, clock: int, last: int)

  /** One turn of `_process_queue` with a non-empty queue. */
  function Step(apiKey: Option<string>, clock: int, last: int, req: Request, c: Completion): (s: Run)
    ensures |s.trace| == 1 && s.trace[0].request == req
    ensures s.trace[0].reply == Outcome(apiKey, req.prompt, req.systemPrompt, c.sdk)
    ensures var start := s.trace[0].start;
      start >= clock && start >= last + MinRequestInterval
      && (start == clock || start == last + MinRequestInterval)
    ensures s.trace[0].finish == s.trace[0].start + c.duration
    ensures s.last == if s.trace[0].reply.Success? then s.trace[0].finish else last
    ensures s.clock == s.trace[0].finish + PollDelay
  {
    var start := clock + Wait(clock - last);
    var finish := start + c.duration;
    var reply := Outcome(apiKey, req.prompt, req.systemPrompt, c.sdk);
    Run([Served(req, start, finish, reply)], finish + PollDelay,
        if reply.Success? then finish else last)
  }

  /** Processing a queue to the end, one request per turn, first in first out. */
  function Drain(apiKey: Option<string>, clock: int, last: int, rs: seq<Request>, cs: seq<Completion>): (r: Run)
    requires |rs| == |cs|
    ensures |r.trace| == |rs|
    decreases |rs|
  {
    if |rs| == 0 then Run([], clock, last)
    else
      var s := Step(apiKey, clock, last, rs[0], cs[0]);
      var rest := Drain(apiKey, s.clock, s.last, rs[1..], cs[1..]);
      Run(s.trace + rest.trace, rest.clock, rest.last)
  }

  /** Every queued request is answered exactly once, in the order it was queued, with what
      `_make_openai_request` gives for it. */
  lemma {:induction false} DrainIsFifo(apiKey: Option<string>, clock: int, last: int,
                                       rs: seq<Request>, cs: seq<Completion>)
    requires |rs| == |cs|
    ensures var t := Drain(apiKey, clock, last, rs, cs).trace;
      |t| == |rs| && forall i :: 0 <= i < |rs| ==>
        t[i].request == rs[i] && t[i].reply == Outcome(apiKey, rs[i].prompt, rs[i].systemPrompt, cs[i].sdk)
    decreases |rs|
  {
    if |rs| > 0 {
      var s := Step(apiKey, clock, last, rs[0], cs[0]);
      DrainIsFifo(apiKey, s.clock, s.last, rs[1..], cs[1..]);
    }
  }

  /** No request starts before the clock, nor within the minimum interval of the last success
      recorded when processing began; and the recorded time never goes back. */
  lemma {:induction false} DrainStartsLate(apiKey: Option<string>, clock: int, last: int,
                                           rs: seq<Request>, cs: seq<Completion>)
    requires |rs| == |cs|
    ensures var r := Drain(apiKey, clock, last, rs, cs);
      r.last >= last && forall i :: 0 <= i < |r.trace| ==>
        r.trace[i].start >= clock && r.trace[i].start >= last + MinRequestInterval
    decreases |rs|
  {
    if |rs| > 0 {
      var s := Step(apiKey, clock, last, rs[0], cs[0]);
      DrainStartsLate(apiKey, s.clock, s.last, rs[1..], cs[1..]);
    }
  }

  /** Requests never overlap: each starts only after the previous one has been answered and
      the loop has slept. */
  lemma {:induction false} DrainOneAtATime(apiKey: Option<string>, clock: int, last: int,
                                           rs: seq<Request>, cs: seq<Completion>, i: nat)
    requires |rs| == |cs| && i + 1 < |rs|
    ensures var t := Drain(apiKey, clock, last, rs, cs).trace;
      |t| == |rs| && t[i + 1].start >= t[i].finish + PollDelay
    decreases |rs|
  {
    DrainIsFifo(apiKey, clock, last, rs, cs);
    var s := Step(apiKey, clock, last, rs[0], cs[0]);
    DrainIsFifo(apiKey, s.clock, s.last, rs[1..], cs[1..]);
    if i == 0 {
      DrainStartsLate(apiKey, s.clock, s.last, rs[1..], cs[1..]);
    } else {
      DrainOneAtATime(apiKey, s.clock, s.last, rs[1..], cs[1..], i - 1);
    }
  }

  /** The rate limit: a request starts at least the minimum interval after the end of every
      earlier request that succeeded. A failed request does not hold back the next one. */
  lemma {:induction false} DrainSpacing(apiKey: Option<string>, clock: int, last: int,
                                        rs: seq<Request>, cs: seq<Completion>, i: nat, j: nat)
    requires |rs| == |cs| && i < j < |rs|
    requires Drain(apiKey, clock, last, rs, cs).trace[i].reply.Success?
    ensures var t := Drain(apiKey, clock, last, rs, cs).trace;
      t[j].start >= t[i].finish + MinRequestInterval
    decreases |rs|
  {
    var s := Step(apiKey, clock, last, rs[0], cs[0]);
    var rest := Drain(apiKey, s.clock, s.last, rs[1..], cs[1..]).trace;
    var t := Drain(apiKey, clock, last, rs, cs).trace;
    assert t == s.trace + rest;
    assert t[j] == rest[j - 1];
    if i == 0 {
      assert t[0] == s.trace[0] && s.last == t[0].finish;
      DrainStartsLate(apiKey, s.clock, s.last, rs[1..], cs[1..]);
    } else {
      assert t[i] == rest[i - 1];
      DrainSpacing(apiKey, s.clock, s.last, rs[1..], cs[1..], i - 1, j - 1);
    }
  }

  /** The agent's request queue and its processor. */
  class Gateway {
    const apiKey: Option<string>
    var clock: int
    var lastRequestTime: int
    var queue: seq<Request>

    /** `BaseAgent.__init__`: the last request time starts at the construction time. */
    constructor (apiKey: Option<string>, now: int)
      ensures this.apiKey == apiKey && clock == now && lastRequestTime == now && queue == []
    {
      this.apiKey := apiKey;
      clock := now;
      lastRequestTime := now;
      queue := [];
    }

    /** `_call_openai`: the request joins the back of the queue. */
    method Call(prompt: string, systemPrompt: Option<string>)
      modifies this
      ensures queue == old(queue) + [Request(prompt, systemPrompt)]
      ensures clock == old(clock) && lastRequestTime == old(lastRequestTime)
    {
      queue := queue + [Request(prompt, systemPrompt)];
    }

    /** One turn of `_process_queue`: take the head of the queue, wait out the interval, send
        it, and record the time of a success. */
    method Serve(c: Completion) returns (sv: Served)
      requires queue != []
      modifies this
      ensures Run([sv], clock, lastRequestTime)
        == Step(apiKey, old(clock), old(lastRequestTime), old(queue)[0], c)
      ensures queue == old(queue)[1..]
    {
      var req := queue[0];
      queue := queue[1..];
      var start := clock + Wait(clock - lastRequestTime);
      var reply := MakeRequest(apiKey, req.prompt, req.systemPrompt, c.sdk);
      var finish := start + c.duration;
      if reply.Success? {
        lastRequestTime := finish;
      }
      sv := Served(req, start, finish, reply);
      clock := finish + PollDelay;
    }

    /** `_process_queue` until the queue is empty, given the SDK's behaviour for each queued
        request in turn. */
    method ProcessQueue(cs: seq<Completion>) returns (served: seq<Served>)
      requires |cs| == |queue|
      modifies this
      ensures Run(served, clock, lastRequestTime)
        == Drain(apiKey, old(clock), old(lastRequestTime), old(queue), cs)
      ensures queue == []
    {
      ghost var all := Drain(apiKey, clock, lastRequestTime, queue, cs);
      served := [];
      var k := 0;
      while queue != []
        invariant 0 <= k <= |cs| && |queue| == |cs| - k
        invariant var rest := Drain(apiKey, clock, lastRequestTime, queue, cs[k..]);
          served + rest.trace == all.trace && rest.clock == all.clock && rest.last == all.last
        decreases |queue|
      {
        ghost var rest := Drain(apiKey, clock, lastRequestTime, queue, cs[k..]);
        ghost var q := queue;
        var sv := Serve(cs[k]);
        assert cs[k..][1..] == cs[k + 1..] && q[1..] == queue;
        assert rest.trace == [sv] + Drain(apiKey, clock, lastRequestTime, queue, cs[k + 1..]).trace;
        served := served + [sv];
        k := k + 1;
      }
    }
  }
}
