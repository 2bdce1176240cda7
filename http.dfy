/**
 * The part of the HTTP framework that the control endpoints touch, reduced to
 * its effect: a response record (status, headers, JSON body envelope), and a
 * log of the two events the gate is judged by, a call of an authorization
 * hook and a run of a route's own handler logic.
 *
 * `Context` stands for the response object the handlers and middleware write
 * into (`ResponseWrapper`, or `ctx.res()` in middleware); its methods are the
 * framework calls `status`, `header` and `json`. The pure functions beside
 * them say what each call does to an `Exchange`, the value a Context holds.
 */
module Http {
  import opened Wrappers

  /** A JSON scalar, as the envelopes use them. */
  datatype Json = JBool(b: bool) | JInt(n: int) | JStr(s: string)

  datatype Field = Field(key: string, value: Json)

  /** A flat JSON object, its fields in the order they are written. */
  type Envelope = seq<Field>

  datatype Response = Response(status: int, headers: map<string, string>, body: Option<Envelope>)

  datatype Event = HookInvoked | HandlerRan

  /** A request in flight: the response written so far and what has happened. */
  datatype Exchange = Exchange(res: Response, log: seq<Event>)

  /** What an authorization hook returns, with the response as the hook left it. */
  datatype HookReply = HookReply(ok: bool, res: Response)

  /**
   * A user-supplied authorization hook, already applied to the request at
   * hand: it sees the response and may write to it, and returns its verdict.
   */
  type Hook = Response -> HookReply

  /**
   * The result of one gate or middleware: the exchange it leaves, and whether
   * it lets the request go on (a middleware calling `next`, or the legacy
   * check returning true).
   */
  datatype Step = Step(x: Exchange, proceed: bool)

  /** How many times a hook has been invoked within the exchange. */
  function HookCalls(x: Exchange): nat
  {
    multiset(x.log)[HookInvoked]
  }

  /** How many times a route's own handler logic has run within the exchange. */
  function HandlerRuns(x: Exchange): nat
  {
    multiset(x.log)[HandlerRan]
  }

  function WithStatus(x: Exchange, code: int): Exchange
  {
    x.(res := x.res.(status := code))
  }

  function WithHeader(x: Exchange, name: string, value: string): Exchange
  {
    x.(res := x.res.(headers := x.res.headers[name := value]))
  }

  function WithJson(x: Exchange, body: Envelope): Exchange
  {
    x.(res := x.res.(body := Some(body)))
  }

  function Handled(x: Exchange): Exchange
  {
    x.(log := x.log + [HandlerRan])
  }

  /** Calling a hook: one more invocation, the response as the hook left it, its verdict. */
  function Invoke(h: Hook, x: Exchange): (s: Step)
    ensures HookCalls(s.x) == HookCalls(x) + 1
    ensures HandlerRuns(s.x) == HandlerRuns(x)
    ensures s.proceed == h(x.res).ok && s.x.res == h(x.res).res
  {
    var reply := h(x.res);
    Step(Exchange(reply.res, x.log + [HookInvoked]), reply.ok)
  }

  class Context {
    var status: int
    var headers: map<string, string>
    var body: Option<Envelope>
    var log: seq<Event>

    function View(): Exchange
      reads this
    {
      Exchange(Response(status, headers, body), log)
    }

    constructor (x: Exchange)
      ensures View() == x
    {
      status, headers, body := x.res.status, x.res.headers, x.res.body;
      log := x.log;
    }

    method SetStatus(code: int)
      modifies this
      ensures View() == WithStatus(old(View()), code)
    {
      status := code;
    }

    method SetHeader(name: string, value: string)
      modifies this
      ensures View() == WithHeader(old(View()), name, value)
    {
      headers := headers[name := value];
    }

    method SetJson(envelope: Envelope)
      modifies this
      ensures View() == WithJson(old(View()), envelope)
    {
      body := Some(envelope);
    }

    /** Marks the start of a route's own handler logic. */
    method MarkHandled()
      modifies this
      ensures View() == Handled(old(View()))
    {
      log := log + [HandlerRan];
    }

    /** Hands the response to a hook and lets it write whatever it writes. */
    method CallHook(h: Hook) returns (ok: bool)
      modifies this
      ensures Step(View(), ok) == Invoke(h, old(View()))
    {
      var reply := h(View().res);
      log := log + [HookInvoked];
      status, headers, body := reply.res.status, reply.res.headers, reply.res.body;
      ok := reply.ok;
    }
  }
}
