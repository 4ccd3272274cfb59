/**
 * The response side of server.js: the custom-headers middleware, the
 * `unhandled` responder and the middleware that runs it. A response is
 * modelled by the calls made on it, in order.
 */
module Fallback {
  import opened Wrappers
  import opened Json

  /** One configured header: `name: value`. */
  datatype Header = Header(name: string, value: Value)

  /** One value of the `unhandled` object: optional headers, a status, and `send` or `file`. */
  datatype Reply = Reply(headers: Option<seq<Header>>, status: Value, send: Value, file: Value)

  /** One key of the `unhandled` object (an Accept type, or "", "*", "**") with its reply. */
  datatype AcceptRule = AcceptRule(accept: string, reply: Reply)

  /** A call made on the response object. */
  datatype Action =
    | SetHeader(name: string, value: Value)  // res.setHeader(name, value)
    | SetStatus(code: int)                   // res.status(code)
    | Send(body: Value)                      // res.send(body)
    | SendEmpty                              // res.send()
    | SendFile(path: Value, root: string)    // res.sendFile(path, { root })

  predicate IsBody(a: Action) {
    a.Send? || a.SendEmpty? || a.SendFile?
  }

  /**
   * The response object of one request, as the list of calls attempted on
   * it. Express's refusal of header and body calls after the response was
   * sent is not part of this model: every call is recorded.
   */
  class Response {
    var actions: seq<Action>

    constructor ()
      ensures actions == []
    {
      actions := [];
    }

    method Do(a: Action)
      modifies this
      ensures actions == old(actions) + [a]
    {
      actions := actions + [a];
    }
  }

  /** One `setHeader` per configured header, in key order. */
  function HeaderActions(headers: seq<Header>): seq<Action> {
    seq(|headers|, i requires 0 <= i < |headers| => SetHeader(headers[i].name, headers[i].value))
  }

  /** `Object.keys(headers).forEach((h) => res.setHeader(h, headers[h]))`. */
  method SetHeaders(res: Response, headers: seq<Header>)
    modifies res
    ensures res.actions == old(res.actions) + HeaderActions(headers)
  {
    var i := 0;
    while i < |headers|
      invariant 0 <= i <= |headers|
      invariant res.actions == old(res.actions) + HeaderActions(headers[..i])
    {
      res.Do(SetHeader(headers[i].name, headers[i].value));
      i := i + 1;
      assert HeaderActions(headers[..i]) == HeaderActions(headers[..i - 1]) + [SetHeader(headers[i - 1].name, headers[i - 1].value)];
    }
    assert headers[..i] == headers;
  }

  /** The custom-headers middleware: sets every configured header, then passes the request on. */
  method CustomHeadersMiddleware(res: Response, headers: seq<Header>) returns (callsNext: bool)
    modifies res
    ensures res.actions == old(res.actions) + HeaderActions(headers)
    ensures callsNext
  {
    SetHeaders(res, headers);
    callsNext := true;
  }

  /** The body call: `send` when truthy, else the file rooted at the working directory, else an empty body. */
  function BodyAction(reply: Reply, cwd: string): (a: Action)
    ensures IsBody(a)
  {
    if Truthy(reply.send) then Send(reply.send)
    else if Truthy(reply.file) then SendFile(reply.file, cwd)
    else SendEmpty
  }

  function ReplyHeaders(reply: Reply): seq<Header> {
    if reply.headers.Some? then reply.headers.value else []
  }

  /** The calls `unhandled(res, reply)` makes. */
  function ReplyActions(reply: Reply, cwd: string): seq<Action> {
    HeaderActions(ReplyHeaders(reply)) + [SetStatus(StatusCode(reply.status)), BodyAction(reply, cwd)]
  }

  /** A complete response: header calls only, then one status call, then one body call. */
  predicate IsReply(acts: seq<Action>) {
    && |acts| >= 2
    && (forall i :: 0 <= i < |acts| - 2 ==> acts[i].SetHeader?)
    && acts[|acts| - 2].SetStatus?
    && IsBody(acts[|acts| - 1])
  }

  /** `unhandled(res, acceptConfig)`: headers first, then the status, then the body. */
  method Unhandled(res: Response, reply: Reply, cwd: string)
    modifies res
    ensures res.actions == old(res.actions) + ReplyActions(reply, cwd)
  {
    var headers := if reply.headers.Some? then reply.headers.value else [];
    SetHeaders(res, headers);
    ghost var withHeaders := res.actions;
    var statusCode := StatusCode(reply.status);
    res.Do(SetStatus(statusCode));
    if Truthy(reply.send) {
      res.Do(Send(reply.send));
    } else if Truthy(reply.file) {
      res.Do(SendFile(reply.file, cwd));
    } else {
      res.Do(SendEmpty);
    }
    ghost var tail := [SetStatus(statusCode), BodyAction(reply, cwd)];
    assert res.actions == withHeaders + tail;
    AppendAssoc(old(res.actions), HeaderActions(headers), tail);
  }

  /**
   * The responder's calls form one complete response whose headers are the
   * configured ones in key order, whose status is the parsed status (404
   * when not finite) and whose body is `send`, else `file`, else empty.
   */
  lemma ReplyShape(reply: Reply, cwd: string)
    ensures IsReply(ReplyActions(reply, cwd))
    ensures var acts := ReplyActions(reply, cwd);
      && acts[..|acts| - 2] == HeaderActions(ReplyHeaders(reply))
      && acts[|acts| - 2] == SetStatus(StatusCode(reply.status))
      && (Truthy(reply.send) ==> acts[|acts| - 1] == Send(reply.send))
      && (!Truthy(reply.send) && Truthy(reply.file) ==> acts[|acts| - 1] == SendFile(reply.file, cwd))
      && (!Truthy(reply.send) && !Truthy(reply.file) ==> acts[|acts| - 1] == SendEmpty)
  {
    var h := HeaderActions(ReplyHeaders(reply));
    assert ReplyActions(reply, cwd)[..|h|] == h;
  }

  /** "", "*" and "**" match every request. */
  predicate AlwaysMatches(accept: string) {
    accept == "" || accept == "*" || accept == "**"
  }

  /** Whether the rule keyed `accept` runs for a request; `accepts` is `req.accepts`. */
  predicate Matches(accept: string, accepts: string -> bool) {
    AlwaysMatches(accept) || accepts(accept)
  }

  /** The calls one key makes: its reply when it matches, nothing otherwise. */
  function RuleActions(rule: AcceptRule, accepts: string -> bool, cwd: string): seq<Action> {
    if Matches(rule.accept, accepts) then ReplyActions(rule.reply, cwd) else []
  }

  /** The calls the fallback middleware makes for the first `n` keys: every matching key responds, in key order. */
  function FallbackUpTo(rules: seq<AcceptRule>, accepts: string -> bool, cwd: string, n: nat): seq<Action>
    requires n <= |rules|
  {
    if n == 0 then [] else FallbackUpTo(rules, accepts, cwd, n - 1) + RuleActions(rules[n - 1], accepts, cwd)
  }

  function FallbackActions(rules: seq<AcceptRule>, accepts: string -> bool, cwd: string): seq<Action> {
    FallbackUpTo(rules, accepts, cwd, |rules|)
  }

  /** The `forEach` callback: a wildcard key, or a key the request accepts, responds with its reply. */
  method RespondIfMatches(res: Response, rule: AcceptRule, accepts: string -> bool, cwd: string)
    modifies res
    ensures res.actions == old(res.actions) + RuleActions(rule, accepts, cwd)
  {
    var acceptName := rule.accept;
    if acceptName == "" || acceptName == "*" || acceptName == "**" {
      Unhandled(res, rule.reply, cwd);
    } else if accepts(acceptName) {
      Unhandled(res, rule.reply, cwd);
    }
  }

  /**
   * The fallback middleware: for each key in order, a key that is "", "*"
   * or "**", or that the request accepts, runs `unhandled`; it never
   * stops early and never calls `next`.
   */
  method UnhandledMiddleware(res: Response, rules: seq<AcceptRule>, accepts: string -> bool, cwd: string)
    returns (callsNext: bool)
    modifies res
    ensures res.actions == old(res.actions) + FallbackActions(rules, accepts, cwd)
    ensures !callsNext
  {
    var i := 0;
    while i < |rules|
      invariant 0 <= i <= |rules|
      invariant res.actions == old(res.actions) + FallbackUpTo(rules, accepts, cwd, i)
    {
      ghost var before := res.actions;
      RespondIfMatches(res, rules[i], accepts, cwd);
      ghost var here := RuleActions(rules[i], accepts, cwd);
      AppendAssoc(old(res.actions), FallbackUpTo(rules, accepts, cwd, i), here);
      i := i + 1;
    }
    callsNext := false;
  }

  lemma AppendAssoc(a: seq<Action>, b: seq<Action>, c: seq<Action>)
    ensures a + b + c == a + (b + c)
  {
  }

  /** How many of the first `n` keys match. */
  function MatchCount(rules: seq<AcceptRule>, accepts: string -> bool, n: nat): nat
    requires n <= |rules|
  {
    if n == 0 then 0
    else MatchCount(rules, accepts, n - 1) + (if Matches(rules[n - 1].accept, accepts) then 1 else 0)
  }

  /** How many status calls a list of calls holds. */
  function StatusCalls(acts: seq<Action>): nat {
    if acts == [] then 0
    else StatusCalls(acts[..|acts| - 1]) + (if acts[|acts| - 1].SetStatus? then 1 else 0)
  }

  lemma {:induction false} StatusCallsAppend(x: seq<Action>, y: seq<Action>)
    ensures StatusCalls(x + y) == StatusCalls(x) + StatusCalls(y)
    decreases |y|
  {
    if y != [] {
      assert (x + y)[..|x + y| - 1] == x + y[..|y| - 1];
      assert (x + y)[|x + y| - 1] == y[|y| - 1];
      StatusCallsAppend(x, y[..|y| - 1]);
    } else {
      assert x + y == x;
    }
  }

  lemma {:induction false} HeaderActionsHaveNoStatus(headers: seq<Header>)
    ensures StatusCalls(HeaderActions(headers)) == 0
    decreases |headers|
  {
    if headers != [] {
      var h := HeaderActions(headers);
      assert h[..|h| - 1] == HeaderActions(headers[..|headers| - 1]);
      HeaderActionsHaveNoStatus(headers[..|headers| - 1]);
    }
  }

  lemma OneStatusAfterHeaders(h: seq<Action>, code: int, body: Action)
    requires StatusCalls(h) == 0 && IsBody(body)
    ensures StatusCalls(h + [SetStatus(code), body]) == 1
  {
    var tail := [SetStatus(code), body];
    StatusCallsAppend(h, tail);
    assert tail[..1] == [SetStatus(code)] && tail[..1][..0] == [];
    assert StatusCalls([SetStatus(code)]) == 1;
    assert StatusCalls(tail) == StatusCalls(tail[..1]);
  }

  lemma ReplyHasOneStatus(reply: Reply, cwd: string)
    ensures StatusCalls(ReplyActions(reply, cwd)) == 1
  {
    HeaderActionsHaveNoStatus(ReplyHeaders(reply));
    OneStatusAfterHeaders(HeaderActions(ReplyHeaders(reply)), StatusCode(reply.status), BodyAction(reply, cwd));
  }

  /**
   * The fallback middleware sets the status once per matching key: with two
   * matching keys the response is written twice.
   */
  lemma {:induction false} StatusCallsPerMatch(rules: seq<AcceptRule>, accepts: string -> bool, cwd: string, n: nat)
    requires n <= |rules|
    ensures StatusCalls(FallbackUpTo(rules, accepts, cwd, n)) == MatchCount(rules, accepts, n)
  {
    if n > 0 {
      StatusCallsPerMatch(rules, accepts, cwd, n - 1);
      var here := RuleActions(rules[n - 1], accepts, cwd);
      StatusCallsAppend(FallbackUpTo(rules, accepts, cwd, n - 1), here);
      if Matches(rules[n - 1].accept, accepts) {
        ReplyHasOneStatus(rules[n - 1].reply, cwd);
      }
    }
  }

  /** A key "", "*" or "**" responds whatever the request accepts: its whole reply follows the calls of the keys before it. */
  lemma {:induction false} WildcardAlwaysResponds(rules: seq<AcceptRule>, accepts: string -> bool, cwd: string, n: nat, k: nat)
    requires k < n <= |rules| && AlwaysMatches(rules[k].accept)
    ensures MatchCount(rules, accepts, n) >= 1
    ensures FallbackUpTo(rules, accepts, cwd, k + 1) ==
      FallbackUpTo(rules, accepts, cwd, k) + ReplyActions(rules[k].reply, cwd)
  {
    if k < n - 1 {
      WildcardAlwaysResponds(rules, accepts, cwd, n - 1, k);
    }
  }

  /** An `unhandled` of `{"*": {status: 404}}` answers every request with 404 and an empty body. */
  lemma StarNotFound(accepts: string -> bool, cwd: string)
    ensures FallbackActions([AcceptRule("*", Reply(None, Number(404), Undefined, Undefined))], accepts, cwd)
      == [SetStatus(404), SendEmpty]
  {
    var reply := Reply(None, Number(404), Undefined, Undefined);
    var rules := [AcceptRule("*", reply)];
    NumericStatusKept(404);
    assert HeaderActions([]) == [];
    assert ReplyActions(reply, cwd) == [SetStatus(404), SendEmpty];
    assert FallbackUpTo(rules, accepts, cwd, 1) == FallbackUpTo(rules, accepts, cwd, 0) + ReplyActions(reply, cwd);
  }

  /**
   * Two matching keys both respond: a request that accepts JSON, against
   * `{"application/json": ..., "*": ...}`, gets two status calls.
   */
  lemma JsonAndStarBothRespond(accepts: string -> bool, cwd: string, json: Reply, any: Reply)
    requires accepts("application/json")
    ensures StatusCalls(FallbackActions([AcceptRule("application/json", json), AcceptRule("*", any)], accepts, cwd)) == 2
  {
    var rules := [AcceptRule("application/json", json), AcceptRule("*", any)];
    StatusCallsPerMatch(rules, accepts, cwd, 2);
    assert MatchCount(rules, accepts, 1) == 1;
  }

  /**
   * The "first match wins" reading of the `unhandled` object: only the
   * first matching key responds.
   */
  function FirstMatch(rules: seq<AcceptRule>, accepts: string -> bool, cwd: string): seq<Action>
    decreases |rules|
  {
    if rules == [] then []
    else if Matches(rules[0].accept, accepts) then ReplyActions(rules[0].reply, cwd)
    else FirstMatch(rules[1..], accepts, cwd)
  }

  /** The fallback middleware with an early stop after the first matching key. */
  method FirstMatchMiddleware(res: Response, rules: seq<AcceptRule>, accepts: string -> bool, cwd: string)
    returns (callsNext: bool)
    modifies res
    ensures res.actions == old(res.actions) + FirstMatch(rules, accepts, cwd)
    ensures !callsNext
  {
    callsNext := false;
    var i := 0;
    while i < |rules|
      invariant 0 <= i <= |rules|
      invariant res.actions == old(res.actions)
      invariant FirstMatch(rules[i..], accepts, cwd) == FirstMatch(rules, accepts, cwd)
    {
      assert rules[i..][0] == rules[i] && rules[i..][1..] == rules[i + 1..];
      var acceptName := rules[i].accept;
      if acceptName == "" || acceptName == "*" || acceptName == "**" || accepts(acceptName) {
        Unhandled(res, rules[i].reply, cwd);
        return;
      }
      i := i + 1;
    }
    assert rules[i..] == [];
  }

  /** Splitting off the first key: its calls come first, then those of the other keys. */
  lemma {:induction false} FallbackOfCons(r: AcceptRule, rest: seq<AcceptRule>, accepts: string -> bool, cwd: string, n: nat)
    requires n <= |rest|
    ensures FallbackUpTo([r] + rest, accepts, cwd, n + 1) == RuleActions(r, accepts, cwd) + FallbackUpTo(rest, accepts, cwd, n)
    ensures MatchCount([r] + rest, accepts, n + 1) == (if Matches(r.accept, accepts) then 1 else 0) + MatchCount(rest, accepts, n)
  {
    var rules := [r] + rest;
    var head := RuleActions(r, accepts, cwd);
    if n == 0 {
      assert FallbackUpTo(rules, accepts, cwd, 1) == [] + RuleActions(rules[0], accepts, cwd);
      assert [] + head == head + [];
    } else {
      FallbackOfCons(r, rest, accepts, cwd, n - 1);
      assert rules[n] == rest[n - 1];
      ghost var last := RuleActions(rest[n - 1], accepts, cwd);
      ghost var before := FallbackUpTo(rest, accepts, cwd, n - 1);
      assert FallbackUpTo(rules, accepts, cwd, n + 1) == head + before + last;
      AppendAssoc(head, before, last);
    }
  }

  /** The first-match responder sets the status once when some key matches, and makes no call at all otherwise. */
  lemma {:induction false} FirstMatchOneStatus(rules: seq<AcceptRule>, accepts: string -> bool, cwd: string)
    ensures StatusCalls(FirstMatch(rules, accepts, cwd)) == if MatchCount(rules, accepts, |rules|) == 0 then 0 else 1
    ensures FirstMatch(rules, accepts, cwd) == [] <==> MatchCount(rules, accepts, |rules|) == 0
    decreases |rules|
  {
    if rules != [] {
      var r, rest := rules[0], rules[1..];
      assert rules == [r] + rest;
      FallbackOfCons(r, rest, accepts, cwd, |rest|);
      if Matches(r.accept, accepts) {
        ReplyHasOneStatus(r.reply, cwd);
      } else {
        FirstMatchOneStatus(rest, accepts, cwd);
      }
    }
  }

  /** The first-match responder makes a prefix of the as-written calls, and all of them when at most one key matches. */
  lemma {:induction false} FirstMatchIsPrefix(rules: seq<AcceptRule>, accepts: string -> bool, cwd: string)
    ensures FirstMatch(rules, accepts, cwd) <= FallbackActions(rules, accepts, cwd)
    ensures MatchCount(rules, accepts, |rules|) <= 1 ==> FirstMatch(rules, accepts, cwd) == FallbackActions(rules, accepts, cwd)
    decreases |rules|
  {
    if rules != [] {
      var r, rest := rules[0], rules[1..];
      assert rules == [r] + rest;
      FallbackOfCons(r, rest, accepts, cwd, |rest|);
      FirstMatchIsPrefix(rest, accepts, cwd);
      ghost var first := FirstMatch(rules, accepts, cwd);
      ghost var all := FallbackActions(rules, accepts, cwd);
      ghost var restAll := FallbackActions(rest, accepts, cwd);
      if Matches(r.accept, accepts) {
        assert all == first + restAll;
        if MatchCount(rules, accepts, |rules|) <= 1 {
          FirstMatchOneStatus(rest, accepts, cwd);
          assert all == first + [];
        }
      } else {
        assert all == [] + restAll;
      }
    }
  }

  /**
   * The first-match responder makes a prefix of the calls the as-written
   * middleware makes, and makes the same calls exactly when at most one key
   * matches.
   */
  lemma FirstMatchAgainstAll(rules: seq<AcceptRule>, accepts: string -> bool, cwd: string)
    ensures FirstMatch(rules, accepts, cwd) <= FallbackActions(rules, accepts, cwd)
    ensures FirstMatch(rules, accepts, cwd) == FallbackActions(rules, accepts, cwd) <==> MatchCount(rules, accepts, |rules|) <= 1
  {
    FirstMatchIsPrefix(rules, accepts, cwd);
    StatusCallsPerMatch(rules, accepts, cwd, |rules|);
    FirstMatchOneStatus(rules, accepts, cwd);
  }
}
