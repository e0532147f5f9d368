/** Routing of structured calls over providers, with bounded retries, and the paid API's counters. */
module Provider {
  import opened Options
  import opened Powers

  datatype Name = CodexCli | ClaudeCli | OpenaiApi | Fixed

  datatype Mode = Only(name: Name) | Auto

  type Code = string

  /** What one call gives: a response, or an error with its code. */
  datatype Reply = Response(value: string) | Error(code: Code, retryable: bool)

  const NOT_CONFIGURED: Code := "not_configured"

  // ---- the route -----------------------------------------------------------------

  function RouteFrom(order: seq<Name>, allowPaid: bool, route: seq<Name>): seq<Name>
  {
    if order == [] then route
    else if (order[0] == OpenaiApi && !allowPaid) || order[0] in route then RouteFrom(order[1..], allowPaid, route)
    else RouteFrom(order[1..], allowPaid, route + [order[0]])
  }

  function Route(mode: Mode, order: seq<Name>, allowPaid: bool): seq<Name>
  {
    match mode
    case Only(name) => [name]
    case Auto => RouteFrom(order, allowPaid, [])
  }

  ghost predicate Distinct<T>(s: seq<T>)
  {
    forall i, j :: 0 <= i < j < |s| ==> s[i] != s[j]
  }

  lemma {:induction false} RouteFromHolds(order: seq<Name>, allowPaid: bool, route: seq<Name>)
    requires Distinct(route)
    ensures var r := RouteFrom(order, allowPaid, route);
      && Distinct(r) && route <= r
      && forall n :: n in r <==> n in route || (n in order && (n == OpenaiApi ==> allowPaid))
  {
    if order != [] {
      var next := if (order[0] == OpenaiApi && !allowPaid) || order[0] in route then route else route + [order[0]];
      RouteFromHolds(order[1..], allowPaid, next);
      assert order == [order[0]] + order[1..];
    }
  }

  /** Automatic routing visits each configured name once and the paid API only when it is allowed. */
  lemma AutoRoute(order: seq<Name>, allowPaid: bool)
    ensures var r := Route(Auto, order, allowPaid);
      Distinct(r) && forall n :: n in r <==> n in order && (n == OpenaiApi ==> allowPaid)
  {
    RouteFromHolds(order, allowPaid, []);
  }

  /** A fixed mode asks its one provider. */
  lemma OnlyRoute(name: Name, order: seq<Name>, allowPaid: bool)
    ensures Route(Only(name), order, allowPaid) == [name]
  {}

  /** Where a name stands first in the configured order. */
  function FirstAt(order: seq<Name>, n: Name): nat
  {
    if order == [] || order[0] == n then 0 else 1 + FirstAt(order[1..], n)
  }

  /** The providers are asked in the order in which they are configured. */
  lemma AutoRouteKeepsOrder(order: seq<Name>, allowPaid: bool, i: nat, j: nat)
    requires i < j < |Route(Auto, order, allowPaid)|
    ensures var r := Route(Auto, order, allowPaid);
      FirstAt(order, r[i]) < FirstAt(order, r[j]) < |order|
  {
    RouteFromKeepsOrder(order, allowPaid, []);
  }

  /** What is added to a route comes from the rest of the order, in that order. */
  lemma {:induction false} RouteFromKeepsOrder(order: seq<Name>, allowPaid: bool, route: seq<Name>)
    ensures var r := RouteFrom(order, allowPaid, route);
      && route <= r
      && (forall i :: |route| <= i < |r| ==> FirstAt(order, r[i]) < |order| && r[i] !in route)
      && (forall i, j :: |route| <= i < j < |r| ==> FirstAt(order, r[i]) < FirstAt(order, r[j]))
  {
    if order != [] {
      var next := if (order[0] == OpenaiApi && !allowPaid) || order[0] in route then route else route + [order[0]];
      RouteFromKeepsOrder(order[1..], allowPaid, next);
      var r := RouteFrom(order, allowPaid, route);
      assert r == RouteFrom(order[1..], allowPaid, next);
      forall i | |next| <= i < |r| ensures FirstAt(order, r[i]) == 1 + FirstAt(order[1..], r[i]) && r[i] !in route {
        SkippedNames(order, allowPaid, next, r[i]);
      }
    }
  }

  /** A name the route takes later is not the first of the order. */
  lemma SkippedNames(order: seq<Name>, allowPaid: bool, next: seq<Name>, n: Name)
    requires order != [] && n !in next && n in RouteFrom(order[1..], allowPaid, next)
    requires order[0] in next || (order[0] == OpenaiApi && !allowPaid)
    ensures n != order[0]
  {
    PaidOnlyWhenAllowed(order[1..], allowPaid, next, n);
  }

  lemma {:induction false} PaidOnlyWhenAllowed(order: seq<Name>, allowPaid: bool, route: seq<Name>, n: Name)
    requires n in RouteFrom(order, allowPaid, route)
    ensures n in route || (n == OpenaiApi ==> allowPaid)
  {
    if order != [] {
      var next := if (order[0] == OpenaiApi && !allowPaid) || order[0] in route then route else route + [order[0]];
      PaidOnlyWhenAllowed(order[1..], allowPaid, next, n);
    }
  }

  // ---- one provider --------------------------------------------------------------

  predicate Stops(reply: Reply)
  {
    reply.Response? || !reply.retryable
  }

  /** How many of `left` tries are made from moment `t` on. */
  function Tries(world: nat -> Reply, t: nat, left: nat): nat
    requires left >= 1
    decreases left
  {
    if Stops(world(t)) || left == 1 then 1 else 1 + Tries(world, t + 1, left - 1)
  }

  /** Every try but the last met a retryable error; the last one stopped or used up the tries. */
  lemma {:induction false} TriesMeaning(world: nat -> Reply, t: nat, left: nat)
    requires left >= 1
    ensures var k := Tries(world, t, left);
      && 1 <= k <= left
      && (forall i :: t <= i < t + k - 1 ==> !Stops(world(i)))
      && (k == left || Stops(world(t + k - 1)))
    decreases left
  {
    if !Stops(world(t)) && left > 1 {
      TriesMeaning(world, t + 1, left - 1);
    }
  }

  // ---- the whole chain -----------------------------------------------------------

  datatype Result =
    | Answered(value: string, attempts: nat, chain: seq<Name>, errors: seq<(Name, Code)>)
    | AllFailed(errors: seq<(Name, Code)>)

  datatype Setup = Setup(configured: set<Name>, retries: nat, world: nat -> Reply)

  /** Provider `i` of the route is entered at this moment if every earlier one failed. */
  function EntryTime(s: Setup, route: seq<Name>, start: nat, i: nat): nat
    requires i <= |route|
  {
    if i == 0 then start
    else EntryTime(s, route, start, i - 1) + Calls(s, route[i - 1], EntryTime(s, route, start, i - 1))
  }

  function Calls(s: Setup, name: Name, t: nat): nat
  {
    if name in s.configured then Tries(s.world, t, s.retries + 1) else 0
  }

  /** What provider `name`, entered at `t`, ends with. */
  function Verdict(s: Setup, name: Name, t: nat): Reply
  {
    if name in s.configured then s.world(t + Tries(s.world, t, s.retries + 1) - 1) else Error(NOT_CONFIGURED, false)
  }

  function VerdictAt(s: Setup, route: seq<Name>, start: nat, i: nat): Reply
    requires i < |route|
  {
    Verdict(s, route[i], EntryTime(s, route, start, i))
  }

  /** One error per provider of the list, in order, each the code it ended with. */
  ghost predicate ErrorPerProvider(errors: seq<(Name, Code)>, s: Setup, route: seq<Name>, start: nat, m: nat)
    requires m <= |route|
  {
    && |errors| == m
    && forall i :: 0 <= i < m ==>
         VerdictAt(s, route, start, i).Error? && errors[i] == (route[i], VerdictAt(s, route, start, i).code)
  }

  /** The first provider of the route that answers, with one error for each before it. */
  ghost predicate Routed(r: Result, s: Setup, route: seq<Name>, start: nat)
  {
    match r
    case AllFailed(errors) => ErrorPerProvider(errors, s, route, start, |route|)
    case Answered(value, attempts, chain, errors) =>
      && |errors| < |route| && chain == route[..|errors| + 1]
      && ErrorPerProvider(errors, s, route, start, |errors|)
      && VerdictAt(s, route, start, |errors|) == Response(value)
      && attempts == EntryTime(s, route, start, |errors| + 1) - start
  }

  lemma NoFewerErrors(a: Result, b: Result, s: Setup, route: seq<Name>, start: nat)
    requires Routed(a, s, route, start) && Routed(b, s, route, start)
    ensures |a.errors| >= |b.errors|
  {
    hide VerdictAt, EntryTime;
  }

  /** The route decides the result completely. */
  lemma RoutedIsUnique(a: Result, b: Result, s: Setup, route: seq<Name>, start: nat)
    requires Routed(a, s, route, start) && Routed(b, s, route, start)
    ensures a == b
  {
    hide VerdictAt, EntryTime;
    NoFewerErrors(a, b, s, route, start);
    NoFewerErrors(b, a, s, route, start);
    assert a.errors == b.errors;
  }

  lemma {:induction false} CallsAreBounded(s: Setup, route: seq<Name>, start: nat, i: nat)
    requires i <= |route|
    ensures start <= EntryTime(s, route, start, i) <= start + i * (s.retries + 1)
  {
    if i > 0 {
      CallsAreBounded(s, route, start, i - 1);
      TriesMeaning(s.world, EntryTime(s, route, start, i - 1), s.retries + 1);
      OneMore(i - 1, s.retries + 1);
    }
  }

  lemma OneMore(i: nat, r: nat)
    ensures (i + 1) * r == i * r + r
  {}

  lemma OneErrorMore(errors: seq<(Name, Code)>, s: Setup, route: seq<Name>, start: nat, i: nat)
    requires i < |route| && ErrorPerProvider(errors, s, route, start, i) && VerdictAt(s, route, start, i).Error?
    ensures ErrorPerProvider(errors + [(route[i], VerdictAt(s, route, start, i).code)], s, route, start, i + 1)
  {
    hide VerdictAt;
  }

  lemma AnswersNow(value: string, errors: seq<(Name, Code)>, s: Setup, route: seq<Name>, start: nat, i: nat)
    requires i < |route| && ErrorPerProvider(errors, s, route, start, i)
    requires VerdictAt(s, route, start, i) == Response(value)
    requires EntryTime(s, route, start, i + 1) >= start
    ensures Routed(Answered(value, EntryTime(s, route, start, i + 1) - start, route[..i + 1], errors), s, route, start)
  {
    hide VerdictAt, EntryTime;
  }

  lemma NextEntry(s: Setup, route: seq<Name>, start: nat, i: nat)
    requires i < |route|
    ensures EntryTime(s, route, start, i + 1)
      == EntryTime(s, route, start, i) + Calls(s, route[i], EntryTime(s, route, start, i))
  {}

  /** `slept` counts the sleeping time in units of the configured backoff. */
  class Router {
    const s: Setup
    const route: seq<Name>
    var clock: nat
    var slept: nat
    var events: nat

    constructor (s: Setup, mode: Mode, order: seq<Name>, allowPaid: bool)
      ensures this.s == s && this.route == Route(mode, order, allowPaid)
      ensures clock == 0 && slept == 0 && events == 0
    {
      this.s, this.route := s, Route(mode, order, allowPaid);
      clock, slept, events := 0, 0, 0;
    }

    /** One provider with its retries: the reply it ends with, after 1 + 2 + ... units of sleep. */
    method AskProvider() returns (last: Reply)
      modifies this`clock, this`slept
      ensures var k := Tries(s.world, old(clock), s.retries + 1);
        && k >= 1 && clock == old(clock) + k && last == s.world(clock - 1)
        && slept + 1 == old(slept) + Pow2(k - 1)
    {
      var index := 0;
      last := s.world(clock);
      clock := clock + 1;
      while !Stops(last) && index < s.retries
        invariant index <= s.retries && clock == old(clock) + index + 1 && last == s.world(clock - 1)
        invariant Tries(s.world, old(clock), s.retries + 1) == index + Tries(s.world, clock - 1, s.retries + 1 - index)
        invariant slept + 1 == old(slept) + Pow2(index)
      {
        Pow2Monotone(0, index);
        slept := slept + Pow2(index);
        index := index + 1;
        last := s.world(clock);
        clock := clock + 1;
      }
    }

    /** The first provider that answers; all the others before it left one error each. */
    method Generate() returns (r: Result)
      modifies this
      ensures Routed(r, s, route, old(clock))
      ensures clock - old(clock) <= |route| * (s.retries + 1)
      ensures old(slept) <= slept <= old(slept) + |route| * (Pow2(s.retries) - 1)
      ensures events == old(events) + (if r.Answered? && r.errors != [] then 1 else 0)
    {
      hide Tries, Pow2, ErrorPerProvider, EntryTime, Routed;
      var errors: seq<(Name, Code)> := [];
      var start := clock;
      NoErrors(s, route, start);
      for i := 0 to |route|
        invariant clock == EntryTime(s, route, start, i) && start == old(clock)
        invariant ErrorPerProvider(errors, s, route, start, i)
        invariant old(slept) <= slept <= old(slept) + i * (Pow2(s.retries) - 1)
        invariant events == old(events)
      {
        NextEntry(s, route, start, i);
        CallsAreBounded(s, route, start, i + 1);
        ShareOfRoute(s, i, |route|, clock);
        if route[i] !in s.configured {
          OneErrorMore(errors, s, route, start, i);
          errors := errors + [(route[i], NOT_CONFIGURED)];
        } else {
          var last := AskProvider();
          match last
          case Response(value) =>
            AnswersNow(value, errors, s, route, start, i);
            if errors != [] {
              events := events + 1;
            }
            return Answered(value, clock - start, route[..i + 1], errors);
          case Error(code, retryable) =>
            OneErrorMore(errors, s, route, start, i);
            errors := errors + [(route[i], code)];
        }
      }
      CallsAreBounded(s, route, start, |route|);
      AllHaveFailed(errors, s, route, start);
      return AllFailed(errors);
    }
  }

  lemma NoErrors(s: Setup, route: seq<Name>, start: nat)
    ensures ErrorPerProvider([], s, route, start, 0) && EntryTime(s, route, start, 0) == start
  {}

  lemma AllHaveFailed(errors: seq<(Name, Code)>, s: Setup, route: seq<Name>, start: nat)
    requires ErrorPerProvider(errors, s, route, start, |route|)
    ensures Routed(AllFailed(errors), s, route, start)
  {}

  /** What provider `i` may use of the calls and of the sleep allowed to the whole route. */
  lemma ShareOfRoute(s: Setup, i: nat, n: nat, t: nat)
    requires i < n
    ensures (i + 1) * (s.retries + 1) <= n * (s.retries + 1)
    ensures var nap := Pow2(s.retries) - 1;
      nap >= 0 && (i + 1) * nap == i * nap + nap && (i + 1) * nap <= n * nap
    ensures var k := Tries(s.world, t, s.retries + 1); k >= 1 && 1 <= Pow2(k - 1) <= Pow2(s.retries)
  {
    TriesMeaning(s.world, t, s.retries + 1);
    var k := Tries(s.world, t, s.retries + 1);
    Pow2Monotone(k - 1, s.retries);
    OneMore(i, Pow2(s.retries) - 1);
    RouteLength(i + 1, n, Pow2(s.retries) - 1);
    RouteLength(i + 1, n, s.retries + 1);
  }

  lemma RouteLength(i: nat, n: nat, r: nat)
    requires i <= n
    ensures i * r <= n * r
  {}

  // ---- the counters of the paid API ------------------------------------------------

  /** One locked section: a call reserved before it is made, or the tokens of a completed one. */
  datatype Event = Reserve | Charge(tokens: nat)

  datatype Usage = Usage(calls: nat, tokens: nat)

  datatype Caps = Caps(maxCalls: nat, maxTokens: nat)

  predicate Granted(u: Usage, caps: Caps)
  {
    u.calls < caps.maxCalls && u.tokens < caps.maxTokens
  }

  function Apply(u: Usage, e: Event, caps: Caps): Usage
  {
    match e
    case Reserve => if Granted(u, caps) then u.(calls := u.calls + 1) else u
    case Charge(tokens) => u.(tokens := u.tokens + tokens)
  }

  function Replay(u: Usage, events: seq<Event>, caps: Caps): Usage
    decreases |events|
  {
    if events == [] then u else Replay(Apply(u, events[0], caps), events[1..], caps)
  }

  /** In every interleaving of threads the calls stay within the cap, and counters never go down. */
  lemma {:induction false} CallsStayWithinCap(u: Usage, events: seq<Event>, caps: Caps)
    ensures var v := Replay(u, events, caps);
      && u.calls <= v.calls && u.tokens <= v.tokens
      && v.calls <= (if u.calls > caps.maxCalls then u.calls else caps.maxCalls)
      && (u.tokens >= caps.maxTokens ==> v.calls == u.calls)
    decreases |events|
  {
    if events != [] {
      CallsStayWithinCap(Apply(u, events[0], caps), events[1..], caps);
    }
  }

  function Charged(events: seq<Event>): nat
  {
    if events == [] then 0
    else (match events[0] case Reserve => 0 case Charge(tokens) => tokens) + Charged(events[1..])
  }

  function Asked(events: seq<Event>): nat
  {
    if events == [] then 0 else (if events[0].Reserve? then 1 else 0) + Asked(events[1..])
  }

  /**
    Every completed call's tokens are counted, and while the tokens last every reservation
    is granted until the calls reach their cap.
   */
  lemma {:induction false} NothingIsLost(u: Usage, events: seq<Event>, caps: Caps)
    ensures Replay(u, events, caps).tokens == u.tokens + Charged(events)
    ensures u.tokens + Charged(events) < caps.maxTokens ==>
      Replay(u, events, caps).calls ==
      if u.calls + Asked(events) <= caps.maxCalls then u.calls + Asked(events)
      else if u.calls <= caps.maxCalls then caps.maxCalls
      else u.calls
    decreases |events|
  {
    if events != [] {
      NothingIsLost(Apply(u, events[0], caps), events[1..], caps);
    }
  }
}
