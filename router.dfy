/** The inference router (ai_service/app/core/llm_router.py): it picks the
    candidate providers for a request, then runs up to RETRY_ATTEMPTS + 1
    rounds over them and returns the first usable response.

    The providers' remote calls are an oracle: `oracle(k, p, req)` is what
    the k-th provider call of this request (counting from 0) did when it
    asked provider `p`. The backoff sleeps between rounds are left out. */
module Router {
  import opened Wrappers
  import opened Text
  import opened Providers
  import ProviderRegistry

  const RETRY_ATTEMPTS: nat := 2
  /** The initial attempt plus the retries. */
  const ROUNDS: nat := RETRY_ATTEMPTS + 1

  const NO_PROVIDERS := "No LLM providers available."
  const NO_ATTEMPT := "No providers attempted."
  const EMPTY_CONTENT := "Provider returned empty content."

  /** What one provider call did: it returned a response or raised. */
  datatype CallOutcome = Returned(response: LLMResponse) | Raised(message: string)

  type Oracle = (nat, Provider, LLMRequest) -> CallOutcome

  /** A call the router accepts: a response with content and no error. */
  predicate Succeeds(o: CallOutcome) {
    o.Returned? && Usable(o.response)
  }

  /** The `last_error` a failed call leaves behind. */
  function FailureText(o: CallOutcome): string
    requires !Succeeds(o)
  {
    match o
    case Returned(r) => if Truthy(r.error) then r.error.value else EMPTY_CONTENT
    case Raised(m) => m
  }

  /** A provider name counts only when it is a non-empty string. */
  predicate NameGiven(name: Option<string>) {
    name.Some? && name.value != ""
  }

  /** Case-insensitive comparison of a provider's name with the requested one. */
  predicate Matches(p: Provider, name: string) {
    Lower(p.Name()) == Lower(name)
  }

  /** The first provider whose name matches. */
  function FindByName(ps: seq<Provider>, name: string): Option<Provider>
    decreases |ps|
  {
    if |ps| == 0 then None
    else if Matches(ps[0], name) then Some(ps[0])
    else FindByName(ps[1..], name)
  }

  /** The lookup returns the first provider whose name matches, and
      nothing exactly when none matches. */
  lemma {:induction false} FindByNameFirst(ps: seq<Provider>, name: string)
    ensures FindByName(ps, name).None? <==> forall j :: 0 <= j < |ps| ==> !Matches(ps[j], name)
    ensures FindByName(ps, name).Some? ==>
      exists j :: 0 <= j < |ps| && ps[j] == FindByName(ps, name).value && Matches(ps[j], name) &&
                  (forall q :: 0 <= q < j ==> !Matches(ps[q], name))
    decreases |ps|
  {
    if |ps| > 0 && !Matches(ps[0], name) {
      var rest := ps[1..];
      FindByNameFirst(rest, name);
      assert forall j :: 1 <= j < |ps| ==> ps[j] == rest[j - 1];
      if FindByName(rest, name).Some? {
        var j :| 0 <= j < |rest| && rest[j] == FindByName(rest, name).value && Matches(rest[j], name) &&
                 (forall q :: 0 <= q < j ==> !Matches(rest[q], name));
        assert ps[j + 1] == rest[j];
        assert forall q :: 0 <= q < j + 1 ==> !Matches(ps[q], name);
      }
    } else if |ps| > 0 {
      assert ps[0] == FindByName(ps, name).value;
    }
  }

  /** All providers, in order, starting at position `start`. */
  function Rotation(ps: seq<Provider>, start: nat): seq<Provider>
    requires |ps| > 0
  {
    seq(|ps|, i requires 0 <= i < |ps| => ps[(start + i) % |ps|])
  }

  /** `s` repeated `m` times. */
  function Repeat(s: seq<Provider>, m: nat): seq<Provider>
    decreases m
  {
    if m == 0 then [] else s + Repeat(s, m - 1)
  }

  /** The result of running calls: a usable response, or exhaustion with
      the last error; `called` lists every provider called, in order. */
  datatype Run =
    | Succeeded(response: LLMResponse, called: seq<Provider>)
    | Exhausted(lastError: string, called: seq<Provider>)

  /** One round: try `cands[i..]` in order after the calls in `called`. */
  function RunRound(cands: seq<Provider>, i: nat, req: LLMRequest, oracle: Oracle,
                    called: seq<Provider>, lastError: string): Run
    requires i <= |cands|
    decreases |cands| - i
  {
    if i == |cands| then Exhausted(lastError, called)
    else
      var o := oracle(|called|, cands[i], req);
      if Succeeds(o) then Succeeded(o.response, called + [cands[i]])
      else RunRound(cands, i + 1, req, oracle, called + [cands[i]], FailureText(o))
  }

  /** `rounds` rounds over `cands`, stopping at the first success. */
  function RunRounds(cands: seq<Provider>, rounds: nat, req: LLMRequest, oracle: Oracle,
                     called: seq<Provider>, lastError: string): Run
    decreases rounds
  {
    if rounds == 0 then Exhausted(lastError, called)
    else
      match RunRound(cands, 0, req, oracle, called, lastError)
      case Succeeded(r, c) => Succeeded(r, c)
      case Exhausted(e, c) => RunRounds(cands, rounds - 1, req, oracle, c, e)
  }

  /** What `get_llm_response` produces: the response, the providers called
      in order, and the new round-robin cursor. */
  datatype Routed = Routed(response: LLMResponse, called: seq<Provider>, cursor: nat)

  function NotFoundError(name: string): string {
    "Provider '" + name + "' not found or not initialized."
  }

  function NamedFailureError(name: string, lastError: string): string {
    "Provider " + name + " failed after multiple attempts: " + lastError
  }

  function AllFailedError(lastError: string): string {
    "All attempts failed. Last error: " + lastError
  }

  /** `get_llm_response` as a function of the providers, the cursor, the
      requested name, the request and the providers' behaviour. */
  function Route(ps: seq<Provider>, cursor: nat, name: Option<string>, req: LLMRequest, oracle: Oracle): Routed {
    if |ps| == 0 then Routed(ErrorResponse(NO_PROVIDERS), [], cursor)
    else if NameGiven(name) then
      match FindByName(ps, name.value)
      case None => Routed(ErrorResponse(NotFoundError(name.value)), [], cursor)
      case Some(p) =>
        match RunRounds([p], ROUNDS, req, oracle, [], NO_ATTEMPT)
        case Succeeded(r, c) => Routed(r, c, cursor)
        case Exhausted(e, c) => Routed(ErrorResponse(NamedFailureError(name.value, e)), c, cursor)
    else
      var next := (cursor + 1) % |ps|;
      match RunRounds(Rotation(ps, cursor), ROUNDS, req, oracle, [], NO_ATTEMPT)
      case Succeeded(r, c) => Routed(r, c, next)
      case Exhausted(e, c) => Routed(ErrorResponse(AllFailedError(e)), c, next)
  }

  /** The router object: its provider list and the round-robin cursor,
      which every unnamed request advances. */
  class LLMRouter {
    var providers: seq<Provider>
    var currentProviderIndex: nat

    ghost predicate Valid()
      reads this
    {
      if |providers| == 0 then currentProviderIndex == 0 else currentProviderIndex < |providers|
    }

    /** The router loads the registry once and starts the cursor at 0. */
    constructor (cfg: ProviderRegistry.Settings, raises: set<ProviderKind>)
      ensures Valid()
      ensures providers == ProviderRegistry.Built(ProviderRegistry.PROVIDER_CLASSES, cfg, raises)
      ensures currentProviderIndex == 0
    {
      var instances := ProviderRegistry.GetProviderInstances(cfg, raises);
      providers := instances;
      currentProviderIndex := 0;
    }

    method GetLLMResponse(request: LLMRequest, providerName: Option<string>, oracle: Oracle)
      returns (response: LLMResponse, called: seq<Provider>)
      requires Valid()
      modifies this
      ensures Valid() && providers == old(providers)
      ensures Routed(response, called, currentProviderIndex)
        == Route(old(providers), old(currentProviderIndex), providerName, request, oracle)
    {
      var n := |providers|;
      if n == 0 {
        response := ErrorResponse(NO_PROVIDERS);
        called := [];
        return;
      }
      var named := NameGiven(providerName);
      var selected: seq<Provider> := [];
      if named {
        var name := providerName.value;
        var j := 0;
        while j < n
          invariant 0 <= j <= n && selected == []
          invariant FindByName(providers[j..], name) == FindByName(providers, name)
        {
          assert providers[j..][1..] == providers[j + 1..];
          if Matches(providers[j], name) {
            selected := [providers[j]];
            break;
          }
          j := j + 1;
        }
        if selected == [] {
          response := ErrorResponse(NotFoundError(name));
          called := [];
          return;
        }
      } else {
        var start := currentProviderIndex;
        for i := 0 to n
          invariant selected == Rotation(providers, start)[..i]
        {
          selected := selected + [providers[(start + i) % n]];
        }
        assert selected == Rotation(providers, start);
        currentProviderIndex := (start + 1) % n;
      }
      assert named ==> selected == [FindByName(providers, providerName.value).value];
      response, called := RunAttempts(selected, named, if named then providerName.value else "", request, oracle);
    }
  }

  /** The retry rounds of `get_llm_response` over the chosen candidates
      (lines 44-78): the first usable response wins; a named provider that
      keeps failing ends with its own message, a rotation with "All attempts
      failed". */
  method RunAttempts(selected: seq<Provider>, named: bool, name: string, request: LLMRequest, oracle: Oracle)
    returns (response: LLMResponse, called: seq<Provider>)
    requires named ==> |selected| == 1 && Matches(selected[0], name)
    ensures var run := RunRounds(selected, ROUNDS, request, oracle, [], NO_ATTEMPT);
      called == run.called &&
      (run.Succeeded? ==> response == run.response) &&
      (run.Exhausted? ==> response == ErrorResponse(
         if named then NamedFailureError(name, run.lastError) else AllFailedError(run.lastError)))
  {
    ghost var total := RunRounds(selected, ROUNDS, request, oracle, [], NO_ATTEMPT);
    var lastError := NO_ATTEMPT;
    called := [];
    var attempt := 0;
    while attempt < ROUNDS
      invariant 0 <= attempt <= ROUNDS
      invariant named ==> attempt <= RETRY_ATTEMPTS
      invariant RunRounds(selected, ROUNDS - attempt, request, oracle, called, lastError) == total
    {
      ghost var round := RunRound(selected, 0, request, oracle, called, lastError);
      var i := 0;
      while i < |selected|
        invariant 0 <= i <= |selected|
        invariant named && i > 0 ==> attempt < RETRY_ATTEMPTS
        invariant RunRound(selected, i, request, oracle, called, lastError) == round
      {
        var p := selected[i];
        var outcome := oracle(|called|, p, request);
        called := called + [p];
        if Succeeds(outcome) {
          response := outcome.response;
          return;
        }
        lastError := FailureText(outcome);
        if named && Matches(p, name) {
          if attempt < RETRY_ATTEMPTS {
            i := i + 1;
            continue;
          } else {
            response := ErrorResponse(NamedFailureError(name, lastError));
            return;
          }
        }
        i := i + 1;
      }
      if !named && attempt < RETRY_ATTEMPTS {
      } else if !named {
        break;
      }
      attempt := attempt + 1;
    }
    response := ErrorResponse(AllFailedError(lastError));
  }

  /** How a run that started after the calls in `called`, planning to call
      the providers of `plan` in order, relates to that plan: the new calls
      follow the plan; every new call but a final success failed; a success
      returns the last call's response; exhaustion means the whole plan was
      called and reports the last call's failure (or the earlier error when
      the plan was empty). */
  ghost predicate Shape(run: Run, called: seq<Provider>, plan: seq<Provider>, e: string,
                        req: LLMRequest, oracle: Oracle)
  {
    var c := run.called;
    |called| <= |c| <= |called| + |plan| &&
    c[..|called|] == called &&
    c[|called|..] == plan[..|c| - |called|] &&
    (forall k :: |called| <= k < |c| && (run.Exhausted? || k < |c| - 1) ==> !Succeeds(oracle(k, c[k], req))) &&
    (run.Succeeded? ==>
       |c| > |called| && Succeeds(oracle(|c| - 1, c[|c| - 1], req)) &&
       run.response == oracle(|c| - 1, c[|c| - 1], req).response) &&
    (run.Exhausted? ==>
       |c| == |called| + |plan| &&
       run.lastError == if |plan| == 0 then e else FailureText(oracle(|c| - 1, c[|c| - 1], req)))
  }

  lemma {:induction false} RunRoundShape(cands: seq<Provider>, i: nat, req: LLMRequest, oracle: Oracle,
                                         called: seq<Provider>, e: string)
    requires i <= |cands|
    ensures Shape(RunRound(cands, i, req, oracle, called, e), called, cands[i..], e, req, oracle)
    decreases |cands| - i
  {
    if i < |cands| {
      var o := oracle(|called|, cands[i], req);
      var called1 := called + [cands[i]];
      if !Succeeds(o) {
        RunRoundShape(cands, i + 1, req, oracle, called1, FailureText(o));
        assert cands[i..] == [cands[i]] + cands[i + 1..];
        ShapePrepend(RunRound(cands, i + 1, req, oracle, called1, FailureText(o)), called, cands[i], cands[i + 1..], e, req, oracle);
      }
    }
  }

  /** A failed call in front of a run's plan gives the shape of the longer plan. */
  lemma ShapePrepend(run: Run, called: seq<Provider>, p: Provider, rest: seq<Provider>, e: string,
                     req: LLMRequest, oracle: Oracle)
    requires !Succeeds(oracle(|called|, p, req))
    requires Shape(run, called + [p], rest, FailureText(oracle(|called|, p, req)), req, oracle)
    ensures Shape(run, called, [p] + rest, e, req, oracle)
  {
    var called1 := called + [p];
    var c := run.called;
    assert c[..|called1|] == called1;
    assert c == called1 + c[|called1|..];
    assert c[..|called|] == called by {
      assert c[..|called|] == called1[..|called|];
    }
    assert c[|called|] == p;
    assert c[|called|..] == ([p] + rest)[..|c| - |called|] by {
      assert c[|called|..] == [p] + c[|called1|..];
      assert ([p] + rest)[..|c| - |called|] == [p] + rest[..|c| - |called1|];
    }
  }

  /** A successful run keeps its shape when more is appended to the plan. */
  lemma ShapeExtend(run: Run, called: seq<Provider>, p1: seq<Provider>, p2: seq<Provider>, e: string,
                    req: LLMRequest, oracle: Oracle)
    requires run.Succeeded? && Shape(run, called, p1, e, req, oracle)
    ensures Shape(run, called, p1 + p2, e, req, oracle)
  {
    var c := run.called;
    assert (p1 + p2)[..|c| - |called|] == p1[..|c| - |called|];
  }

  /** An exhausted run followed by a second run has the shape of the two
      plans joined. */
  lemma ShapeCompose(first: Run, run: Run, called: seq<Provider>, p1: seq<Provider>, p2: seq<Provider>, e: string,
                     req: LLMRequest, oracle: Oracle)
    requires first.Exhausted? && Shape(first, called, p1, e, req, oracle)
    requires Shape(run, first.called, p2, first.lastError, req, oracle)
    ensures Shape(run, called, p1 + p2, e, req, oracle)
  {
    var c1 := first.called;
    var c := run.called;
    ComposedCalls(c1, c, called, p1, p2);
    forall k | |called| <= k < |c| && (run.Exhausted? || k < |c| - 1)
      ensures !Succeeds(oracle(k, c[k], req))
    {
      if k < |c1| {
        assert c[k] == c1[k];
      }
    }
    if run.Exhausted? && |p2| == 0 {
      assert c == c1;
    }
  }

  /** The calls of two runs in a row follow the two plans joined. */
  lemma ComposedCalls(c1: seq<Provider>, c: seq<Provider>, called: seq<Provider>, p1: seq<Provider>, p2: seq<Provider>)
    requires c1 == called + p1
    requires |c1| <= |c| <= |c1| + |p2| && c[..|c1|] == c1 && c[|c1|..] == p2[..|c| - |c1|]
    ensures |called| <= |c| <= |called| + |p1 + p2|
    ensures c[..|called|] == called
    ensures c[|called|..] == (p1 + p2)[..|c| - |called|]
  {
    assert c[..|called|] == c1[..|called|];
    assert c == c1 + c[|c1|..];
    assert c[|called|..] == p1 + c[|c1|..];
    assert (p1 + p2)[..|c| - |called|] == p1 + p2[..|c| - |c1|];
  }

  lemma {:induction false} RunRoundsShape(cands: seq<Provider>, rounds: nat, req: LLMRequest, oracle: Oracle,
                                          called: seq<Provider>, e: string)
    ensures Shape(RunRounds(cands, rounds, req, oracle, called, e), called, Repeat(cands, rounds), e, req, oracle)
    decreases rounds
  {
    if rounds > 0 {
      RunRoundShape(cands, 0, req, oracle, called, e);
      assert cands[0..] == cands;
      var first := RunRound(cands, 0, req, oracle, called, e);
      var rest := Repeat(cands, rounds - 1);
      assert Repeat(cands, rounds) == cands + rest;
      if first.Exhausted? {
        RunRoundsShape(cands, rounds - 1, req, oracle, first.called, first.lastError);
        ShapeCompose(first, RunRounds(cands, rounds - 1, req, oracle, first.called, first.lastError),
                     called, cands, rest, e, req, oracle);
      } else {
        ShapeExtend(first, called, cands, rest, e, req, oracle);
      }
    }
  }

  lemma {:induction false} RepeatFacts(s: seq<Provider>, m: nat)
    ensures |Repeat(s, m)| == m * |s|
    ensures forall k :: 0 <= k < |Repeat(s, m)| ==> Repeat(s, m)[k] in s
    decreases m
  {
    if m > 0 {
      RepeatFacts(s, m - 1);
      assert |Repeat(s, m)| == |s| + (m - 1) * |s| == m * |s|;
    }
  }

  /** "First success wins": the router returns a usable response exactly
      when one of its calls succeeded; that call was the last one made, its
      response is the one returned, and every earlier call failed. */
  lemma RouteFirstSuccessWins(ps: seq<Provider>, cursor: nat, name: Option<string>, req: LLMRequest, oracle: Oracle)
    ensures var r := Route(ps, cursor, name, req, oracle);
      (forall k :: 0 <= k < |r.called| - 1 ==> !Succeeds(oracle(k, r.called[k], req))) &&
      (Usable(r.response) <==> |r.called| > 0 && Succeeds(oracle(|r.called| - 1, r.called[|r.called| - 1], req))) &&
      (Usable(r.response) ==> r.response == oracle(|r.called| - 1, r.called[|r.called| - 1], req).response)
  {
    if |ps| > 0 {
      if NameGiven(name) {
        if FindByName(ps, name.value).Some? {
          RouteNamedWins(ps, cursor, name, req, oracle);
        }
      } else {
        RouteRotationWins(ps, cursor, name, req, oracle);
      }
    }
  }

  /** The conclusion of `RouteFirstSuccessWins` for one routed request. */
  ghost predicate FirstSuccessWins(r: Routed, req: LLMRequest, oracle: Oracle) {
    (forall k :: 0 <= k < |r.called| - 1 ==> !Succeeds(oracle(k, r.called[k], req))) &&
    (Usable(r.response) <==> |r.called| > 0 && Succeeds(oracle(|r.called| - 1, r.called[|r.called| - 1], req))) &&
    (Usable(r.response) ==> r.response == oracle(|r.called| - 1, r.called[|r.called| - 1], req).response)
  }

  lemma RouteNamedWins(ps: seq<Provider>, cursor: nat, name: Option<string>, req: LLMRequest, oracle: Oracle)
    requires |ps| > 0 && NameGiven(name) && FindByName(ps, name.value).Some?
    ensures FirstSuccessWins(Route(ps, cursor, name, req, oracle), req, oracle)
  {
    var p := FindByName(ps, name.value).value;
    RunFirstSuccess([p], req, oracle);
    RouteRunsNamed(ps, cursor, name, req, oracle);
    WinsCarryOver(Route(ps, cursor, name, req, oracle), RunRounds([p], ROUNDS, req, oracle, [], NO_ATTEMPT), req, oracle);
  }

  lemma RouteRotationWins(ps: seq<Provider>, cursor: nat, name: Option<string>, req: LLMRequest, oracle: Oracle)
    requires |ps| > 0 && !NameGiven(name)
    ensures FirstSuccessWins(Route(ps, cursor, name, req, oracle), req, oracle)
  {
    RunFirstSuccess(Rotation(ps, cursor), req, oracle);
    RouteRunsRotation(ps, cursor, name, req, oracle);
    WinsCarryOver(Route(ps, cursor, name, req, oracle), RunRounds(Rotation(ps, cursor), ROUNDS, req, oracle, [], NO_ATTEMPT), req, oracle);
  }

  /** A known name: the router reports the run over that one provider. */
  lemma RouteRunsNamed(ps: seq<Provider>, cursor: nat, name: Option<string>, req: LLMRequest, oracle: Oracle)
    requires |ps| > 0 && NameGiven(name) && FindByName(ps, name.value).Some?
    ensures Reports(Route(ps, cursor, name, req, oracle),
                    RunRounds([FindByName(ps, name.value).value], ROUNDS, req, oracle, [], NO_ATTEMPT))
  {
  }

  /** No name: the router reports the run over the rotation. */
  lemma RouteRunsRotation(ps: seq<Provider>, cursor: nat, name: Option<string>, req: LLMRequest, oracle: Oracle)
    requires |ps| > 0 && !NameGiven(name)
    ensures Reports(Route(ps, cursor, name, req, oracle), RunRounds(Rotation(ps, cursor), ROUNDS, req, oracle, [], NO_ATTEMPT))
  {
  }

  /** The routed result reports `run`: the same calls, the run's response
      on success and an error response on exhaustion. */
  predicate Reports(r: Routed, run: Run) {
    r.called == run.called && (run.Succeeded? ==> r.response == run.response) &&
    (run.Exhausted? ==> !Usable(r.response))
  }

  /** What a run shows carries over to the result that reports it. */
  lemma WinsCarryOver(r: Routed, run: Run, req: LLMRequest, oracle: Oracle)
    requires Reports(r, run) && RunWins(run, req, oracle)
    ensures FirstSuccessWins(r, req, oracle)
  {
  }

  /** A run from no earlier calls: every call but a final success failed,
      and a success is the last call's response. */
  ghost predicate RunWins(run: Run, req: LLMRequest, oracle: Oracle) {
    (forall k :: 0 <= k < |run.called| - 1 ==> !Succeeds(oracle(k, run.called[k], req))) &&
    (run.Succeeded? ==>
       |run.called| > 0 && Succeeds(oracle(|run.called| - 1, run.called[|run.called| - 1], req)) &&
       run.response == oracle(|run.called| - 1, run.called[|run.called| - 1], req).response) &&
    (run.Exhausted? && |run.called| > 0 ==> !Succeeds(oracle(|run.called| - 1, run.called[|run.called| - 1], req)))
  }

  /** The rounds of a request over `cands` show the first success wins. */
  lemma RunFirstSuccess(cands: seq<Provider>, req: LLMRequest, oracle: Oracle)
    ensures RunWins(RunRounds(cands, ROUNDS, req, oracle, [], NO_ATTEMPT), req, oracle)
  {
    RunRoundsShape(cands, ROUNDS, req, oracle, [], NO_ATTEMPT);
  }

  /** With no providers the router reports so and calls nothing. */
  lemma RouteNoProviders(cursor: nat, name: Option<string>, req: LLMRequest, oracle: Oracle)
    ensures Route([], cursor, name, req, oracle) == Routed(ErrorResponse(NO_PROVIDERS), [], cursor)
  {
  }

  /** A named request calls only the first provider whose name matches
      case-insensitively, at most ROUNDS times, never fails over, and leaves
      the cursor alone; an unknown name calls nothing. */
  lemma RouteNamed(ps: seq<Provider>, cursor: nat, name: string, req: LLMRequest, oracle: Oracle)
    requires |ps| > 0 && name != ""
    ensures var r := Route(ps, cursor, Some(name), req, oracle);
      r.cursor == cursor &&
      (FindByName(ps, name).None? ==>
         r.called == [] && r.response == ErrorResponse(NotFoundError(name))) &&
      (FindByName(ps, name).Some? ==>
         1 <= |r.called| <= ROUNDS &&
         (forall k :: 0 <= k < |r.called| ==> r.called[k] == FindByName(ps, name).value) &&
         (!Usable(r.response) ==>
            |r.called| == ROUNDS && !Succeeds(oracle(|r.called| - 1, r.called[|r.called| - 1], req)) &&
            r.response == ErrorResponse(NamedFailureError(name,
              FailureText(oracle(|r.called| - 1, r.called[|r.called| - 1], req))))))
  {
    var f := FindByName(ps, name);
    if f.Some? {
      var plan := Repeat([f.value], ROUNDS);
      RunRoundsShape([f.value], ROUNDS, req, oracle, [], NO_ATTEMPT);
      RepeatFacts([f.value], ROUNDS);
      var run := RunRounds([f.value], ROUNDS, req, oracle, [], NO_ATTEMPT);
      forall k | 0 <= k < |run.called| ensures run.called[k] == f.value {
        assert run.called[k] == plan[k];
        assert plan[k] in [f.value];
      }
    }
  }

  /** An unnamed request moves the cursor one step round the providers,
      calls them in rotation order starting at the old cursor, round after
      round, at most ROUNDS * n times; when every call fails it has called
      each provider ROUNDS times and reports the last failure. */
  lemma RouteRotating(ps: seq<Provider>, cursor: nat, name: Option<string>, req: LLMRequest, oracle: Oracle)
    requires |ps| > 0 && !NameGiven(name)
    ensures var r := Route(ps, cursor, name, req, oracle);
      var plan := Repeat(Rotation(ps, cursor), ROUNDS);
      r.cursor == (cursor + 1) % |ps| &&
      1 <= |r.called| <= ROUNDS * |ps| == |plan| &&
      r.called == plan[..|r.called|] &&
      (!Usable(r.response) ==>
         r.called == plan && !Succeeds(oracle(|r.called| - 1, r.called[|r.called| - 1], req)) &&
         r.response == ErrorResponse(AllFailedError(
           FailureText(oracle(|r.called| - 1, r.called[|r.called| - 1], req)))))
  {
    var cands := Rotation(ps, cursor);
    RunRoundsShape(cands, ROUNDS, req, oracle, [], NO_ATTEMPT);
    RepeatFacts(cands, ROUNDS);
    var run := RunRounds(cands, ROUNDS, req, oracle, [], NO_ATTEMPT);
    assert run.called[0..] == run.called;
  }

  /** The rotation from a valid cursor holds every provider exactly once:
      it has n entries, starts at the cursor, and provider j sits at offset
      (j - start) mod n. */
  lemma RotationCoversAll(ps: seq<Provider>, start: nat)
    requires start < |ps|
    ensures |Rotation(ps, start)| == |ps|
    ensures Rotation(ps, start)[0] == ps[start]
    ensures forall j :: 0 <= j < |ps| ==> Rotation(ps, start)[if j >= start then j - start else j + |ps| - start] == ps[j]
  {
    forall j | 0 <= j < |ps| {
      RotationOffset(ps, start, j);
    }
    RotationAt(ps, start, 0);
    ModBelow(start, |ps|);
  }

  /** Where provider `j` sits in the rotation from `start`. */
  lemma RotationOffset(ps: seq<Provider>, start: nat, j: nat)
    requires start < |ps| && j < |ps|
    ensures Rotation(ps, start)[if j >= start then j - start else j + |ps| - start] == ps[j]
  {
    var n := |ps|;
    if j >= start {
      RotationAt(ps, start, j - start);
      ModBelow(j, n);
    } else {
      RotationAt(ps, start, j + n - start);
      ModWrap(j + n, n);
    }
  }

  /** One entry of the rotation. */
  lemma RotationAt(ps: seq<Provider>, start: nat, i: nat)
    requires i < |ps|
    ensures |Rotation(ps, start)| == |ps| && Rotation(ps, start)[i] == ps[(start + i) % |ps|]
  {
  }

  lemma ModBelow(x: int, n: int)
    requires 0 <= x < n
    ensures x % n == x
  {
  }

  lemma ModWrap(x: int, n: int)
    requires 0 < n <= x < 2 * n
    ensures x % n == x - n
  {
  }
}
