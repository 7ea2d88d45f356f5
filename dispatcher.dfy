/** The fallback loop of `chat_completions`: the five candidate models are
    tried in order, each with up to three upstream calls, and every upstream
    answer is classified as success, routing miss, transient failure or
    terminal error. The upstream is an oracle: a sequence of outcomes, one
    consumed per call. */
module Dispatcher {
  import opened Text
  import opened Json
  import Aliases

  /** What one upstream call yields: a network failure (`requests` raised),
      or a response with status, body text and headers. */
  datatype Outcome =
    | NetErr(message: string)
    | Resp(status: int, text: string, headers: seq<(string, string)>)

  /** The error bodies the relay answers with. `Upstream` carries the
      upstream's error body as text; the source parses it and serialises it
      again. */
  datatype ErrorBody =
    | Upstream(code: int, text: string)
    | NetworkFailure(message: string)
    | NoModelAvailable
    | MissingKey

  datatype Body = Raw(content: string) | Error(error: ErrorBody)

  datatype Reply = Reply(status: int, body: Body, headers: seq<(string, string)>)

  /** `range(3)`: calls per candidate. */
  const MaxAttempts: nat := 3

  /** Five candidates, three calls each. */
  const MaxCalls: nat := 15

  /** The statuses retried on the first two attempts (line 205). */
  predicate Transient(status: int)
  {
    status in {429, 500, 502, 503, 504}
  }

  /** Line 200: a 404 whose lower-cased error text names a missing endpoint. */
  predicate RoutingMiss(status: int, text: string)
  {
    status == 404 && (Contains(Lower(text), "no endpoints found") || Contains(Lower(text), "not found"))
  }

  /** The header names copied onto a successful reply (lines 186-187). */
  const KeptHeaders: set<string> :=
    {"content-type", "x-request-id", "x-openai-model", "openrouter-processing-ms", "openrouter-cache-status"}

  predicate Kept(h: (string, string))
  {
    Lower(h.0) in KeptHeaders
  }

  /** The upstream headers whose lower-cased name is kept, in their order. */
  function SelectedHeaders(hs: seq<(string, string)>): seq<(string, string)>
  {
    if |hs| == 0 then []
    else
      var init := SelectedHeaders(hs[..|hs| - 1]);
      if Kept(hs[|hs| - 1]) then init + [hs[|hs| - 1]] else init
  }

  /** The reply carries exactly the upstream headers with a kept name, and
      never more headers than the upstream sent. */
  lemma {:induction false} SelectedHeadersMembers(hs: seq<(string, string)>)
    ensures |SelectedHeaders(hs)| <= |hs|
    ensures forall h :: h in SelectedHeaders(hs) <==> h in hs && Kept(h)
  {
    if |hs| > 0 {
      SelectedHeadersMembers(hs[..|hs| - 1]);
      assert hs == hs[..|hs| - 1] + [hs[|hs| - 1]];
    }
  }

  /** Lines 185-188: walk the upstream headers and copy the kept ones. */
  method CopyHeaders(hs: seq<(string, string)>) returns (copied: seq<(string, string)>)
    ensures copied == SelectedHeaders(hs)
  {
    copied := [];
    for i := 0 to |hs|
      invariant copied == SelectedHeaders(hs[..i])
    {
      assert hs[..i + 1][..i] == hs[..i];
      var (name, value) := hs[i];
      if Lower(name) in KeptHeaders {
        copied := copied + [(name, value)];
      }
    }
    assert hs[..|hs|] == hs;
  }

  /** The error an unsuccessful call records in `last_error_body`. */
  function ErrorOf(o: Outcome): ErrorBody
  {
    match o
    case NetErr(msg) => NetworkFailure(msg)
    case Resp(status, text, _) => Upstream(status, text)
  }

  /** A call that tries the same candidate again: a network failure or a
      transient status on the first or second attempt. */
  predicate Retry(o: Outcome, attempt: nat)
  {
    attempt < 2 && (o.NetErr? || Transient(o.status))
  }

  /** A call that gives up on the current candidate: a network failure or a
      routing miss. */
  predicate Advances(o: Outcome)
  {
    o.NetErr? || RoutingMiss(o.status, o.text)
  }

  predicate Succeeds(o: Outcome)
  {
    o.Resp? && o.status < 400
  }

  /** The reply when `o` is the last upstream call made: a success passes
      through with its kept headers, an error response is answered with its
      own status and body, and a network failure (which can only be last when
      every candidate is spent) becomes a 404. */
  function LastReply(o: Outcome): Reply
  {
    match o
    case NetErr(msg) => Reply(404, Error(NetworkFailure(msg)), [])
    case Resp(status, text, headers) =>
      if status < 400 then Reply(status, Raw(text), SelectedHeaders(headers))
      else Reply(status, Error(Upstream(status, text)), [])
  }

  /** How one candidate's inner loop ends: with a reply for the client, or
      abandoned with an error recorded. `next` is the oracle position after
      its last call. */
  datatype CandidateEnd =
    | Returned(reply: Reply, next: nat)
    | Abandoned(next: nat, error: ErrorBody)

  /** Lines 159-211: one candidate's inner loop from oracle position `k` on
      attempt `attempt`. A retried call is followed by the next attempt; a
      call that gives the candidate up abandons it with that call's error;
      any other call ends the loop with the reply for the client. */
  function Attempts(oracle: seq<Outcome>, k: nat, attempt: nat): (e: CandidateEnd)
    requires attempt < MaxAttempts && k + MaxAttempts - attempt <= |oracle|
    ensures k < e.next <= k + MaxAttempts - attempt
    decreases MaxAttempts - attempt
  {
    var o := oracle[k];
    if Retry(o, attempt) then Attempts(oracle, k + 1, attempt + 1)
    else if Advances(o) then Abandoned(k + 1, ErrorOf(o))
    else Returned(LastReply(o), k + 1)
  }

  /** Lines 33-39 applied to `model_slug`. */
  function Candidates(slug: Json, defaultModel: string): (r: seq<Json>)
    ensures |r| == 5
    ensures r[0] == Aliases.Resolve(slug)
    ensures forall i :: 1 <= i < 5 ==> r[i].JStr?
    ensures Truthy(r[2]) && Truthy(r[3]) && Truthy(r[4])
  {
    [Aliases.Resolve(slug), JStr(defaultModel), JStr("deepseek/deepseek-chat"),
     JStr("deepseek/deepseek-coder"), JStr("deepseek/deepseek-r1")]
  }

  /** The candidates actually tried when none succeeds: truthy ones, each
      only the first time it appears (lines 152-155). */
  function PlanFrom(cands: seq<Json>, i: nat, tried: set<Json>): (r: seq<Json>)
    requires i <= |cands|
    ensures |r| <= |cands| - i
    decreases |cands| - i
  {
    if i == |cands| then []
    else if !Truthy(cands[i]) || cands[i] in tried then PlanFrom(cands, i + 1, tried)
    else [cands[i]] + PlanFrom(cands, i + 1, tried + {cands[i]})
  }

  function Plan(cands: seq<Json>): seq<Json>
  {
    PlanFrom(cands, 0, {})
  }

  /** The plan from position `i` holds each truthy, not yet tried candidate of
      `cands[i..]` exactly once, and nothing else. */
  lemma {:induction false} PlanFromMembers(cands: seq<Json>, i: nat, tried: set<Json>)
    requires i <= |cands|
    ensures forall c :: c in PlanFrom(cands, i, tried) <==> c in cands[i..] && Truthy(c) && c !in tried
    ensures forall a, b :: 0 <= a < b < |PlanFrom(cands, i, tried)| ==>
              PlanFrom(cands, i, tried)[a] != PlanFrom(cands, i, tried)[b]
    decreases |cands| - i
  {
    if i < |cands| {
      assert cands[i..] == [cands[i]] + cands[i + 1..];
      if !Truthy(cands[i]) || cands[i] in tried {
        PlanFromMembers(cands, i + 1, tried);
      } else {
        PlanFromMembers(cands, i + 1, tried + {cands[i]});
        var rest := PlanFrom(cands, i + 1, tried + {cands[i]});
        assert PlanFrom(cands, i, tried) == [cands[i]] + rest;
        assert cands[i] !in rest;
      }
    }
  }

  /** The plan lists every truthy candidate, each once, and nothing else. */
  lemma PlanMembers(cands: seq<Json>)
    ensures forall c :: c in Plan(cands) <==> c in cands && Truthy(c)
    ensures forall a, b :: 0 <= a < b < |Plan(cands)| ==> Plan(cands)[a] != Plan(cands)[b]
  {
    PlanFromMembers(cands, 0, {});
    assert cands[0..] == cands;
  }

  /** `p` picks candidates from `cands[from..]` at strictly increasing
      positions `idx`: a subsequence, in the candidates' own order. */
  ghost predicate OrderedPick(p: seq<Json>, cands: seq<Json>, from: nat, idx: seq<nat>)
  {
    && |idx| == |p|
    && (forall a :: 0 <= a < |p| ==> from <= idx[a] < |cands| && cands[idx[a]] == p[a])
    && (forall a, b :: 0 <= a < b < |p| ==> idx[a] < idx[b])
  }

  /** The candidates are tried in the order of `FALLBACK_MODELS`. */
  lemma {:induction false} PlanFromOrder(cands: seq<Json>, i: nat, tried: set<Json>)
    requires i <= |cands|
    ensures exists idx :: OrderedPick(PlanFrom(cands, i, tried), cands, i, idx)
    decreases |cands| - i
  {
    if i == |cands| {
      assert PlanFrom(cands, i, tried) == [];
      assert OrderedPick([], cands, i, []);
    } else if !Truthy(cands[i]) || cands[i] in tried {
      PlanFromOrder(cands, i + 1, tried);
      var idx :| OrderedPick(PlanFrom(cands, i + 1, tried), cands, i + 1, idx);
      assert OrderedPick(PlanFrom(cands, i, tried), cands, i, idx);
    } else {
      var rest := PlanFrom(cands, i + 1, tried + {cands[i]});
      PlanFromOrder(cands, i + 1, tried + {cands[i]});
      var ridx :| OrderedPick(rest, cands, i + 1, ridx);
      assert PlanFrom(cands, i, tried) == [cands[i]] + rest;
      assert OrderedPick([cands[i]] + rest, cands, i, [i] + ridx);
    }
  }

  /** The plan keeps the candidates' order. */
  lemma PlanOrder(cands: seq<Json>)
    ensures exists idx :: OrderedPick(Plan(cands), cands, 0, idx)
  {
    PlanFromOrder(cands, 0, {});
    var idx :| OrderedPick(PlanFrom(cands, 0, {}), cands, 0, idx);
    assert OrderedPick(Plan(cands), cands, 0, idx);
  }

  /** The plan for `model_slug`; it always holds the built-in chat model. */
  function CandidatePlan(slug: Json, defaultModel: string): (r: seq<Json>)
    ensures 1 <= |r| <= 5
    ensures JStr("deepseek/deepseek-chat") in r
  {
    var cands := Candidates(slug, defaultModel);
    PlanMembers(cands);
    assert cands[2] in Plan(cands);
    Plan(cands)
  }


  /** A whole dispatch: the reply, and every upstream call in order as the
      candidate sent and its attempt index. */
  datatype Run = Run(reply: Reply, calls: seq<(Json, nat)>)

  /** The synthesized 404 of lines 214-216. */
  function ExhaustedReply(last: Option<ErrorBody>): Reply
  {
    Reply(404, Error(if last.Some? then last.value else NoModelAvailable), [])
  }

  /** Lines 151-216, one upstream call at a time: the first planned
      candidate is on attempt `attempt` at oracle position `k`, with
      `last_error_body` so far. A call that is retried or gives its
      candidate up is followed by the next call, with its error recorded;
      any other call ends the dispatch with its own reply; with no candidate
      left the synthesized 404 is the reply. Which candidates are planned is
      `PlanFrom`; `Dispatch` below runs the two nested loops over the raw
      candidate list as the source does, and is proved to follow this. */
  function Fallback(plan: seq<Json>, oracle: seq<Outcome>, k: nat, attempt: nat, last: Option<ErrorBody>): Run
    requires attempt < MaxAttempts && k <= |oracle| && k + MaxAttempts * |plan| <= |oracle| + attempt
    decreases |plan|, MaxAttempts - attempt
  {
    if plan == [] then Run(ExhaustedReply(last), [])
    else
      var o := oracle[k];
      if Continues(o, attempt) then
        var rest := Fallback(Moved(plan, o, attempt), oracle, k + 1, NextAttempt(o, attempt), Some(ErrorOf(o)));
        Run(rest.reply, [(plan[0], attempt)] + rest.calls)
      else Run(LastReply(o), [(plan[0], attempt)])
  }

  /** A call that does not end the dispatch: it is retried or gives its
      candidate up. */
  predicate Continues(o: Outcome, attempt: nat)
  {
    Retry(o, attempt) || Advances(o)
  }

  /** The plan after a call that does not end the dispatch: unchanged when
      the call is retried, without its first candidate when it is given up. */
  function Moved(plan: seq<Json>, o: Outcome, attempt: nat): seq<Json>
    requires plan != []
  {
    if Retry(o, attempt) then plan else plan[1..]
  }

  /** The attempt index of the call after one that does not end the dispatch. */
  function NextAttempt(o: Outcome, attempt: nat): nat
  {
    if Retry(o, attempt) then attempt + 1 else 0
  }

  /** The dispatch over a whole plan, from the first call on. */
  function DispatchRun(plan: seq<Json>, oracle: seq<Outcome>): Run
    requires MaxAttempts * |plan| <= |oracle|
  {
    Fallback(plan, oracle, 0, 0, None)
  }

  /** The candidates of a trace, in the order their first attempts were made. */
  function Starts(calls: seq<(Json, nat)>): seq<Json>
  {
    if calls == [] then []
    else (if calls[0].1 == 0 then [calls[0].0] else []) + Starts(calls[1..])
  }

  lemma StartsCons(call: (Json, nat), rest: seq<(Json, nat)>)
    ensures Starts([call] + rest) == (if call.1 == 0 then [call.0] else []) + Starts(rest)
  {
    assert ([call] + rest)[1..] == rest;
  }

  /** The plan still ahead of a dispatch: all of it on a first attempt, the
      rest of it once the first candidate has been called. */
  function Ahead(plan: seq<Json>, attempt: nat): seq<Json>
  {
    if attempt == 0 || plan == [] then plan else plan[1..]
  }

  predicate IsPrefix<T(==)>(a: seq<T>, b: seq<T>)
  {
    |a| <= |b| && a == b[..|a|]
  }

  /** How consecutive calls follow each other: after a retrying call the same
      candidate is called again on the next attempt; after any other call
      (which must then give the candidate up) the next call is the first
      attempt of a new candidate. */
  predicate Step(o: Outcome, call: (Json, nat), next: (Json, nat))
  {
    && (Retry(o, call.1) ==> next == (call.0, call.1 + 1))
    && (!Retry(o, call.1) ==> Advances(o) && next.1 == 0)
  }

  /** Giving up on the last candidate with a call's error answers as that
      call would have been answered had it been final. */
  lemma GiveUpReply(o: Outcome)
    requires Advances(o)
    ensures ExhaustedReply(Some(ErrorOf(o))) == LastReply(o)
  {
  }

  /** The first call of a dispatch over a non-empty plan is on the current
      candidate and attempt. */
  lemma FallbackFirst(plan: seq<Json>, oracle: seq<Outcome>, k: nat, attempt: nat, last: Option<ErrorBody>)
    requires plan != [] && attempt < MaxAttempts && k <= |oracle| && k + MaxAttempts * |plan| <= |oracle| + attempt
    ensures var run := Fallback(plan, oracle, k, attempt, last);
            run.calls != [] && run.calls[0] == (plan[0], attempt)
  {
  }

  /** A dispatch makes no call exactly when its plan is empty, and never
      runs past the oracle. */
  lemma {:induction false} FallbackLength(plan: seq<Json>, oracle: seq<Outcome>, k: nat, attempt: nat,
                                          last: Option<ErrorBody>)
    requires attempt < MaxAttempts && k <= |oracle| && k + MaxAttempts * |plan| <= |oracle| + attempt
    ensures var run := Fallback(plan, oracle, k, attempt, last);
            && (run.calls == [] <==> plan == [])
            && k + |run.calls| <= |oracle|
    decreases |plan|, MaxAttempts - attempt
  {
    if plan != [] && Continues(oracle[k], attempt) {
      var o := oracle[k];
      FallbackLength(Moved(plan, o, attempt), oracle, k + 1, NextAttempt(o, attempt), Some(ErrorOf(o)));
    }
  }

  /** At most three calls per planned candidate, counting those already
      made on the current one. */
  lemma {:induction false} FallbackBound(plan: seq<Json>, oracle: seq<Outcome>, k: nat, attempt: nat,
                                         last: Option<ErrorBody>)
    requires attempt < MaxAttempts && k <= |oracle| && k + MaxAttempts * |plan| <= |oracle| + attempt
    ensures plan != [] ==> |Fallback(plan, oracle, k, attempt, last).calls| + attempt <= MaxAttempts * |plan|
    decreases |plan|, MaxAttempts - attempt
  {
    if plan != [] && Continues(oracle[k], attempt) {
      var o := oracle[k];
      FallbackBound(Moved(plan, o, attempt), oracle, k + 1, NextAttempt(o, attempt), Some(ErrorOf(o)));
    }
  }

  /** No call is made on a fourth attempt. */
  lemma {:induction false} FallbackAttempts(plan: seq<Json>, oracle: seq<Outcome>, k: nat, attempt: nat,
                                            last: Option<ErrorBody>)
    requires attempt < MaxAttempts && k <= |oracle| && k + MaxAttempts * |plan| <= |oracle| + attempt
    ensures forall c <- Fallback(plan, oracle, k, attempt, last).calls :: c.1 < MaxAttempts
    decreases |plan|, MaxAttempts - attempt
  {
    if plan != [] && Continues(oracle[k], attempt) {
      var o := oracle[k];
      FallbackAttempts(Moved(plan, o, attempt), oracle, k + 1, NextAttempt(o, attempt), Some(ErrorOf(o)));
    }
  }

  lemma PrefixCons(x: Json, a: seq<Json>, b: seq<Json>)
    requires IsPrefix(a, b)
    ensures IsPrefix([x] + a, [x] + b)
  {
    assert ([x] + b)[..|a| + 1] == [x] + b[..|a|];
  }

  /** The candidates tried are a prefix of the plan ahead, in plan order. */
  lemma {:induction false} FallbackPlan(plan: seq<Json>, oracle: seq<Outcome>, k: nat, attempt: nat,
                                        last: Option<ErrorBody>)
    requires attempt < MaxAttempts && k <= |oracle| && k + MaxAttempts * |plan| <= |oracle| + attempt
    ensures IsPrefix(Starts(Fallback(plan, oracle, k, attempt, last).calls), Ahead(plan, attempt))
    decreases |plan|, MaxAttempts - attempt
  {
    if plan == [] {
      return;
    }
    var o := oracle[k];
    var p := plan[0];
    var rest := Run(LastReply(o), []);
    if Continues(o, attempt) {
      var next, a := Moved(plan, o, attempt), NextAttempt(o, attempt);
      rest := Fallback(next, oracle, k + 1, a, Some(ErrorOf(o)));
      FallbackPlan(next, oracle, k + 1, a, Some(ErrorOf(o)));
      assert Ahead(next, a) == plan[1..];
    }
    assert Fallback(plan, oracle, k, attempt, last).calls == [(p, attempt)] + rest.calls;
    StartsCons((p, attempt), rest.calls);
    if attempt == 0 {
      assert plan == [p] + plan[1..];
      PrefixCons(p, Starts(rest.calls), plan[1..]);
    }
  }

  /** When the last call gave its candidate up, as many candidates were
      tried as the plan ahead holds. */
  lemma {:induction false} FallbackExhausts(plan: seq<Json>, oracle: seq<Outcome>, k: nat, attempt: nat,
                                            last: Option<ErrorBody>)
    requires attempt < MaxAttempts && k <= |oracle| && k + MaxAttempts * |plan| <= |oracle| + attempt
    ensures var run := Fallback(plan, oracle, k, attempt, last);
            var n := |run.calls|;
            k + n <= |oracle| && (n > 0 && Advances(oracle[k + n - 1]) ==> |Starts(run.calls)| == |Ahead(plan, attempt)|)
    decreases |plan|, MaxAttempts - attempt
  {
    FallbackLength(plan, oracle, k, attempt, last);
    if plan == [] || !Continues(oracle[k], attempt) {
      return;
    }
    var o := oracle[k];
    var p := plan[0];
    var next, a := Moved(plan, o, attempt), NextAttempt(o, attempt);
    var rest := Fallback(next, oracle, k + 1, a, Some(ErrorOf(o)));
    FallbackExhausts(next, oracle, k + 1, a, Some(ErrorOf(o)));
    FallbackLength(next, oracle, k + 1, a, Some(ErrorOf(o)));
    assert |Ahead(next, a)| == |plan| - 1;
    var calls := [(p, attempt)] + rest.calls;
    assert Fallback(plan, oracle, k, attempt, last).calls == calls;
    StartsCons((p, attempt), rest.calls);
    if rest.calls != [] {
      assert oracle[k + |calls| - 1] == oracle[(k + 1) + |rest.calls| - 1];
    }
  }

  /** The last upstream call of a dispatch does not retry and decides the
      reply. */
  lemma FallbackLast(plan: seq<Json>, oracle: seq<Outcome>, k: nat, attempt: nat, last: Option<ErrorBody>)
    requires attempt < MaxAttempts && k <= |oracle| && k + MaxAttempts * |plan| <= |oracle| + attempt
    ensures var run := Fallback(plan, oracle, k, attempt, last);
            var n := |run.calls|;
            && k + n <= |oracle|
            && (n > 0 ==> !Retry(oracle[k + n - 1], run.calls[n - 1].1))
            && (n > 0 ==> run.reply == LastReply(oracle[k + n - 1]))
  {
    FallbackLength(plan, oracle, k, attempt, last);
    FallbackLastNoRetry(plan, oracle, k, attempt, last);
    FallbackLastReply(plan, oracle, k, attempt, last);
  }

  /** The last upstream call of a dispatch is not one that is retried. */
  lemma {:induction false} FallbackLastNoRetry(plan: seq<Json>, oracle: seq<Outcome>, k: nat, attempt: nat,
                                               last: Option<ErrorBody>)
    requires attempt < MaxAttempts && k <= |oracle| && k + MaxAttempts * |plan| <= |oracle| + attempt
    ensures var run := Fallback(plan, oracle, k, attempt, last);
            var n := |run.calls|;
            k + n <= |oracle| && (n > 0 ==> !Retry(oracle[k + n - 1], run.calls[n - 1].1))
    decreases |plan|, MaxAttempts - attempt
  {
    FallbackLength(plan, oracle, k, attempt, last);
    if plan == [] || !Continues(oracle[k], attempt) {
      return;
    }
    var o := oracle[k];
    var next, a := Moved(plan, o, attempt), NextAttempt(o, attempt);
    var rest := Fallback(next, oracle, k + 1, a, Some(ErrorOf(o)));
    FallbackLastNoRetry(next, oracle, k + 1, a, Some(ErrorOf(o)));
    FallbackLength(next, oracle, k + 1, a, Some(ErrorOf(o)));
    var run := Fallback(plan, oracle, k, attempt, last);
    assert run.calls == [(plan[0], attempt)] + rest.calls;
    if rest.calls != [] {
      var m := |rest.calls|;
      assert run.calls[|run.calls| - 1] == rest.calls[m - 1];
    } else {
      assert next == [];
    }
  }

  /** The reply of a dispatch is the one its last upstream call decides. */
  lemma {:induction false} FallbackLastReply(plan: seq<Json>, oracle: seq<Outcome>, k: nat, attempt: nat,
                                             last: Option<ErrorBody>)
    requires attempt < MaxAttempts && k <= |oracle| && k + MaxAttempts * |plan| <= |oracle| + attempt
    ensures var run := Fallback(plan, oracle, k, attempt, last);
            var n := |run.calls|;
            k + n <= |oracle| && (n > 0 ==> run.reply == LastReply(oracle[k + n - 1]))
    decreases |plan|, MaxAttempts - attempt
  {
    FallbackLength(plan, oracle, k, attempt, last);
    if plan == [] || !Continues(oracle[k], attempt) {
      return;
    }
    var o := oracle[k];
    var next, a := Moved(plan, o, attempt), NextAttempt(o, attempt);
    var rest := Fallback(next, oracle, k + 1, a, Some(ErrorOf(o)));
    FallbackLastReply(next, oracle, k + 1, a, Some(ErrorOf(o)));
    FallbackLength(next, oracle, k + 1, a, Some(ErrorOf(o)));
    var run := Fallback(plan, oracle, k, attempt, last);
    assert run == Run(rest.reply, [(plan[0], attempt)] + rest.calls);
    if next == [] {
      assert |run.calls| == 1;
      GiveUpReply(o);
    } else {
      assert |run.calls| == 1 + |rest.calls|;
    }
  }

  /** Consecutive calls of a dispatch follow `Step`. */
  lemma {:induction false} FallbackSteps(plan: seq<Json>, oracle: seq<Outcome>, k: nat, attempt: nat,
                                         last: Option<ErrorBody>)
    requires attempt < MaxAttempts && k <= |oracle| && k + MaxAttempts * |plan| <= |oracle| + attempt
    ensures var run := Fallback(plan, oracle, k, attempt, last);
            && k + |run.calls| <= |oracle|
            && forall j :: 0 <= j < |run.calls| - 1 ==> Step(oracle[k + j], run.calls[j], run.calls[j + 1])
    decreases |plan|, MaxAttempts - attempt
  {
    FallbackLength(plan, oracle, k, attempt, last);
    if plan == [] || !Continues(oracle[k], attempt) {
      return;
    }
    var o := oracle[k];
    var next, a := Moved(plan, o, attempt), NextAttempt(o, attempt);
    var rest := Fallback(next, oracle, k + 1, a, Some(ErrorOf(o)));
    FallbackSteps(next, oracle, k + 1, a, Some(ErrorOf(o)));
    if next != [] {
      FallbackFirst(next, oracle, k + 1, a, Some(ErrorOf(o)));
    }
    var calls := [(plan[0], attempt)] + rest.calls;
    assert Fallback(plan, oracle, k, attempt, last).calls == calls;
    forall j | 0 <= j < |calls| - 1
      ensures Step(oracle[k + j], calls[j], calls[j + 1])
    {
      if j > 0 {
        assert calls[j] == rest.calls[j - 1] && calls[j + 1] == rest.calls[j];
        assert oracle[k + j] == oracle[(k + 1) + (j - 1)];
      }
    }
  }

  /** The shape of the dispatch over a non-empty plan (lines 149-216):
      between one and three upstream calls per planned candidate, the first
      on the plan's first candidate; no attempt index beyond the third; and
      the candidates tried are a prefix of the plan, in plan order. */
  lemma DispatchShape(plan: seq<Json>, oracle: seq<Outcome>)
    requires plan != [] && MaxAttempts * |plan| <= |oracle|
    ensures var calls := DispatchRun(plan, oracle).calls;
            && 1 <= |calls| <= MaxAttempts * |plan|
            && calls[0] == (plan[0], 0)
            && (forall c <- calls :: c.1 < MaxAttempts)
            && IsPrefix(Starts(calls), plan)
  {
    FallbackLength(plan, oracle, 0, 0, None);
    FallbackBound(plan, oracle, 0, 0, None);
    FallbackFirst(plan, oracle, 0, 0, None);
    FallbackAttempts(plan, oracle, 0, 0, None);
    FallbackPlan(plan, oracle, 0, 0, None);
  }

  /** Consecutive calls follow `Step`: a retried call is followed by the same
      candidate's next attempt, any other call by a new candidate's first. */
  lemma DispatchSteps(plan: seq<Json>, oracle: seq<Outcome>)
    requires MaxAttempts * |plan| <= |oracle|
    ensures var calls := DispatchRun(plan, oracle).calls;
            && |calls| <= |oracle|
            && forall j :: 0 <= j < |calls| - 1 ==> Step(oracle[j], calls[j], calls[j + 1])
  {
    FallbackSteps(plan, oracle, 0, 0, None);
  }

  /** The last call does not retry and decides the reply. */
  lemma DispatchLast(plan: seq<Json>, oracle: seq<Outcome>)
    requires plan != [] && MaxAttempts * |plan| <= |oracle|
    ensures var run := DispatchRun(plan, oracle);
            var n := |run.calls|;
            && 1 <= n <= |oracle|
            && !Retry(oracle[n - 1], run.calls[n - 1].1)
            && run.reply == LastReply(oracle[n - 1])
  {
    FallbackLength(plan, oracle, 0, 0, None);
    FallbackLast(plan, oracle, 0, 0, None);
  }

  /** When the last call gave its candidate up, every candidate of the plan
      was tried. */
  lemma DispatchExhausts(plan: seq<Json>, oracle: seq<Outcome>)
    requires plan != [] && MaxAttempts * |plan| <= |oracle|
    ensures var run := DispatchRun(plan, oracle);
            var n := |run.calls|;
            && 1 <= n <= |oracle|
            && (Advances(oracle[n - 1]) ==> Starts(run.calls) == plan)
  {
    FallbackLength(plan, oracle, 0, 0, None);
    FallbackPlan(plan, oracle, 0, 0, None);
    FallbackExhausts(plan, oracle, 0, 0, None);
  }

  /** No upstream answer below 400 is passed over: only the last call can
      succeed, and then its body, status and kept headers are the reply. */
  lemma FirstSuccessReturned(plan: seq<Json>, oracle: seq<Outcome>)
    requires plan != [] && MaxAttempts * |plan| <= |oracle|
    ensures var run := DispatchRun(plan, oracle);
            var n := |run.calls|;
            && 1 <= n <= |oracle|
            && (forall j :: 0 <= j < n - 1 ==> !Succeeds(oracle[j]))
            && (Succeeds(oracle[n - 1]) ==>
                  run.reply == Reply(oracle[n - 1].status, Raw(oracle[n - 1].text),
                                     SelectedHeaders(oracle[n - 1].headers)))
  {
    DispatchSteps(plan, oracle);
    DispatchLast(plan, oracle);
    var run := DispatchRun(plan, oracle);
    forall j | 0 <= j < |run.calls| - 1
      ensures !Succeeds(oracle[j])
    {
      assert Step(oracle[j], run.calls[j], run.calls[j + 1]);
    }
  }

  /** An error answer that is neither retried nor a routing miss ends the
      dispatch with that answer's own status and body; a routing miss or
      network failure as the last call means every candidate was spent and
      the reply is a 404 with that call's error. */
  lemma ErrorReplies(plan: seq<Json>, oracle: seq<Outcome>)
    requires plan != [] && MaxAttempts * |plan| <= |oracle|
    ensures var run := DispatchRun(plan, oracle);
            var n := |run.calls|;
            && 1 <= n <= |oracle|
            && var o := oracle[n - 1];
            && (o.Resp? && o.status >= 400 ==> run.reply == Reply(o.status, Error(Upstream(o.status, o.text)), []))
            && (Advances(o) ==>
                  run.reply.status == 404 && run.reply.body == Error(ErrorOf(o)) && Starts(run.calls) == plan)
  {
    DispatchLast(plan, oracle);
    DispatchExhausts(plan, oracle);
  }

  /** The fixed "no model available" body is never sent over a non-empty
      plan: every candidate given up records an error. */
  lemma NeverNoModelAvailable(plan: seq<Json>, oracle: seq<Outcome>)
    requires plan != [] && MaxAttempts * |plan| <= |oracle|
    ensures DispatchRun(plan, oracle).reply.body != Error(NoModelAvailable)
  {
    DispatchLast(plan, oracle);
  }

  // ---- scenarios

  /** A 404 routing miss is the only answer every call gets: each candidate
      of the plan is called exactly once, in plan order, and the synthesized
      404 carries the last miss. */
  lemma {:induction false} AllRoutingMisses(plan: seq<Json>, oracle: seq<Outcome>, k: nat, last: Option<ErrorBody>)
    requires k + MaxAttempts * |plan| <= |oracle|
    requires forall j :: k <= j < |oracle| ==> oracle[j].Resp? && RoutingMiss(oracle[j].status, oracle[j].text)
    ensures var run := Fallback(plan, oracle, k, 0, last);
            && |run.calls| == |plan|
            && (forall j :: 0 <= j < |plan| ==> run.calls[j] == (plan[j], 0))
            && (plan != [] ==>
                  run.reply == Reply(404, Error(Upstream(404, oracle[k + |plan| - 1].text)), []))
    decreases |plan|
  {
    if plan == [] {
      return;
    }
    var o := oracle[k];
    AllRoutingMisses(plan[1..], oracle, k + 1, Some(ErrorOf(o)));
    var rest := Fallback(plan[1..], oracle, k + 1, 0, Some(ErrorOf(o)));
    var calls := [(plan[0], 0)] + rest.calls;
    forall j | 0 <= j < |plan|
      ensures calls[j] == (plan[j], 0)
    {
      if j > 0 {
        assert calls[j] == rest.calls[j - 1];
      }
    }
  }

  /** Two 503 answers and then a 200: the same candidate is called three
      times and the 200 is returned. */
  lemma TransientThenSuccess(plan: seq<Json>, oracle: seq<Outcome>)
    requires plan != [] && MaxAttempts * |plan| <= |oracle|
    requires oracle[0].Resp? && oracle[0].status == 503
    requires oracle[1].Resp? && oracle[1].status == 503
    requires oracle[2].Resp? && oracle[2].status == 200
    ensures var run := DispatchRun(plan, oracle);
            var c := plan[0];
            && run.calls == [(c, 0), (c, 1), (c, 2)]
            && run.reply == Reply(200, Raw(oracle[2].text), SelectedHeaders(oracle[2].headers))
  {
    var third := Fallback(plan, oracle, 2, 2, Some(ErrorOf(oracle[1])));
    assert third == Run(Reply(200, Raw(oracle[2].text), SelectedHeaders(oracle[2].headers)), [(plan[0], 2)]);
    var second := Fallback(plan, oracle, 1, 1, Some(ErrorOf(oracle[0])));
    assert second == Run(third.reply, [(plan[0], 1)] + third.calls);
  }

  /** A 429 on all three attempts is not retried a fourth time and does not
      advance: the third 429 is returned with its own status. */
  lemma TransientOnThirdAttemptIsTerminal(plan: seq<Json>, oracle: seq<Outcome>)
    requires plan != [] && MaxAttempts * |plan| <= |oracle|
    requires forall j :: 0 <= j < 3 ==> oracle[j].Resp? && oracle[j].status == 429
    ensures var run := DispatchRun(plan, oracle);
            var c := plan[0];
            && run.calls == [(c, 0), (c, 1), (c, 2)]
            && run.reply == Reply(429, Error(Upstream(429, oracle[2].text)), [])
  {
    var third := Fallback(plan, oracle, 2, 2, Some(ErrorOf(oracle[1])));
    assert third == Run(Reply(429, Error(Upstream(429, oracle[2].text)), []), [(plan[0], 2)]);
    var second := Fallback(plan, oracle, 1, 1, Some(ErrorOf(oracle[0])));
    assert second == Run(third.reply, [(plan[0], 1)] + third.calls);
  }

  /** Any other error status on the first call, here a 400, is returned at
      once: one call, no retry, no other candidate. */
  lemma ClientErrorIsTerminal(plan: seq<Json>, oracle: seq<Outcome>)
    requires plan != [] && MaxAttempts * |plan| <= |oracle|
    requires oracle[0].Resp? && oracle[0].status == 400
    ensures var run := DispatchRun(plan, oracle);
            && run.calls == [(plan[0], 0)]
            && run.reply == Reply(400, Error(Upstream(400, oracle[0].text)), [])
  {
  }

  /** `gpt-4o-mini` with the default model `deepseek/deepseek-chat`: the
      alias and the default coincide, so the plan is chat, coder, r1. */
  lemma AliasPlanExample()
    ensures CandidatePlan(JStr("gpt-4o-mini"), "deepseek/deepseek-chat")
            == [JStr("deepseek/deepseek-chat"), JStr("deepseek/deepseek-coder"), JStr("deepseek/deepseek-r1")]
  {
    var cands := Candidates(JStr("gpt-4o-mini"), "deepseek/deepseek-chat");
    assert cands == [JStr("deepseek/deepseek-chat"), JStr("deepseek/deepseek-chat"), JStr("deepseek/deepseek-chat"),
                     JStr("deepseek/deepseek-coder"), JStr("deepseek/deepseek-r1")];
  }

  /** Three network failures then a 200, for `gpt-4o-mini`: the chat model
      is given up after its third failure, the duplicate candidates are
      skipped, and the coder model's first answer is returned. */
  lemma NetworkFailuresAdvance(oracle: seq<Outcome>)
    requires |oracle| >= MaxCalls
    requires oracle[0].NetErr? && oracle[1].NetErr? && oracle[2].NetErr?
    requires oracle[3].Resp? && oracle[3].status == 200
    ensures var run := DispatchRun(CandidatePlan(JStr("gpt-4o-mini"), "deepseek/deepseek-chat"), oracle);
            var chat := JStr("deepseek/deepseek-chat");
            var coder := JStr("deepseek/deepseek-coder");
            && run.calls == [(chat, 0), (chat, 1), (chat, 2), (coder, 0)]
            && run.reply == Reply(200, Raw(oracle[3].text), SelectedHeaders(oracle[3].headers))
  {
    AliasPlanExample();
    var plan := CandidatePlan(JStr("gpt-4o-mini"), "deepseek/deepseek-chat");
    var fourth := Fallback(plan[1..], oracle, 3, 0, Some(ErrorOf(oracle[2])));
    assert fourth == Run(Reply(200, Raw(oracle[3].text), SelectedHeaders(oracle[3].headers)), [(plan[1], 0)]);
    var third := Fallback(plan, oracle, 2, 2, Some(ErrorOf(oracle[1])));
    assert third == Run(fourth.reply, [(plan[0], 2)] + fourth.calls);
    var second := Fallback(plan, oracle, 1, 1, Some(ErrorOf(oracle[0])));
    assert second == Run(third.reply, [(plan[0], 1)] + third.calls);
  }

  // ---- the loop as the source runs it

  /** The calls of one candidate on attempts `from`, `from + 1`, ... */
  function Tries(c: Json, from: nat, m: nat): (r: seq<(Json, nat)>)
    ensures |r| == m && forall j :: 0 <= j < m ==> r[j] == (c, from + j)
    decreases m
  {
    if m == 0 then [] else [(c, from)] + Tries(c, from + 1, m - 1)
  }

  /** One candidate's inner loop as `Attempts` describes it is the stretch of
      the dispatch spent on that candidate. When the loop returns a reply, the
      dispatch ends with it after that candidate's calls. */
  lemma {:induction false} AttemptsReturned(plan: seq<Json>, oracle: seq<Outcome>, k: nat, attempt: nat,
                                            last: Option<ErrorBody>)
    requires plan != [] && attempt < MaxAttempts && k <= |oracle| && k + MaxAttempts * |plan| <= |oracle| + attempt
    requires Attempts(oracle, k, attempt).Returned?
    ensures var e := Attempts(oracle, k, attempt);
            Fallback(plan, oracle, k, attempt, last) == Run(e.reply, Tries(plan[0], attempt, e.next - k))
    decreases MaxAttempts - attempt
  {
    var o := oracle[k];
    if Retry(o, attempt) {
      AttemptsReturned(plan, oracle, k + 1, attempt + 1, Some(ErrorOf(o)));
    }
  }

  /** When the inner loop gives its candidate up, the rest of the plan runs
      with the recorded error, after that candidate's calls. */
  lemma {:induction false} AttemptsAbandoned(plan: seq<Json>, oracle: seq<Outcome>, k: nat, attempt: nat,
                                             last: Option<ErrorBody>)
    requires plan != [] && attempt < MaxAttempts && k <= |oracle| && k + MaxAttempts * |plan| <= |oracle| + attempt
    requires Attempts(oracle, k, attempt).Abandoned?
    ensures var e := Attempts(oracle, k, attempt);
            var rest := Fallback(plan[1..], oracle, e.next, 0, Some(e.error));
            Fallback(plan, oracle, k, attempt, last) == Run(rest.reply, Tries(plan[0], attempt, e.next - k) + rest.calls)
    decreases MaxAttempts - attempt
  {
    var o, p := oracle[k], plan[0];
    var e := Attempts(oracle, k, attempt);
    var rest := Fallback(plan[1..], oracle, e.next, 0, Some(e.error));
    if Retry(o, attempt) {
      AttemptsAbandoned(plan, oracle, k + 1, attempt + 1, Some(ErrorOf(o)));
      assert e == Attempts(oracle, k + 1, attempt + 1);
      var m := e.next - (k + 1);
      var later := Tries(p, attempt + 1, m);
      assert Fallback(plan, oracle, k + 1, attempt + 1, Some(ErrorOf(o))) == Run(rest.reply, later + rest.calls);
      assert Tries(p, attempt, m + 1) == [(p, attempt)] + later;
      AppendAssoc([(p, attempt)], later, rest.calls);
    } else {
      assert Advances(o);
      assert e == Abandoned(k + 1, ErrorOf(o));
      assert Tries(p, attempt, 1) == [(p, attempt)];
    }
  }

  lemma AppendAssoc<T>(a: seq<T>, b: seq<T>, c: seq<T>)
    ensures a + (b + c) == (a + b) + c
  {
  }

  /** The payloads sent so far: one per call, the request with `model` set
      to that call's candidate. */
  ghost predicate SentFor(sent: seq<Fields>, data0: Fields, calls: seq<(Json, nat)>)
  {
    |sent| == |calls| && forall j :: 0 <= j < |sent| ==> sent[j] == Set(data0, "model", calls[j].0)
  }

  /** Lines 159-211 for one candidate: up to three calls, each sending
      `data`, with `last_error_body` updated as the source does. The inner
      loop ends as `Attempts` says: with a reply for the client, or with the
      candidate given up and its error recorded. */
  method TryCandidate(data: Fields, oracle: seq<Outcome>, k0: nat, last0: Option<ErrorBody>)
    returns (ending: CandidateEnd, calls: seq<Fields>, last: Option<ErrorBody>)
    requires k0 + MaxAttempts <= |oracle|
    ensures ending == Attempts(oracle, k0, 0)
    ensures |calls| == ending.next - k0 && forall j :: 0 <= j < |calls| ==> calls[j] == data
    ensures ending.Abandoned? ==> last == Some(ending.error)
  {
    last := last0;
    calls := [];
    var k := k0;
    var attempt := 0;
    while attempt < MaxAttempts
      invariant 0 <= attempt < MaxAttempts
      invariant k == k0 + attempt && |calls| == attempt
      invariant Attempts(oracle, k, attempt) == Attempts(oracle, k0, 0)
      invariant forall j :: 0 <= j < |calls| ==> calls[j] == data
      decreases MaxAttempts - attempt
    {
      var outcome := oracle[k];
      calls := calls + [data];
      k := k + 1;
      match outcome {
        case NetErr(msg) =>
          last := Some(NetworkFailure(msg));
          if attempt < 2 {
            attempt := attempt + 1;
            continue;
          }
          ending := Abandoned(k, NetworkFailure(msg));
          break;
        case Resp(status, text, headers) =>
          if status < 400 {
            var kept := CopyHeaders(headers);
            ending := Returned(Reply(status, Raw(text), kept), k);
            return;
          }
          last := Some(Upstream(status, text));
          if RoutingMiss(status, text) {
            ending := Abandoned(k, Upstream(status, text));
            break;
          }
          if Transient(status) && attempt < 2 {
            attempt := attempt + 1;
            continue;
          }
          ending := Returned(Reply(status, Error(Upstream(status, text)), []), k);
          return;
      }
    }
  }

  /** The dispatch still to come over `plan`, after the calls `done`. */
  function Pending(plan: seq<Json>, oracle: seq<Outcome>, k: nat, last: Option<ErrorBody>,
                   done: seq<(Json, nat)>): Run
    requires k + MaxAttempts * |plan| <= |oracle|
  {
    var run := Fallback(plan, oracle, k, 0, last);
    Run(run.reply, done + run.calls)
  }

  /** A candidate that is empty or already tried is not in the plan. */
  lemma PlanSkip(cands: seq<Json>, i: nat, tried: set<Json>)
    requires i < |cands| && (!Truthy(cands[i]) || cands[i] in tried)
    ensures PlanFrom(cands, i, tried) == PlanFrom(cands, i + 1, tried)
  {
  }

  /** Any other candidate heads the plan, and the rest of the plan is
      planned with it marked as tried. */
  lemma PlanTry(cands: seq<Json>, i: nat, tried: set<Json>)
    requires i < |cands| && Truthy(cands[i]) && cands[i] !in tried
    ensures var plan := PlanFrom(cands, i, tried);
            plan != [] && plan[0] == cands[i] && plan[1..] == PlanFrom(cands, i + 1, tried + {cands[i]})
  {
    var rest := PlanFrom(cands, i + 1, tried + {cands[i]});
    assert PlanFrom(cands, i, tried) == [cands[i]] + rest;
    assert ([cands[i]] + rest)[1..] == rest;
  }

  /** Trying the first planned candidate when its inner loop returns: the
      dispatch ends with that candidate's calls appended. */
  lemma PendingReturned(plan: seq<Json>, oracle: seq<Outcome>, k: nat, last: Option<ErrorBody>,
                        done: seq<(Json, nat)>)
    requires plan != [] && k + MaxAttempts * |plan| <= |oracle| && Attempts(oracle, k, 0).Returned?
    ensures var e := Attempts(oracle, k, 0);
            Pending(plan, oracle, k, last, done) == Run(e.reply, done + Tries(plan[0], 0, e.next - k))
  {
    AttemptsReturned(plan, oracle, k, 0, last);
  }

  /** Trying the first planned candidate when it is given up: the rest of
      the plan is pending, with its calls appended and its error recorded. */
  lemma PendingAbandoned(plan: seq<Json>, oracle: seq<Outcome>, k: nat, last: Option<ErrorBody>,
                         done: seq<(Json, nat)>)
    requires plan != [] && k + MaxAttempts * |plan| <= |oracle| && Attempts(oracle, k, 0).Abandoned?
    ensures var e := Attempts(oracle, k, 0);
            Pending(plan, oracle, k, last, done)
            == Pending(plan[1..], oracle, e.next, Some(e.error), done + Tries(plan[0], 0, e.next - k))
  {
    var e := Attempts(oracle, k, 0);
    AttemptsAbandoned(plan, oracle, k, 0, last);
    var rest := Fallback(plan[1..], oracle, e.next, 0, Some(e.error));
    var mine := Tries(plan[0], 0, e.next - k);
    assert Fallback(plan, oracle, k, 0, last) == Run(rest.reply, mine + rest.calls);
    assert Pending(plan[1..], oracle, e.next, Some(e.error), done + mine) == Run(rest.reply, (done + mine) + rest.calls);
    AppendAssoc(done, mine, rest.calls);
  }

  /** The loop of lines 151-211 trying the candidate at position `i`: when
      its inner loop returns, the dispatch ends after its calls; when it is
      given up, the dispatch goes on with the candidates after it. */
  lemma CandidateStep(cands: seq<Json>, i: nat, tried: set<Json>, oracle: seq<Outcome>, k: nat,
                      last: Option<ErrorBody>, done: seq<(Json, nat)>, ending: CandidateEnd,
                      tried': set<Json>, last': Option<ErrorBody>, done': seq<(Json, nat)>)
    requires i < |cands| && Truthy(cands[i]) && cands[i] !in tried
    requires k + MaxAttempts * (|cands| - i) <= |oracle| && ending == Attempts(oracle, k, 0)
    requires tried' == tried + {cands[i]} && done' == done + Tries(cands[i], 0, ending.next - k)
    requires ending.Abandoned? ==> last' == Some(ending.error)
    ensures ending.Returned? ==> Pending(PlanFrom(cands, i, tried), oracle, k, last, done) == Run(ending.reply, done')
    ensures ending.Abandoned? ==>
              ending.next + MaxAttempts * (|cands| - (i + 1)) <= |oracle| &&
              Pending(PlanFrom(cands, i, tried), oracle, k, last, done)
              == Pending(PlanFrom(cands, i + 1, tried'), oracle, ending.next, last', done')
  {
    var plan := PlanFrom(cands, i, tried);
    PlanTry(cands, i, tried);
    if ending.Returned? {
      PendingReturned(plan, oracle, k, last, done);
    } else {
      PendingAbandoned(plan, oracle, k, last, done);
    }
  }

  /** Appending one candidate's calls to the trace extends the payloads sent
      by that many copies of the request for the candidate. */
  lemma SentForAppend(sent: seq<Fields>, more: seq<Fields>, data0: Fields, done: seq<(Json, nat)>,
                      c: Json, m: nat)
    requires SentFor(sent, data0, done)
    requires |more| == m && forall j :: 0 <= j < m ==> more[j] == Set(data0, "model", c)
    ensures SentFor(sent + more, data0, done + Tries(c, 0, m))
  {
  }

  /** The payloads sent for a trace are those of any equal trace. */
  lemma SentForSame(sent: seq<Fields>, data0: Fields, calls: seq<(Json, nat)>, calls': seq<(Json, nat)>)
    requires SentFor(sent, data0, calls) && calls == calls'
    ensures SentFor(sent, data0, calls')
  {
  }

  /** Setting `model` on the request, whatever model it held before. */
  lemma ModelSwap(data0: Fields, data: Fields, current: Json, candidate: Json)
    requires data == data0 || data == Set(data0, "model", current)
    ensures Set(data, "model", candidate) == Set(data0, "model", candidate)
  {
    if data != data0 {
      SetTwice(data0, "model", current, candidate);
    }
  }

  /** Lines 149-216: the outer loop over the candidates, skipping empty and
      already tried ones, with the `tried` set and `last_error_body` updated
      as the source does. `data0` is the normalised request; every call sends
      it with `model` set to the current candidate; `cands` is the list of
      lines 33-39 applied to `model_slug` (`Candidates`). The reply and the
      payloads sent are those of `DispatchRun` over the plan. */
  method Dispatch(data0: Fields, cands: seq<Json>, oracle: seq<Outcome>)
    returns (reply: Reply, sent: seq<Fields>)
    requires MaxAttempts * |cands| <= |oracle|
    ensures reply == DispatchRun(Plan(cands), oracle).reply
    ensures SentFor(sent, data0, DispatchRun(Plan(cands), oracle).calls)
  {
    var tried: set<Json> := {};
    var last: Option<ErrorBody> := None;
    var data := data0;
    sent := [];
    var k: nat := 0;
    ghost var done: seq<(Json, nat)> := [];
    ghost var current: Json := JNull;
    ghost var target := DispatchRun(Plan(cands), oracle);
    assert [] + target.calls == target.calls;
    var step := 0;
    while step < |cands|
      invariant 0 <= step <= |cands|
      invariant k + MaxAttempts * (|cands| - step) <= |oracle|
      invariant target == Pending(PlanFrom(cands, step, tried), oracle, k, last, done)
      invariant SentFor(sent, data0, done)
      invariant k == |sent|
      invariant data == data0 || data == Set(data0, "model", current)
    {
      var candidate := cands[step];
      if !Truthy(candidate) || candidate in tried {
        PlanSkip(cands, step, tried);
        step := step + 1;
        continue;
      }
      ghost var tried0, k0, last0, done0 := tried, k, last, done;
      tried := tried + {candidate};
      ModelSwap(data0, data, current, candidate);
      data := Set(data, "model", candidate);
      current := candidate;
      var ending, calls;
      ending, calls, last := TryCandidate(data, oracle, k, last);
      SentForAppend(sent, calls, data0, done, candidate, |calls|);
      sent := sent + calls;
      done := done + Tries(candidate, 0, |calls|);
      k := ending.next;
      CandidateStep(cands, step, tried0, oracle, k0, last0, done0, ending, tried, last, done);
      if ending.Returned? {
        reply := ending.reply;
        SentForSame(sent, data0, done, target.calls);
        return;
      }
      step := step + 1;
    }
    reply := Reply(404, Error(if last.Some? then last.value else NoModelAvailable), []);
    assert done + [] == done;
    SentForSame(sent, data0, done, target.calls);
  }
}
