/** The POST branch of `chat_completions`: refuse when no upstream key is
    configured, otherwise normalise the body and run the fallback loop. The
    key's presence and `DEFAULT_MODEL` are parameters; the upstream is an
    oracle of outcomes. */
module Relay {
  import opened Json
  import Aliases
  import Normalizer
  import Dispatcher

  /** Line 9: `DEFAULT_MODEL` is never empty. */
  predicate DefaultModelOk(defaultModel: string)
  {
    defaultModel != ""
  }

  /** The bodies the pipeline handles without raising. */
  predicate Acceptable(body: Option<Json>)
  {
    Normalizer.BodyShaped(body) && Normalizer.Shaped(Normalizer.RequestData(body))
  }

  /** The first candidate is `model_slug` itself: the slug is already
      resolved, and it is truthy because `DEFAULT_MODEL` is not empty. */
  lemma FirstCandidateIsSlug(data: Fields, defaultModel: string)
    requires DefaultModelOk(defaultModel)
    ensures var slug := Normalizer.Slug(data, defaultModel);
            Dispatcher.CandidatePlan(slug, defaultModel)[0] == slug
  {
    var slug := Normalizer.Slug(data, defaultModel);
    Aliases.ResolveIdempotent(Normalizer.RequestedModel(data, defaultModel));
    var cands := Dispatcher.Candidates(slug, defaultModel);
    assert cands[0] == slug && Truthy(slug);
    assert Dispatcher.Plan(cands) == Dispatcher.PlanFrom(cands, 0, {});
    assert Dispatcher.PlanFrom(cands, 0, {}) == [slug] + Dispatcher.PlanFrom(cands, 1, {} + {slug});
  }

  /** Each payload is the request with only `model` replaced, so a request
      with `stream` off is sent with `stream` off, to that call's candidate. */
  lemma Payloads(sent: seq<Fields>, data: Fields, calls: seq<(Json, nat)>)
    requires Dispatcher.SentFor(sent, data, calls)
    requires Get(data, "stream") == Some(JBool(false))
    ensures forall j :: 0 <= j < |sent| ==>
              Get(sent[j], "stream") == Some(JBool(false)) && Get(sent[j], "model") == Some(calls[j].0)
  {
  }

  /** Lines 113-216 for a POST. Without a key the reply is the 500 and nothing
      is sent. With one, every payload sent upstream is the normalised request
      with `stream` off and `model` set to that call's candidate, the first
      call goes to `model_slug`, at most fifteen calls are made, and the
      reply is the dispatch's. */
  method ChatCompletions(body: Option<Json>, hasKey: bool, defaultModel: string, oracle: seq<Dispatcher.Outcome>)
    returns (reply: Dispatcher.Reply, sent: seq<Fields>)
    requires DefaultModelOk(defaultModel) && (hasKey ==> Acceptable(body))
    requires |oracle| >= Dispatcher.MaxCalls
    ensures !hasKey ==> reply == Dispatcher.Reply(500, Dispatcher.Error(Dispatcher.MissingKey), []) && sent == []
    ensures hasKey ==>
              var data := Normalizer.Normalized(Normalizer.RequestData(body), defaultModel);
              var slug := Normalizer.Slug(Normalizer.RequestData(body), defaultModel);
              var run := Dispatcher.DispatchRun(Dispatcher.CandidatePlan(slug, defaultModel), oracle);
              && reply == run.reply
              && Dispatcher.SentFor(sent, data, run.calls)
              && 1 <= |sent| <= Dispatcher.MaxCalls
              && Get(sent[0], "model") == Some(slug)
              && (forall j :: 0 <= j < |sent| ==>
                    Get(sent[j], "stream") == Some(JBool(false)) && Get(sent[j], "model") == Some(run.calls[j].0))
  {
    if !hasKey {
      reply := Dispatcher.Reply(500, Dispatcher.Error(Dispatcher.MissingKey), []);
      sent := [];
      return;
    }
    var data, slug := Normalizer.Normalize(body, defaultModel);
    var cands := Dispatcher.Candidates(slug, defaultModel);
    ghost var plan := Dispatcher.CandidatePlan(slug, defaultModel);
    assert Dispatcher.MaxAttempts * |plan| <= |oracle|;
    reply, sent := Dispatcher.Dispatch(data, cands, oracle);
    ghost var calls := Dispatcher.DispatchRun(plan, oracle).calls;
    Dispatcher.DispatchShape(plan, oracle);
    FirstCandidateIsSlug(Normalizer.RequestData(body), defaultModel);
    Payloads(sent, data, calls);
  }
}
