/** The memoised request layer of llmlib.py: an `Llm` object that answers a
    prompt from a keyed cache when it can, asks the text-generation backend
    when it cannot, and counts every call, hit and miss per backend. */
module LlmLib {
  import opened Wrappers

  /** `Llm.ask` refuses a prompt of this many characters or fewer. */
  const MinPromptLength := 25

  /** What the backend's `ask` does: answer with a text, or raise. */
  datatype Reply = Answer(text: string) | Raised(reason: string)

  /** Why `Llm.ask` did not return an answer. */
  datatype AskError =
    | PromptTooShort          // the `assert len(prompt) > 25` failed
    | BackendRaised(reason: string)  // the backend's exception propagated

  /** The cache key `("ask", repr(api), prompt)`; the constant tag is implicit. */
  datatype AskKey = AskKey(api: string, prompt: string)

  function TotalName(id: string): string { "ask-" + id }
  function HitName(id: string): string { "ask-" + id + "-hit" }
  function MissName(id: string): string { "ask-" + id + "-miss" }

  /** The three counters an `Llm` over backend `id` ever touches. */
  function CounterNames(id: string): set<string>
  {
    {TotalName(id), HitName(id), MissName(id)}
  }

  /** The value of a counter, a missing name reading as 0. */
  function Count(counters: map<string, nat>, name: string): nat
  {
    if name in counters then counters[name] else 0
  }

  /** `increment_counter`: a missing name starts at 0 and gets 1 added;
      every other counter keeps its value. */
  function Increment(counters: map<string, nat>, name: string): (r: map<string, nat>)
    ensures Count(r, name) == Count(counters, name) + 1
    ensures forall n :: n != name ==> Count(r, n) == Count(counters, n)
    ensures forall n :: Count(counters, n) <= Count(r, n)
    ensures r.Keys == counters.Keys + {name}
  {
    counters[name := Count(counters, name) + 1]
  }

  /** A cached value answers a prompt only if it is truthy, so a cached
      empty string is a miss. */
  predicate IsHit(cache: map<AskKey, string>, key: AskKey)
  {
    key in cache && cache[key] != ""
  }

  /** The counters after one accepted call: the total, then the hit or
      the miss counter. */
  function Tally(counters: map<string, nat>, id: string, hit: bool): map<string, nat>
  {
    Increment(Increment(counters, TotalName(id)), if hit then HitName(id) else MissName(id))
  }

  /** Every call was either a hit or a miss. */
  predicate Balanced(counters: map<string, nat>, id: string)
  {
    Count(counters, TotalName(id)) == Count(counters, HitName(id)) + Count(counters, MissName(id))
  }

  lemma CounterNamesDistinct(id: string)
    ensures TotalName(id) != HitName(id)
    ensures TotalName(id) != MissName(id)
    ensures HitName(id) != MissName(id)
  {
    assert |TotalName(id)| + 4 == |HitName(id)|;
    assert |TotalName(id)| + 5 == |MissName(id)|;
    assert HitName(id)[|id| + 5] == 'h';
    assert MissName(id)[|id| + 5] == 'm';
  }

  /** One accepted call adds exactly 1 to the total, exactly 1 to the hit
      counter if it was a hit and to the miss counter otherwise, and
      leaves every other counter alone. */
  lemma TallyCountsOneCall(counters: map<string, nat>, id: string, hit: bool)
    ensures Count(Tally(counters, id, hit), TotalName(id)) == Count(counters, TotalName(id)) + 1
    ensures Count(Tally(counters, id, hit), HitName(id)) == Count(counters, HitName(id)) + (if hit then 1 else 0)
    ensures Count(Tally(counters, id, hit), MissName(id)) == Count(counters, MissName(id)) + (if hit then 0 else 1)
    ensures forall n :: n !in CounterNames(id) ==> Count(Tally(counters, id, hit), n) == Count(counters, n)
  {
    CounterNamesDistinct(id);
  }

  /** total = hit + miss survives every accepted call. */
  lemma TallyKeepsBalance(counters: map<string, nat>, id: string, hit: bool)
    requires Balanced(counters, id)
    ensures Balanced(Tally(counters, id, hit), id)
  {
    TallyCountsOneCall(counters, id, hit);
  }

  /** The text-generation backend (`Api`/`Openai`), an oracle: each call may
      answer with any text or raise, and is recorded in the transcript. */
  class Backend {
    /** `repr(api)`, e.g. `Openai(model=gpt-3.5-turbo)`. */
    const identity: string
    var transcript: seq<(string, Reply)>

    constructor (identity: string)
      ensures this.identity == identity && transcript == []
    {
      this.identity := identity;
      transcript := [];
    }

    method Ask(prompt: string) returns (r: Reply)
      modifies this
      ensures transcript == old(transcript) + [(prompt, r)]
    {
      r :| true;
      transcript := transcript + [(prompt, r)];
    }
  }

  class Llm {
    const api: Backend
    var cache: map<AskKey, string>
    var counters: map<string, nat>

    ghost predicate Valid()
      reads this
    {
      Balanced(counters, api.identity) && counters.Keys <= CounterNames(api.identity)
    }

    /** The cache is persistent, so it starts with whatever earlier runs
        stored; the counters start empty. */
    constructor (api: Backend, stored: map<AskKey, string>)
      ensures this.api == api && cache == stored && counters == map[]
      ensures Valid()
    {
      this.api := api;
      cache := stored;
      counters := map[];
    }

    method IncrementCounter(name: string)
      modifies this`counters
      ensures counters == Increment(old(counters), name)
    {
      var n := if name in counters then counters[name] else 0;
      counters := counters[name := n + 1];
    }

    method Ask(prompt: string) returns (r: Result<string, AskError>)
      requires Valid()
      modifies this, api
      ensures Valid()
      // a short prompt is refused before anything is looked up, counted or asked
      ensures |prompt| <= MinPromptLength ==>
        r == Failure(PromptTooShort) && cache == old(cache) && counters == old(counters)
        && api.transcript == old(api.transcript)
      // an accepted call counts itself and exactly one of hit and miss
      ensures |prompt| > MinPromptLength ==>
        counters == Tally(old(counters), api.identity, IsHit(old(cache), AskKey(api.identity, prompt)))
      // a hit returns the cached text and does not reach the backend
      ensures |prompt| > MinPromptLength && IsHit(old(cache), AskKey(api.identity, prompt)) ==>
        r == Success(old(cache)[AskKey(api.identity, prompt)]) && api.transcript == old(api.transcript)
      // a miss asks the backend exactly once and returns what it answered
      ensures |prompt| > MinPromptLength && !IsHit(old(cache), AskKey(api.identity, prompt)) ==>
        && |api.transcript| == |old(api.transcript)| + 1
        && api.transcript[..|old(api.transcript)|] == old(api.transcript)
        && api.transcript[|old(api.transcript)|].0 == prompt
        && r == match api.transcript[|old(api.transcript)|].1
                case Answer(text) => Success(text)
                case Raised(reason) => Failure(BackendRaised(reason))
      // the result is written back under its key and nothing else changes;
      // when the backend raised, the cache is untouched
      ensures r.Success? ==> cache == old(cache)[AskKey(api.identity, prompt) := r.value]
      ensures r.Failure? ==> cache == old(cache)
    {
      if |prompt| <= MinPromptLength {
        return Failure(PromptTooShort);
      }
      var key := AskKey(api.identity, prompt);
      var hit := key in cache && cache[key] != "";
      TallyKeepsBalance(counters, api.identity, hit);
      IncrementCounter(TotalName(api.identity));
      var result: string;
      if hit {
        IncrementCounter(HitName(api.identity));
        result := cache[key];
      } else {
        IncrementCounter(MissName(api.identity));
        var reply := api.Ask(prompt);
        match reply {
          case Raised(reason) =>
            return Failure(BackendRaised(reason));
          case Answer(text) =>
            result := text;
        }
      }
      cache := cache[key := result];
      r := Success(result);
    }
  }

  /** Asking the same prompt twice: once the first call has returned a
      non-empty text, the second is a hit, returns the same text and does
      not reach the backend. */
  method RepeatedAsk(llm: Llm, prompt: string) returns (first: Result<string, AskError>, second: Result<string, AskError>)
    requires llm.Valid()
    modifies llm, llm.api
    ensures llm.Valid()
    ensures first.Success? && first.value != "" ==>
      second == first
      && Count(llm.counters, HitName(llm.api.identity)) == Count(old(llm.counters), HitName(llm.api.identity)) + (if IsHit(old(llm.cache), AskKey(llm.api.identity, prompt)) then 2 else 1)
      && Count(llm.counters, TotalName(llm.api.identity)) == Count(old(llm.counters), TotalName(llm.api.identity)) + 2
      && |llm.api.transcript| == |old(llm.api.transcript)| + (if IsHit(old(llm.cache), AskKey(llm.api.identity, prompt)) then 0 else 1)
  {
    ghost var c0 := llm.counters;
    ghost var cache0 := llm.cache;
    first := llm.Ask(prompt);
    ghost var c1 := llm.counters;
    ghost var t1 := llm.api.transcript;
    second := llm.Ask(prompt);
    if first.Success? && first.value != "" {
      var key := AskKey(llm.api.identity, prompt);
      TallyCountsOneCall(c0, llm.api.identity, IsHit(cache0, key));
      TallyCountsOneCall(c1, llm.api.identity, true);
    }
  }
}
