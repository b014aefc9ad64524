/*
 * The translation helper of the Metatube Plex agent (Contents/Code/translator.py).
 *
 * translate_text decides whether a text is sent to the translation service at
 * all (three guards, checked in order), resolves the target language and the
 * keyword parameters from the engine preferences (a reserved "to" entry
 * overrides the language), and hands the request to retry, which calls it at
 * most three times and falls back to the caller's value when every call raises.
 *
 * Host facilities are inputs here: the preference values, the "disabled" mode
 * constant and the Japanese locale constant are parameters, and the remote
 * translation client is an oracle that says, for a request and an attempt
 * number, whether that call returns a text or raises.
 */
module Translator {

  datatype Option<T> = None | Some(value: T)

  /** What one call of the function handed to retry does: return a value, or raise an exception that
      `except Exception` catches (every such exception alike). */
  datatype Attempt<T> = Ok(value: T) | Err

  /** What retry produces: the value it returns and how many times it called the function. */
  datatype RetryResult<T> = RetryResult(value: T, calls: nat)

  /** The default `count` of retry, which translate_text relies on. */
  const DefaultRetryCount: int := 3

  // ---------------------------------------------------------------------------
  // retry(func, fallback, count)
  // ---------------------------------------------------------------------------

  /** The number of calls retry has made once every attempt from call `done` on has raised,
      that is max(count, done): the loop `i <= count` stops at `count`, and never undoes
      calls already made. */
  function CallBudget(count: int, done: nat): nat
  {
    if count < done then done else count
  }

  /**
   * Specification of retry after `done` calls that all raised: the outcome of
   * call number `done` (counting from 0) is consulted while fewer than `count`
   * calls have been made; the first value returned ends the loop, and running
   * out of calls yields `fallback`.
   */
  function RetryFrom<T>(attempts: nat -> Attempt<T>, fallback: T, done: nat, count: int): RetryResult<T>
    decreases count - done
  {
    if count <= done then RetryResult(fallback, done)
    else match attempts(done)
      case Ok(v) => RetryResult(v, done + 1)
      case Err => RetryFrom(attempts, fallback, done + 1, count)
  }

  /**
   * retry as the source runs it: `i` counts calls from 1, `attempts(i - 1)` is
   * what the i-th call of `func` does, and the first call that does not raise
   * returns at once.
   */
  method Retry<T>(attempts: nat -> Attempt<T>, fallback: T, count: int) returns (r: T, calls: nat)
    ensures RetryResult(r, calls) == RetryFrom(attempts, fallback, 0, count)
    ensures count <= 0 ==> r == fallback && calls == 0
  {
    var i := 1;
    while i <= count
      invariant 1 <= i
      invariant RetryFrom(attempts, fallback, i - 1, count) == RetryFrom(attempts, fallback, 0, count)
      decreases count - i
    {
      var outcome := attempts(i - 1);
      if outcome.Ok? {
        return outcome.value, i;
      }
      i := i + 1;
    }
    return fallback, i - 1;
  }

  /** Whatever the outcomes, retry stays within its budget of calls and returns either
      the value of its last call, which is the first one that did not raise, or the fallback
      after using up every call. */
  lemma {:induction false} RetryFromCases<T>(attempts: nat -> Attempt<T>, fallback: T, done: nat, count: int)
    ensures var res := RetryFrom(attempts, fallback, done, count);
      && done <= res.calls <= CallBudget(count, done)
      && (forall j :: done <= j < res.calls - 1 ==> attempts(j).Err?)
      && if done < res.calls && attempts(res.calls - 1).Ok?
         then res.value == attempts(res.calls - 1).value
         else res.value == fallback && res.calls == CallBudget(count, done)
    decreases count - done
  {
    if done < count && attempts(done).Err? {
      RetryFromCases(attempts, fallback, done + 1, count);
    }
  }

  /** When call `k` is the first that does not raise and it lies within the budget,
      retry returns its value after exactly k + 1 calls. */
  lemma {:induction false} RetryFromFirstSuccess<T>(attempts: nat -> Attempt<T>, fallback: T, done: nat, count: int, k: nat)
    requires done <= k < count
    requires attempts(k).Ok?
    requires forall j :: done <= j < k ==> attempts(j).Err?
    ensures RetryFrom(attempts, fallback, done, count) == RetryResult(attempts(k).value, k + 1)
    decreases k - done
  {
    if done < k {
      RetryFromFirstSuccess(attempts, fallback, done + 1, count, k);
    }
  }

  /** When every call within the budget raises, retry returns the fallback after
      making every call it may (none at all when count <= 0); no caught exception escapes. */
  lemma {:induction false} RetryFromAllFail<T>(attempts: nat -> Attempt<T>, fallback: T, done: nat, count: int)
    requires forall j :: done <= j < count ==> attempts(j).Err?
    ensures RetryFrom(attempts, fallback, done, count) == RetryResult(fallback, CallBudget(count, done))
    decreases count - done
  {
    if done < count {
      RetryFromAllFail(attempts, fallback, done + 1, count);
    }
  }

  // ---------------------------------------------------------------------------
  // translate_text(text, lang, fallback)
  // ---------------------------------------------------------------------------

  /** The preference values translate_text reads, with the engine parameter table already parsed. */
  datatype Prefs = Prefs(translationMode: string, engine: string, engineParameters: map<string, string>)

  /** The host constants translate_text compares against: TRANSLATION_MODE_DISABLED and Locale.Language.Japanese. */
  datatype HostConstants = HostConstants(modeDisabled: string, japanese: string)

  /** The arguments of one api.translate call: q, to, engine and the remaining parameters passed as keywords. */
  datatype Request = Request(q: string, to: string, engine: string, extra: map<string, string>)

  /** A forwarded parameter named like an explicit keyword of the call (`q` or `engine`)
      makes Python raise a TypeError for a repeated keyword before the client is reached. */
  predicate KeywordClash(extra: map<string, string>)
  {
    "q" in extra || "engine" in extra
  }

  /** The closure translate() handed to retry: its k-th call (from 0) raises on a keyword
      clash and otherwise does what the client does with the request on that attempt. */
  function Dispatch(api: (Request, nat) -> Attempt<string>, request: Request): nat -> Attempt<Option<string>>
  {
    (k: nat) =>
      if KeywordClash(request.extra) then Err
      else match api(request, k)
        case Ok(translated) => Ok(Some(translated))
        case Err => Err
  }

  /**
   * translate_text. `sent` is the request the closure translate() is built
   * around (None when a guard returns first), `calls` the number of calls retry
   * made of that closure (not of the client, which a keyword clash never
   * reaches), and `result` what translate_text returns.
   */
  method TranslateText(text: Option<string>, lang: string, fallback: Option<string>,
                       prefs: Prefs, host: HostConstants, api: (Request, nat) -> Attempt<string>)
    returns (result: Option<string>, sent: Option<Request>, calls: nat)
    // the three guards, each on its own and whatever the other inputs are
    ensures (text == None || text == Some("")) ==> result == fallback && sent == None && calls == 0
    ensures prefs.translationMode == host.modeDisabled ==> result == fallback && sent == None && calls == 0
    ensures lang == host.japanese ==> result == fallback && sent == None && calls == 0
    // and nothing else stops the closure from being built and handed to retry
    ensures sent.Some? <==>
      text.Some? && text.value != "" && prefs.translationMode != host.modeDisabled && lang != host.japanese
    ensures sent == None ==> result == fallback && calls == 0
    // the request: the text, the engine, the parameters without "to", and the language "to" forces
    ensures sent.Some? ==> sent.value.q == text.value && sent.value.engine == prefs.engine
    ensures sent.Some? ==> "to" !in sent.value.extra
    ensures sent.Some? ==> sent.value.extra.Keys == prefs.engineParameters.Keys - {"to"}
    ensures sent.Some? ==> forall key :: key in sent.value.extra ==> sent.value.extra[key] == prefs.engineParameters[key]
    ensures sent.Some? && "to" in prefs.engineParameters && prefs.engineParameters["to"] != "" ==>
      sent.value.to == prefs.engineParameters["to"]
    ensures sent.Some? && ("to" !in prefs.engineParameters || prefs.engineParameters["to"] == "") ==>
      sent.value.to == lang
    // the request goes through retry with the caller's fallback and the default count
    ensures sent.Some? ==>
      RetryResult(result, calls) == RetryFrom(Dispatch(api, sent.value), fallback, 0, DefaultRetryCount)
    ensures calls <= DefaultRetryCount
    ensures sent.Some? ==> 1 <= calls
    ensures sent.Some? && !KeywordClash(sent.value.extra) ==>
      forall k :: 0 <= k < DefaultRetryCount && api(sent.value, k).Ok? &&
                  (forall j :: 0 <= j < k ==> api(sent.value, j).Err?) ==>
        result == Some(api(sent.value, k).value) && calls == k + 1
    ensures sent.Some? && (forall k :: 0 <= k < DefaultRetryCount ==> api(sent.value, k).Err?) ==>
      result == fallback && calls == DefaultRetryCount
    ensures sent.Some? && KeywordClash(sent.value.extra) ==> result == fallback && calls == DefaultRetryCount
  {
    var translated := fallback;

    if text == None || text.value == "" {
      return translated, None, 0;
    }
    if prefs.translationMode == host.modeDisabled {
      return translated, None, 0;
    }
    if lang == host.japanese {
      return translated, None, 0;
    }

    var engine := prefs.engine;
    var params := prefs.engineParameters;

    // params.pop('to', None)
    var forced: Option<string> := if "to" in params then Some(params["to"]) else None;
    params := params - {"to"};
    var target := lang;
    if forced.Some? && forced.value != "" {
      target := forced.value;
    }

    var request := Request(text.value, target, engine, params);
    sent := Some(request);
    result, calls := Retry(Dispatch(api, request), translated, DefaultRetryCount);

    var attempts := Dispatch(api, request);
    RetryFromCases(attempts, translated, 0, DefaultRetryCount);
    if !KeywordClash(request.extra) {
      forall k | 0 <= k < DefaultRetryCount && api(request, k).Ok? &&
                 (forall j :: 0 <= j < k ==> api(request, j).Err?)
        ensures result == Some(api(request, k).value) && calls == k + 1
      {
        RetryFromFirstSuccess(attempts, translated, 0, DefaultRetryCount, k);
      }
    }
    if KeywordClash(request.extra) || forall k :: 0 <= k < DefaultRetryCount ==> api(request, k).Err? {
      RetryFromAllFail(attempts, translated, 0, DefaultRetryCount);
    }
  }
}
