# Translator: a Dafny model of the Metatube Plex agent's translation helper

The agent translates metadata text through a remote translation service. The
file `Contents/Code/translator.py` decides two things, and this project models
and proves both:

- **`translate_text(text, lang, fallback)`** returns `fallback` without calling
  the service when the text is empty or missing, when the translation-mode
  preference is the "disabled" value, or when the target language is Japanese.
  These checks run in that order. Otherwise it pops the reserved `to` entry
  from the parsed engine parameters; a non-empty value replaces `lang`. It
  then sends the text, language, engine and remaining parameters through
  `retry` with the caller's fallback and the default count of 3.
- **`retry(func, fallback, count)`** calls `func` while its counter `i`
  (starting at 1) is at most `count`. It returns the first value that does not
  raise. If every call raises it returns `fallback`, so a non-positive `count`
  means no call at all.

Everything is in `translator.dfy`, module `Translator`:

- The function handed to `retry` is an oracle `attempts: nat -> Attempt<T>`.
  `attempts(k)` is what the (k+1)-th call does: `Ok(value)` or `Err` (raises an
  exception that `except Exception` catches).
- `RetryFrom` is the reference definition of `retry`. The method `Retry` is the
  source's loop, proved equal to it.
- The translation client is an oracle `api: (Request, nat) -> Attempt<string>`.
  It gives the outcome of each attempt of a given request. `Request` records
  the arguments of the `api.translate` call: `q`, `to`, `engine` and the other
  keyword parameters.
- `TranslateText` is the guard chain with early returns. It returns what
  `translate_text` returns, the request it would dispatch (or `None`), and how
  many times that request was tried.
- In Python, `api.translate(q=..., to=..., engine=..., **params)` raises a
  `TypeError` when the parsed parameters also hold `q` or `engine`. `retry`
  catches that like any other exception. The model reflects this in
  `KeywordClash`: such a request fails on every attempt without reaching the
  client, so the caller gets the fallback after three calls. `to` can never
  clash, because it is popped first.
- The Japanese guard compares the caller's `lang`, before the override. So a
  caller asking for Japanese is never translated, whatever `to` says. A `to`
  entry that names Japanese still sends a request in Japanese. Both follow from
  the contract of `TranslateText`.

## Model

| member | source | states |
|---|---|---|
| `Translator.Retry` | Contents/Code/translator.py:60-70 | The loop from `i = 1` while `i <= count` returns the same value and makes the same number of calls as the reference definition. With `count <= 0` it returns `fallback` after zero calls. |
| `Translator.RetryFromCases` | Contents/Code/translator.py:60-70 | For any outcomes, the number of calls never exceeds the budget `max(count, 0)`. Every call before the last one raised. If the last call succeeded, its value is returned. Otherwise the fallback is returned after exactly the whole budget of calls. |
| `Translator.RetryFromFirstSuccess` | Contents/Code/translator.py:62-64 | If call k is the first that does not raise and k < count, retry returns that call's value after exactly k + 1 calls. |
| `Translator.RetryFromAllFail` | Contents/Code/translator.py:62-70 | If every call within `count` raises, retry returns `fallback` after exactly `max(count, 0)` calls. No caught exception escapes. |
| `Translator.TranslateText` | Contents/Code/translator.py:22-57 | Empty or missing text, the disabled mode and a Japanese `lang` each give `fallback` with no request and no call. Otherwise the request is always built and handed to retry, and `calls` counts calls of the `translate()` closure, not of the client. The request carries the text and the engine. Its parameters are the parsed ones without `to`, with values unchanged. Its language is the non-empty `to` value if there is one, else `lang`. The result and call count are those of retry with the caller's fallback and count 3. So there are at most 3 calls. The first successful attempt's translation is returned. Three failures, or a `q`/`engine` keyword clash, give `fallback` after exactly 3 calls. |

## Left out

- The module-level `TRANSLATOR_LOCK` and its `with` block: mutual exclusion between threads is concurrency, and the model is sequential.
- `time.sleep(1.0)`: a wall-clock rate limit with no effect on the result.
- The `Log.Warn` and `Log.Info` messages, including the attempt index and error text printed by `retry`: logging side effects only.
- `Prefs`, `TRANSLATION_MODE_DISABLED`, `Locale.Language.Japanese` and the `plexhints` imports: host facilities whose values are passed in as `Prefs` and `HostConstants`.
- `utils.parse_table`: its source is not part of this model, so the already-parsed parameter map is an input.
- `api.translate(...).translated_text`: an opaque network client, modelled only by the success or raise outcome of each attempt.
- Exception types: `Err` stands for a raise of an exception derived from `Exception`, which `except Exception` catches; every such raise is treated alike. Other raises (`KeyboardInterrupt`, `SystemExit`, `GeneratorExit`) and an exception raised inside the handler itself (by `Log.Warn` or by formatting the error message) are not modelled; in the source they escape `retry` and `translate_text`.
- Python's dynamic typing: `text` is modelled as an optional string, where `None` and `""` are the falsy values. `fallback` and the result are optional strings, and `lang` and the parameter values are strings.
