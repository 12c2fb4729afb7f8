# Batch event annotator — a Dafny model

This project models the batch annotator of the event-classification service:
the script that loads a JSON document, sends every entry of its `events` list
to the categorize endpoint one at a time, stores the returned `category` in
each event that was categorized, and writes the whole document back once,
after the loop (`categorize_data.py`).

The model is functional:

- `JsonValue` — JSON values as Python's `json.load` produces them. An object is
  an ordered list of members, because a Python dict keeps insertion order and
  `json.dump` writes members in that order. It defines `d.get(k)` (`Lookup`),
  `d[k] = v` (`Set`: an existing key keeps its place, a new key goes last) and
  `{**a, **b}` (`Merge`).
- `Categorize` — `categorize_event` for one event. First the request is built
  from `title` and `description`. This happens outside the `try`, so a failure
  here escapes as an exception. Then the HTTP round trip becomes a
  `Categorizer`, a function from (call number, request) to `Option<string>`.
  Every failure the source catches (transport error, non-2xx status, a reply
  of the wrong shape) becomes `None`. The call number lets two identical
  requests get different answers, as a language-model service may give.
  `Enriched` is the reference effect on one event; `UpdateEventIsEnriched`
  shows that the source's step (a truthiness test, then a dict merge) computes it.
- `Annotator` — the run. It covers `data.get("events", [])` and Python's
  iteration over whatever value it finds there, the loop (`UpdateFrom`, and
  `UpdateEvents` as the source writes it), the replacement of `events`
  (`Annotate`), and the file-level outcome (`Run`, `Persisted`,
  `ProcessAndUpdateEvents`, which also counts writes).
- `AnnotatorProperties` — lemmas about a run:
  - the output list has the input's length and order;
  - a failed event is kept unchanged;
  - a success sets `category` in place and leaves every other key alone;
  - confidence is never merged, and an empty category is still merged;
  - top-level keys other than `events` are preserved;
  - the run aborts exactly on the first event no request can be built for;
  - an abort leaves the file untouched, and the run is idempotent;
  - two concrete one-event scenarios.

A failed categorization is caught and the event kept (lines 38-43, 64-65).
But an event that is not a dict, lacks `title` or `description`, or holds a
non-string there raises at line 29, before the `try`. Lines 72-77 catch only
`FileNotFoundError` and `JSONDecodeError`, so the run stops before the write
at lines 68-70. The model treats such an event as an abort:
`Annotator.Failure.BadEvent`.

Other escaping exceptions the model follows from Python's semantics:
- a document that is not a dict: `.get` raises AttributeError;
- an `events` value that is null, a number or a boolean: iterating it raises
  TypeError;
- an `events` value that is a non-empty dict or string: iteration yields
  strings, and subscripting a string with `'title'` raises TypeError.

An empty dict or string under `events` becomes `"events": []`; a non-empty one
aborts at its first item (`AnnotatorProperties.EventsDictOrString`).

## Model

| member | source | states |
|---|---|---|
| JsonValue.Lookup | categorize_data.py:57 | `d.get(k)` is present exactly when `k` is a key of `d` |
| JsonValue.SetLookup | categorize_data.py:67 | after `d[k] = v`, `d[k]` reads `v` and every other key reads as before |
| JsonValue.SetKeys | categorize_data.py:67 | `d[k] = v` keeps the key order; a new key is appended last, an existing one keeps its position |
| JsonValue.SetUnique | categorize_data.py:67 | storing a key never produces a duplicate key |
| JsonValue.SetNewKey | categorize_data.py:67 | storing a key the dict lacks appends exactly one member at the end |
| JsonValue.SetTwice | categorize_data.py:62 | storing the same value under the same key twice equals storing it once |
| JsonValue.MergeLookup | categorize_data.py:62 | in `{**a, **b}` the keys of `b` read as in `b` and all other keys read as in `a` |
| JsonValue.MergeOne | categorize_data.py:62 | merging a one-key dict is a single store of that key |
| Categorize.BuildInput | categorize_data.py:29 | building the request succeeds exactly for a dict whose title and description are strings, and yields those strings; a non-dict fails as not subscriptable and a missing title fails as a missing key |
| Categorize.CategorizeEvent | categorize_data.py:29-43 | a bad event raises with the request-building error; otherwise the result is present exactly when the service answered, and holds only the key `category` with the answered string, with no confidence |
| Categorize.UpdateEventIsEnriched | categorize_data.py:60-65 | the loop step raises exactly for events no request can be built from; otherwise it yields the event with `category` set when the service answered, and the event unchanged when it did not |
| Annotator.UpdateFrom | categorize_data.py:58-65 | the loop succeeds exactly when every event can be categorized, producing one enriched entry per event in order; otherwise it fails at the first bad event with that event's request-building error |
| Annotator.UpdateAllEnriched | categorize_data.py:58-65 | when all events can be categorized, the loop yields the reference list: event j enriched by call j |
| Annotator.UpdateStopsAtFirstBad | categorize_data.py:59-60 | the loop aborts at the first event no request can be built for, reporting its index and error |
| Annotator.UpdateEvents | categorize_data.py:58-65 | the source's loop (truthiness test, dict merge, append) computes the same list or abort as the loop model |
| Annotator.ProcessAndUpdateEvents | categorize_data.py:54-77 | the run as the source performs it ends as `Run` says; the file is written at most once, exactly when the run completes, and is left unchanged otherwise |
| AnnotatorProperties.EventsKeepLengthAndOrder | categorize_data.py:58-67 | a rewritten document holds under `events` one entry per input event, in the same order, entry j computed from input event j and call j |
| AnnotatorProperties.EventDependsOnlyOnItself | categorize_data.py:59-65 | two documents whose event j agree produce the same output event j |
| AnnotatorProperties.FailedCategorizationKeepsEvent | categorize_data.py:64-65 | when the service fails for an event, the output event is the input event exactly, with no `category` added |
| AnnotatorProperties.CategorizedEventGetsCategory | categorize_data.py:61-63 | when the service answers c, the output event has `category` equal to c, every other key unchanged, and the key order kept (category appended only if new) |
| AnnotatorProperties.ConfidenceNeverMerged | categorize_data.py:34-37 | every output event has only its input's keys plus `category`, and its `confidence` entry is whatever the input event had |
| AnnotatorProperties.EmptyCategoryIsMerged | categorize_data.py:61 | an empty category string still makes the result truthy and is merged into the event |
| AnnotatorProperties.OtherTopLevelKeysPreserved | categorize_data.py:67 | only the top-level `events` key changes; other keys and the key order are preserved, `events` being appended when absent, and no duplicate key appears |
| AnnotatorProperties.MissingEventsBecomesEmpty | categorize_data.py:57 | a document without `events` is rewritten with `"events": []` appended after its other keys |
| AnnotatorProperties.AbortIffUncategorizable | categorize_data.py:29 | the run aborts exactly when some event cannot be turned into a request, and the error is that of the first such event |
| AnnotatorProperties.AbortOnUnusableDocument | categorize_data.py:56-59 | a document that is not a dict aborts; an `events` value that is null, a number or a boolean aborts |
| AnnotatorProperties.EventsDictOrString | categorize_data.py:57-60 | a dict or string under `events` is iterated item by item: when empty the document is written with `"events": []`, otherwise the run aborts at index 0 because the first item is a string and cannot be subscripted |
| AnnotatorProperties.EnrichedKeepsRequest | categorize_data.py:62 | storing `category` leaves the event's title and description, hence its request, unchanged |
| AnnotatorProperties.EnrichTwice | categorize_data.py:61-63 | enriching an already enriched list with the same answers changes nothing |
| AnnotatorProperties.AnnotateIdempotent | categorize_data.py:56-67 | running the annotator on its own output with the same categorizer produces the same document |
| AnnotatorProperties.AbortLeavesFileUntouched | categorize_data.py:54-77 | the file is replaced exactly when the document is present and the whole loop completes; otherwise it is left as it was |
| AnnotatorProperties.TrafficScenario | categorize_data.py:54-70 | a one-event file with an always-"Traffic" categorizer is rewritten with `category: "Traffic"` after title and description, and no confidence |
| AnnotatorProperties.ServiceDownScenario | categorize_data.py:38-43 | with a categorizer that always fails, the same file is written back unchanged |

## Left out

- main.py as a whole: the HTTP endpoints, prompt templates, the language-model call and its reply validation are external and nondeterministic. The annotator reaches them only through the `Categorizer` parameter.
- The HTTP client, `raise_for_status` and parsing the reply into a category and a confidence (categorize_data.py:31-34). They are abstracted into the `Categorizer`'s `None`; the confidence, a float, is never stored, so it is not modelled.
- File I/O and JSON text: opening, `json.load`, `seek`, `json.dump` with indent 4 and non-ASCII kept, and `truncate`. The file is a `Stored` value: missing, malformed, or a parsed document. The write replaces the document wholesale. A failure in the middle of the write is not modelled, whether a process kill or the deterministic one below.
- Lone surrogates: `json.load` accepts escapes such as `"\udc80"` and yields a string holding a lone surrogate, which a Dafny `string` cannot hold. For such a document `json.dump` at line 69 raises UnicodeEncodeError on the UTF-8 file after the `seek` at line 68, so `truncate` is never reached and the file is left as a new prefix followed by the old tail. The model's promise that an abort leaves the file unchanged (`ProcessAndUpdateEvents`, `AbortLeavesFileUntouched`) covers only documents whose strings are Unicode scalar values. The `print` at lines 39 and 42 can raise the same way for such a title.
- Files that are not valid UTF-8: `json.load` raises UnicodeDecodeError, which line 75 does not catch, so the run crashes without writing. `Stored` has no value for this case: `Malformed` stands for the invalid-JSON branch only, and it ends in `InvalidJson`.
- Integer literals longer than Python's digit limit (4300 digits by default since Python 3.11): `json.load` raises a plain ValueError, which is not a JSONDecodeError, so line 75 does not catch it and the run crashes without writing. `Stored` has no value for this case either: such a file is modelled as a `Document` whose run ends `Updated`.
- Duplicate keys in the input text (which `json.load` resolves to the last value): the model starts from the parsed document.
- Numbers: line 56's `json.load` turns number text into a Python `int` or `float`, and line 69's `json.dump` writes Python's form of that value back, so `1E3` comes back as `1000.0`, `1.50` as `1.5` and `1e400` as `Infinity`. A `Number` stands for the parsed value, not for its text; the annotator never reads it, and the model does not say how it is written.
- Logging with `print`, the hard-coded URL and file path, and asyncio scheduling (categorize_data.py:39, 42, 73, 76, 79-87). The success line at line 84 is printed even after the not-found and invalid-JSON branches, because those branches return normally; the model does not represent printed output.
- Exceptions that `except Exception` does not catch (KeyboardInterrupt, asyncio cancellation) are not modelled.
- Building the request assumes the request model rejects every non-string title or description. This is the behaviour of the pydantic version whose `model_dump` the source calls.
