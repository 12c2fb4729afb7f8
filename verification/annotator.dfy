/**
  `process_and_update_events` (categorize_data.py:45-77): load the document,
  run every event through the categorizer in order, put the new list back
  under `events`, and write the whole document once, after the loop.
 */
module Annotator {
  import opened Wrappers
  import opened JsonValue
  import opened Categorize

  const EventsKey := "events"

  /** The exceptions that escape the run: none of them is caught, so nothing is written. */
  datatype Failure =
    | NotAnObject                            // the document is not a dict: `.get` raises AttributeError
    | EventsNotIterable                      // `events` holds null, a number or a boolean
    | BadEvent(index: nat, cause: InputError) // building the request for event `index` raised

  /** What `for event in v` visits: list items, dict keys, or one-character strings. */
  function Iterate(v: Json): (r: Result<seq<Json>, Failure>)
    ensures v.Arr? ==> r == Success(v.items)
    ensures r.Success? <==> v.Arr? || v.Obj? || v.Str?
    ensures v.Obj? ==> |r.value| == |v.fields| && forall j :: 0 <= j < |v.fields| ==> r.value[j] == Str(v.fields[j].key)
    ensures v.Str? ==> |r.value| == |v.s| && forall j :: 0 <= j < |v.s| ==> r.value[j] == Str([v.s[j]])
    ensures r.Success? && !v.Arr? ==> forall j :: 0 <= j < |r.value| ==> !Categorizable(r.value[j])
  {
    match v
    case Arr(items) => Success(items)
    case Obj(fs) => Success(seq(|fs|, j requires 0 <= j < |fs| => Str(fs[j].key)))
    case Str(s) => Success(seq(|s|, j requires 0 <= j < |s| => Str([s[j]])))
    case _ => Failure(EventsNotIterable)
  }

  /** Line 57 and the loop head at line 59: `data.get("events", [])`, then iterate it. */
  function EventsOf(fs: seq<Member>): (r: Result<seq<Json>, Failure>)
    ensures EventsKey !in Keys(fs) ==> r == Success([])
    ensures EventsKey in Keys(fs) ==> r == Iterate(Lookup(fs, EventsKey).value)
  {
    match Lookup(fs, EventsKey)
    case None => Success([])
    case Some(v) => Iterate(v)
  }

  /**
    The loop of lines 59-65 from event `i` on, each step taken in its reference
    form `Enriched` (`UpdateEventIsEnriched` shows it is the step the source
    takes); event `j` is the `j`-th call to the categorizer. It stops at the
    first event no request can be built for.
   */
  function UpdateFrom(cat: Categorizer, events: seq<Json>, i: nat): (r: Result<seq<Json>, Failure>)
    requires i <= |events|
    ensures r.Success? <==> forall j :: i <= j < |events| ==> Categorizable(events[j])
    ensures r.Success? ==>
      && |r.value| == |events| - i
      && forall k :: 0 <= k < |r.value| ==> r.value[k] == Enriched(cat, i + k, events[i + k])
    ensures r.Failure? ==>
      && r.error.BadEvent?
      && i <= r.error.index < |events|
      && !Categorizable(events[r.error.index])
      && r.error.cause == BuildInput(events[r.error.index]).error
      && forall j :: i <= j < r.error.index ==> Categorizable(events[j])
    decreases |events| - i
  {
    if i == |events| then Success([])
    else if !Categorizable(events[i]) then Failure(BadEvent(i, BuildInput(events[i]).error))
    else
      var rest := UpdateFrom(cat, events, i + 1);
      if rest.Failure? then rest
      else
        var us := [Enriched(cat, i, events[i])] + rest.value;
        assert forall k :: 0 < k < |us| ==> us[k] == rest.value[k - 1];
        Success(us)
  }

  /** Lines 56-67 on the loaded document: the document that would be written, or the escaping exception. */
  function Annotate(cat: Categorizer, doc: Json): Result<Json, Failure>
  {
    if !doc.Obj? then Failure(NotAnObject)
    else
      match EventsOf(doc.fields)
      case Failure(f) => Failure(f)
      case Success(events) =>
        match UpdateFrom(cat, events, 0)
        case Failure(f) => Failure(f)
        case Success(updated) => Success(Obj(Set(doc.fields, EventsKey, Arr(updated))))
  }

  /** The reference list: every event enriched by its own call, in the same order. */
  function AllEnriched(cat: Categorizer, events: seq<Json>): (r: seq<Json>)
    requires forall j :: 0 <= j < |events| ==> Categorizable(events[j])
  {
    seq(|events|, j requires 0 <= j < |events| => Enriched(cat, j, events[j]))
  }

  /** When every event is categorizable, the loop yields the reference list. */
  lemma UpdateAllEnriched(cat: Categorizer, events: seq<Json>)
    requires forall j :: 0 <= j < |events| ==> Categorizable(events[j])
    ensures UpdateFrom(cat, events, 0) == Success(AllEnriched(cat, events))
  {
    var r := UpdateFrom(cat, events, 0);
    assert r.Success?;
    var want := AllEnriched(cat, events);
    assert |r.value| == |want|;
    forall k | 0 <= k < |want|
      ensures r.value[k] == want[k]
    {
      assert r.value[k] == Enriched(cat, 0 + k, events[0 + k]);
    }
    assert r.value == want;
  }

  /**
    The loop stops at the first event no request can be built for, with that
    event's error.
   */
  lemma {:induction false} UpdateStopsAtFirstBad(cat: Categorizer, events: seq<Json>, start: nat, i: nat)
    requires start <= i < |events|
    requires forall j :: start <= j < i ==> Categorizable(events[j])
    requires !Categorizable(events[i])
    ensures UpdateFrom(cat, events, start) == Failure(BadEvent(i, BuildInput(events[i]).error))
    decreases i - start
  {
    if start < i {
      UpdateStopsAtFirstBad(cat, events, start + 1, i);
    }
  }

  /** The target file before the run. */
  datatype Stored = Missing | Malformed | Document(doc: Json)

  /** How a run ends. */
  datatype Report =
    | NotFound                  // FileNotFoundError, caught at line 72
    | InvalidJson               // JSONDecodeError, caught at line 75
    | Crashed(failure: Failure) // an uncaught exception ends the process
    | Updated(doc: Json)        // the rewritten document

  /** The whole run, lines 54-77. */
  function Run(cat: Categorizer, file: Stored): Report
  {
    match file
    case Missing => NotFound
    case Malformed => InvalidJson
    case Document(doc) =>
      match Annotate(cat, doc)
      case Failure(f) => Crashed(f)
      case Success(d) => Updated(d)
  }

  /** The file after a run: replaced when the run got to the write, untouched otherwise. */
  function Persisted(file: Stored, report: Report): Stored
  {
    if report.Updated? then Document(report.doc) else file
  }

  /**
    The loop of lines 58-65 as the source runs it: call the categorizer for
    each event in turn and append either the merged event or the original to
    `updated_events`. An exception while building a request ends the loop.
   */
  method UpdateEvents(cat: Categorizer, events: seq<Json>) returns (r: Result<seq<Json>, Failure>)
    ensures r == UpdateFrom(cat, events, 0)
  {
    var updated: seq<Json> := [];
    var i := 0;
    while i < |events|
      invariant 0 <= i <= |events|
      invariant forall j :: 0 <= j < i ==> Categorizable(events[j])
      invariant |updated| == i
      invariant forall j :: 0 <= j < i ==> updated[j] == Enriched(cat, j, events[j])
    {
      var info := CategorizeEvent(cat, i, events[i]);
      if info.Failure? {
        UpdateStopsAtFirstBad(cat, events, 0, i);
        return Failure(BadEvent(i, info.error));
      }
      var event: Json;
      if Truthy(info.value) {
        event := Obj(Merge(events[i].fields, info.value.value));
      } else {
        event := events[i];
      }
      UpdateEventIsEnriched(cat, i, events[i]);
      assert event == UpdateEvent(cat, i, events[i]).value;
      updated := updated + [event];
      i := i + 1;
    }
    assert updated == AllEnriched(cat, events);
    UpdateAllEnriched(cat, events);
    return Success(updated);
  }

  /**
    The whole run as the source performs it, counting writes to the file:
    the document is written once, after the loop, or not at all.
   */
  method ProcessAndUpdateEvents(cat: Categorizer, file: Stored) returns (report: Report, after: Stored, writes: nat)
    ensures report == Run(cat, file)
    ensures after == Persisted(file, report)
    ensures writes <= 1
    ensures writes == 1 <==> report.Updated?
  {
    after, writes := file, 0;
    if file.Missing? {
      return NotFound, after, writes;
    }
    if file.Malformed? {
      return InvalidJson, after, writes;
    }
    var data := file.doc;
    if !data.Obj? {
      return Crashed(NotAnObject), after, writes;
    }
    var events := EventsOf(data.fields);
    if events.Failure? {
      return Crashed(events.error), after, writes;
    }
    var updated := UpdateEvents(cat, events.value);
    if updated.Failure? {
      return Crashed(updated.error), after, writes;
    }
    var newDoc := Obj(Set(data.fields, EventsKey, Arr(updated.value)));
    after, writes := Document(newDoc), writes + 1;
    report := Updated(newDoc);
  }
}
