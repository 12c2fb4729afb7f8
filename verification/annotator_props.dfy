/**
  What a run of the annotator does to the document, stated event by event
  and key by key, and the run's effect on the file.
 */
module AnnotatorProperties {
  import opened Wrappers
  import opened JsonValue
  import opened Categorize
  import opened Annotator

  const ConfidenceKey := "confidence"

  /** The list stored under `events` in a rewritten document. */
  function EventsAfter(doc: Json): seq<Json> {
    if doc.Obj? && Lookup(doc.fields, EventsKey).Some? && Lookup(doc.fields, EventsKey).value.Arr?
    then Lookup(doc.fields, EventsKey).value.items
    else []
  }

  /**
    A rewritten document holds, under `events`, one entry per input event in
    the same order, entry `j` computed from input event `j` and call `j` alone.
   */
  lemma EventsKeepLengthAndOrder(cat: Categorizer, fs: seq<Member>, events: seq<Json>, out: Json)
    requires EventsOf(fs) == Success(events)
    requires Annotate(cat, Obj(fs)) == Success(out)
    ensures forall j :: 0 <= j < |events| ==> Categorizable(events[j])
    ensures out == Obj(Set(fs, EventsKey, Arr(AllEnriched(cat, events))))
    ensures |EventsAfter(out)| == |events|
    ensures forall j :: 0 <= j < |events| ==> EventsAfter(out)[j] == Enriched(cat, j, events[j])
  {
    assert UpdateFrom(cat, events, 0).Success?;
    UpdateAllEnriched(cat, events);
    SetLookup(fs, EventsKey, Arr(AllEnriched(cat, events)));
  }

  /** Two documents whose event `j` agree produce the same event `j`. */
  lemma EventDependsOnlyOnItself(cat: Categorizer, fs1: seq<Member>, fs2: seq<Member>, events1: seq<Json>, events2: seq<Json>, out1: Json, out2: Json, j: nat)
    requires EventsOf(fs1) == Success(events1) && Annotate(cat, Obj(fs1)) == Success(out1)
    requires EventsOf(fs2) == Success(events2) && Annotate(cat, Obj(fs2)) == Success(out2)
    requires j < |events1| && j < |events2| && events1[j] == events2[j]
    ensures j < |EventsAfter(out1)| && j < |EventsAfter(out2)|
    ensures EventsAfter(out1)[j] == EventsAfter(out2)[j]
  {
    EventsKeepLengthAndOrder(cat, fs1, events1, out1);
    EventsKeepLengthAndOrder(cat, fs2, events2, out2);
  }

  /** A failed categorization leaves the event exactly as it was: no `category` is added. */
  lemma FailedCategorizationKeepsEvent(cat: Categorizer, fs: seq<Member>, events: seq<Json>, out: Json, j: nat)
    requires EventsOf(fs) == Success(events)
    requires Annotate(cat, Obj(fs)) == Success(out)
    requires j < |events| && Categorizable(events[j])
    requires cat(j, InputOf(events[j])) == None
    ensures j < |EventsAfter(out)| && EventsAfter(out)[j] == events[j]
  {
    EventsKeepLengthAndOrder(cat, fs, events, out);
  }

  /**
    A successful categorization stores the returned string under `category`,
    overwriting any earlier value in place or appending the key, and leaves
    every other key as it was.
   */
  lemma CategorizedEventGetsCategory(cat: Categorizer, fs: seq<Member>, events: seq<Json>, out: Json, j: nat, c: string)
    requires EventsOf(fs) == Success(events)
    requires Annotate(cat, Obj(fs)) == Success(out)
    requires j < |events| && Categorizable(events[j])
    requires cat(j, InputOf(events[j])) == Some(c)
    ensures j < |EventsAfter(out)| && EventsAfter(out)[j].Obj?
    ensures Lookup(EventsAfter(out)[j].fields, CategoryKey) == Some(Str(c))
    ensures forall k :: k != CategoryKey ==> Lookup(EventsAfter(out)[j].fields, k) == Lookup(events[j].fields, k)
    ensures Keys(EventsAfter(out)[j].fields) ==
      (if CategoryKey in Keys(events[j].fields) then Keys(events[j].fields) else Keys(events[j].fields) + [CategoryKey])
  {
    EventsKeepLengthAndOrder(cat, fs, events, out);
    SetLookup(events[j].fields, CategoryKey, Str(c));
    SetKeys(events[j].fields, CategoryKey, Str(c));
  }

  /**
    The reply's confidence never reaches the document: every output event
    has only the keys of its input event plus `category`, and reads under
    `confidence` whatever the input event held there.
   */
  lemma ConfidenceNeverMerged(cat: Categorizer, fs: seq<Member>, events: seq<Json>, out: Json, j: nat)
    requires EventsOf(fs) == Success(events)
    requires Annotate(cat, Obj(fs)) == Success(out)
    requires j < |events|
    ensures j < |EventsAfter(out)| && EventsAfter(out)[j].Obj? && events[j].Obj?
    ensures Lookup(EventsAfter(out)[j].fields, ConfidenceKey) == Lookup(events[j].fields, ConfidenceKey)
    ensures forall k :: k in Keys(EventsAfter(out)[j].fields) ==> k in Keys(events[j].fields) || k == CategoryKey
  {
    EventsKeepLengthAndOrder(cat, fs, events, out);
    var e := events[j];
    match cat(j, InputOf(e))
    case None =>
    case Some(c) =>
      SetLookup(e.fields, CategoryKey, Str(c));
      SetKeys(e.fields, CategoryKey, Str(c));
  }

  /**
    Success is the answer being present, not the category being non-empty:
    the returned dict `{"category": ""}` is truthy, so an empty category is
    merged like any other.
   */
  lemma EmptyCategoryIsMerged(cat: Categorizer, call: nat, event: Json)
    requires Categorizable(event)
    requires cat(call, InputOf(event)) == Some("")
    ensures Truthy(CategorizeEvent(cat, call, event).value)
    ensures UpdateEvent(cat, call, event) == Success(Obj(Set(event.fields, CategoryKey, Str(""))))
  {
    UpdateEventIsEnriched(cat, call, event);
  }

  /**
    Only the top-level `events` key is replaced: every other key reads as
    before and the key order is kept, `events` being appended when absent.
   */
  lemma OtherTopLevelKeysPreserved(cat: Categorizer, fs: seq<Member>)
    requires Annotate(cat, Obj(fs)).Success?
    ensures var out := Annotate(cat, Obj(fs)).value;
      && out.Obj?
      && (forall k :: k != EventsKey ==> Lookup(out.fields, k) == Lookup(fs, k))
      && Keys(out.fields) == (if EventsKey in Keys(fs) then Keys(fs) else Keys(fs) + [EventsKey])
      && (UniqueKeys(fs) ==> UniqueKeys(out.fields))
  {
    var events := EventsOf(fs).value;
    var u := UpdateFrom(cat, events, 0).value;
    SetLookup(fs, EventsKey, Arr(u));
    SetKeys(fs, EventsKey, Arr(u));
    if UniqueKeys(fs) {
      SetUnique(fs, EventsKey, Arr(u));
    }
  }

  /** A document without `events` is rewritten with `"events": []` appended after its other keys. */
  lemma MissingEventsBecomesEmpty(cat: Categorizer, fs: seq<Member>)
    requires EventsKey !in Keys(fs)
    ensures Annotate(cat, Obj(fs)) == Success(Obj(fs + [Member(EventsKey, Arr([]))]))
  {
    SetNewKey(fs, EventsKey, Arr([]));
  }

  /**
    The run aborts exactly when some event cannot be turned into a request,
    and the exception is the one raised by the first such event; the events
    before it were all sent.
   */
  lemma AbortIffUncategorizable(cat: Categorizer, fs: seq<Member>, events: seq<Json>)
    requires EventsOf(fs) == Success(events)
    ensures Annotate(cat, Obj(fs)).Failure? <==> exists j :: 0 <= j < |events| && !Categorizable(events[j])
    ensures Annotate(cat, Obj(fs)).Failure? ==>
      var f := Annotate(cat, Obj(fs)).error;
      && f.BadEvent?
      && f.index < |events|
      && !Categorizable(events[f.index])
      && f.cause == BuildInput(events[f.index]).error
      && forall j :: 0 <= j < f.index ==> Categorizable(events[j])
  {
  }

  /** The document-level aborts: a document that is not a dict, and an `events` value that cannot be iterated. */
  lemma AbortOnUnusableDocument(cat: Categorizer, doc: Json)
    ensures !doc.Obj? ==> Annotate(cat, doc) == Failure(NotAnObject)
    ensures doc.Obj? && Lookup(doc.fields, EventsKey).Some? &&
            (Lookup(doc.fields, EventsKey).value.Null? || Lookup(doc.fields, EventsKey).value.Bool? ||
             Lookup(doc.fields, EventsKey).value.Number?)
            ==> Annotate(cat, doc) == Failure(EventsNotIterable)
  {
  }

  /**
    A dict or a string under `events` is iterated as its keys or characters,
    each a string: when empty the run writes `"events": []`, otherwise the
    first item cannot be subscripted and the run aborts at index 0.
   */
  lemma EventsDictOrString(cat: Categorizer, fs: seq<Member>)
    requires Lookup(fs, EventsKey).Some?
    requires Lookup(fs, EventsKey).value.Obj? || Lookup(fs, EventsKey).value.Str?
    ensures var v := Lookup(fs, EventsKey).value;
      (v.Obj? && |v.fields| == 0) || (v.Str? && |v.s| == 0) ==>
        Annotate(cat, Obj(fs)) == Success(Obj(Set(fs, EventsKey, Arr([]))))
    ensures var v := Lookup(fs, EventsKey).value;
      (v.Obj? && |v.fields| != 0) || (v.Str? && |v.s| != 0) ==>
        Annotate(cat, Obj(fs)) == Failure(BadEvent(0, NotSubscriptable))
  {
    var events := EventsOf(fs).value;
    if |events| != 0 {
      assert events[0].Str?;
      UpdateStopsAtFirstBad(cat, events, 0, 0);
    }
  }

  /** A request built from an enriched event is the request built from the original. */
  lemma EnrichedKeepsRequest(cat: Categorizer, call: nat, event: Json)
    requires Categorizable(event)
    ensures Categorizable(Enriched(cat, call, event))
    ensures InputOf(Enriched(cat, call, event)) == InputOf(event)
  {
    match cat(call, InputOf(event))
    case None =>
    case Some(c) => SetLookup(event.fields, CategoryKey, Str(c));
  }

  /** Enriching an already enriched list with the same answers changes nothing. */
  lemma EnrichTwice(cat: Categorizer, events: seq<Json>)
    requires forall j :: 0 <= j < |events| ==> Categorizable(events[j])
    ensures forall j :: 0 <= j < |events| ==> Categorizable(AllEnriched(cat, events)[j])
    ensures AllEnriched(cat, AllEnriched(cat, events)) == AllEnriched(cat, events)
  {
    var u := AllEnriched(cat, events);
    forall j | 0 <= j < |events|
      ensures Categorizable(u[j]) && Enriched(cat, j, u[j]) == u[j]
    {
      EnrichedKeepsRequest(cat, j, events[j]);
      match cat(j, InputOf(events[j]))
      case None =>
      case Some(c) => SetTwice(events[j].fields, CategoryKey, Str(c));
    }
  }

  /**
    Running the annotator on its own output, with the same categorizer,
    rewrites the same document: a failure keeps what is there, a success
    stores the same category again.
   */
  lemma AnnotateIdempotent(cat: Categorizer, doc: Json)
    requires Annotate(cat, doc).Success?
    ensures Annotate(cat, Annotate(cat, doc).value) == Annotate(cat, doc)
  {
    var fs := doc.fields;
    var events := EventsOf(fs).value;
    var u := UpdateFrom(cat, events, 0).value;
    UpdateAllEnriched(cat, events);
    EnrichTwice(cat, events);
    UpdateAllEnriched(cat, u);
    var out := Set(fs, EventsKey, Arr(u));
    SetLookup(fs, EventsKey, Arr(u));
    KeysAt(out);
    assert EventsOf(out) == Success(u);
    SetTwice(fs, EventsKey, Arr(u));
  }

  /**
    The file is replaced only when the run reaches the write after the loop;
    a missing file, invalid JSON or any escaping exception leaves it as it was.
   */
  lemma AbortLeavesFileUntouched(cat: Categorizer, file: Stored)
    ensures Run(cat, file).Updated? <==> file.Document? && Annotate(cat, file.doc).Success?
    ensures !Run(cat, file).Updated? ==> Persisted(file, Run(cat, file)) == file
    ensures Run(cat, file).Updated? ==> Persisted(file, Run(cat, file)) == Document(Annotate(cat, file.doc).value)
  {
  }

  /** A service that files everything under "Traffic". */
  function AlwaysTraffic(call: nat, input: CategoryInput): Option<string> {
    Some("Traffic")
  }

  /** A service that answers every request with an error status. */
  function AlwaysDown(call: nat, input: CategoryInput): Option<string> {
    None
  }

  /** The one-event file with a categorizer that always answers "Traffic". */
  lemma TrafficScenario()
    ensures
      var event := Obj([Member(TitleKey, Str("A")), Member(DescriptionKey, Str("d1"))]);
      var file := Document(Obj([Member(EventsKey, Arr([event]))]));
      Run(AlwaysTraffic, file) == Updated(Obj([Member(EventsKey, Arr([
        Obj([Member(TitleKey, Str("A")), Member(DescriptionKey, Str("d1")), Member(CategoryKey, Str("Traffic"))])
      ]))]))
  {
    var fields := [Member(TitleKey, Str("A")), Member(DescriptionKey, Str("d1"))];
    var event := Obj(fields);
    assert Categorizable(event);
    KeysAt(fields);
    assert Keys(fields) == [TitleKey, DescriptionKey];
    SetNewKey(fields, CategoryKey, Str("Traffic"));
    UpdateAllEnriched(AlwaysTraffic, [event]);
    var enriched := [Obj(fields + [Member(CategoryKey, Str("Traffic"))])];
    assert AllEnriched(AlwaysTraffic, [event]) == enriched;
    var top := [Member(EventsKey, Arr([event]))];
    assert EventsOf(top) == Success([event]);
    assert Set(top, EventsKey, Arr(enriched)) == [Member(EventsKey, Arr(enriched))];
    assert UpdateFrom(AlwaysTraffic, [event], 0) == Success(enriched);
    assert Annotate(AlwaysTraffic, Obj(top)) == Success(Obj([Member(EventsKey, Arr(enriched))]));
    assert fields + [Member(CategoryKey, Str("Traffic"))]
        == [Member(TitleKey, Str("A")), Member(DescriptionKey, Str("d1")), Member(CategoryKey, Str("Traffic"))];
    assert enriched == [Obj([Member(TitleKey, Str("A")), Member(DescriptionKey, Str("d1")), Member(CategoryKey, Str("Traffic"))])];
  }

  /** The same file with a categorizer that always fails: the document is written back unchanged. */
  lemma ServiceDownScenario()
    ensures
      var event := Obj([Member(TitleKey, Str("A")), Member(DescriptionKey, Str("d1"))]);
      var doc := Obj([Member(EventsKey, Arr([event]))]);
      Run(AlwaysDown, Document(doc)) == Updated(doc)
  {
    var event := Obj([Member(TitleKey, Str("A")), Member(DescriptionKey, Str("d1"))]);
    assert Categorizable(event);
    UpdateAllEnriched(AlwaysDown, [event]);
    assert AllEnriched(AlwaysDown, [event]) == [event];
    var top := [Member(EventsKey, Arr([event]))];
    assert EventsOf(top) == Success([event]);
    assert Set(top, EventsKey, Arr([event])) == top;
    assert UpdateFrom(AlwaysDown, [event], 0) == Success([event]);
  }
}
