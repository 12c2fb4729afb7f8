/**
  One event's trip through `categorize_event` (categorize_data.py:17-43) and
  the merge that follows it in the annotator's loop (categorize_data.py:60-65).

  The HTTP round trip (post, `raise_for_status`, parsing the reply into a
  category and a confidence) is a `Categorizer`: it either yields the
  category string or fails, every failure the source catches becoming `None`.
 */
module Categorize {
  import opened Wrappers
  import opened JsonValue

  const TitleKey := "title"
  const DescriptionKey := "description"
  const CategoryKey := "category"

  /** The request body sent to the categorize endpoint. */
  datatype CategoryInput = CategoryInput(title: string, description: string)

  /** Why building the request raised, outside any `try`. */
  datatype InputError =
    | NotSubscriptable          // the event is not a dict: `event['title']` raises TypeError
    | KeyMissing(key: string)   // KeyError on `event[key]`
    | NotAString(key: string)   // the request model rejects a non-string field

  /**
    The categorize service as the annotator sees it. The first argument is the
    0-based number of the call within the run, so that two equal requests may
    get different answers; `None` stands for a transport error, a non-2xx
    status or a reply that does not have the expected shape.
   */
  type Categorizer = (nat, CategoryInput) -> Option<string>

  predicate IsString(o: Option<Json>) {
    o.Some? && o.value.Str?
  }

  /** An event from which a request can be built: a dict with string title and description. */
  predicate Categorizable(event: Json) {
    && event.Obj?
    && IsString(Lookup(event.fields, TitleKey))
    && IsString(Lookup(event.fields, DescriptionKey))
  }

  /** The request a categorizable event gives rise to. */
  function InputOf(event: Json): CategoryInput
    requires Categorizable(event)
  {
    CategoryInput(Lookup(event.fields, TitleKey).value.s, Lookup(event.fields, DescriptionKey).value.s)
  }

  /**
    Line 29: read `title`, then `description`, then validate both as strings.
    Whatever fails first is the exception that escapes.
   */
  function BuildInput(event: Json): (r: Result<CategoryInput, InputError>)
    ensures r.Success? <==> Categorizable(event)
    ensures r.Success? ==> r.value == InputOf(event)
    ensures !event.Obj? ==> r == Failure(NotSubscriptable)
    ensures event.Obj? && TitleKey !in Keys(event.fields) ==> r == Failure(KeyMissing(TitleKey))
  {
    if !event.Obj? then Failure(NotSubscriptable)
    else
      match Lookup(event.fields, TitleKey)
      case None => Failure(KeyMissing(TitleKey))
      case Some(t) =>
        match Lookup(event.fields, DescriptionKey)
        case None => Failure(KeyMissing(DescriptionKey))
        case Some(d) =>
          if !t.Str? then Failure(NotAString(TitleKey))
          else if !d.Str? then Failure(NotAString(DescriptionKey))
          else Success(CategoryInput(t.s, d.s))
  }

  /**
    `categorize_event`: the request is built first (an error there escapes),
    then the service's answer becomes the dict `{"category": c}` or `None`.
    The confidence of the reply is dropped.
   */
  function CategorizeEvent(cat: Categorizer, call: nat, event: Json): (r: Result<Option<seq<Member>>, InputError>)
    ensures r.Failure? <==> !Categorizable(event)
    ensures r.Failure? ==> r.error == BuildInput(event).error
    ensures r.Success? ==> (r.value.Some? <==> cat(call, InputOf(event)).Some?)
    ensures r.Success? && r.value.Some? ==>
      && Keys(r.value.value) == [CategoryKey]
      && Lookup(r.value.value, CategoryKey) == Some(Str(cat(call, InputOf(event)).value))
  {
    match BuildInput(event)
    case Failure(e) => Failure(e)
    case Success(input) =>
      match cat(call, input)
      case None => Success(None)
      case Some(c) => Success(Some([Member(CategoryKey, Str(c))]))
  }

  /** Python truthiness of what `categorize_event` returns: `None` and `{}` are false. */
  predicate Truthy(info: Option<seq<Member>>) {
    info.Some? && |info.value| != 0
  }

  /** Line 60-65 for one event: merge a truthy answer into the event, else keep the event. */
  function UpdateEvent(cat: Categorizer, call: nat, event: Json): Result<Json, InputError>
  {
    match CategorizeEvent(cat, call, event)
    case Failure(e) => Failure(e)
    case Success(info) =>
      if Truthy(info) then Success(Obj(Merge(event.fields, info.value))) else Success(event)
  }

  /**
    The intended effect on one categorizable event, stated without the dict
    round trip: the event with `category` stored, or the event untouched.
   */
  function Enriched(cat: Categorizer, call: nat, event: Json): Json
    requires Categorizable(event)
  {
    match cat(call, InputOf(event))
    case None => event
    case Some(c) => Obj(Set(event.fields, CategoryKey, Str(c)))
  }

  /**
    The loop step agrees with the reference: it raises exactly for events no
    request can be built from, and otherwise yields `Enriched`. In particular
    success is decided by the answer being present, so an empty category is
    merged too.
   */
  lemma UpdateEventIsEnriched(cat: Categorizer, call: nat, event: Json)
    ensures UpdateEvent(cat, call, event).Failure? <==> !Categorizable(event)
    ensures UpdateEvent(cat, call, event).Failure? ==> UpdateEvent(cat, call, event).error == BuildInput(event).error
    ensures Categorizable(event) ==> UpdateEvent(cat, call, event) == Success(Enriched(cat, call, event))
  {
    if Categorizable(event) && cat(call, InputOf(event)).Some? {
      MergeOne(event.fields, CategoryKey, Str(cat(call, InputOf(event)).value));
    }
  }
}
