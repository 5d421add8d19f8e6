/** The event record the app fetches, shows as a map marker and keeps as a
    favorite, and its JSON form (the shape `JSON.stringify` gives it and
    `JSON.parse` reads back). */
module Events {
  import opened JsValues

  /** An event id: a JSON number or string. Ids are compared with `===`, so
      the number 1 and the string "1" are different ids. */
  datatype EventId = NumberId(n: real) | TextId(s: string)

  datatype Event = Event(
    id: EventId,
    title: string,
    description: string,
    latitude: real,
    longitude: real)

  function IdToJson(id: EventId): Json
  {
    match id
    case NumberId(n) => JNumber(n)
    case TextId(s) => JString(s)
  }

  function IdFromJson(j: Json): Option<EventId>
  {
    match j
    case JNumber(n) => Some(NumberId(n))
    case JString(s) => Some(TextId(s))
    case _ => None
  }

  /** The JSON object of an event record. */
  function ToJson(e: Event): Json
  {
    JObject(map[
      "id" := IdToJson(e.id),
      "title" := JString(e.title),
      "description" := JString(e.description),
      "latitude" := JNumber(e.latitude),
      "longitude" := JNumber(e.longitude)])
  }

  /** Reads an event record back from a JSON object with the five fields of
      the right kinds; other properties are ignored. */
  function FromJson(j: Json): (r: Option<Event>)
    ensures r.Some? ==> j.JObject? && Field(j, "id") == Some(IdToJson(r.value.id))
    ensures r.Some? ==> Field(j, "title") == Some(JString(r.value.title))
    ensures r.Some? ==> Field(j, "description") == Some(JString(r.value.description))
    ensures r.Some? ==> Field(j, "latitude") == Some(JNumber(r.value.latitude))
    ensures r.Some? ==> Field(j, "longitude") == Some(JNumber(r.value.longitude))
  {
    match j
    case JObject(f) =>
      if && "id" in f && IdFromJson(f["id"]).Some?
         && "title" in f && f["title"].JString?
         && "description" in f && f["description"].JString?
         && "latitude" in f && f["latitude"].JNumber?
         && "longitude" in f && f["longitude"].JNumber?
      then
        Some(Event(IdFromJson(f["id"]).value, f["title"].s, f["description"].s,
                   f["latitude"].n, f["longitude"].n))
      else None
    case _ => None
  }

  /** Decoding an encoded event gives the event back. */
  lemma EventRoundTrip(e: Event)
    ensures FromJson(ToJson(e)) == Some(e)
  {
  }

  function EncodeAll(events: seq<Event>): (r: seq<Json>)
    ensures |r| == |events|
    ensures forall i :: 0 <= i < |events| ==> r[i] == ToJson(events[i])
  {
    if events == [] then [] else [ToJson(events[0])] + EncodeAll(events[1..])
  }

  /** Decodes every element, failing if any element is not an event record. */
  function DecodeAll(items: seq<Json>): (r: Option<seq<Event>>)
    ensures r.Some? <==> forall i :: 0 <= i < |items| ==> FromJson(items[i]).Some?
    ensures r.Some? ==> |r.value| == |items|
    ensures r.Some? ==> forall i :: 0 <= i < |items| ==> FromJson(items[i]) == Some(r.value[i])
  {
    if items == [] then Some([])
    else match (FromJson(items[0]), DecodeAll(items[1..]))
      case (Some(e), Some(rest)) => Some([e] + rest)
      case _ => None
  }

  /** The JSON array a list of events is written as. */
  function ListToJson(events: seq<Event>): Json
  {
    JArray(EncodeAll(events))
  }

  /** Reads a list of events from a JSON array of event records. */
  function ListFromJson(j: Json): Option<seq<Event>>
  {
    match j
    case JArray(items) => DecodeAll(items)
    case _ => None
  }

  lemma {:induction false} DecodeEncodeAll(events: seq<Event>)
    ensures DecodeAll(EncodeAll(events)) == Some(events)
  {
    if events != [] {
      DecodeEncodeAll(events[1..]);
      EventRoundTrip(events[0]);
      assert EncodeAll(events)[1..] == EncodeAll(events[1..]);
      assert [events[0]] + events[1..] == events;
    }
  }

  /** Reading back the JSON written for a list gives exactly that list: order,
      duplicates and every field are kept. */
  lemma ListRoundTrip(events: seq<Event>)
    ensures ListFromJson(ListToJson(events)) == Some(events)
  {
    DecodeEncodeAll(events);
  }
}
