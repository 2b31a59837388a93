/**
 * Records (BaseModel and its People/Films subclasses) and the resource kinds they
 * are dispatched on.
 */
module Models {
  import opened Wrappers
  import opened Json
  import opened Gateway

  /** The resource kinds; each subclass of the source fixes one by its RESOURCE_NAME. */
  datatype Kind = People | Films

  /** The RESOURCE_NAME string of a kind. */
  function ResourceName(kind: Kind): string
  {
    match kind
    case People => "people"
    case Films => "films"
  }

  /** The string comparisons on RESOURCE_NAME: 'people' selects People, 'films'
      selects Films, and any other name selects nothing (the source then falls
      off the end of its if/elif and returns None). */
  function KindOf(name: string): (k: Option<Kind>)
    ensures k.Some? ==> ResourceName(k.value) == name
  {
    if name == "people" then Some(People)
    else if name == "films" then Some(Films)
    else None
  }

  /** Dispatching on a kind's own name selects that kind, and only the two
      resource names select a kind at all. */
  lemma KindOfResourceName(name: string, kind: Kind)
    ensures KindOf(name) == Some(kind) <==> name == ResourceName(kind)
    ensures KindOf(name) == None <==> name != "people" && name != "films"
  {
  }

  /** The client method a kind calls: get_people for People, get_films for Films. */
  function EndpointFor(client: Client, kind: Kind): (e: Endpoint)
    ensures kind == People ==> e == client.people
    ensures kind == Films ==> e == client.films
  {
    match kind
    case People => client.people
    case Films => client.films
  }

  /** The errors a caller of the core can see. */
  datatype Failure =
    | ClientError   // SWAPIClientError raised by the client and not caught
    | IndexError    // indexing an empty page inside __next__
    | NotCallable   // calling count() once the attribute self.count hides the method

  /** A record: the kind it was built as, and its attributes. */
  datatype Record = Record(kind: Kind, fields: JsonObject)

  /** The attributes set one after the other, as BaseModel.__init__ does with setattr:
      starting from attrs, every key of items is assigned its value (in no fixed order). */
  ghost function SetAttrs(attrs: JsonObject, items: JsonObject): JsonObject
    decreases items.Keys
  {
    if items.Keys == {} then attrs
    else
      var name :| name in items;
      SetAttrs(attrs[name := items[name]], items - {name})
  }

  /** Whatever order setattr visits the keys in, the result is attrs overridden by items. */
  lemma {:induction false} SetAttrsOverrides(attrs: JsonObject, items: JsonObject)
    ensures SetAttrs(attrs, items) == attrs + items
    decreases items.Keys
  {
    if items.Keys == {} {
      assert items == map[];
      assert attrs + items == attrs;
    } else {
      forall name | name in items
        ensures SetAttrs(attrs[name := items[name]], items - {name}) == attrs + items
      {
        SetAttrsOverrides(attrs[name := items[name]], items - {name});
        assert attrs[name := items[name]] + (items - {name}) == attrs + items;
      }
    }
  }

  /** BaseModel.__init__ wrapped in People(json) or Films(json). */
  function Construct(kind: Kind, json: JsonObject): (r: Record)
    ensures r.kind == kind
    ensures forall name :: Attr(r, name) == (if name in json then Some(json[name]) else None)
  {
    Record(kind, json)
  }

  /** Building the record at once gives the attributes the setattr loop assigns on a
      new, attribute-less object. */
  lemma ConstructIsSetattrLoop(kind: Kind, json: JsonObject)
    ensures Construct(kind, json).kind == kind
    ensures Construct(kind, json).fields == SetAttrs(map[], json)
  {
    SetAttrsOverrides(map[], json);
    assert map[] + json == json;
  }

  /** Reading an attribute of a record; None is the AttributeError of a missing name. */
  function Attr(r: Record, name: string): Option<Json>
  {
    if name in r.fields then Some(r.fields[name]) else None
  }

  /** BaseModel.get: fetch the object with this id from the kind's endpoint and wrap
      it as a record of that kind; a client error propagates. */
  function Get(client: Client, kind: Kind, id: int): (r: Result<Record, Failure>)
    ensures r.Ok? <==> id in EndpointFor(client, kind).items
    ensures r.Ok? ==> r.value.kind == kind && r.value.fields == EndpointFor(client, kind).items[id]
    ensures r.Err? ==> r.error == ClientError
  {
    var e := EndpointFor(client, kind);
    if id in e.items then Ok(Construct(kind, e.items[id])) else Err(ClientError)
  }

  /** A person read back attribute by attribute, as in the source's tests. */
  lemma PersonAttributes()
    ensures var luke := map["name" := JString("Luke Skywalker"), "height" := JString("172"),
                            "mass" := JString("77"), "hair_color" := JString("blond")];
            var r := Construct(People, luke);
            r.kind == People && Attr(r, "name") == Some(JString("Luke Skywalker"))
            && Attr(r, "height") == Some(JString("172")) && Attr(r, "mass") == Some(JString("77"))
            && Attr(r, "hair_color") == Some(JString("blond"))
  {
  }

  /** A film keeps its numeric attribute a number. */
  lemma FilmAttributes()
    ensures var hope := map["title" := JString("A New Hope"), "episode_id" := JNumber(4),
                            "director" := JString("George Lucas")];
            var r := Construct(Films, hope);
            r.kind == Films && Attr(r, "episode_id") == Some(JNumber(4))
            && Attr(r, "title") == Some(JString("A New Hope"))
            && Attr(r, "director") == Some(JString("George Lucas"))
  {
  }
}
