/**
  Topics: the schema (a required name, a required colour matching the hex
  pattern) and the `/topics` controller: list, create, delete, get and PUT.
 */
module Topics {
  import opened Store
  import Color

  datatype Topic = Topic(name: Option<string>, color: Option<string>)

  /** What the schema accepts: a non-empty name, whatever it says, and a `#RGB` or
      `#RRGGBB` colour. */
  predicate Acceptable(t: Topic) {
    Filled(t.name) && Filled(t.color) && Color.Matches(t.color.value)
  }

  /** The ValidationError paths and messages of a topic document. */
  function Validate(t: Topic): (e: Errors)
    ensures e == map[] <==> Acceptable(t)
    ensures e.Keys <= {"name", "color"}
    ensures "name" in e <==> !Filled(t.name)
    ensures "name" in e ==> e["name"] == Message("Topic name is required")
    ensures !Filled(t.color) ==> "color" in e && e["color"] == Message("Topic color is required")
    ensures Filled(t.color) && !Color.Matches(t.color.value) ==>
              "color" in e && e["color"] == Message("Invalid color")
    ensures "color" in e <==> !Filled(t.color) || !Color.Matches(t.color.value)
    ensures Acceptable(t) <==> "name" !in e && "color" !in e
  {
    Require(Filled(t.name), "name", "Topic name is required")
      + Color.ColorRule(t.color, "Topic color is required")
  }

  predicate AllAcceptable(topics: map<Id, Topic>) {
    forall id | id in topics :: Acceptable(topics[id])
  }

  /** `GET /topics`. */
  function List(topics: map<Id, Topic>): (o: Outcome<Topic>)
    ensures o.reply == Listed(topics) && o.store == topics
  {
    FindAll(topics)
  }

  /** `POST /topics`: only `name` and `color` of the body reach the new document;
      `newId` is the id the driver generates. */
  function Create(topics: map<Id, Topic>, newId: Id, body: Topic): (o: Outcome<Topic>)
    ensures o.reply.Created? <==> Acceptable(body) && newId !in topics
    ensures o.reply.Created? ==> o.reply.id == newId && o.store == topics[newId := body]
    ensures o.reply.Created? ==> |o.store| == |topics| + 1
    ensures o.reply.Invalid? <==> !Acceptable(body)
    ensures o.reply.Invalid? ==> o.reply.errors == Validate(body)
    ensures o.reply.ServerError? <==> Acceptable(body) && newId in topics
    ensures !o.reply.Created? ==> o.store == topics
  {
    var doc := Topic(body.name, body.color);
    CatchByName(topics, Insert(topics, newId, doc, Validate(doc)), Created(newId))
  }

  /** `DELETE /topics/:id`. */
  function Delete(topics: map<Id, Topic>, p: IdParam): (o: Outcome<Topic>)
    ensures o.reply.NotFound? <==> p.Cast? && p.id !in topics
    ensures o.reply.NotFound? ==> o.reply.description == "topic not found"
    ensures o.reply.Deleted? <==> p.Cast? && p.id in topics
    ensures o.reply.Deleted? ==> o.store == topics - {p.id}
    ensures !o.reply.Deleted? ==> o.store == topics
    ensures p.Uncastable? ==> o.reply == ServerError
  {
    var o := FindByIdAndDelete(topics, p, "topic not found");
    assert o.reply.Deleted? ==> o.store == topics - {p.id};
    o
  }

  /** `GET /topics/:id`. */
  function Get(topics: map<Id, Topic>, p: IdParam): (o: Outcome<Topic>)
    ensures o.store == topics
    ensures o.reply.NotFound? <==> p.Cast? && p.id !in topics
    ensures o.reply.NotFound? ==> o.reply.description == "topic not found"
    ensures o.reply.Found? <==> p.Cast? && p.id in topics
    ensures o.reply.Found? ==> o.reply.doc == topics[p.id]
    ensures p.Uncastable? ==> o.reply == ServerError
  {
    FindById(topics, p, "topic not found")
  }

  /** `PUT /topics/:id`: both fields are assigned from the body unconditionally, so a
      field the body leaves out becomes missing and the save fails validation. */
  function Modify(topics: map<Id, Topic>, p: IdParam, body: Topic): (o: Outcome<Topic>)
    ensures o.reply.NotFound? <==> p.Cast? && p.id !in topics
    ensures o.reply.NotFound? ==> o.reply.description == "Topic not found"
    ensures o.reply.Updated? <==> p.Cast? && p.id in topics && Acceptable(body)
    ensures o.reply.Updated? ==> o.reply.id == p.id && o.store == topics[p.id := body]
    ensures o.reply.Invalid? <==> p.Cast? && p.id in topics && !Acceptable(body)
    ensures o.reply.Invalid? ==> o.reply.errors == Validate(body)
    ensures !o.reply.Updated? ==> o.store == topics
    ensures p.Uncastable? ==> o.reply == ServerError
  {
    match p
    case Uncastable(_) => Outcome(ServerError, topics)
    case Cast(id) =>
      if id !in topics then Outcome(NotFound("Topic not found"), topics)
      else
        var doc := Topic(body.name, body.color);
        CatchByName(topics, Save(topics, id, doc, Validate(doc)), Updated(id))
  }

  /** The name carries no format and no uniqueness rule: any non-empty name with a
      valid colour is accepted, even one another stored topic already has. */
  lemma NameUnconstrained(topics: map<Id, Topic>, newId: Id, name: string, color: string)
    requires |name| > 0 && Color.Matches(color) && newId !in topics
    ensures Create(topics, newId, Topic(Some(name), Some(color))).reply == Created(newId)
  {
  }

  /** A topic just created is what GET returns for the new id. */
  lemma CreateThenGet(topics: map<Id, Topic>, newId: Id, body: Topic)
    requires Create(topics, newId, body).reply.Created?
    ensures Get(Create(topics, newId, body).store, Cast(newId)).reply == Found(body)
  {
  }

  /** Deleting a topic just created restores the collection. */
  lemma CreateThenDelete(topics: map<Id, Topic>, newId: Id, body: Topic)
    requires Create(topics, newId, body).reply.Created?
    ensures Delete(Create(topics, newId, body).store, Cast(newId)) == Outcome(Deleted, topics)
  {
    assert topics[newId := body] - {newId} == topics;
  }

  /** A second identical PUT changes nothing more. */
  lemma ModifyIdempotent(topics: map<Id, Topic>, p: IdParam, body: Topic)
    ensures var once := Modify(topics, p, body);
            Modify(once.store, p, body) == once
  {
  }

  /** The handlers only ever store documents the schema accepts. */
  lemma HandlersKeepAcceptable(topics: map<Id, Topic>, p: IdParam, newId: Id, body: Topic)
    requires AllAcceptable(topics)
    ensures AllAcceptable(Create(topics, newId, body).store)
    ensures AllAcceptable(Delete(topics, p).store)
    ensures AllAcceptable(Modify(topics, p, body).store)
  {
  }
}
