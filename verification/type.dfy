/**
  Types (the kind of a dream): the schema, a copy of the topic schema with its own
  messages, and the `/types` controller, whose listing forwards the request's
  query string to `find` as a filter.
 */
module Types {
  import opened Store
  import Color
  import Topics

  datatype Type = Type(name: Option<string>, color: Option<string>)

  predicate Acceptable(t: Type) {
    Filled(t.name) && Filled(t.color) && Color.Matches(t.color.value)
  }

  /** The ValidationError paths and messages of a type document. */
  function Validate(t: Type): (e: Errors)
    ensures e == map[] <==> Acceptable(t)
    ensures e.Keys <= {"name", "color"}
    ensures "name" in e <==> !Filled(t.name)
    ensures "name" in e ==> e["name"] == Message("Type name is required")
    ensures !Filled(t.color) ==> "color" in e && e["color"] == Message("Type color is required")
    ensures Filled(t.color) && !Color.Matches(t.color.value) ==>
              "color" in e && e["color"] == Message("Invalid color")
    ensures "color" in e <==> !Filled(t.color) || !Color.Matches(t.color.value)
    ensures Acceptable(t) <==> "name" !in e && "color" !in e
  {
    Require(Filled(t.name), "name", "Type name is required")
      + Color.ColorRule(t.color, "Type color is required")
  }

  predicate AllAcceptable(types: map<Id, Type>) {
    forall id | id in types :: Acceptable(types[id])
  }

  /** A query string: `?name=nightmare&color=%23c0ffee` becomes `{name: 'nightmare', color: '#c0ffee'}`. */
  type Query = map<string, string>

  /** The value a type document holds at a path. Only `name` and `color` are modelled:
      `_id` and the two timestamps, which every stored document also holds, are left
      out, and any other path holds nothing. */
  function Field(t: Type, path: string): Option<string> {
    if path == "name" then t.name
    else if path == "color" then t.color
    else None
  }

  /** `find(query)`: a document matches when it holds each queried value at its path. */
  predicate QueryMatches(t: Type, q: Query) {
    forall path | path in q :: Field(t, path) == Some(q[path])
  }

  /** `GET /types`: the stored types that match the query, with their ids. */
  function List(types: map<Id, Type>, q: Query): (o: Outcome<Type>)
    ensures o.store == types
    ensures o.reply.Listed?
    ensures forall id :: id in o.reply.docs <==> id in types && QueryMatches(types[id], q)
    ensures forall id :: id in o.reply.docs ==> o.reply.docs[id] == types[id]
  {
    Find(types, (t: Type) => QueryMatches(t, q))
  }

  /** `POST /types`. */
  function Create(types: map<Id, Type>, newId: Id, body: Type): (o: Outcome<Type>)
    ensures o.reply.Created? <==> Acceptable(body) && newId !in types
    ensures o.reply.Created? ==> o.reply.id == newId && o.store == types[newId := body]
    ensures o.reply.Invalid? <==> !Acceptable(body)
    ensures o.reply.Invalid? ==> o.reply.errors == Validate(body)
    ensures o.reply.ServerError? <==> Acceptable(body) && newId in types
    ensures !o.reply.Created? ==> o.store == types
  {
    var doc := Type(body.name, body.color);
    CatchByName(types, Insert(types, newId, doc, Validate(doc)), Created(newId))
  }

  /** `DELETE /types/:id`. */
  function Delete(types: map<Id, Type>, p: IdParam): (o: Outcome<Type>)
    ensures o.reply.NotFound? <==> p.Cast? && p.id !in types
    ensures o.reply.NotFound? ==> o.reply.description == "type not found"
    ensures o.reply.Deleted? <==> p.Cast? && p.id in types
    ensures o.reply.Deleted? ==> o.store == types - {p.id}
    ensures !o.reply.Deleted? ==> o.store == types
    ensures p.Uncastable? ==> o.reply == ServerError
  {
    var o := FindByIdAndDelete(types, p, "type not found");
    assert o.reply.Deleted? ==> o.store == types - {p.id};
    o
  }

  /** `GET /types/:id`. */
  function Get(types: map<Id, Type>, p: IdParam): (o: Outcome<Type>)
    ensures o.store == types
    ensures o.reply.NotFound? <==> p.Cast? && p.id !in types
    ensures o.reply.NotFound? ==> o.reply.description == "type not found"
    ensures o.reply.Found? <==> p.Cast? && p.id in types
    ensures o.reply.Found? ==> o.reply.doc == types[p.id]
    ensures p.Uncastable? ==> o.reply == ServerError
  {
    FindById(types, p, "type not found")
  }

  /** `PUT /types/:id`: both fields replaced unconditionally. */
  function Modify(types: map<Id, Type>, p: IdParam, body: Type): (o: Outcome<Type>)
    ensures o.reply.NotFound? <==> p.Cast? && p.id !in types
    ensures o.reply.NotFound? ==> o.reply.description == "Type not found"
    ensures o.reply.Updated? <==> p.Cast? && p.id in types && Acceptable(body)
    ensures o.reply.Updated? ==> o.reply.id == p.id && o.store == types[p.id := body]
    ensures o.reply.Invalid? <==> p.Cast? && p.id in types && !Acceptable(body)
    ensures o.reply.Invalid? ==> o.reply.errors == Validate(body)
    ensures !o.reply.Updated? ==> o.store == types
    ensures p.Uncastable? ==> o.reply == ServerError
  {
    match p
    case Uncastable(_) => Outcome(ServerError, types)
    case Cast(id) =>
      if id !in types then Outcome(NotFound("Type not found"), types)
      else
        var doc := Type(body.name, body.color);
        CatchByName(types, Save(types, id, doc, Validate(doc)), Updated(id))
  }

  /** The two schemas carry the same colour rule: on every name and colour, the type and
      the topic validators flag the colour alike and with the same 'Invalid color'. */
  lemma ColorRuleAgrees(name: Option<string>, color: Option<string>)
    ensures var te := Validate(Type(name, color));
            var pe := Topics.Validate(Topics.Topic(name, color));
            && ("color" in te <==> "color" in pe)
            && ("name" in te <==> "name" in pe)
            && (Acceptable(Type(name, color)) <==> Topics.Acceptable(Topics.Topic(name, color)))
            && (Filled(color) && "color" in te ==> te["color"] == pe["color"] == Message("Invalid color"))
  {
  }

  /** An empty query string lists every type. */
  lemma EmptyQueryListsAll(types: map<Id, Type>)
    ensures List(types, map[]).reply == Listed(types)
  {
    assert List(types, map[]).reply.docs == types;
  }

  /** `?name=n` lists exactly the types named `n`. */
  lemma NameQuery(types: map<Id, Type>, n: string, id: Id)
    requires id in types
    ensures id in List(types, map["name" := n]).reply.docs <==> types[id].name == Some(n)
  {
    assert QueryMatches(types[id], map["name" := n]) <==> Field(types[id], "name") == Some(n);
  }

  /** A query on a path no type document holds lists nothing. Every document also
      holds `_id` and, through `timestamps`, `createdAt` and `updatedAt`; those paths
      are not modelled. A key that starts with `$` is a top-level query operator, not
      a path (`$comment` keeps every document, an unknown operator is refused), so it
      is excluded too. */
  lemma UnknownPathQuery(types: map<Id, Type>, path: string, v: string)
    requires path !in {"name", "color", "_id", "createdAt", "updatedAt"}
    requires |path| == 0 || path[0] != '$'
    ensures List(types, map[path := v]).reply.docs == map[]
  {
    forall id | id in types ensures !QueryMatches(types[id], map[path := v]) {
      assert Field(types[id], path) == None;
    }
  }

  /** The handlers only ever store documents the schema accepts. */
  lemma HandlersKeepAcceptable(types: map<Id, Type>, p: IdParam, newId: Id, body: Type)
    requires AllAcceptable(types)
    ensures AllAcceptable(Create(types, newId, body).store)
    ensures AllAcceptable(Delete(types, p).store)
    ensures AllAcceptable(Modify(types, p, body).store)
  {
  }
}
