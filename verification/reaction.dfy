/**
  Reactions: a required name and a required icon, and the `/reactions`
  controller (list, create, delete, PATCH). Its `getHandler` exists but is never
  registered as a route. The handlers here work on an abstract reactions
  collection; the database service of the application registers no such
  collection, which `Server` accounts for.
 */
module Reactions {
  import opened Store

  datatype Reaction = Reaction(name: Option<string>, icon: Option<string>)

  /** Both fields present and non-empty; the icon has no format rule. */
  predicate Acceptable(r: Reaction) {
    Filled(r.name) && Filled(r.icon)
  }

  /** The ValidationError paths and messages of a reaction document; the name's
      message has two spaces, as the schema spells it. */
  function Validate(r: Reaction): (e: Errors)
    ensures e == map[] <==> Acceptable(r)
    ensures e.Keys <= {"name", "icon"}
    ensures "name" in e <==> !Filled(r.name)
    ensures "name" in e ==> e["name"] == Message("Reaction  is required")
    ensures "icon" in e <==> !Filled(r.icon)
    ensures "icon" in e ==> e["icon"] == Message("icon is required")
  {
    Require(Filled(r.name), "name", "Reaction  is required")
      + Require(Filled(r.icon), "icon", "icon is required")
  }

  predicate AllAcceptable(reactions: map<Id, Reaction>) {
    forall id | id in reactions :: Acceptable(reactions[id])
  }

  /** `GET /reactions`. */
  function List(reactions: map<Id, Reaction>): (o: Outcome<Reaction>)
    ensures o.reply == Listed(reactions) && o.store == reactions
  {
    FindAll(reactions)
  }

  /** `POST /reactions`. */
  function Create(reactions: map<Id, Reaction>, newId: Id, body: Reaction): (o: Outcome<Reaction>)
    ensures o.reply.Created? <==> Acceptable(body) && newId !in reactions
    ensures o.reply.Created? ==> o.reply.id == newId && o.store == reactions[newId := body]
    ensures o.reply.Invalid? <==> !Acceptable(body)
    ensures o.reply.Invalid? ==> o.reply.errors == Validate(body)
    ensures o.reply.ServerError? <==> Acceptable(body) && newId in reactions
    ensures !o.reply.Created? ==> o.store == reactions
  {
    var doc := Reaction(body.name, body.icon);
    CatchByName(reactions, Insert(reactions, newId, doc, Validate(doc)), Created(newId))
  }

  /** `DELETE /reactions/:id`. */
  function Delete(reactions: map<Id, Reaction>, p: IdParam): (o: Outcome<Reaction>)
    ensures o.reply.NotFound? <==> p.Cast? && p.id !in reactions
    ensures o.reply.NotFound? ==> o.reply.description == "reaction not found"
    ensures o.reply.Deleted? <==> p.Cast? && p.id in reactions
    ensures o.reply.Deleted? ==> o.store == reactions - {p.id}
    ensures !o.reply.Deleted? ==> o.store == reactions
    ensures p.Uncastable? ==> o.reply == ServerError
  {
    var o := FindByIdAndDelete(reactions, p, "reaction not found");
    assert o.reply.Deleted? ==> o.store == reactions - {p.id};
    o
  }

  /** `getHandler`: defined, never routed. */
  function Get(reactions: map<Id, Reaction>, p: IdParam): (o: Outcome<Reaction>)
    ensures o.store == reactions
    ensures o.reply.NotFound? <==> p.Cast? && p.id !in reactions
    ensures o.reply.NotFound? ==> o.reply.description == "reaction not found"
    ensures o.reply.Found? <==> p.Cast? && p.id in reactions
    ensures o.reply.Found? ==> o.reply.doc == reactions[p.id]
    ensures p.Uncastable? ==> o.reply == ServerError
  {
    FindById(reactions, p, "reaction not found")
  }

  /** The PATCH merge: a field of the body overwrites only when it is not null. */
  function Merge(r: Reaction, body: Reaction): (m: Reaction)
    ensures body.name.Some? ==> m.name == body.name
    ensures body.name.None? ==> m.name == r.name
    ensures body.icon.Some? ==> m.icon == body.icon
    ensures body.icon.None? ==> m.icon == r.icon
  {
    Reaction(if body.name.Some? then body.name else r.name,
             if body.icon.Some? then body.icon else r.icon)
  }

  /** `PATCH /reactions/:id`. */
  function Update(reactions: map<Id, Reaction>, p: IdParam, body: Reaction): (o: Outcome<Reaction>)
    ensures o.reply.NotFound? <==> p.Cast? && p.id !in reactions
    ensures o.reply.NotFound? ==> o.reply.description == "reaction not found"
    ensures o.reply.Updated? <==> p.Cast? && p.id in reactions && Acceptable(Merge(reactions[p.id], body))
    ensures o.reply.Updated? ==>
              o.reply.id == p.id && o.store == reactions[p.id := Merge(reactions[p.id], body)]
    ensures o.reply.Invalid? <==> p.Cast? && p.id in reactions && !Acceptable(Merge(reactions[p.id], body))
    ensures !o.reply.Updated? ==> o.store == reactions
    ensures p.Uncastable? ==> o.reply == ServerError
  {
    match p
    case Uncastable(_) => Outcome(ServerError, reactions)
    case Cast(id) =>
      if id !in reactions then Outcome(NotFound("reaction not found"), reactions)
      else
        var doc := Merge(reactions[id], body);
        CatchByName(reactions, Save(reactions, id, doc, Validate(doc)), Updated(id))
  }

  /** Any non-empty icon is accepted. */
  lemma AnyIconAccepted(reactions: map<Id, Reaction>, newId: Id, name: string, icon: string)
    requires |name| > 0 && |icon| > 0 && newId !in reactions
    ensures Create(reactions, newId, Reaction(Some(name), Some(icon))).reply == Created(newId)
  {
  }

  /** An empty PATCH of a stored, valid reaction succeeds and changes nothing. */
  lemma EmptyPatchKeeps(reactions: map<Id, Reaction>, id: Id)
    requires id in reactions && Acceptable(reactions[id])
    ensures Update(reactions, Cast(id), Reaction(None, None)) == Outcome(Updated(id), reactions)
  {
    assert reactions[id := reactions[id]] == reactions;
  }

  /** A second identical PATCH changes nothing more. */
  lemma UpdateIdempotent(reactions: map<Id, Reaction>, p: IdParam, body: Reaction)
    ensures var once := Update(reactions, p, body);
            Update(once.store, p, body) == once
  {
    if p.Cast? && p.id in reactions {
      var m := Merge(reactions[p.id], body);
      assert Merge(m, body) == m;
    }
  }

  /** The handlers only ever store documents the schema accepts. */
  lemma HandlersKeepAcceptable(reactions: map<Id, Reaction>, p: IdParam, newId: Id, body: Reaction)
    requires AllAcceptable(reactions)
    ensures AllAcceptable(Create(reactions, newId, body).store)
    ensures AllAcceptable(Delete(reactions, p).store)
    ensures AllAcceptable(Update(reactions, p, body).store)
  {
  }
}
