/**
  The application as a whole: the routes the four controllers register, the
  collections the database service registers, and one step of the server, which
  dispatches a routed request to its handler and returns the status code and the
  database afterwards.
 */
module Server {
  import opened Store
  import Topics
  import Types
  import Dreams
  import Reactions
  import Comments
  import Color
  import Users

  datatype Verb = GET | POST | PUT | PATCH | DELETE

  datatype Endpoint = Endpoint(verb: Verb, root: string, uri: string)

  /** Every `registerEndpoint` call of the four controller constructors. */
  const Registered: set<Endpoint> := {
    Endpoint(GET, "/dreams", "/"),
    Endpoint(GET, "/dreams", "/:id"),
    Endpoint(GET, "/dreams", "/:id/comments"),
    Endpoint(POST, "/dreams", "/"),
    Endpoint(PATCH, "/dreams", "/:id"),
    Endpoint(DELETE, "/dreams", "/:id"),
    Endpoint(GET, "/reactions", "/"),
    Endpoint(POST, "/reactions", "/"),
    Endpoint(DELETE, "/reactions", "/:id"),
    Endpoint(PATCH, "/reactions", "/:id"),
    Endpoint(GET, "/topics", "/"),
    Endpoint(POST, "/topics", "/"),
    Endpoint(DELETE, "/topics", "/:id"),
    Endpoint(GET, "/topics", "/:id"),
    Endpoint(PUT, "/topics", "/:id"),
    Endpoint(POST, "/types", "/"),
    Endpoint(DELETE, "/types", "/:id"),
    Endpoint(GET, "/types", "/"),
    Endpoint(GET, "/types", "/:id"),
    Endpoint(PUT, "/types", "/:id")
  }

  /** The collections the database service registers. There is no reactions model
      among them, so `db.reactions` is undefined. */
  datatype Db = Db(
    users: map<Id, Users.User>,
    topics: map<Id, Topics.Topic>,
    types: map<Id, Types.Type>,
    dreams: map<Id, Dreams.Dream>,
    comments: map<Id, Comments.Comment>)

  /** A request to a routed endpoint whose handler answers. `newId` is the id the
      driver would generate for a created document. */
  datatype Request =
    | ListDreams
    | GetDream(p: IdParam)
    | CreateDream(newId: Id, dream: Dreams.DreamBody)
    | PatchDream(p: IdParam, dream: Dreams.DreamBody)
    | DeleteDream(p: IdParam)
    | ListTopics
    | CreateTopic(newId: Id, topic: Topics.Topic)
    | DeleteTopic(p: IdParam)
    | GetTopic(p: IdParam)
    | PutTopic(p: IdParam, topic: Topics.Topic)
    | CreateType(newId: Id, kind: Types.Type)
    | DeleteType(p: IdParam)
    | ListTypes(q: Types.Query)
    | GetType(p: IdParam)
    | PutType(p: IdParam, kind: Types.Type)
    | ListReactions
    | CreateReaction(newId: Id, reaction: Reactions.Reaction)
    | DeleteReaction(p: IdParam)
    | PatchReaction(p: IdParam, reaction: Reactions.Reaction)
  {
    predicate ForDreams() {
      ListDreams? || GetDream? || CreateDream? || PatchDream? || DeleteDream?
    }

    predicate ForTopics() {
      ListTopics? || CreateTopic? || DeleteTopic? || GetTopic? || PutTopic?
    }

    predicate ForTypes() {
      CreateType? || DeleteType? || ListTypes? || GetType? || PutType?
    }

    predicate ForReactions() {
      ListReactions? || CreateReaction? || DeleteReaction? || PatchReaction?
    }

    predicate IsRead() {
      ListDreams? || GetDream? || ListTopics? || GetTopic? || ListTypes? || GetType? || ListReactions?
    }
  }

  function RouteOf(req: Request): Endpoint {
    match req
    case ListDreams => Endpoint(GET, "/dreams", "/")
    case GetDream(_) => Endpoint(GET, "/dreams", "/:id")
    case CreateDream(_, _) => Endpoint(POST, "/dreams", "/")
    case PatchDream(_, _) => Endpoint(PATCH, "/dreams", "/:id")
    case DeleteDream(_) => Endpoint(DELETE, "/dreams", "/:id")
    case ListTopics => Endpoint(GET, "/topics", "/")
    case CreateTopic(_, _) => Endpoint(POST, "/topics", "/")
    case DeleteTopic(_) => Endpoint(DELETE, "/topics", "/:id")
    case GetTopic(_) => Endpoint(GET, "/topics", "/:id")
    case PutTopic(_, _) => Endpoint(PUT, "/topics", "/:id")
    case CreateType(_, _) => Endpoint(POST, "/types", "/")
    case DeleteType(_) => Endpoint(DELETE, "/types", "/:id")
    case ListTypes(_) => Endpoint(GET, "/types", "/")
    case GetType(_) => Endpoint(GET, "/types", "/:id")
    case PutType(_, _) => Endpoint(PUT, "/types", "/:id")
    case ListReactions => Endpoint(GET, "/reactions", "/")
    case CreateReaction(_, _) => Endpoint(POST, "/reactions", "/")
    case DeleteReaction(_) => Endpoint(DELETE, "/reactions", "/:id")
    case PatchReaction(_, _) => Endpoint(PATCH, "/reactions", "/:id")
  }

  datatype Served = Served(status: int, db: Db)

  /** The status and the collection a handler leaves behind. */
  function Respond<T>(o: Outcome<T>): (r: (int, map<Id, T>))
    ensures r.0 in Statuses && r.1 == o.store
  {
    (Code(o.reply), o.store)
  }

  /** A request to the dreams controller, on the dreams collection. */
  function OnDreams(dreams: map<Id, Dreams.Dream>, req: Request): (r: (int, map<Id, Dreams.Dream>))
    requires req.ForDreams()
    ensures req.CreateDream? || req.IsRead() ==> r.1 == dreams
    ensures req.CreateDream? ==> r.0 == 500
    ensures r.0 in Statuses
  {
    match req
    case ListDreams => Respond(Dreams.List(dreams))
    case GetDream(p) => Respond(Dreams.Get(dreams, p))
    case CreateDream(newId, body) => Respond(Dreams.Create(dreams, newId, body))
    case PatchDream(p, body) => Respond(Dreams.Update(dreams, p, body))
    case DeleteDream(p) => Respond(Dreams.Delete(dreams, p))
  }

  /** A request to the topics controller, on the topics collection. */
  function OnTopics(topics: map<Id, Topics.Topic>, req: Request): (r: (int, map<Id, Topics.Topic>))
    requires req.ForTopics()
    ensures req.IsRead() ==> r.1 == topics
    ensures r.0 in Statuses
  {
    match req
    case ListTopics => Respond(Topics.List(topics))
    case CreateTopic(newId, body) => Respond(Topics.Create(topics, newId, body))
    case DeleteTopic(p) => Respond(Topics.Delete(topics, p))
    case GetTopic(p) => Respond(Topics.Get(topics, p))
    case PutTopic(p, body) => Respond(Topics.Modify(topics, p, body))
  }

  /** A request to the types controller, on the types collection. */
  function OnTypes(types: map<Id, Types.Type>, req: Request): (r: (int, map<Id, Types.Type>))
    requires req.ForTypes()
    ensures req.IsRead() ==> r.1 == types
    ensures r.0 in Statuses
  {
    match req
    case CreateType(newId, body) => Respond(Types.Create(types, newId, body))
    case DeleteType(p) => Respond(Types.Delete(types, p))
    case ListTypes(q) => Respond(Types.List(types, q))
    case GetType(p) => Respond(Types.Get(types, p))
    case PutType(p, body) => Respond(Types.Modify(types, p, body))
  }

  /** One request. Each controller works on its own collection only. A reaction handler
      dereferences the missing `db.reactions`; the TypeError lands in its catch block,
      whose answer is 500. */
  function Handle(db: Db, req: Request): (s: Served)
    ensures s.db.users == db.users && s.db.comments == db.comments
    ensures req.ForReactions() ==> s == Served(500, db)
    ensures req.CreateDream? ==> s == Served(500, db)
    ensures req.IsRead() ==> s.db == db
    ensures !req.ForTopics() ==> s.db.topics == db.topics
    ensures !req.ForTypes() ==> s.db.types == db.types
    ensures !req.ForDreams() ==> s.db.dreams == db.dreams
    ensures s.status in Statuses
  {
    if req.ForDreams() then
      var (code, dreams) := OnDreams(db.dreams, req); Served(code, db.(dreams := dreams))
    else if req.ForTopics() then
      var (code, topics) := OnTopics(db.topics, req); Served(code, db.(topics := topics))
    else if req.ForTypes() then
      var (code, types) := OnTypes(db.types, req); Served(code, db.(types := types))
    else
      Served(500, db)
  }

  /** The store invariants: every topic, type and dream the schemas accept, and the
      users' unique indexes hold. */
  predicate Consistent(db: Db) {
    && Topics.AllAcceptable(db.topics)
    && Types.AllAcceptable(db.types)
    && Dreams.AllAcceptable(db.dreams)
    && Users.Unique(db.users)
  }

  /** The topics handlers keep every stored topic acceptable. */
  lemma OnTopicsKeepsAcceptable(topics: map<Id, Topics.Topic>, req: Request)
    requires req.ForTopics() && Topics.AllAcceptable(topics)
    ensures Topics.AllAcceptable(OnTopics(topics, req).1)
  {
    match req
    case CreateTopic(newId, body) => Topics.HandlersKeepAcceptable(topics, Cast(newId), newId, body);
    case DeleteTopic(p) => Topics.HandlersKeepAcceptable(topics, p, 0, Topics.Topic(None, None));
    case PutTopic(p, body) => Topics.HandlersKeepAcceptable(topics, p, 0, body);
    case ListTopics =>
    case GetTopic(_) =>
  }

  /** The types handlers keep every stored type acceptable. */
  lemma OnTypesKeepsAcceptable(types: map<Id, Types.Type>, req: Request)
    requires req.ForTypes() && Types.AllAcceptable(types)
    ensures Types.AllAcceptable(OnTypes(types, req).1)
  {
    match req
    case CreateType(newId, body) => Types.HandlersKeepAcceptable(types, Cast(newId), newId, body);
    case DeleteType(p) => Types.HandlersKeepAcceptable(types, p, 0, Types.Type(None, None));
    case PutType(p, body) => Types.HandlersKeepAcceptable(types, p, 0, body);
    case ListTypes(_) =>
    case GetType(_) =>
  }

  /** The dreams handlers keep every stored dream acceptable. */
  lemma OnDreamsKeepsAcceptable(dreams: map<Id, Dreams.Dream>, req: Request)
    requires req.ForDreams() && Dreams.AllAcceptable(dreams)
    ensures Dreams.AllAcceptable(OnDreams(dreams, req).1)
  {
    match req
    case PatchDream(p, body) => Dreams.HandlersKeepAcceptable(dreams, p, 0, body);
    case DeleteDream(p) => Dreams.HandlersKeepAcceptable(dreams, p, 0, Dreams.NoFields);
    case CreateDream(_, _) =>
    case ListDreams =>
    case GetDream(_) =>
  }

  /** No request breaks the store invariants. */
  lemma HandleKeepsConsistent(db: Db, req: Request)
    requires Consistent(db)
    ensures Consistent(Handle(db, req).db)
  {
    if req.ForDreams() {
      OnDreamsKeepsAcceptable(db.dreams, req);
    } else if req.ForTopics() {
      OnTopicsKeepsAcceptable(db.topics, req);
    } else if req.ForTypes() {
      OnTypesKeepsAcceptable(db.types, req);
    }
  }

  /** Every request of the model goes to a registered route. */
  lemma RequestsAreRouted(req: Request)
    ensures RouteOf(req) in Registered
  {
  }

  /** `getHandler` of the reactions controller is unreachable, and so are the comment
      sub-routes of dreams other than the listing. */
  lemma UnroutedEndpoints()
    ensures Endpoint(GET, "/reactions", "/:id") !in Registered
    ensures Endpoint(POST, "/dreams", "/:id/comments") !in Registered
    ensures Endpoint(GET, "/dreams", "/:id/comments/:id") !in Registered
    ensures Endpoint(PATCH, "/dreams", "/:id/comments/:id") !in Registered
    ensures Endpoint(DELETE, "/dreams", "/:id/comments/:id") !in Registered
  {
  }

  /** Deleting a dream leaves every comment in place, those that refer to it included. */
  lemma DeleteDreamKeepsComments(db: Db, p: IdParam)
    ensures Handle(db, DeleteDream(p)).db.comments == db.comments
    ensures Handle(db, DeleteDream(p)).status == 204 ==>
              p.Cast? && p.id !in Handle(db, DeleteDream(p)).db.dreams
  {
  }

  /** A well-formed topic under a fresh id is created: 201, and only the topics change. */
  lemma CreateTopicStep(db: Db, id: Id, topic: Topics.Topic)
    requires Topics.Acceptable(topic) && id !in db.topics
    ensures Handle(db, CreateTopic(id, topic)) == Served(201, db.(topics := db.topics[id := topic]))
  {
    assert Topics.Create(db.topics, id, topic) == Outcome(Created(id), db.topics[id := topic]);
  }

  /** A well-formed type under a fresh id is created: 201, and only the types change. */
  lemma CreateTypeStep(db: Db, id: Id, kind: Types.Type)
    requires Types.Acceptable(kind) && id !in db.types
    ensures Handle(db, CreateType(id, kind)) == Served(201, db.(types := db.types[id := kind]))
  {
    assert Types.Create(db.types, id, kind) == Outcome(Created(id), db.types[id := kind]);
  }

  /** A topic and a type can be created, but a dream that uses them cannot, whatever
      its body. */
  lemma CreateScenario(db: Db, topicId: Id, typeId: Id, dreamId: Id, user: Id)
    requires topicId !in db.topics && typeId !in db.types
    ensures var t := Handle(db, CreateTopic(topicId, Topics.Topic(Some("falling"), Some("#0aF"))));
            var k := Handle(t.db, CreateType(typeId, Types.Type(Some("nightmare"), Some("#C0FFEE"))));
            var body := Dreams.DreamBody(Some(Cast(user)), None, Some("c"), Some(Cast(topicId)),
                                         Some(Cast(typeId)), None, None, Some("t"));
            var d := Handle(k.db, CreateDream(dreamId, body));
            t.status == 201 && k.status == 201 && d.status == 500 && d.db == k.db
  {
    var topic := Topics.Topic(Some("falling"), Some("#0aF"));
    var kind := Types.Type(Some("nightmare"), Some("#C0FFEE"));
    ScenarioDocuments();
    CreateTopicStep(db, topicId, topic);
    var t := Handle(db, CreateTopic(topicId, topic));
    assert t.db.types == db.types;
    CreateTypeStep(t.db, typeId, kind);
  }

  /** The topic and the type of `CreateScenario` pass their schemas. */
  lemma ScenarioDocuments()
    ensures Topics.Acceptable(Topics.Topic(Some("falling"), Some("#0aF")))
    ensures Types.Acceptable(Types.Type(Some("nightmare"), Some("#C0FFEE")))
  {
    Color.AcceptedIff("#0aF");
    Color.AcceptedIff("#C0FFEE");
  }
}
