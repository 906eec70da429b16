/**
  Dreams: the schema (six required fields, two boolean defaults) and the
  `/dreams` controller: list, get, create, PATCH and delete. Every reference
  (`author`, `topics`, `type`, `comments`) is a single ObjectId that is only
  checked for presence; nothing looks it up in another collection.
 */
module Dreams {
  import opened Store

  /** A stored dream. `typeRef` is the `type` path. */
  datatype Dream = Dream(
    author: Option<Id>,
    anonym: bool,
    content: Option<string>,
    topics: Option<Id>,
    typeRef: Option<Id>,
    published: bool,
    comments: Option<Id>,
    title: Option<string>)

  /** A request body as a client may send it. */
  datatype DreamBody = DreamBody(
    author: Option<IdParam>,
    anonym: Option<bool>,
    content: Option<string>,
    topics: Option<IdParam>,
    typeRef: Option<IdParam>,
    published: Option<bool>,
    comments: Option<IdParam>,
    title: Option<string>)

  predicate Acceptable(d: Dream) {
    && d.author.Some?
    && Filled(d.content)
    && d.topics.Some?
    && d.typeRef.Some?
    && d.comments.Some?
    && Filled(d.title)
  }

  /** The six required paths, named as in the schema. */
  const RequiredPaths: set<string> := {"author", "content", "topics", "type", "comments", "title"}

  /** The message of each path's `required` rule. */
  function RequiredMessage(path: string): string {
    if path == "author" then "Dream author is required"
    else if path == "content" then "Dream content is required"
    else if path == "topics" then "Dream topic is required"
    else if path == "type" then "Dream type is required"
    else if path == "comments" then "Dream comment is required"
    else "Dream title is required"
  }

  /** Whether `required` holds at a path: references must be present, strings non-empty. */
  predicate Holds(d: Dream, path: string) {
    if path == "author" then d.author.Some?
    else if path == "content" then Filled(d.content)
    else if path == "topics" then d.topics.Some?
    else if path == "type" then d.typeRef.Some?
    else if path == "comments" then d.comments.Some?
    else Filled(d.title)
  }

  /** The ValidationError paths and messages of a dream document: one `required`
      failure for each required path that does not hold, and nothing else. */
  function Validate(d: Dream): (e: Errors)
    ensures e == map[] <==> Acceptable(d)
    ensures e.Keys <= RequiredPaths
    ensures forall path | path in RequiredPaths :: path in e <==> !Holds(d, path)
    ensures forall path | path in e :: e[path] == Message(RequiredMessage(path))
  {
    var e := map path | path in RequiredPaths && !Holds(d, path) :: Message(RequiredMessage(path));
    assert Acceptable(d) <==> forall path | path in RequiredPaths :: Holds(d, path);
    assert !Acceptable(d) ==> e != map[] by {
      if !Acceptable(d) {
        var path :| path in RequiredPaths && !Holds(d, path);
        assert path in e;
      }
    }
    e
  }

  /** The same, path by path, with the schema's messages written out. */
  lemma ValidateByPath(d: Dream)
    ensures var e := Validate(d);
            && ("author" in e <==> d.author.None?)
            && ("content" in e <==> !Filled(d.content))
            && ("topics" in e <==> d.topics.None?)
            && ("type" in e <==> d.typeRef.None?)
            && ("comments" in e <==> d.comments.None?)
            && ("title" in e <==> !Filled(d.title))
            && ("author" in e ==> e["author"] == Message("Dream author is required"))
            && ("content" in e ==> e["content"] == Message("Dream content is required"))
            && ("topics" in e ==> e["topics"] == Message("Dream topic is required"))
            && ("type" in e ==> e["type"] == Message("Dream type is required"))
            && ("comments" in e ==> e["comments"] == Message("Dream comment is required"))
            && ("title" in e ==> e["title"] == Message("Dream title is required"))
  {
    var e := Validate(d);
    assert Holds(d, "author") <==> d.author.Some?;
    assert Holds(d, "content") <==> Filled(d.content);
    assert Holds(d, "topics") <==> d.topics.Some?;
    assert Holds(d, "type") <==> d.typeRef.Some?;
    assert Holds(d, "comments") <==> d.comments.Some?;
    assert Holds(d, "title") <==> Filled(d.title);
  }

  predicate AllAcceptable(dreams: map<Id, Dream>) {
    forall id | id in dreams :: Acceptable(dreams[id])
  }

  /** Assigning a body reference to a path: a castable value replaces the current value, a missing
      one or one that does not cast leaves it in place. */
  function AssignRef(current: Option<Id>, v: Option<IdParam>): (r: Option<Id>)
    ensures v.Some? && v.value.Cast? ==> r == Some(v.value.id)
    ensures !(v.Some? && v.value.Cast?) ==> r == current
  {
    if v.Some? && v.value.Cast? then Some(v.value.id) else current
  }

  /** The cast failure a body reference records on its path, if any. */
  function CastErrors(path: string, v: Option<IdParam>): (e: Errors)
    ensures path in e <==> v.Some? && v.value.Uncastable?
    ensures e.Keys <= {path}
    ensures path in e ==> e[path] == CastFailed(v.value.raw)
  {
    if v.Some? && v.value.Uncastable? then map[path := CastFailed(v.value.raw)] else map[]
  }

  /** `new Dream(attrs)`: absent booleans take their default `false`; every other
      absent path stays missing. Returns the document and its cast failures. */
  function NewDream(attrs: DreamBody): (r: (Dream, Errors))
    ensures r.0.anonym == attrs.anonym.GetOr(false)
    ensures r.0.published == attrs.published.GetOr(false)
    ensures r.0.content == attrs.content && r.0.title == attrs.title
    ensures r.0.author == AssignRef(None, attrs.author)
    ensures r.0.topics == AssignRef(None, attrs.topics)
    ensures r.0.typeRef == AssignRef(None, attrs.typeRef)
    ensures r.0.comments == AssignRef(None, attrs.comments)
    ensures r.1 == CastErrors("author", attrs.author) + CastErrors("topics", attrs.topics)
                   + CastErrors("type", attrs.typeRef) + CastErrors("comments", attrs.comments)
  {
    var d := Dream(
      AssignRef(None, attrs.author),
      attrs.anonym.GetOr(false),
      attrs.content,
      AssignRef(None, attrs.topics),
      AssignRef(None, attrs.typeRef),
      attrs.published.GetOr(false),
      AssignRef(None, attrs.comments),
      attrs.title);
    var casts := CastErrors("author", attrs.author) + CastErrors("topics", attrs.topics)
      + CastErrors("type", attrs.typeRef) + CastErrors("comments", attrs.comments);
    (d, casts)
  }

  /** What `POST /dreams` hands to `create`: the body's content and title, nothing else. */
  function Posted(body: DreamBody): (attrs: DreamBody)
    ensures attrs.content == body.content && attrs.title == body.title
    ensures attrs.author.None? && attrs.anonym.None? && attrs.topics.None?
    ensures attrs.typeRef.None? && attrs.published.None? && attrs.comments.None?
  {
    DreamBody(None, None, body.content, None, None, None, None, body.title)
  }

  /** The `create` call `POST /dreams` makes, before its catch block. A cast failure
      on a path hides the `required` failure of the same path. The document never gets
      an author, topic, type or comment, so the call always fails validation. */
  function InsertPosted(dreams: map<Id, Dream>, newId: Id, body: DreamBody): (r: Result<map<Id, Dream>>)
    ensures r.Err? && r.error.ValidationError?
    ensures {"author", "topics", "type", "comments"} <= r.error.errors.Keys
  {
    var (doc, casts) := NewDream(Posted(body));
    assert casts == map[];
    ValidateByPath(doc);
    Insert(dreams, newId, doc, Validate(doc) + casts)
  }

  /** The catch block of `POST /dreams`: it tests `err.id`, not `err.name`. */
  function CatchById(dreams: map<Id, Dream>, r: Result<map<Id, Dream>>, done: Reply<Dream>): (o: Outcome<Dream>)
    ensures r.Ok? ==> o == Outcome(done, r.value)
    ensures r.Err? ==> o == Outcome(ServerError, dreams)
  {
    match r
    case Ok(s) => Outcome(done, s)
    case Err(e) =>
      if ErrId(e) == Some("ValidationError") then Outcome(Invalid(Translate(e)), dreams)
      else Outcome(ServerError, dreams)
  }

  /** `POST /dreams`. The document never gets an author, topic, type or comment, so it
      always fails validation, and the catch block then answers 500, not 400. */
  function Create(dreams: map<Id, Dream>, newId: Id, body: DreamBody): (o: Outcome<Dream>)
    ensures o == Outcome(ServerError, dreams)
  {
    CreateAlwaysInvalid(dreams, newId, body);
    CatchById(dreams, InsertPosted(dreams, newId, body), Created(newId))
  }

  /** Whatever the body holds, the insertion is a ValidationError naming at least the
      four paths `POST /dreams` never fills. */
  lemma CreateAlwaysInvalid(dreams: map<Id, Dream>, newId: Id, body: DreamBody)
    ensures var r := InsertPosted(dreams, newId, body);
            && r.Err? && r.error.ValidationError?
            && {"author", "topics", "type", "comments"} <= r.error.errors.Keys
            && r.error.errors["author"] == Message("Dream author is required")
            && r.error.errors["comments"] == Message("Dream comment is required")
  {
    var (doc, casts) := NewDream(Posted(body));
    assert casts == map[];
    ValidateByPath(doc);
  }

  /** `GET /dreams`. */
  function List(dreams: map<Id, Dream>): (o: Outcome<Dream>)
    ensures o.reply == Listed(dreams) && o.store == dreams
  {
    FindAll(dreams)
  }

  /** `GET /dreams/:id`. The `populate('applications')` names no path of the schema
      and adds nothing. */
  function Get(dreams: map<Id, Dream>, p: IdParam): (o: Outcome<Dream>)
    ensures o.store == dreams
    ensures o.reply.NotFound? <==> p.Cast? && p.id !in dreams
    ensures o.reply.NotFound? ==> o.reply.description == "Dream not found"
    ensures o.reply.Found? <==> p.Cast? && p.id in dreams
    ensures o.reply.Found? ==> o.reply.doc == dreams[p.id]
    ensures p.Uncastable? ==> o.reply == ServerError
  {
    FindById(dreams, p, "Dream not found")
  }

  /** The PATCH merge: title, content, topics and type are overwritten by the body when
      it holds a non-null value (a reference only when it casts); every other path,
      `anonym`, `author`, `published` and `comments` included, keeps its value. */
  function Merge(d: Dream, body: DreamBody): (m: Dream)
    ensures m.title == (if body.title.Some? then body.title else d.title)
    ensures m.content == (if body.content.Some? then body.content else d.content)
    ensures !(body.topics.Some? && body.topics.value.Cast?) ==> m.topics == d.topics
    ensures !(body.typeRef.Some? && body.typeRef.value.Cast?) ==> m.typeRef == d.typeRef
    ensures body.topics.Some? && body.topics.value.Cast? ==> m.topics == Some(body.topics.value.id)
    ensures body.typeRef.Some? && body.typeRef.value.Cast? ==> m.typeRef == Some(body.typeRef.value.id)
    ensures m.anonym == d.anonym && m.author == d.author
    ensures m.published == d.published && m.comments == d.comments
  {
    d.(title := if body.title.Some? then body.title else d.title,
       content := if body.content.Some? then body.content else d.content,
       topics := AssignRef(d.topics, body.topics),
       typeRef := AssignRef(d.typeRef, body.typeRef))
  }

  /** The errors `save()` raises after the merge: the cast failures of the two
      reference paths the handler assigns, over the schema's own. */
  function PatchErrors(d: Dream, body: DreamBody): Errors {
    Validate(Merge(d, body)) + CastErrors("topics", body.topics) + CastErrors("type", body.typeRef)
  }

  /** Whether a PATCH of `d` with `body` saves. */
  predicate PatchSaves(d: Dream, body: DreamBody) {
    && Acceptable(Merge(d, body))
    && !(body.topics.Some? && body.topics.value.Uncastable?)
    && !(body.typeRef.Some? && body.typeRef.value.Uncastable?)
  }

  /** `PATCH /dreams/:id`. */
  function Update(dreams: map<Id, Dream>, p: IdParam, body: DreamBody): (o: Outcome<Dream>)
    ensures o.reply.NotFound? <==> p.Cast? && p.id !in dreams
    ensures o.reply.NotFound? ==> o.reply.description == "Dream not found"
    ensures o.reply.Updated? <==> p.Cast? && p.id in dreams && PatchSaves(dreams[p.id], body)
    ensures o.reply.Updated? ==>
              o.reply.id == p.id && o.store == dreams[p.id := Merge(dreams[p.id], body)]
    ensures o.reply.Invalid? <==> p.Cast? && p.id in dreams && !PatchSaves(dreams[p.id], body)
    ensures !o.reply.Updated? ==> o.store == dreams
    ensures p.Uncastable? ==> o.reply == ServerError
  {
    match p
    case Uncastable(_) => Outcome(ServerError, dreams)
    case Cast(id) =>
      if id !in dreams then Outcome(NotFound("Dream not found"), dreams)
      else
        var e := PatchErrors(dreams[id], body);
        assert e == map[] <==> PatchSaves(dreams[id], body) by {
          var casts := CastErrors("topics", body.topics) + CastErrors("type", body.typeRef);
          assert "topics" in casts <==> body.topics.Some? && body.topics.value.Uncastable?;
          assert "type" in casts <==> body.typeRef.Some? && body.typeRef.value.Uncastable?;
          assert e == Validate(Merge(dreams[id], body)) + casts;
          assert casts.Keys <= e.Keys;
        }
        CatchByName(dreams, Save(dreams, id, Merge(dreams[id], body), e), Updated(id))
  }

  /** `DELETE /dreams/:id`. */
  function Delete(dreams: map<Id, Dream>, p: IdParam): (o: Outcome<Dream>)
    ensures o.reply.NotFound? <==> p.Cast? && p.id !in dreams
    ensures o.reply.NotFound? ==> o.reply.description == "Dream not found"
    ensures o.reply.Deleted? <==> p.Cast? && p.id in dreams
    ensures o.reply.Deleted? ==> o.store == dreams - {p.id}
    ensures !o.reply.Deleted? ==> o.store == dreams
    ensures p.Uncastable? ==> o.reply == ServerError
  {
    var o := FindByIdAndDelete(dreams, p, "Dream not found");
    assert o.reply.Deleted? ==> o.store == dreams - {p.id};
    o
  }

  /** The empty body. */
  const NoFields := DreamBody(None, None, None, None, None, None, None, None)

  /** A PATCH that omits every field re-saves the dream as it is (if it is valid):
      omitted fields keep their values, where a PUT would have cleared them. */
  lemma EmptyPatchKeeps(dreams: map<Id, Dream>, id: Id)
    requires id in dreams && Acceptable(dreams[id])
    ensures Update(dreams, Cast(id), NoFields) == Outcome(Updated(id), dreams)
  {
    assert Merge(dreams[id], NoFields) == dreams[id];
    assert dreams[id := dreams[id]] == dreams;
  }

  /** Body fields the handler does not read have no effect on a PATCH. */
  lemma PatchIgnoresOtherFields(dreams: map<Id, Dream>, p: IdParam, body: DreamBody,
                                author: Option<IdParam>, anonym: Option<bool>,
                                published: Option<bool>, comments: Option<IdParam>)
    ensures Update(dreams, p, body) ==
            Update(dreams, p, body.(author := author, anonym := anonym, published := published, comments := comments))
  {
  }

  /** A second identical PATCH changes nothing more. */
  lemma UpdateIdempotent(dreams: map<Id, Dream>, p: IdParam, body: DreamBody)
    ensures var once := Update(dreams, p, body);
            Update(once.store, p, body) == once
  {
    if p.Cast? && p.id in dreams {
      var m := Merge(dreams[p.id], body);
      assert Merge(m, body) == m;
    }
  }

  /** A PATCH that cannot save leaves the stored dream exactly as it was. */
  lemma FailedPatchKeeps(dreams: map<Id, Dream>, id: Id, body: DreamBody)
    requires id in dreams && !PatchSaves(dreams[id], body)
    ensures Update(dreams, Cast(id), body).reply.Invalid?
    ensures Update(dreams, Cast(id), body).store[id] == dreams[id]
  {
  }

  /** The handlers only ever store documents the schema accepts. */
  lemma HandlersKeepAcceptable(dreams: map<Id, Dream>, p: IdParam, newId: Id, body: DreamBody)
    requires AllAcceptable(dreams)
    ensures AllAcceptable(Create(dreams, newId, body).store)
    ensures AllAcceptable(Delete(dreams, p).store)
    ensures AllAcceptable(Update(dreams, p, body).store)
  {
  }
}
