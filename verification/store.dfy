/**
  The document store as the controllers see it: one collection per model,
  a collection being a map from generated ids to documents, together with the
  errors the object-document mapper raises and the replies the controllers
  send back. Every handler of the model is a pure function from a collection
  (and the request) to an `Outcome`: the reply and the collection afterwards.
 */
module Store {

  /** A field that may be missing; `None` stands for both `undefined` and `null`,
      which the controllers never tell apart (they only test `!= null`). */
  datatype Option<+T> = None | Some(value: T) {
    function GetOr(default: T): T {
      match this
      case Some(v) => v
      case None => default
    }
  }

  /** A document id. The driver's ObjectId is opaque to the model. */
  type Id = nat

  /** An `:id` path parameter or a reference in a request body: either it casts to an
      ObjectId or it does not (a malformed hex string, for one). The casting rules
      themselves are left to the driver. */
  datatype IdParam = Cast(id: Id) | Uncastable(raw: string)

  /** One entry of a ValidationError's `errors`, keyed by path: a validator's message,
      or a failed cast whose message text the model leaves abstract. */
  datatype FieldError = Message(text: string) | CastFailed(raw: string)

  type Errors = map<string, FieldError>

  /** What a store operation can throw. */
  datatype DbError =
    | ValidationError(errors: Errors)
    | DuplicateKey                       // E11000 from a unique index, `_id` included
    | CastError                          // a query on an uncastable id
    | TypeError                          // a method called on a model that was never registered
    | DocumentNotFound                   // `save()` of a loaded document whose row is gone

  /** `err.name` as the controllers read it. */
  function ErrName(e: DbError): (r: string)
    ensures r == "ValidationError" <==> e.ValidationError?
  {
    match e
    case ValidationError(_) => "ValidationError"
    case DuplicateKey => "MongoError"
    case CastError => "CastError"
    case TypeError => "TypeError"
    case DocumentNotFound => "DocumentNotFoundError"
  }

  /** `err.id`: none of these error objects carries an `id` property. */
  function ErrId(e: DbError): (r: Option<string>)
    ensures r != Some("ValidationError")
  {
    None
  }

  /** The path-to-message map a 400 reply carries; only a ValidationError has one. */
  function Translate(e: DbError): Errors {
    if e.ValidationError? then e.errors else map[]
  }

  datatype Result<+T> = Ok(value: T) | Err(error: DbError)

  /** The body of a controller's reply; the HTTP status is `Code`. */
  datatype Reply<T> =
    | Listed(docs: map<Id, T>)
    | Found(doc: T)
    | Created(id: Id)
    | Updated(id: Id)
    | Deleted
    | Invalid(errors: Errors)
    | NotFound(description: string)
    | ServerError

  /** The status codes the handlers answer with. */
  const Statuses: set<int> := {200, 201, 204, 400, 404, 500}

  function Code<T>(r: Reply<T>): (c: int)
    ensures c in Statuses
    ensures c == 500 <==> r.ServerError?
  {
    match r
    case Listed(_) => 200
    case Found(_) => 200
    case Created(_) => 201
    case Updated(_) => 200
    case Deleted => 204
    case Invalid(_) => 400
    case NotFound(_) => 404
    case ServerError => 500
  }

  datatype Outcome<T> = Outcome(reply: Reply<T>, store: map<Id, T>)

  /** Mongoose's `required` test on a String path: present, not null, not empty. */
  predicate Filled(s: Option<string>) {
    s.Some? && |s.value| > 0
  }

  /** The error map a single `required` rule contributes. */
  function Require(ok: bool, path: string, message: string): (e: Errors)
    ensures ok <==> e == map[]
    ensures !ok ==> e == map[path := Message(message)]
  {
    if ok then map[]
    else
      var e := map[path := Message(message)];
      assert path in e;
      e
  }

  /** The documents of `store` that `keep` selects, with their ids. */
  function Select<T>(store: map<Id, T>, keep: T -> bool): (r: map<Id, T>)
    ensures forall id :: id in r <==> id in store && keep(store[id])
    ensures forall id :: id in r ==> r[id] == store[id]
  {
    map id | id in store && keep(store[id]) :: store[id]
  }

  /** `Model.find(filter)` answered with 200; a read changes nothing. */
  function Find<T>(store: map<Id, T>, keep: T -> bool): (o: Outcome<T>)
    ensures o.store == store
    ensures o.reply.Listed? && Code(o.reply) == 200
    ensures forall id :: id in o.reply.docs <==> id in store && keep(store[id])
    ensures forall id :: id in o.reply.docs ==> o.reply.docs[id] == store[id]
  {
    Outcome(Listed(Select(store, keep)), store)
  }

  /** `Model.find()` without a filter: the whole collection. */
  function FindAll<T>(store: map<Id, T>): (o: Outcome<T>)
    ensures o == Outcome(Listed(store), store)
  {
    var o := Find(store, (_: T) => true);
    assert o.reply.docs == store;
    o
  }

  /** `findById` then `if (doc == null) 404 else 200 { doc }`, inside a catch-all 500. */
  function FindById<T>(store: map<Id, T>, p: IdParam, missing: string): (o: Outcome<T>)
    ensures o.store == store
    ensures o.reply.NotFound? <==> p.Cast? && p.id !in store
    ensures o.reply.NotFound? ==> o.reply.description == missing
    ensures o.reply.Found? <==> p.Cast? && p.id in store
    ensures o.reply.Found? ==> o.reply.doc == store[p.id]
    ensures p.Uncastable? <==> o.reply == ServerError
  {
    match p
    case Uncastable(_) => Outcome(ServerError, store)
    case Cast(id) =>
      if id in store then Outcome(Found(store[id]), store) else Outcome(NotFound(missing), store)
  }

  /** `findByIdAndDelete` then `if (doc == null) 404 else 204`, inside a catch-all 500. */
  function FindByIdAndDelete<T>(store: map<Id, T>, p: IdParam, missing: string): (o: Outcome<T>)
    ensures o.reply.Deleted? <==> p.Cast? && p.id in store
    ensures o.reply.Deleted? ==> o.store.Keys == store.Keys - {p.id}
    ensures forall id :: id in o.store ==> id in store && o.store[id] == store[id]
    ensures !o.reply.Deleted? ==> o.store == store
    ensures o.reply.NotFound? <==> p.Cast? && p.id !in store
    ensures o.reply.NotFound? ==> o.reply.description == missing
    ensures p.Uncastable? <==> o.reply == ServerError
  {
    match p
    case Uncastable(_) => Outcome(ServerError, store)
    case Cast(id) =>
      if id in store then Outcome(Deleted, store - {id}) else Outcome(NotFound(missing), store)
  }

  /** `Model.create(doc)`: validate, then insert under a freshly generated id; an id
      that is already taken is rejected by the `_id` index. */
  function Insert<T>(store: map<Id, T>, id: Id, doc: T, errors: Errors): (r: Result<map<Id, T>>)
    ensures r.Ok? <==> errors == map[] && id !in store
    ensures r.Ok? ==> r.value == store[id := doc]
    ensures r.Err? && errors != map[] ==> r.error == ValidationError(errors)
    ensures r.Err? && errors == map[] ==> r.error == DuplicateKey
  {
    if errors != map[] then Err(ValidationError(errors))
    else if id in store then Err(DuplicateKey)
    else Ok(store[id := doc])
  }

  /** `doc.save()` of a document that was just loaded from `store`. */
  function Save<T>(store: map<Id, T>, id: Id, doc: T, errors: Errors): (r: Result<map<Id, T>>)
    requires id in store
    ensures r.Ok? <==> errors == map[]
    ensures r.Ok? ==> r.value == store[id := doc] && r.value.Keys == store.Keys
    ensures r.Err? ==> r.error == ValidationError(errors)
  {
    if errors != map[] then Err(ValidationError(errors)) else Ok(store[id := doc])
  }

  /** The controllers' catch block: `if (err.name === 'ValidationError') 400 else 500`;
      on success the reply `done` is sent. A failed write leaves the store as it was. */
  function CatchByName<T>(store: map<Id, T>, r: Result<map<Id, T>>, done: Reply<T>): (o: Outcome<T>)
    ensures r.Ok? ==> o == Outcome(done, r.value)
    ensures r.Err? ==> o.store == store
    ensures r.Err? && r.error.ValidationError? ==> o.reply == Invalid(r.error.errors)
    ensures r.Err? && !r.error.ValidationError? ==> o.reply == ServerError
  {
    match r
    case Ok(s) => Outcome(done, s)
    case Err(e) =>
      if ErrName(e) == "ValidationError" then Outcome(Invalid(Translate(e)), store)
      else Outcome(ServerError, store)
  }
}
