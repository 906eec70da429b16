# dreamtastic-api: a Dafny model of the schemas and the CRUD controllers

The dreamtastic API is an Express/Mongoose backend for sharing dreams. Users write
dreams; each dream refers to one author, one topic, one type and one comment. This project models
the part of the server that decides what gets stored and what each request answers:

- **The field validators** (`Color`, `Email`, `JsText`):
  - the anchored, case-insensitive hex-colour pattern shared by topics and types;
  - the unanchored e-mail pattern of users, written as a recursive scanner that is
    proved equal to the pattern's own definition;
  - the password `minlength`, counted in UTF-16 code units as JavaScript's `length` is.
- **The schemas** (`Topics`, `Types`, `Users`, `Dreams`, `Comments`, `Reactions`):
  - the required paths and their exact messages (a String path is missing when it is
    undefined, null or empty);
  - the one format rule per path, tried after `required`;
  - the boolean defaults of a dream;
  - the users' two unique indexes, as a store invariant;
  - the pre-save hook that hashes a new user's password;
  - the `select: false` projection;
  - the `dreams` virtual, which lists the dreams a user wrote.
- **The controllers** of `/dreams`, `/topics`, `/types` and `/reactions`
  (`Dreams`, `Topics`, `Types`, `Reactions`, over `Store`):
  - each collection is a `map<Id, Record>`;
  - each handler is a pure function from the collection and the request to an
    `Outcome`, which is the reply (with its HTTP status via `Store.Code`) and the
    collection afterwards;
  - each 404 description is modelled verbatim;
  - the 400/500 split follows each catch block.
- **The server as a whole** (`Server`):
  - the registered routes;
  - the collections the database service registers;
  - one dispatch step over all of them, with the invariant that every stored
    topic, type and dream passes its schema and the users' indexes stay unique.

Some behaviours of the code are surprising. They are modelled as the code has them:

- `POST /dreams` can never succeed. It passes only `content` and `title` to
  `create`, so the required `author`, `topics`, `type` and `comments` are always
  missing. Its catch block tests `err.id` rather than `err.name`, so the
  ValidationError is answered with 500, not 400 (`Dreams.Create`,
  `Dreams.CreateAlwaysInvalid`).
- The database service registers no reactions model, so `this.db.reactions` is
  undefined. Every reaction handler throws a TypeError inside its `try` and answers
  500 (`Server.Handle`). The reaction handlers are also modelled over an abstract
  collection (`Reactions`), as if the model were registered.
- The reactions controller's `getHandler` is never routed, and the comment
  sub-routes of `/dreams` are commented out (`Server.UnroutedEndpoints`).
- A PUT on a topic or a type assigns both fields from the body unconditionally, so
  omitting either fails validation. A PATCH on a dream or a reaction only overwrites
  the fields that are non-null in the body.
- References are only checked for presence. Nothing looks up a dream's topic, type,
  author or comment, or a comment's parent or dream. Deleting a dream leaves its
  comments in place.
- The type listing passes the query string to `find` as a filter. A query on a path
  that no type document holds therefore lists nothing.

Modelling choices:

- `Store.Option.None` stands for both `undefined` and `null`. The controllers only
  ever test `!= null`, which treats the two alike.
- Ids are natural numbers. A request's `:id` or a body reference is an
  `Store.IdParam`: either it casts to an ObjectId or it does not.
  - An uncastable `:id` makes `findById` or `findByIdAndDelete` throw a CastError,
    which every catch block answers with 500.
  - An uncastable reference assigned to a dream path is recorded as a cast failure
    on that path, which makes `save()` fail with a ValidationError.
- The id a `create` generates is a parameter (`newId`). If it is already taken, the
  write is refused with a duplicate-key error. That error's `name` is `MongoError`,
  so it is answered with 500.
- A handler answers with a `Store.Reply`; `Store.Code` gives its status.
- The password hash function (bcrypt with the configured salt) is a parameter.

## Model

| member | source | states |
|---|---|---|
| Store.ErrName | src/controllers/topic-controller.ts:67 | `err.name` reads 'ValidationError' exactly for a validation failure; a duplicate key, a failed id cast, a missing model and a vanished document all carry other names. |
| Store.ErrId | src/controllers/dream-controller.ts:118 | `err.id` is never 'ValidationError': none of the errors the store raises carries an `id` property. |
| Store.Insert | src/controllers/topic-controller.ts:54-57 | `create` validates first: a document with errors is refused with a ValidationError carrying exactly those errors. A valid one is refused with a duplicate-key error iff its id is taken, and is otherwise stored under that id. |
| Store.Save | src/controllers/topic-controller.ts:140-142 | `save()` of a loaded document stores it under its id iff it passes validation, and otherwise raises a ValidationError with its errors. The set of ids is unchanged. |
| Store.CatchByName | src/controllers/topic-controller.ts:66-71 | The catch blocks that test `err.name` answer a ValidationError with 400 and its errors, and any other error with 500. A failure leaves the collection unchanged. |
| Store.FindById | src/controllers/topic-controller.ts:109-116 | `findById` plus the null test: 404 with the handler's description iff the id casts and is absent, 200 with the document iff present, and 500 iff the id does not cast. Nothing changes. |
| Store.FindByIdAndDelete | src/controllers/topic-controller.ts:85-92 | `findByIdAndDelete` plus the null test: 204 iff the id is present, removing that document and keeping every other one as it was. 404 iff the id is absent, and 500 iff the id does not cast. |
| Store.Find | src/controllers/type-controller.ts:69 | `find(filter)` answers 200 with exactly the documents the filter keeps, unmodified, and changes nothing. |
| Dreams.AssignRef | src/controllers/dream-controller.ts:149-154 | Assigning a body value to a reference path replaces the current value iff the value casts. A missing value or one that does not cast leaves the path as it was. |
| JsText.Utf16LengthBounds | src/models/user-model.ts:61 | The JavaScript `length` of a string lies between its number of characters and twice that number. |
| JsText.Utf16LengthBmp | src/models/user-model.ts:61 | On text inside the Basic Multilingual Plane, `length` equals the number of characters. |
| JsText.Utf16LengthAstral | src/models/user-model.ts:61 | On text made only of characters above the Basic Multilingual Plane, `length` is twice the number of characters. |
| Color.GroupsShape | src/models/topic-model.ts:45 | `([0-9a-f]{3})` repeated n times, matched to the end of the string, accepts exactly the strings of 3n hex digits (either case). |
| Color.AcceptedIff | src/models/topic-model.ts:45 | A colour is accepted iff it has length 4 or 7, starts with `#`, and the rest is hex digits. |
| Color.RejectsBadShape | src/models/topic-model.ts:45 | A string whose length is neither 4 nor 7, or that does not start with `#`, is rejected, because the pattern is anchored. |
| Color.CaseInsensitive | src/models/topic-model.ts:45 | Upper- and lower-case hex digits are accepted alike (the `i` flag). |
| Color.Examples | src/models/topic-model.ts:45 | `#ABC`, `#abc`, `#1e90ff` and `#FF0000` are accepted. `#abcd`, `#12345`, `abc`, `#abg`, `#abc` plus a newline, and the empty string are rejected. |
| Color.ColorRule | src/models/topic-model.ts:41-47 | A colour path fails with the schema's `required` message when it is missing or empty, and with 'Invalid color' when it is present but does not match. Otherwise it has no error. |
| Email.ShortestMatch | src/models/user-model.ts:49 | The unanchored pattern matches iff some `@` has a non-space character just before it, and some later `.` has a run of non-spaces between it and the `@` and a non-space just after it. |
| Email.DotFrom | src/models/user-model.ts:49 | Scanning right of an `@` through non-space characters finds a suitable `.` iff one exists at or after the scan position. |
| Email.ScanFrom | src/models/user-model.ts:49 | Scanning from position i finds a match iff some `@` at or after i starts one. |
| Email.IsEmail | src/models/user-model.ts:48-51 | The e-mail validator accepts a string iff `/\S+@\S+\.\S+/` matches some substring of it. |
| Email.Examples | src/models/user-model.ts:49 | `a b@c.d` and `x y@b.c z` are accepted because the pattern is unanchored. `a@b`, `@b.c`, `a@.c` and `a @b.c` are rejected. |
| Topics.Validate | src/models/topic-model.ts:36-48 | A topic passes iff its name is filled and its colour is filled and well formed. Each path has an error iff its own rule fails, whatever the other path holds. The missing name and colour, and a malformed colour, each give their own message. |
| Topics.List | src/controllers/topic-controller.ts:35-41 | `GET /topics` answers 200 with every stored topic and changes nothing. |
| Topics.Create | src/controllers/topic-controller.ts:52-72 | `POST /topics` stores exactly one new topic, built from name and colour, and answers 201 iff the body passes and the id is fresh. It answers 400 with the validation errors iff the body fails, and 500 on an id clash. The store is unchanged on failure. |
| Topics.Delete | src/controllers/topic-controller.ts:83-96 | `DELETE /topics/:id` answers 404 'topic not found' iff the id is absent. Otherwise it answers 204 and removes that topic only. An uncastable id gives 500. |
| Topics.Get | src/controllers/topic-controller.ts:107-120 | `GET /topics/:id` answers 404 iff the id is absent, and otherwise 200 with that topic. It changes nothing. |
| Topics.Modify | src/controllers/topic-controller.ts:131-157 | `PUT /topics/:id` answers 404 'Topic not found' iff the id is absent. Otherwise it replaces both fields with the body's and answers 200 iff the body passes, or 400 (store unchanged). |
| Topics.NameUnconstrained | src/models/topic-model.ts:37-40 | Any non-empty name is accepted with a valid colour: the name has no format rule and no uniqueness rule. |
| Topics.CreateThenGet | src/controllers/topic-controller.ts:54-65 | A topic just created is found under its new id, as sent. |
| Topics.CreateThenDelete | src/controllers/topic-controller.ts:85-92 | Deleting a topic just created restores the previous store exactly. |
| Topics.ModifyIdempotent | src/controllers/topic-controller.ts:140-142 | Repeating the same PUT gives the same reply and the same store. |
| Topics.HandlersKeepAcceptable | src/models/topic-model.ts:36-48 | Create, delete and PUT only ever leave topics that pass the schema in the store. |
| Types.Validate | src/models/type-model.ts:36-48 | A type passes iff its name is filled and its colour is filled and well formed. Each path has an error iff its own rule fails, whatever the other path holds. The missing name and colour, and a malformed colour, each give their own message. |
| Types.List | src/controllers/type-controller.ts:67-73 | `GET /types` answers with exactly the stored types that hold every queried value at its path. |
| Types.Create | src/controllers/type-controller.ts:36-56 | `POST /types` answers 201 and stores the type iff the body passes and the id is fresh. It answers 400 with the errors iff the body fails, and 500 on an id clash. The store is unchanged on failure. |
| Types.Delete | src/controllers/type-controller.ts:84-97 | `DELETE /types/:id` answers 404 'type not found' iff the id is absent. Otherwise it answers 204 and removes only that type. |
| Types.Get | src/controllers/type-controller.ts:108-121 | `GET /types/:id` answers 404 iff the id is absent, and otherwise 200 with that type. |
| Types.Modify | src/controllers/type-controller.ts:132-158 | `PUT /types/:id` answers 404 'Type not found' iff the id is absent. Otherwise it replaces both fields unconditionally, and answers 200 iff the result passes, or 400 (store unchanged). |
| Types.ColorRuleAgrees | src/models/type-model.ts:41-47 | On every name and colour, the type schema and the topic schema flag the same paths, accept the same documents, and give the same 'Invalid color'. |
| Types.EmptyQueryListsAll | src/controllers/type-controller.ts:69 | With no query string, every type is listed. |
| Types.NameQuery | src/controllers/type-controller.ts:69 | `?name=n` lists a type iff its name is n. |
| Types.UnknownPathQuery | src/controllers/type-controller.ts:69 | A query on a path no type document holds (not `name` or `color`, nor `_id` or the two timestamps, and not a key starting with `$`) lists nothing. |
| Types.HandlersKeepAcceptable | src/models/type-model.ts:36-48 | Create, delete and PUT only ever leave types that pass the schema in the store. |
| Reactions.Validate | src/models/reaction-model.ts:37-47 | A reaction passes iff name and icon are both filled. The messages are 'Reaction  is required' (two spaces) and 'icon is required'. |
| Reactions.List | src/controllers/reaction-controller.ts:35-41 | `GET /reactions` answers with every stored reaction and changes nothing. |
| Reactions.Create | src/controllers/reaction-controller.ts:52-72 | `POST /reactions` answers 201 and stores the reaction iff the body passes and the id is fresh. It answers 400 iff the body fails, and 500 on an id clash. |
| Reactions.Delete | src/controllers/reaction-controller.ts:83-96 | `DELETE /reactions/:id` answers 404 'reaction not found' iff the id is absent. Otherwise it answers 204 and removes only that reaction. |
| Reactions.Get | src/controllers/reaction-controller.ts:107-120 | The unrouted `getHandler` would answer 404 iff the id is absent, and otherwise 200 with that reaction. |
| Reactions.Merge | src/controllers/reaction-controller.ts:140-145 | The PATCH merge overwrites name or icon only with a non-null value from the body, and keeps the other field. |
| Reactions.Update | src/controllers/reaction-controller.ts:131-162 | `PATCH /reactions/:id` answers 404 iff the id is absent. Otherwise it stores the merge and answers 200 iff the merge passes, or 400 (store unchanged). |
| Reactions.AnyIconAccepted | src/models/reaction-model.ts:42-46 | Any non-empty icon string is accepted: there is no format check. |
| Reactions.EmptyPatchKeeps | src/controllers/reaction-controller.ts:140-147 | A PATCH with an empty body re-saves a valid reaction unchanged. |
| Reactions.UpdateIdempotent | src/controllers/reaction-controller.ts:131-162 | Repeating the same PATCH changes nothing more. |
| Reactions.HandlersKeepAcceptable | src/models/reaction-model.ts:37-47 | Create, delete and PATCH only ever leave reactions that pass the schema in the store. |
| Comments.Validate | src/models/comment-model.ts:40-57 | A comment passes iff its content is filled and it has an author. The messages are 'Content is required' and 'Author is required'. |
| Comments.ReferencesUnchecked | src/models/comment-model.ts:50-57 | `parent` and `dream` play no part in validation: a top-level comment, a comment on no dream, or a reply to a comment that is not stored validates like any other. |
| Dreams.Validate | src/models/dream-model.ts:46-82 | A dream passes iff all six required paths hold. Each path that does not hold gets its own message, and no other path gets one. |
| Dreams.ValidateByPath | src/models/dream-model.ts:47-82 | Path by path: author, topics, type and comments fail when missing, and content and title when missing or empty. The messages are the schema's, 'Dream topic is required' included. |
| Dreams.NewDream | src/models/dream-model.ts:47-78 | A new document takes `anonym` and `published` from the body, or `false` when they are absent. Content and title are taken as given. Each reference is stored iff it casts: a missing one stays missing, and one that does not cast stays missing with a cast failure returned on its path. No other path gets a cast failure. |
| Dreams.CastErrors | src/models/dream-model.ts:60-69 | A single-ObjectId path records a cast failure iff the value it is given does not cast. |
| Dreams.Posted | src/controllers/dream-controller.ts:105-108 | `POST /dreams` hands `create` the body's content and title and nothing else. |
| Dreams.InsertPosted | src/controllers/dream-controller.ts:105-108 | The `create` call of `POST /dreams` always fails with a ValidationError whose paths include author, topics, type and comments, and never stores anything. |
| Dreams.CatchById | src/controllers/dream-controller.ts:117-121 | That catch block answers every error with 500, because no error the store raises has `id` 'ValidationError'. |
| Dreams.CreateAlwaysInvalid | src/controllers/dream-controller.ts:103-123 | Whatever the body holds, the insertion fails with a ValidationError naming at least author, topics, type and comments. |
| Dreams.Create | src/controllers/dream-controller.ts:103-123 | `POST /dreams` always answers 500 and never changes the store. |
| Dreams.List | src/controllers/dream-controller.ts:40-46 | `GET /dreams` answers with every stored dream. |
| Dreams.Get | src/controllers/dream-controller.ts:57-70 | `GET /dreams/:id` answers 404 'Dream not found' iff the id is absent, and otherwise 200 with that dream. |
| Dreams.Merge | src/controllers/dream-controller.ts:143-154 | The PATCH merge overwrites title and content exactly when the body's value is non-null. It overwrites topics and type exactly when the body's value casts, so a missing or uncastable reference leaves the path as it was. It never changes anonym, author, published or comments. |
| Dreams.Update | src/controllers/dream-controller.ts:134-170 | `PATCH /dreams/:id` answers 404 iff the id is absent. Otherwise it stores the merge and answers 200 iff the merge passes and both references cast, or else answers 400 and leaves the store unchanged. |
| Dreams.Delete | src/controllers/dream-controller.ts:181-194 | `DELETE /dreams/:id` answers 404 iff the id is absent. Otherwise it answers 204 and removes only that dream. |
| Dreams.EmptyPatchKeeps | src/controllers/dream-controller.ts:143-155 | A PATCH with an empty body re-saves a valid dream unchanged, where a PUT would clear its fields. |
| Dreams.PatchIgnoresOtherFields | src/controllers/dream-controller.ts:143-154 | Whatever the body says about author, anonym, published or comments, a PATCH does the same. |
| Dreams.UpdateIdempotent | src/controllers/dream-controller.ts:134-170 | Repeating the same PATCH changes nothing more. |
| Dreams.FailedPatchKeeps | src/controllers/dream-controller.ts:155-167 | A PATCH that cannot save answers 400 and leaves the stored dream exactly as it was. |
| Dreams.HandlersKeepAcceptable | src/models/dream-model.ts:46-82 | Create, delete and PATCH only ever leave dreams that pass the schema in the store. |
| Users.Validate | src/models/user-model.ts:44-63 | A user passes iff the e-mail is filled and matches the pattern, the name is filled, and the password is filled and at least 8 code units long. On each path `required` is tried first. |
| Users.PasswordLength | src/models/user-model.ts:61 | Eight characters always meet `minlength`. Inside the Basic Multilingual Plane the rule is exactly 8 characters, but four characters above it are already long enough. |
| Users.Hashed | src/models/user-model.ts:93-102 | The pre-save hook replaces the password by its hash iff the document is new and the password is non-null. |
| Users.Save | src/models/user-model.ts:43-102 | `save()` succeeds iff the user passes validation (on the plain password), the id is fresh exactly when the document is new, and neither unique index would be violated. A new password is stored hashed, and an existing user is stored as it is. Uniqueness of e-mails and names is preserved. |
| Users.UniqueInsert | src/models/user-model.ts:47-56 | Writing a user that clashes with no other keeps both unique indexes. |
| Users.ResaveKeepsPassword | src/models/user-model.ts:94 | Saving a stored user again never hashes its password a second time. |
| Users.Public | src/models/user-model.ts:58-78 | The default projection keeps e-mail, name, description and avatar, and leaves out password and refresh token. |
| Users.SecretsHidden | src/models/user-model.ts:62-77 | Users that differ only in password or refresh token look the same through the default projection. |
| Users.DreamsOf | src/models/user-model.ts:86-90 | `user.dreams` holds exactly the stored dreams whose author is the user's id. |
| Users.DreamsOfDisjoint | src/models/user-model.ts:86-90 | No dream is listed under two users. |
| Users.DeleteDreamLeavesAuthorList | src/models/user-model.ts:86-90 | Deleting a dream takes it out of its author's `dreams` and changes nothing else there. |
| Server.OnDreams | src/controllers/dream-controller.ts:17-29 | A routed dreams request answers one of the handlers' statuses. Reads and `POST /dreams` leave the dreams unchanged, and `POST /dreams` answers 500. |
| Server.OnTopics | src/controllers/topic-controller.ts:19-23 | A routed topics request answers one of the handlers' statuses, and reads leave the topics unchanged. |
| Server.OnTypes | src/controllers/type-controller.ts:19-23 | A routed types request answers one of the handlers' statuses, and reads leave the types unchanged. |
| Server.Handle | src/services/database-service.ts:18-39 | Each request touches only its own controller's collection, never users or comments. Every reaction request answers 500 because there is no reactions model. Reads change nothing. |
| Server.OnTopicsKeepsAcceptable | src/controllers/topic-controller.ts:19-23 | No routed topics request stores a topic the schema rejects. |
| Server.OnTypesKeepsAcceptable | src/controllers/type-controller.ts:19-23 | No routed types request stores a type the schema rejects. |
| Server.OnDreamsKeepsAcceptable | src/controllers/dream-controller.ts:19-27 | No routed dreams request stores a dream the schema rejects. |
| Server.HandleKeepsConsistent | src/services/database-service.ts:31-40 | No request breaks the store invariants: accepted topics, types and dreams, and unique users. |
| Server.RequestsAreRouted | src/controllers/dream-controller.ts:19-27 | Every modelled request is a registered route of one of the four controllers. |
| Server.UnroutedEndpoints | src/controllers/reaction-controller.ts:19-22 | `GET /reactions/:id` and the comment sub-routes of `/dreams` other than the listing are not registered. |
| Server.DeleteDreamKeepsComments | src/controllers/dream-controller.ts:181-194 | Deleting a dream leaves every comment in place, and a 204 means the dream is gone. |
| Server.CreateTopicStep | src/controllers/topic-controller.ts:52-65 | A valid topic under a fresh id is answered 201, and only the topics change. |
| Server.CreateTypeStep | src/controllers/type-controller.ts:36-49 | A valid type under a fresh id is answered 201, and only the types change. |
| Server.CreateScenario | src/controllers/dream-controller.ts:103-123 | A topic and a type can be created (201, 201), but the dream that would use them is answered 500 and nothing is stored. |

## Left out

- The HTTP plumbing is not modelled. This covers Express routing internals, response bodies, HATEOAS links built from the protocol and host, and the error formatting (`formatErrors`, `translateMongooseValidationError`). A 400 reply carries the raw path-to-error map.
- `getCommentDreamHandler` (`GET /dreams/:id/comments`) is not modelled beyond its route. It is unfinished: after the 404 check it sends no response, and its catch block swallows errors. An absent dream gets its 404, but when the dream is found or the lookup fails the request hangs.
- The commented-out comment routes, and comment handlers in general, are not modelled; only the comment schema is.
- `populate('applications')` adds nothing, because the dream schema has no such path. It is modelled as a no-op.
- The `mongooseToJson` plugin, the `timestamps` and `versionKey` options and `lastConnection`'s date default are not modelled: they are serialisation and clock details.
- Password hashing itself is a parameter (`hash`). The bcrypt call and the parsing of the salt from the environment are foreign calls.
- Users.Public: the default projection omits `lastConnection`, the timestamps and the `id` virtual, because the `User` record does not hold them.
- Users.Save: `refreshToken`'s default `null` is not a separate step. A missing refresh token and a null one are both `None`.
- Users.Save: it validates the full document and assumes the document was loaded with every path. Loaded with the default projection, a user lacks its password, and the mapper then skips both password rules: `required` passes on a path that was neither selected nor modified, and `minlength` ignores an undefined value. Such a document is outside the model.
- There are no user or refresh-token controllers in the modelled code. The refresh-token model and the database connection, disconnection and driver failures are not modelled.
- Store.IdParam: the rules by which a string casts to an ObjectId are left to the driver, as is the text of a cast error.
- Body values of the wrong JSON type are not modelled: a number where a string is expected is cast to a string by the mapper.
- Dreams.NewDream: an explicit `null` for `anonym` or `published` would be stored as null, not defaulted. The model's `None` covers both null and absent, so it applies the default. `POST /dreams` never passes either field, so no handler reaches this case.
- Types.List: only string-valued queries on the declared paths and on undeclared paths are modelled. Query operators (`?name[$ne]=x`) and queries on `_id` or the timestamps are not.
- Types.UnknownPathQuery: says nothing about a top-level key starting with `$`. The mapper passes such a key on to MongoDB as an operator: `?$comment=x` lists every type, and an unknown operator such as `?$foo=x` is refused and answered with 500. Operators are outside the model's query language.
- The asynchronous execution of handlers and any concurrency between requests are not modelled: each request is one atomic step.
- `types/nodejs.d.ts` holds environment declarations only and is not part of this model.

A few facts about the code that the model keeps as they are:

- A dream's `topics` and `comments` are single required references, not lists.
- A user's e-mail is required and unique.
- A dream can never be created.
