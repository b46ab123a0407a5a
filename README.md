# Users routes: bearer-token gate and user-profile collection

This project models the user-profile backend of the TIDAR web app in Dafny.
That backend is an Express router holding four routes over a Firestore
collection `users`, with one document per user id:

- `POST /register` creates a profile.
- `POST /auth` syncs the profile at login.
- `GET /:uid` fetches a profile.
- `POST /verify` marks a profile as verified; this is the admin route.

The first three run behind a gate. The gate reads the `Authorization`
header, cuts out the bearer token and asks the identity provider to verify it.

The model has six modules:

- `Js` models the JavaScript values the handlers see: `undefined`, `null` or
  a string. It also gives truthiness and the `||` operator used for every
  default.
- `Text` models `startsWith` and `split` with a separator string. It proves
  that splitting loses nothing (split then join gives the string back). It
  also proves that the first part is the string cut at the leftmost
  separator, or the whole string when there is none.
- `Auth` models the gate. The gate refuses with 401 without a `Bearer `
  header and with 403 when the provider rejects the token.
- `Records` holds the document, the request bodies and the three field
  computations:
  - the registered document (`x || null` on every field);
  - the profile created at first login (body, then token claims, then the
    `"Nama Pengguna"` placeholder);
  - the merge at a later login, field by field `new || old`.
- `Handlers` has one function per route, from the collection before to the
  response and the collection after. It also holds the lemmas that relate
  several calls, up to arbitrary sequences of requests.
- `Router` has the class `UsersRouter`. It holds the collection as a `map`
  field and the provider as an injected function. Its methods run each
  route step by step and are proved equal to the `Handlers` functions.

Modelling decisions:

- The identity provider is an uninterpreted parameter
  `verify: string -> Option<Identity>`.
- `serverTimestamp()` is a `now: int` argument.
- Firestore is the map. It rejects a written `undefined` value, as it does
  with the default settings that `backend/server.js` uses. The handler's
  `catch` turns that rejection into a 500, and the model writes nothing in
  that case. Only the login sync can hit this, so it is the only route
  with a 500 outcome.

Where the code and a plain reading of it differ, the model follows the code:

- The token is `header.split('Bearer ')[1]`. That is the text after the
  prefix up to any further `"Bearer "`, not always the whole rest.
  `Auth.TokenFollowsPrefix` proves the two agree exactly when the rest
  holds no further `"Bearer "`.
- A first login whose body and token both lack an email writes
  `email: undefined`. Firestore refuses that, so the route answers 500
  (`Handlers.FirstSyncWithoutEmail`).
- The merge stores null when the body has no phone and the stored phone is
  the empty string. This comes from `phone || old || null`.

## Model

| member | source | states |
|---|---|---|
| Js.Truthy | backend/routes/users.js:12 | The JavaScript truthiness behind `!authHeader`, `!uid` (line 149) and every `\|\|`: of these values, exactly `undefined`, `null` and `""` are falsy. |
| Js.Or | backend/routes/users.js:47-57 | `a \|\| b` is a or b. It is truthy iff either operand is, and it is a whenever a is truthy. |
| Text.StartsWith | backend/routes/users.js:12 | `s.startsWith(prefix)`: `s` is at least as long as `prefix` and is `prefix` followed by the rest of `s`. |
| Text.Split | backend/routes/users.js:16 | `s.split(sep)` always has at least one part, so the token's index is defined once the prefix has matched. |
| Text.SplitJoin | backend/routes/users.js:16 | Joining the parts of `s.split(sep)` with `sep` gives back `s`. |
| Text.SplitFirstCut | backend/routes/users.js:16 | The first part of a split is a prefix of the string. No separator starts inside it, and when it is shorter than the string a separator starts right after it. So it is the string cut at the leftmost separator. |
| Text.SplitFirstPart | backend/routes/users.js:16 | The first part of a split holds no separator. It is the whole string iff the string holds no separator. |
| Auth.HasBearer | backend/routes/users.js:12 | A header that passes the `startsWith('Bearer ')` test is present and non-empty, so `!authHeader` rejects nothing more. |
| Auth.BearerToken | backend/routes/users.js:16 | `header.split('Bearer ')[1]` is the first part of the text after the prefix, split at `"Bearer "`. |
| Auth.TokenFollowsPrefix | backend/routes/users.js:12-16 | The extracted token is the text after `"Bearer "`, cut at the leftmost further `"Bearer "`. It is a prefix of that text, no further `"Bearer "` starts inside it, and when it is shorter a `"Bearer "` starts right after it. It is all of that text iff the text holds no further `"Bearer "`. |
| Auth.Authenticate | backend/routes/users.js:10-27 | 401 iff the header is missing or lacks the `Bearer ` prefix. 403 iff the provider rejects the extracted token. Otherwise the identity is the one the provider returned for that token. |
| Records.Storable | backend/routes/users.js:113-116 | Firestore accepts a full document exactly when none of its fields is `undefined`; the handler's `catch` turns a refusal into the 500. A storable document's merge fields are storable too. |
| Records.MergeStorable | backend/routes/users.js:105-116 | Firestore accepts the login `update` exactly when name, email and phone are not `undefined`; otherwise the `catch` answers 500. |
| Records.RegisteredRecord | backend/routes/users.js:46-62 | Each profile field is the supplied value when non-empty, else null, and no field is `undefined`. The document is unverified, with createdAt = lastLogin = now. |
| Records.CreatedOnLogin | backend/routes/users.js:86-102 | name is the body's, else the claim's, else "Nama Pengguna", and never blank. email is the body's, else the claim's. phone is the body's, else the claim's, else null. Address and birth fields are null, the document is unverified and created now. The document is writable iff it has an email from the body or a defined email claim. |
| Records.MergedOnLogin | backend/routes/users.js:105-110 | lastLogin = now. name, email and phone take the body's non-empty value, else the stored one (phone falls back to null). A stored non-empty value is never cleared. isVerified, createdAt, address and birth fields are unchanged. |
| Handlers.Owns | backend/routes/users.js:36 | `req.user.uid !== uid` negated (also lines 78 and 126): the uid is a string equal to the verified uid. A missing or null uid never matches. |
| Handlers.Register | backend/routes/users.js:30-69 | 403 iff uid mismatch. 409 iff the document exists. Otherwise 201 and exactly one new entry, the registered document. Every non-201 leaves the collection unchanged. |
| Handlers.Sync | backend/routes/users.js:72-117 | 403 iff uid mismatch. 500 iff the document to write holds `undefined`. Otherwise 200, with the profile created when absent or merged when present. Every non-200 leaves the collection unchanged. |
| Handlers.Fetch | backend/routes/users.js:120-141 | 403 iff uid mismatch. 404 iff absent. Otherwise 200 with exactly the stored document. It returns no collection, so it cannot change it. |
| Handlers.Verify | backend/routes/users.js:144-167 | 400 iff the uid is missing or empty. 404 iff absent. Otherwise 200, and only that document's isVerified becomes true. |
| Handlers.RegisterRoute | backend/routes/users.js:10-69 | 401 iff no bearer header. 403 iff the token is rejected or the body's uid is not the caller's. A 201 requires an admitted owner with no document yet, and adds exactly the registered document. Every other answer leaves the collection unchanged. |
| Handlers.SyncRoute | backend/routes/users.js:72-117 | 401 iff no bearer header. 403 iff the token is rejected or the body's uid is not the caller's. A 200 requires an admitted owner and writes exactly one document, the caller's. Every other answer leaves the collection unchanged. |
| Handlers.FetchRoute | backend/routes/users.js:120-141 | 401 iff no bearer header. 403 iff the token is rejected or names another uid. A 200 requires the admitted owner and a stored document, and returns exactly that document. |
| Handlers.GateStopsHandlers | backend/routes/users.js:11-25 | When the gate refuses, register, sync and fetch answer 401 (no bearer header) or 403 (bad token) and leave the collection unchanged. |
| Handlers.RegisterTwice | backend/routes/users.js:40-64 | Two registrations of a new uid give 201 then 409. The collection after both equals the collection after the first. |
| Handlers.FetchAfterRegister | backend/routes/users.js:46-62 | A fetch right after a 201 registration returns 200 with exactly the registered document. |
| Handlers.FetchAfterVerify | backend/routes/users.js:160 | After verify, a fetch returns the same document with isVerified true. |
| Handlers.SyncKeepsProfile | backend/routes/users.js:105-110 | A sync of a known user never clears name, email or phone, and keeps isVerified and createdAt. It sets lastLogin to now. |
| Handlers.FirstSyncWithoutEmail | backend/routes/users.js:86-92 | A first login with no email in the body or the token answers 500 and creates nothing. |
| Handlers.SyncMergeAccepted | backend/routes/users.js:105-110 | On a collection with no `undefined` field, the login merge of an owner always answers 200. |
| Handlers.Handle | backend/routes/users.js:30-167 | A fetch request writes nothing. No request creates, deletes or changes any document other than the one it names (its body's uid, or the uid to verify). |
| Handlers.Replay | backend/routes/users.js:30-167 | After any sequence of requests, a document that no request names is exactly as it was. |
| Handlers.RegisterRouteLaws | backend/routes/users.js:30-69 | A register request (gate included) deletes nothing and leaves every existing document exactly as it was. It creates only the unverified document its body names, and keeps the collection free of `undefined` fields. |
| Handlers.SyncRouteLaws | backend/routes/users.js:72-117 | A sync request (gate included) deletes nothing and changes no createdAt or isVerified. It creates only an unverified document and keeps the collection free of `undefined` fields. |
| Handlers.VerifyLaws | backend/routes/users.js:144-167 | A verify request keeps the set of ids. It changes no field but isVerified, changes no document but the one it names, never turns isVerified off, and turns it on only for the uid it names. |
| Handlers.HandleEvolves | backend/routes/users.js:30-167 | Any one request deletes no document and changes no createdAt. It never turns isVerified off, and creates only unverified documents. Only `/verify` for that uid turns isVerified on. It keeps the collection free of `undefined` fields. |
| Handlers.ReplayEvolves | backend/routes/users.js:30-167 | Over any sequence of requests, no document disappears, createdAt never changes and isVerified never goes from true to false. |
| Router.UsersRouter.constructor | backend/routes/users.js:4 | The router starts with the given collection and the injected provider. |
| Router.UsersRouter.Register | backend/routes/users.js:30-69 | Response and new collection are those of the gate followed by `Handlers.Register`, computed in place. |
| Router.UsersRouter.Sync | backend/routes/users.js:72-117 | Response and new collection are those of the gate followed by `Handlers.Sync`, computed in place. |
| Router.UsersRouter.Fetch | backend/routes/users.js:120-141 | Response is that of the gate followed by `Handlers.Fetch`. A 200 carries exactly the stored document. It modifies nothing. |
| Router.UsersRouter.Verify | backend/routes/users.js:144-167 | Response and new collection are those of `Handlers.Verify`, computed in place. |

## Left out

- Identity-provider token verification: a parameter with no interpretation. Token expiry and revocation are its business. In a replayed sequence each gated request carries the provider's answer at its own time, so a token can pass one request and fail a later one.
- Router.UsersRouter: the provider is one fixed function for the router's lifetime. A token that expires between two method calls cannot be expressed there; `Handlers.Replay` covers that case.
- Firestore's path handling. The flat map is keyed by the raw id string; `doc(id)` is not modelled. That call drops empty segments at either end of the path, so ids that differ only in a leading or trailing `/` (`"u1"`, `"u1/"`, `"/u1"`) name the same document, while the map treats them as different keys. An empty id or one holding `//` makes it throw, and so does a path with an odd number of non-empty segments. An interior `/` names a document in a nested collection. None of these 500s, and none of this aliasing, is modelled.
- Firestore beyond a map: network failures and their 500s, and the `serverTimestamp` sentinel, which is an integer `now` here.
- The 500s of `register`, `/:uid` and `/verify` come from collaborator failures only. They are not modelled, so those routes never answer 500 here.
- Request bodies hold only strings, `null` or absent fields. Numbers, booleans and objects in a body are not modelled, and neither is the JavaScript truthiness of those values.
- A document stored by some other writer is modelled with all fields, each possibly absent (`Undefined`). A missing or non-boolean `isVerified` and non-numeric timestamps are not modelled.
- Concurrency: each request is atomic. The await between `get()` and `set()`/`update()`, and the two-registrations race it allows, are not modelled.
- Response message texts, `console.error` logging, Express path matching and the `req`/`res` objects are not modelled. A response is its status, its `success` flag and any fetched document.
- `backend/server.js` (SDK initialisation, CORS, static files, `listen`) is process bootstrap, not part of this model.
