/** The four `/users` routes as functions over the `users` collection: each
    takes the collection before the request and gives the response and the
    collection after it. Each request is handled atomically. */
module Handlers {
  import opened Js
  import opened Auth
  import opened Records

  /** The `users` collection: document id to document. */
  type Table = map<string, UserRecord>

  /** A JSON response: status code, its `success` flag, and the document a
      fetch returns. */
  datatype Response = Response(status: int, success: bool, data: Option<UserRecord>)

  datatype Outcome = Outcome(response: Response, users: Table)

  function Failure(status: int): Response { Response(status, false, None) }

  function Success(status: int): Response { Response(status, true, None) }

  /** The ownership check: the verified identity's uid equals the uid the
      request acts on. */
  predicate Owns(user: Identity, uid: Value)
    ensures Owns(user, uid) <==> uid.Str? && uid.s == user.uid
    ensures uid.Undefined? || uid.Null? ==> !Owns(user, uid)
  {
    uid == Str(user.uid)
  }

  /** `POST /register` once the gate has admitted `user`: 403 on an ownership
      mismatch, 409 when the document already exists, otherwise 201 and the
      one new document. */
  function Register(t: Table, user: Identity, b: RegisterBody, now: int): (o: Outcome)
    ensures o.response.status == 201 || o.response.status == 403 || o.response.status == 409
    ensures o.response.success <==> o.response.status == 201
    ensures o.response.data.None?
    ensures o.response.status == 403 <==> !Owns(user, b.uid)
    ensures o.response.status == 409 <==> Owns(user, b.uid) && user.uid in t
    ensures o.response.status != 201 ==> o.users == t
    ensures o.response.status == 201 ==>
              user.uid !in t && o.users == t[user.uid := RegisteredRecord(b, now)]
  {
    if !Owns(user, b.uid) then Outcome(Failure(403), t)
    else if user.uid in t then Outcome(Failure(409), t)
    else Outcome(Success(201), t[user.uid := RegisteredRecord(b, now)])
  }

  /** `POST /auth` once the gate has admitted `user`: 403 on an ownership
      mismatch; otherwise the profile is created or merged and the answer is
      200, unless Firestore rejects an `undefined` field, which the handler
      reports as 500 with nothing written. */
  function Sync(t: Table, user: Identity, b: SyncBody, now: int): (o: Outcome)
    ensures o.response.status == 200 || o.response.status == 403 || o.response.status == 500
    ensures o.response.success <==> o.response.status == 200
    ensures o.response.data.None?
    ensures o.response.status == 403 <==> !Owns(user, b.uid)
    ensures o.response.status != 200 ==> o.users == t
    ensures o.response.status == 500 <==>
              Owns(user, b.uid) &&
              if user.uid in t then !MergeStorable(MergedOnLogin(t[user.uid], b, now))
              else !Storable(CreatedOnLogin(b, user, now))
    ensures o.response.status == 200 && user.uid !in t ==>
              o.users == t[user.uid := CreatedOnLogin(b, user, now)]
    ensures o.response.status == 200 && user.uid in t ==>
              o.users == t[user.uid := MergedOnLogin(t[user.uid], b, now)]
  {
    if !Owns(user, b.uid) then Outcome(Failure(403), t)
    else if user.uid !in t then
      var created := CreatedOnLogin(b, user, now);
      if Storable(created) then Outcome(Success(200), t[user.uid := created])
      else Outcome(Failure(500), t)
    else
      var merged := MergedOnLogin(t[user.uid], b, now);
      if MergeStorable(merged) then Outcome(Success(200), t[user.uid := merged])
      else Outcome(Failure(500), t)
  }

  /** `GET /:uid` once the gate has admitted `user`: 403 on an ownership
      mismatch, 404 for a missing document, otherwise 200 with exactly the
      stored document. */
  function Fetch(t: Table, user: Identity, uid: string): (r: Response)
    ensures r.status == 200 || r.status == 403 || r.status == 404
    ensures r.success <==> r.status == 200
    ensures r.status == 403 <==> user.uid != uid
    ensures r.status == 404 <==> user.uid == uid && uid !in t
    ensures r.status == 200 ==> uid in t && r.data == Some(t[uid])
    ensures r.status != 200 ==> r.data.None?
  {
    if user.uid != uid then Failure(403)
    else if uid !in t then Failure(404)
    else Response(200, true, Some(t[uid]))
  }

  /** `POST /verify`, which has no gate: 400 without a uid, 404 for a missing
      document, otherwise 200 and that document's `isVerified` set to true,
      nothing else changed. */
  function Verify(t: Table, uid: Value): (o: Outcome)
    ensures o.response.status == 200 || o.response.status == 400 || o.response.status == 404
    ensures o.response.success <==> o.response.status == 200
    ensures o.response.data.None?
    ensures o.response.status == 400 <==> !Truthy(uid)
    ensures o.response.status == 404 <==> Truthy(uid) && uid.s !in t
    ensures o.response.status != 200 ==> o.users == t
    ensures o.response.status == 200 ==>
              uid.s in t && o.users == t[uid.s := t[uid.s].(isVerified := true)]
  {
    if !Truthy(uid) then Outcome(Failure(400), t)
    else if uid.s !in t then Outcome(Failure(404), t)
    else Outcome(Success(200), t[uid.s := t[uid.s].(isVerified := true)])
  }

  // The three gated routes: the gate, then the handler.

  /** `POST /register` behind the gate: 401 without a bearer header, 403 for
      a rejected token or another user's uid, and a write only for an
      admitted owner whose document does not exist yet. */
  function RegisterRoute(t: Table, header: Option<string>, verify: Verifier, b: RegisterBody, now: int): (o: Outcome)
    ensures o.response.status == 401 <==> !HasBearer(header)
    ensures o.response.status == 403 <==>
              HasBearer(header) &&
              (verify(BearerToken(header.value)).None? || !Owns(verify(BearerToken(header.value)).value, b.uid))
    ensures o.response.status != 201 ==> o.users == t
    ensures o.response.status == 201 ==>
              HasBearer(header) && verify(BearerToken(header.value)).Some? &&
              var user := verify(BearerToken(header.value)).value;
              Owns(user, b.uid) && user.uid !in t && o.users == t[user.uid := RegisteredRecord(b, now)]
  {
    match Authenticate(header, verify)
    case Denied(status) => Outcome(Failure(status), t)
    case Admitted(user) => Register(t, user, b, now)
  }

  /** `POST /auth` behind the gate: 401 without a bearer header, 403 for a
      rejected token or another user's uid, and on 200 exactly one document
      written, the caller's own. */
  function SyncRoute(t: Table, header: Option<string>, verify: Verifier, b: SyncBody, now: int): (o: Outcome)
    ensures o.response.status == 401 <==> !HasBearer(header)
    ensures o.response.status == 403 <==>
              HasBearer(header) &&
              (verify(BearerToken(header.value)).None? || !Owns(verify(BearerToken(header.value)).value, b.uid))
    ensures o.response.status != 200 ==> o.users == t
    ensures o.response.status == 200 ==>
              HasBearer(header) && verify(BearerToken(header.value)).Some? &&
              var user := verify(BearerToken(header.value)).value;
              Owns(user, b.uid) && user.uid in o.users && o.users == t[user.uid := o.users[user.uid]]
  {
    match Authenticate(header, verify)
    case Denied(status) => Outcome(Failure(status), t)
    case Admitted(user) => Sync(t, user, b, now)
  }

  /** `GET /:uid` behind the gate: 401 without a bearer header, and a
      document only for the admitted owner of that uid. */
  function FetchRoute(t: Table, header: Option<string>, verify: Verifier, uid: string): (r: Response)
    ensures r.status == 401 <==> !HasBearer(header)
    ensures r.status == 403 <==>
              HasBearer(header) &&
              (verify(BearerToken(header.value)).None? || verify(BearerToken(header.value)).value.uid != uid)
    ensures r.status == 200 ==>
              HasBearer(header) && verify(BearerToken(header.value)).Some? &&
              verify(BearerToken(header.value)).value.uid == uid && uid in t && r.data == Some(t[uid])
    ensures r.status != 200 ==> r.data.None?
  {
    match Authenticate(header, verify)
    case Denied(status) => Failure(status)
    case Admitted(user) => Fetch(t, user, uid)
  }

  /** When the gate refuses, no handler runs: every gated route answers 401
      or 403 and leaves the collection as it was. */
  lemma GateStopsHandlers(t: Table, header: Option<string>, verify: Verifier,
                          rb: RegisterBody, sb: SyncBody, uid: string, now: int)
    requires Authenticate(header, verify).Denied?
    ensures var status := if HasBearer(header) then 403 else 401;
            && RegisterRoute(t, header, verify, rb, now) == Outcome(Failure(status), t)
            && SyncRoute(t, header, verify, sb, now) == Outcome(Failure(status), t)
            && FetchRoute(t, header, verify, uid) == Failure(status)
  {
  }

  /** Registering twice with the same uid: 201, then 409, and the collection
      after both calls is the collection after the first. */
  lemma RegisterTwice(t: Table, user: Identity, b1: RegisterBody, b2: RegisterBody, now1: int, now2: int)
    requires Owns(user, b1.uid) && Owns(user, b2.uid) && user.uid !in t
    ensures var first := Register(t, user, b1, now1);
            var second := Register(first.users, user, b2, now2);
            && first.response.status == 201
            && second.response.status == 409
            && second.users == first.users
  {
  }

  /** Fetching right after a successful registration returns 200 with
      exactly the registered document: every supplied field (empty ones as
      null), unverified, created and last logged in now. */
  lemma FetchAfterRegister(t: Table, user: Identity, b: RegisterBody, now: int)
    requires Register(t, user, b, now).response.status == 201
    ensures var r := Fetch(Register(t, user, b, now).users, user, user.uid);
            r.status == 200 && r.data == Some(RegisteredRecord(b, now))
  {
  }

  /** Verifying and then fetching shows the document with `isVerified` set
      and every other field as before. */
  lemma FetchAfterVerify(t: Table, user: Identity)
    requires user.uid != "" && user.uid in t
    ensures var after := Verify(t, Str(user.uid)).users;
            var r := Fetch(after, user, user.uid);
            r.status == 200 && r.data == Some(t[user.uid].(isVerified := true))
  {
  }

  /** A login sync on a known user never clears a stored name, email or
      phone, keeps the verification flag and the creation time, and moves
      the last-login time to now. */
  lemma SyncKeepsProfile(t: Table, user: Identity, b: SyncBody, now: int)
    requires user.uid in t
    requires Sync(t, user, b, now).response.status == 200
    ensures var before := t[user.uid];
            var after := Sync(t, user, b, now).users[user.uid];
            && (Truthy(before.name) ==> Truthy(after.name))
            && (Truthy(before.email) ==> Truthy(after.email))
            && (Truthy(before.phone) ==> Truthy(after.phone))
            && after.isVerified == before.isVerified
            && after.createdAt == before.createdAt
            && after.lastLogin == now
  {
  }

  /** A first login whose body and token both lack an email is turned down
      with 500 and creates nothing: the profile would carry an `undefined`
      email, which Firestore refuses. */
  lemma FirstSyncWithoutEmail(t: Table, user: Identity, b: SyncBody, now: int)
    requires Owns(user, b.uid) && user.uid !in t
    requires !Truthy(b.email) && user.email.Undefined?
    ensures Sync(t, user, b, now) == Outcome(Failure(500), t)
  {
  }

  /** Every document in the collection is one Firestore could have written:
      no field is `undefined`. */
  ghost predicate WellFormed(t: Table) {
    forall k :: k in t ==> Storable(t[k])
  }

  /** On a well-formed collection the login merge is never refused. */
  lemma SyncMergeAccepted(t: Table, user: Identity, b: SyncBody, now: int)
    requires WellFormed(t) && Owns(user, b.uid) && user.uid in t
    ensures Sync(t, user, b, now).response.status == 200
  {
  }

  // Sequences of requests.

  /** One request. Each gated request carries the provider's answer at the
      time it arrives, so a token may be accepted by one request and
      refused by a later one. */
  datatype Request =
    | RegisterRequest(header: Option<string>, verify: Verifier, registerBody: RegisterBody, now: int)
    | SyncRequest(header: Option<string>, verify: Verifier, syncBody: SyncBody, now: int)
    | FetchRequest(header: Option<string>, verify: Verifier, uid: string)
    | VerifyRequest(verifyUid: Value)

  /** The request acts on document `k`: its body's uid, or the uid to verify. */
  predicate Names(req: Request, k: string) {
    match req
    case RegisterRequest(_, _, b, _) => b.uid == Str(k)
    case SyncRequest(_, _, b, _) => b.uid == Str(k)
    case FetchRequest(_, _, _) => false
    case VerifyRequest(uid) => uid == Str(k)
  }

  /** One request: a fetch writes nothing, and no request creates, deletes
      or changes a document other than the one it names. */
  function Handle(t: Table, req: Request): (o: Outcome)
    ensures req.FetchRequest? ==> o.users == t
    ensures forall k :: !Names(req, k) ==> (k in t <==> k in o.users) && (k in t ==> o.users[k] == t[k])
  {
    match req
    case RegisterRequest(header, verify, b, now) => RegisterRoute(t, header, verify, b, now)
    case SyncRequest(header, verify, b, now) => SyncRoute(t, header, verify, b, now)
    case FetchRequest(header, verify, uid) => Outcome(FetchRoute(t, header, verify, uid), t)
    case VerifyRequest(uid) => Verify(t, uid)
  }

  /** The collection after handling `reqs` one after the other. A document
      that no request names is exactly as it was. */
  function Replay(t: Table, reqs: seq<Request>): (r: Table)
    ensures forall k :: (forall i :: 0 <= i < |reqs| ==> !Names(reqs[i], k)) ==>
              (k in t <==> k in r) && (k in t ==> r[k] == t[k])
    decreases |reqs|
  {
    if |reqs| == 0 then t else Replay(Handle(t, reqs[0]).users, reqs[1..])
  }

  /** `t2` is a possible later state of `t1`: no document has disappeared,
      none has a different creation time, and none has lost its
      verification. */
  ghost predicate Evolves(t1: Table, t2: Table) {
    forall k :: k in t1 ==>
      && k in t2
      && t2[k].createdAt == t1[k].createdAt
      && (t1[k].isVerified ==> t2[k].isVerified)
  }

  /** The laws one request keeps: `t2` evolves from `t`, documents it
      creates are unverified, only `POST /verify` for that very uid turns a
      document's verification on, and a well-formed collection stays well
      formed. */
  ghost predicate StepLaws(t: Table, t2: Table, req: Request) {
    && Evolves(t, t2)
    && (forall k :: k in t2 && k !in t ==> !t2[k].isVerified)
    && (forall k :: k in t && k in t2 && !t[k].isVerified && t2[k].isVerified ==>
                       req.VerifyRequest? && Names(req, k))
    && (WellFormed(t) ==> WellFormed(t2))
  }

  /** A register request keeps the step laws, changes no existing
      document, and creates only the document its body names. */
  lemma RegisterRouteLaws(t: Table, verify: Verifier, header: Option<string>, b: RegisterBody, now: int)
    ensures StepLaws(t, RegisterRoute(t, header, verify, b, now).users, RegisterRequest(header, verify, b, now))
    ensures forall k :: k in t ==>
              k in RegisterRoute(t, header, verify, b, now).users &&
              RegisterRoute(t, header, verify, b, now).users[k] == t[k]
    ensures forall k :: k in RegisterRoute(t, header, verify, b, now).users && k !in t ==> b.uid == Str(k)
  {
  }

  /** A sync request keeps the step laws. */
  lemma SyncRouteLaws(t: Table, verify: Verifier, header: Option<string>, b: SyncBody, now: int)
    ensures StepLaws(t, SyncRoute(t, header, verify, b, now).users, SyncRequest(header, verify, b, now))
  {
  }

  /** A verify request keeps the step laws, creates and deletes nothing, and
      changes no field but `isVerified`, and that only for the uid it names. */
  lemma VerifyLaws(t: Table, uid: Value)
    ensures StepLaws(t, Verify(t, uid).users, VerifyRequest(uid))
    ensures Verify(t, uid).users.Keys == t.Keys
    ensures forall k :: k in t ==>
              Verify(t, uid).users[k] == t[k].(isVerified := Verify(t, uid).users[k].isVerified)
    ensures forall k :: k in t && uid != Str(k) ==> Verify(t, uid).users[k] == t[k]
  {
  }

  /** One request of any kind keeps the step laws. */
  lemma HandleEvolves(t: Table, req: Request)
    ensures StepLaws(t, Handle(t, req).users, req)
  {
    match req
    case RegisterRequest(header, verify, b, now) => RegisterRouteLaws(t, verify, header, b, now);
    case SyncRequest(header, verify, b, now) => SyncRouteLaws(t, verify, header, b, now);
    case FetchRequest(_, _, _) =>
    case VerifyRequest(uid) => VerifyLaws(t, uid);
  }

  /** Across any sequence of requests no document is ever deleted, its
      creation time never changes and `isVerified` never goes from true back
      to false; a well-formed collection stays well formed. */
  lemma {:induction false} ReplayEvolves(t: Table, reqs: seq<Request>)
    ensures Evolves(t, Replay(t, reqs))
    ensures WellFormed(t) ==> WellFormed(Replay(t, reqs))
    decreases |reqs|
  {
    if |reqs| != 0 {
      var t1 := Handle(t, reqs[0]).users;
      HandleEvolves(t, reqs[0]);
      ReplayEvolves(t1, reqs[1..]);
    }
  }
}
