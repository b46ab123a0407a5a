/** The `/users` router as an object: it holds the `users` collection and the
    identity provider's token check, and each route is a method that runs
    the gate and the handler step by step against the collection it holds. */
module Router {
  import opened Js
  import opened Auth
  import opened Records
  import opened Handlers

  class UsersRouter {
    /** The `users` collection. */
    var users: Table
    /** The identity provider; injected rather than looked up globally. */
    const verifyIdToken: Verifier

    constructor (initial: Table, verifier: Verifier)
      ensures users == initial && verifyIdToken == verifier
    {
      users := initial;
      verifyIdToken := verifier;
    }

    /** `POST /register`. */
    method Register(authorization: Option<string>, body: RegisterBody, now: int) returns (response: Response)
      modifies this
      ensures Outcome(response, users) == RegisterRoute(old(users), authorization, verifyIdToken, body, now)
    {
      var admission := Authenticate(authorization, verifyIdToken);
      if admission.Denied? {
        return Failure(admission.status);
      }
      var user := admission.user;
      if !Owns(user, body.uid) {
        return Failure(403);
      }
      if user.uid in users {
        return Failure(409);
      }
      users := users[user.uid := RegisteredRecord(body, now)];
      response := Success(201);
    }

    /** `POST /auth`: create the profile on first login, merge it afterwards. */
    method Sync(authorization: Option<string>, body: SyncBody, now: int) returns (response: Response)
      modifies this
      ensures Outcome(response, users) == SyncRoute(old(users), authorization, verifyIdToken, body, now)
    {
      var admission := Authenticate(authorization, verifyIdToken);
      if admission.Denied? {
        return Failure(admission.status);
      }
      var user := admission.user;
      if !Owns(user, body.uid) {
        return Failure(403);
      }
      if user.uid !in users {
        var created := CreatedOnLogin(body, user, now);
        if !Storable(created) {
          return Failure(500);
        }
        users := users[user.uid := created];
        return Success(200);
      }
      var merged := MergedOnLogin(users[user.uid], body, now);
      if !MergeStorable(merged) {
        return Failure(500);
      }
      users := users[user.uid := merged];
      response := Success(200);
    }

    /** `GET /:uid`: reads only. */
    method Fetch(authorization: Option<string>, uid: string) returns (response: Response)
      ensures response == FetchRoute(users, authorization, verifyIdToken, uid)
      ensures response.status == 200 ==> uid in users && response.data == Some(users[uid])
    {
      var admission := Authenticate(authorization, verifyIdToken);
      if admission.Denied? {
        return Failure(admission.status);
      }
      if admission.user.uid != uid {
        return Failure(403);
      }
      if uid !in users {
        return Failure(404);
      }
      response := Response(200, true, Some(users[uid]));
    }

    /** `POST /verify`: no gate. */
    method Verify(uid: Value) returns (response: Response)
      modifies this
      ensures Outcome(response, users) == Handlers.Verify(old(users), uid)
    {
      if !Truthy(uid) {
        return Failure(400);
      }
      if uid.s !in users {
        return Failure(404);
      }
      users := users[uid.s := users[uid.s].(isVerified := true)];
      response := Success(200);
    }
  }

  /** The register, fetch, verify walk-through for one user, driven through
      the router's methods with a provider that accepts a single token. */
  method RegisterFetchVerifyScenario(now: int)
  {
    var ana := Identity("u1", Undefined, Str("a@x.com"), Undefined);
    var router := new UsersRouter(map[], (token: string) => if token == "t1" then Some(ana) else None);
    var header := Some("Bearer t1");
    assert header.value[..|BearerPrefix|] == BearerPrefix;
    Auth.TokenFollowsPrefix(header.value);
    assert !Text.Occurs(header.value[|BearerPrefix|..], BearerPrefix) by {
      forall i ensures !Text.OccursAt("t1", BearerPrefix, i) { }
    }
    assert BearerToken(header.value) == "t1";

    var body := RegisterBody(Str("u1"), Str("Ana"), Undefined, Undefined, Undefined, Undefined,
                             Undefined, Undefined, Undefined, Str("a@x.com"), Undefined);
    var r := router.Register(header, body, now);
    assert r.status == 201;

    r := router.Fetch(header, "u1");
    assert r.status == 200;
    assert r.data.value.name == Str("Ana") && r.data.value.email == Str("a@x.com");
    assert r.data.value.phone == Null && !r.data.value.isVerified;

    r := router.Register(header, body, now + 1);
    assert r.status == 409;

    assert "Basic t1"[..|BearerPrefix|][1] != BearerPrefix[1];
    r := router.Fetch(Some("Basic t1"), "u1");
    assert r.status == 401;

    r := router.Verify(Str("u1"));
    assert r.status == 200;
    r := router.Fetch(header, "u1");
    assert r.status == 200 && r.data.value.isVerified;
  }

  /** The two-login walk-through: the first sync creates the profile from the
      token's claims, the second replaces the email and keeps the name. */
  method SyncTwiceScenario(now: int)
  {
    var budi := Identity("u2", Str("Budi"), Str("old@x.com"), Undefined);
    var router := new UsersRouter(map[], (token: string) => if token == "t2" then Some(budi) else None);
    var header := Some("Bearer t2");
    assert header.value[..|BearerPrefix|] == BearerPrefix;
    Auth.TokenFollowsPrefix(header.value);
    assert !Text.Occurs(header.value[|BearerPrefix|..], BearerPrefix) by {
      forall i ensures !Text.OccursAt("t2", BearerPrefix, i) { }
    }

    var r := router.Sync(header, SyncBody(Str("u2"), Undefined, Undefined, Undefined), now);
    assert r.status == 200;
    assert router.users["u2"].name == Str("Budi") && router.users["u2"].phone == Null;

    r := router.Sync(header, SyncBody(Str("u2"), Str("new@x.com"), Undefined, Undefined), now + 1);
    assert r.status == 200;
    assert router.users["u2"].email == Str("new@x.com") && router.users["u2"].name == Str("Budi");
    assert router.users["u2"].createdAt == now && router.users["u2"].lastLogin == now + 1;

    r := router.Sync(header, SyncBody(Str("u3"), Undefined, Undefined, Undefined), now + 2);
    assert r.status == 403;
  }
}
