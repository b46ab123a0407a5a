/** The token gate that runs before the register, login-sync and fetch
    handlers: it reads the `Authorization` header, cuts the bearer token out
    of it and hands the token to the identity provider. */
module Auth {
  import opened Js
  import opened Text

  const BearerPrefix: string := "Bearer "

  /** The claims of a verified ID token that the handlers read. */
  datatype Identity = Identity(uid: string, name: Value, email: Value, phoneNumber: Value)

  /** The identity provider's token check, passed in: the identity for a
      valid token, `None` when verification fails. */
  type Verifier = string -> Option<Identity>

  /** What the gate decides: refuse with a status, or let the handler run
      with the verified identity. */
  datatype Admission = Denied(status: int) | Admitted(user: Identity)

  /** The header passes the first check: present and starting with the
      bearer prefix. Such a header is never empty, so the separate test for a
      missing or empty header adds nothing. */
  predicate HasBearer(header: Option<string>)
    ensures HasBearer(header) ==> header.Some? && header.value != ""
  {
    header.Some? && StartsWith(header.value, BearerPrefix)
  }

  /** The token the gate extracts: the second part of the header split at
      `"Bearer "`, which is the first part of the text after the prefix split
      the same way. */
  function BearerToken(header: string): (token: string)
    requires StartsWith(header, BearerPrefix)
    ensures token == Split(header[|BearerPrefix|..], BearerPrefix)[0]
  {
    assert Split(header, BearerPrefix) == [[]] + Split(header[|BearerPrefix|..], BearerPrefix);
    Split(header, BearerPrefix)[1]
  }

  /** The extracted token is the text after the leading prefix cut at the
      leftmost further `"Bearer "`: a prefix of that text, with no further
      `"Bearer "` starting inside it, and followed by one when it is shorter
      than the text. It is the whole rest of the header exactly when the rest
      holds no further `"Bearer "`. */
  lemma TokenFollowsPrefix(header: string)
    requires StartsWith(header, BearerPrefix)
    ensures StartsWith(header[|BearerPrefix|..], BearerToken(header))
    ensures forall j :: 0 <= j < |BearerToken(header)| ==> !OccursAt(header[|BearerPrefix|..], BearerPrefix, j)
    ensures BearerToken(header) != header[|BearerPrefix|..] ==>
              OccursAt(header[|BearerPrefix|..], BearerPrefix, |BearerToken(header)|)
    ensures !Occurs(BearerToken(header), BearerPrefix)
    ensures BearerToken(header) == header[|BearerPrefix|..] <==> !Occurs(header[|BearerPrefix|..], BearerPrefix)
  {
    var rest := header[|BearerPrefix|..];
    assert Split(header, BearerPrefix) == [[]] + Split(rest, BearerPrefix);
    SplitFirstCut(rest, BearerPrefix);
    SplitFirstPart(rest, BearerPrefix);
  }

  /** The gate: 401 without a bearer header, 403 when the provider rejects
      the token, otherwise the verified identity. */
  function Authenticate(header: Option<string>, verify: Verifier): (a: Admission)
    ensures a == Denied(401) <==> !HasBearer(header)
    ensures a == Denied(403) <==> HasBearer(header) && verify(BearerToken(header.value)).None?
    ensures a.Denied? ==> a.status == 401 || a.status == 403
    ensures a.Admitted? ==> HasBearer(header) && verify(BearerToken(header.value)) == Some(a.user)
  {
    if !HasBearer(header) then Denied(401)
    else
      match verify(BearerToken(header.value))
      case None => Denied(403)
      case Some(user) => Admitted(user)
  }
}
