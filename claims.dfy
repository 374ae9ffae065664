/** The decoded payload of a JSON Web Token as the components read it. The
    signature is never checked on the client; decoding (`atob` +
    `JSON.parse`, or `jwtDecode`) is outside the model and arrives as a
    `Result`. */
module Claims {
  import opened Js

  /** The claim the server's identity library uses for the subject id. */
  const NameIdentifier := "http://schemas.xmlsoap.org/ws/2005/05/identity/claims/nameidentifier"

  /** A decoded payload: its string-valued claims, and the numeric `exp`
      claim (section 4.1.4 of RFC 7519) in seconds since the epoch. */
  datatype Payload = Payload(claims: map<string, string>, exp: Option<int>)

  /** The result of decoding a stored token: the payload, or the message of
      the error the decoder threw. */
  datatype Decoded = Decodes(payload: Payload) | DecodeError(message: string)

  /** `payload[name]`, with a missing claim read as the falsy "". */
  function Claim(p: Payload, name: string): string {
    if name in p.claims then p.claims[name] else ""
  }

  /** `payload.exp && payload.exp < Date.now() / 1000`, with `now` in
      milliseconds. The comparison `exp < now / 1000` over real numbers is
      `exp * 1000 < now`. An absent `exp`, or `exp` equal to 0, is falsy. */
  predicate Expired(p: Payload, now: int) {
    p.exp.Some? && p.exp.value != 0 && p.exp.value * 1000 < now
  }

  /** A token without an `exp` claim, or whose `exp` is 0, never counts as
      expired, however late `now` is. */
  lemma NoExpNeverExpires(p: Payload, now: int)
    requires p.exp == None || p.exp == Some(0)
    ensures !Expired(p, now)
  {
  }

  /** Expiry is monotonic in time: a token that has expired stays expired. */
  lemma ExpiredStaysExpired(p: Payload, now: int, later: int)
    requires Expired(p, now) && now <= later
    ensures Expired(p, later)
  {
  }

  /** The values of the named claims, in order. */
  function Values(p: Payload, names: seq<string>): (r: seq<string>)
    ensures |r| == |names|
    ensures forall i :: 0 <= i < |names| ==> r[i] == Claim(p, names[i])
  {
    if names == [] then [] else [Claim(p, names[0])] + Values(p, names[1..])
  }

  /** `payload[n0] || payload[n1] || ...`: truthy exactly when one of the
      named claims is. */
  function FirstClaim(p: Payload, names: seq<string>): (r: string)
    ensures Truthy(r) <==> exists i :: 0 <= i < |names| && Truthy(Claim(p, names[i]))
  {
    var vs := Values(p, names);
    assert forall i :: 0 <= i < |names| ==> vs[i] == Claim(p, names[i]);
    FirstTruthy(vs)
  }

  /** The chain yields the value of one named claim, every claim before
      which is falsy; it is truthy unless it is the last claim's. */
  lemma FirstClaimIsFirst(p: Payload, names: seq<string>)
    requires names != []
    ensures exists k :: 0 <= k < |names| && FirstClaim(p, names) == Claim(p, names[k])
              && (forall j :: 0 <= j < k ==> !Truthy(Claim(p, names[j])))
              && (Truthy(Claim(p, names[k])) || k == |names| - 1)
  {
    var vs := Values(p, names);
    assert forall j :: 0 <= j < |names| ==> vs[j] == Claim(p, names[j]);
    FirstTruthyIsFirst(vs);
    var k :| 0 <= k < |vs| && FirstTruthy(vs) == vs[k]
              && (forall j :: 0 <= j < k ==> !Truthy(vs[j]))
              && (Truthy(vs[k]) || k == |vs| - 1);
    assert FirstClaim(p, names) == Claim(p, names[k]);
  }
}
