/** Session tokens: the claims and times of signing and verifying, with an ideal signature. */
module Jwt {
  import opened Wrappers
  import opened GoTime

  const ISSUER: string := "warded-proxy"
  const VERSION: int := 1
  const TTL: int := 8 * HOUR

  /** Times are in whole seconds; zero asks `Sign` for its default. */
  datatype Claims = Claims(
    ver: int, iss: string, sub: string, aud: string, jti: string,
    principalId: string, wardId: string, sessionId: string, iat: int, nbf: int, exp: int)

  datatype Payload = Payload(
    ver: int, iss: string, sub: string, aud: seq<string>, jti: string,
    principalId: string, wardId: string, sessionId: string, iat: int, nbf: int, exp: int)

  /** `authentic` says whether the signature is one made with the verifier's secret. */
  datatype Token = Token(authentic: bool, payload: Payload)

  function Audience(wardId: string): string {
    "ward:" + wardId
  }

  function OrTime(seconds: int, default: int): int {
    if seconds != 0 then seconds * SECOND else default
  }

  function Whole(t: int): int {
    t / SECOND
  }

  function Sign(c: Claims, jti: string, now: int): Token {
    var iat := OrTime(c.iat, now);
    var nbf := OrTime(c.nbf, iat);
    var exp := OrTime(c.exp, iat + TTL);
    Token(true, Payload(VERSION, ISSUER, c.principalId, [Audience(c.wardId)], if c.jti == "" then jti else c.jti,
                        c.principalId, c.wardId, c.sessionId, Whole(iat), Whole(nbf), Whole(exp)))
  }

  function Verify(t: Token, now: int): Option<Claims> {
    var p := t.payload;
    if !t.authentic || now >= p.exp * SECOND || now < p.nbf * SECOND then None
    else if p.ver != VERSION || p.iss != ISSUER then None
    else if p.principalId == "" || p.wardId == "" || p.sessionId == "" then None
    else Some(Claims(p.ver, p.iss, p.sub, if |p.aud| > 0 then p.aud[0] else "", p.jti,
                     p.principalId, p.wardId, p.sessionId, p.iat, p.nbf, p.exp))
  }

  /** A token signed now is accepted exactly from the second of its issue until eight hours after it. */
  lemma SignedTokenLifetime(principalId: string, wardId: string, sessionId: string, jti: string, issued: int, now: int)
    ensures var c := Claims(0, "", "", "", "", principalId, wardId, sessionId, 0, 0, 0);
            var v := Verify(Sign(c, jti, issued), now);
            && (v.Some? <==> principalId != "" && wardId != "" && sessionId != ""
                             && Whole(issued) * SECOND <= now < Whole(issued) * SECOND + 8 * HOUR)
            && (v.Some? ==> v.value.principalId == principalId == v.value.sub && v.value.wardId == wardId
                            && v.value.sessionId == sessionId && v.value.aud == Audience(wardId)
                            && v.value.jti == jti && v.value.exp * SECOND == Whole(issued) * SECOND + 8 * HOUR)
  {
  }

  /** Signing verified claims again gives a token that verifies to the same claims at the same times. */
  lemma SignVerifiedAgain(t: Token, jti: string, now: int, at: int)
    requires Verify(t, at).Some? && t.payload.jti != "" && t.payload.iat != 0 && t.payload.nbf != 0 && t.payload.exp != 0
    requires t.payload.sub == t.payload.principalId && t.payload.aud == [Audience(t.payload.wardId)]
    ensures Sign(Verify(t, at).value, jti, now) == t
  {
  }

  /** What a verifier accepts: a genuine signature, this issuer's first version, three names, and a reading in [nbf, exp). */
  lemma VerifyExactly(t: Token, now: int)
    ensures Verify(t, now).Some? <==>
              && t.authentic && t.payload.ver == 1 && t.payload.iss == "warded-proxy"
              && t.payload.principalId != "" && t.payload.wardId != "" && t.payload.sessionId != ""
              && t.payload.nbf * 1_000_000_000 <= now < t.payload.exp * 1_000_000_000
    ensures Verify(t, now).Some? ==>
              var c := Verify(t, now).value;
              && c.principalId == t.payload.principalId && c.wardId == t.payload.wardId && c.sessionId == t.payload.sessionId
              && c.exp == t.payload.exp && (t.payload.aud != [] ==> c.aud == t.payload.aud[0])
  {
  }
}
