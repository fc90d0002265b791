/**
 * Identity resolution (`_shared/identity.ts`): the device fingerprint is cleaned, a fallback is
 * derived when the client sends none, and the request is classified as an authenticated user or a
 * demo device with the matching scope key. The auth backend's `auth.getUser` is an oracle input and
 * `crypto.randomUUID()` a string input.
 */
module Identity {
  import opened Outcome
  import opened Text

  /** The request headers the resolver reads (`Headers.get` returns `null` for a missing header). */
  datatype Headers = Headers(
    deviceFingerprint: Option<string>,   // x-device-fingerprint
    authorization: Option<string>,       // authorization (header names are case-insensitive)
    forwardedFor: Option<string>,        // x-forwarded-for
    cfConnectingIp: Option<string>)      // cf-connecting-ip

  /** What `auth.getUser(jwt)` answers: an error, or data whose `user.id` may be missing. */
  datatype AuthReply = AuthError | AuthData(userId: Option<string>)

  datatype RequestIdentity = RequestIdentity(
    userId: Option<string>, isDemo: bool, scopeKey: string, deviceFingerprint: string)

  const FINGERPRINT_MAX: nat := 120
  const BEARER: string := "Bearer "

  /** The class `[a-zA-Z0-9._:-]` kept by `sanitizeFingerprint`. */
  predicate IsFingerprintChar(c: char) {
    ('a' <= c <= 'z') || ('A' <= c <= 'Z') || ('0' <= c <= '9') || c == '.' || c == '_' || c == ':' || c == '-'
  }

  predicate IsCleanFingerprint(s: string) {
    |s| <= FINGERPRINT_MAX && forall i :: 0 <= i < |s| ==> IsFingerprintChar(s[i])
  }

  /** `sanitizeFingerprint`: drop every character outside the class, then keep at most 120. */
  function SanitizeFingerprint(input: string): (r: string)
    ensures IsCleanFingerprint(r)
  {
    Take(Filter(IsFingerprintChar, input), FINGERPRINT_MAX)
  }

  /** A fingerprint that is already clean passes through sanitising unchanged. */
  lemma SanitizeFixesClean(s: string)
    requires IsCleanFingerprint(s)
    ensures SanitizeFingerprint(s) == s
  {
    FilterKeepsClean(IsFingerprintChar, s);
  }

  /** Sanitising twice is sanitising once. */
  lemma SanitizeIdempotent(s: string)
    ensures SanitizeFingerprint(SanitizeFingerprint(s)) == SanitizeFingerprint(s)
  {
    SanitizeFixesClean(SanitizeFingerprint(s));
  }

  /** A clean prefix of at most 120 characters survives sanitising at the front of the result. */
  lemma SanitizeKeepsCleanPrefix(p: string, rest: string)
    requires IsCleanFingerprint(p)
    ensures StartsWith(SanitizeFingerprint(p + rest), p)
  {
    FilterConcat(IsFingerprintChar, p, rest);
    FilterKeepsClean(IsFingerprintChar, p);
  }

  /** The raw address used by `fallbackFingerprint`: the first comma-separated, trimmed entry. */
  function ForwardedIp(h: Headers): (r: string)
    ensures ',' !in r
    ensures r == [] || (!IsSpace(r[0]) && !IsSpace(r[|r| - 1]))
    ensures h.forwardedFor.Some? ==> r == Trim(BeforeFirst(h.forwardedFor.value, ','))
    ensures h.forwardedFor.None? && h.cfConnectingIp.Some? ==> r == Trim(BeforeFirst(h.cfConnectingIp.value, ','))
    ensures h.forwardedFor.None? && h.cfConnectingIp.None? ==> r == ""
  {
    var forwarded :=
      if h.forwardedFor.Some? then h.forwardedFor.value
      else if h.cfConnectingIp.Some? then h.cfConnectingIp.value
      else "";
    TrimAddsNothing(BeforeFirst(forwarded, ','), ',');
    Trim(BeforeFirst(forwarded, ','))
  }

  /** `fallbackFingerprint`: `ip_<address>` when an address is known, `anon_<uuid>` otherwise. */
  function FallbackFingerprint(h: Headers, uuid: string): (r: string)
    ensures IsCleanFingerprint(r)
  {
    var ip := ForwardedIp(h);
    if ip != "" then SanitizeFingerprint("ip_" + ip) else SanitizeFingerprint("anon_" + uuid)
  }

  /** The fallback is `ip_...` exactly when an address is known, and `anon_...` otherwise. */
  lemma FallbackShape(h: Headers, uuid: string)
    ensures ForwardedIp(h) != "" ==> StartsWith(FallbackFingerprint(h, uuid), "ip_")
    ensures ForwardedIp(h) == "" ==> StartsWith(FallbackFingerprint(h, uuid), "anon_")
    ensures ForwardedIp(h) != "" ==>
              FallbackFingerprint(h, uuid) == "ip_" + Take(Filter(IsFingerprintChar, ForwardedIp(h)), FINGERPRINT_MAX - 3)
    ensures ForwardedIp(h) == "" ==>
              FallbackFingerprint(h, uuid) == "anon_" + Take(Filter(IsFingerprintChar, uuid), FINGERPRINT_MAX - 5)
  {
    var ip := ForwardedIp(h);
    PrefixesAreClean();
    if ip != "" {
      SanitizeOfPrefixed("ip_", ip);
    } else {
      SanitizeOfPrefixed("anon_", uuid);
    }
  }

  /** Sanitising a clean prefix followed by anything keeps the prefix and sanitises the rest into the room left. */
  lemma SanitizeOfPrefixed(p: string, rest: string)
    requires IsCleanFingerprint(p)
    ensures SanitizeFingerprint(p + rest) == p + Take(Filter(IsFingerprintChar, rest), FINGERPRINT_MAX - |p|)
  {
    FilterConcat(IsFingerprintChar, p, rest);
    FilterKeepsClean(IsFingerprintChar, p);
    var f := Filter(IsFingerprintChar, rest);
    if |p + f| > FINGERPRINT_MAX {
      assert (p + f)[..FINGERPRINT_MAX] == p + f[..FINGERPRINT_MAX - |p|];
    }
  }

  lemma PrefixesAreClean()
    ensures IsCleanFingerprint("ip_") && IsCleanFingerprint("anon_")
  {
    assert forall i :: 0 <= i < 3 ==> "ip_"[i] in {'i', 'p', '_'};
    assert forall i :: 0 <= i < 5 ==> "anon_"[i] in {'a', 'n', 'o', '_'};
  }

  /** The fingerprint every branch of `resolveIdentity` reports. */
  function DeviceFingerprint(h: Headers, uuid: string): (r: string)
    ensures IsCleanFingerprint(r)
  {
    SanitizeFingerprint(if h.deviceFingerprint.Some? then h.deviceFingerprint.value else FallbackFingerprint(h, uuid))
  }

  function DemoIdentity(fingerprint: string): RequestIdentity {
    RequestIdentity(None, true, "demo:" + fingerprint, fingerprint)
  }

  /** The bearer token, when the header has the `Bearer ` form, after trimming. */
  function BearerToken(h: Headers): (r: Option<string>)
    ensures r.Some? <==> h.authorization.Some? && StartsWith(h.authorization.value, "Bearer ")
    ensures r.Some? ==> r.value == Trim(h.authorization.value[7..])
    ensures r.Some? ==> r.value == [] || (!IsSpace(r.value[0]) && !IsSpace(r.value[|r.value| - 1]))
  {
    if h.authorization.Some? && StartsWith(h.authorization.value, BEARER)
    then Some(Trim(h.authorization.value[|BEARER|..]))
    else None
  }

  /**
   * `resolveIdentity`: never fails; a missing or malformed header, an empty token or a failed lookup
   * all give the demo identity. A user id that is empty counts as missing (`!data?.user?.id`).
   */
  function ResolveIdentity(h: Headers, uuid: string, auth: string -> AuthReply): (id: RequestIdentity)
    ensures id.deviceFingerprint == DeviceFingerprint(h, uuid)
  {
    var fingerprint := DeviceFingerprint(h, uuid);
    var token := BearerToken(h);
    if token.None? || token.value == "" then DemoIdentity(fingerprint)
    else
      match auth(token.value)
      case AuthError => DemoIdentity(fingerprint)
      case AuthData(userId) =>
        if userId.None? || userId.value == "" then DemoIdentity(fingerprint)
        else RequestIdentity(userId, false, "user:" + userId.value, fingerprint)
  }

  /** The user branch is taken exactly when a non-empty token resolves to a non-empty user id. */
  function Authenticates(h: Headers, auth: string -> AuthReply): (b: bool)
    ensures b ==> h.authorization.Some? && StartsWith(h.authorization.value, "Bearer ")
    ensures b ==> |h.authorization.value| > 7 && Trim(h.authorization.value[7..]) != ""
  {
    var token := BearerToken(h);
    token.Some? && token.value != ""
    && auth(token.value).AuthData? && auth(token.value).userId.Some? && auth(token.value).userId.value != ""
  }

  /**
   * The result invariant: demo exactly when there is no user id, the scope key is `demo:` plus the
   * fingerprint or `user:` plus the id, and the user branch is taken exactly when the token
   * authenticates, with the looked-up id.
   */
  lemma IdentityInvariant(h: Headers, uuid: string, auth: string -> AuthReply)
    ensures var id := ResolveIdentity(h, uuid, auth);
      && (id.isDemo <==> id.userId.None?)
      && (id.isDemo <==> !Authenticates(h, auth))
      && (id.isDemo ==> id.scopeKey == "demo:" + id.deviceFingerprint)
      && (!id.isDemo ==> id.userId == auth(BearerToken(h).value).userId
                         && id.userId.value != ""
                         && id.scopeKey == "user:" + id.userId.value)
  {
  }

  /** Without a header of the form `Bearer ...`, or with an empty token, the caller is a demo device. */
  lemma DemoWithoutToken(h: Headers, uuid: string, auth: string -> AuthReply)
    requires h.authorization.None? || !StartsWith(h.authorization.value, BEARER)
             || Trim(h.authorization.value[|BEARER|..]) == ""
    ensures ResolveIdentity(h, uuid, auth) == DemoIdentity(DeviceFingerprint(h, uuid))
  {
  }

  /** A lookup that fails or yields no (or an empty) id degrades to the demo identity. */
  lemma DemoOnFailedLookup(h: Headers, uuid: string, auth: string -> AuthReply)
    requires BearerToken(h).Some?
    requires auth(BearerToken(h).value).AuthError?
             || auth(BearerToken(h).value).userId.None?
             || auth(BearerToken(h).value).userId.value == ""
    ensures ResolveIdentity(h, uuid, auth) == DemoIdentity(DeviceFingerprint(h, uuid))
  {
  }

  /** The fingerprint does not depend on the authorization header nor on the auth backend. */
  lemma FingerprintIndependentOfAuth(h1: Headers, h2: Headers, uuid: string,
                                     auth1: string -> AuthReply, auth2: string -> AuthReply)
    requires h1.deviceFingerprint == h2.deviceFingerprint
    requires h1.forwardedFor == h2.forwardedFor && h1.cfConnectingIp == h2.cfConnectingIp
    ensures ResolveIdentity(h1, uuid, auth1).deviceFingerprint == ResolveIdentity(h2, uuid, auth2).deviceFingerprint
  {
  }

  /**
   * A fingerprint header that is present is always used, sanitised, even when it sanitises to the
   * empty string; without it the fallback is used as it is, since it is already clean.
   */
  lemma FingerprintSource(h: Headers, uuid: string)
    ensures h.deviceFingerprint.Some? ==> DeviceFingerprint(h, uuid) == SanitizeFingerprint(h.deviceFingerprint.value)
    ensures h.deviceFingerprint.None? ==> DeviceFingerprint(h, uuid) == FallbackFingerprint(h, uuid)
  {
    if h.deviceFingerprint.None? {
      SanitizeFixesClean(FallbackFingerprint(h, uuid));
    }
  }

  /** Witness: an all-invalid fingerprint header yields the empty fingerprint, with no fallback. */
  lemma EmptyFingerprintIsKept(uuid: string, auth: string -> AuthReply)
    ensures ResolveIdentity(Headers(Some("!!"), None, Some("10.0.0.1"), None), uuid, auth)
            == RequestIdentity(None, true, "demo:", "")
  {
    var h := Headers(Some("!!"), None, Some("10.0.0.1"), None);
    assert Filter(IsFingerprintChar, "!!") == "";
  }
}
