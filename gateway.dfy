// The gateway's authentication filter: paths under /api/auth/ pass untouched;
// every other request needs an `Authorization: Bearer <token>` header (the
// scheme of section 2.1 of RFC 6750) whose token validates, and is forwarded
// with the caller's id, e-mail and role set as X-User-* headers.
module Gateway {
  import opened Common

  /** Request headers in order; names compare without regard to case. */
  type Headers = seq<(string, string)>

  predicate SameName(a: string, b: string) { EqualsIgnoreCase(a, b) }

  /** `getFirst(name)`: the first value under the name, None when there is none. */
  function GetFirst(h: Headers, name: string): (r: Option<string>)
    ensures r.Some? <==> exists i :: 0 <= i < |h| && SameName(h[i].0, name)
    ensures r.Some? ==> exists i :: 0 <= i < |h| && SameName(h[i].0, name) && h[i].1 == r.value
  {
    if h == [] then None
    else if SameName(h[0].0, name) then Some(h[0].1)
    else
      var r := GetFirst(h[1..], name);
      assert forall i :: 1 <= i < |h| ==> h[i] == h[1..][i - 1];
      assert r.Some? ==> exists i :: 0 <= i < |h[1..]| && SameName(h[1..][i].0, name) && h[1..][i].1 == r.value;
      r
  }

  /** Every value under the name, in order. */
  function Values(h: Headers, name: string): (r: seq<string>)
  {
    if h == [] then []
    else (if SameName(h[0].0, name) then [h[0].1] else []) + Values(h[1..], name)
  }

  /** The builder's `header(name, value)`: drops every value under the name and
      sets the one given. */
  function SetHeader(h: Headers, name: string, value: string): (r: Headers)
  {
    Filter(h, (p: (string, string)) => !SameName(p.0, name)) + [(name, value)]
  }

  lemma {:induction false} ValuesAppend(a: Headers, b: Headers, name: string)
    ensures Values(a + b, name) == Values(a, name) + Values(b, name)
  {
    if a != [] {
      assert (a + b)[0] == a[0];
      assert (a + b)[1..] == a[1..] + b;
      ValuesAppend(a[1..], b, name);
    } else {
      assert a + b == b;
    }
  }

  lemma {:induction false} ValuesFiltered(h: Headers, name: string, other: string)
    ensures Values(Filter(h, (p: (string, string)) => !SameName(p.0, name)), other)
            == (if SameName(name, other) then [] else Values(h, other))
  {
    var keep := (p: (string, string)) => !SameName(p.0, name);
    if h != [] {
      ValuesFiltered(h[1..], name, other);
      assert Filter(h, keep) == (if keep(h[0]) then [h[0]] else []) + Filter(h[1..], keep);
      ValuesAppend(if keep(h[0]) then [h[0]] else [], Filter(h[1..], keep), other);
      UpperCaseSymmetric(name, other, h[0].0);
    }
  }

  /** Matching without regard to case is an equivalence. */
  lemma UpperCaseSymmetric(a: string, b: string, c: string)
    ensures SameName(a, b) && SameName(c, a) ==> SameName(c, b)
    ensures SameName(a, b) && !SameName(c, a) ==> !SameName(c, b)
  {
  }

  /** After `header(name, value)` the name carries exactly that value, and
      every other name keeps all its values. */
  lemma {:induction false} SetHeaderValues(h: Headers, name: string, value: string, other: string)
    ensures SameName(name, other) ==> Values(SetHeader(h, name, value), other) == [value]
    ensures !SameName(name, other) ==> Values(SetHeader(h, name, value), other) == Values(h, other)
  {
    var keep := (p: (string, string)) => !SameName(p.0, name);
    ValuesAppend(Filter(h, keep), [(name, value)], other);
    ValuesFiltered(h, name, other);
    assert Values([(name, value)], other) == (if SameName(name, other) then [value] else []) + Values([], other);
  }

  /** The first value is the head of all the values. */
  lemma {:induction false} GetFirstIsFirstValue(h: Headers, name: string)
    ensures GetFirst(h, name).None? <==> Values(h, name) == []
    ensures GetFirst(h, name).Some? ==> GetFirst(h, name).value == Values(h, name)[0]
  {
    if h != [] && !SameName(h[0].0, name) {
      GetFirstIsFirstValue(h[1..], name);
    }
  }

  datatype Request = Request(path: string, headers: Headers)

  /** The claims the token carries; `userId` is None when the claim is absent. */
  datatype Claims = Claims(email: string, role: string, userId: Option<int>)

  /** What the filter does with the request: hands it on, possibly with new
      headers, or answers 401 without calling any service. */
  datatype Decision = Forward(request: Request) | Unauthorized

  const AuthorizationHeader := "Authorization"
  const PublicPrefix := "/api/auth/"
  const BearerPrefix := "Bearer "
  const UserIdHeader := "X-User-Id"
  const EmailHeader := "X-User-Email"
  const RoleHeader := "X-User-Role"

  lemma PrefixSplit(s: string, p: string)
    requires StartsWith(s, p)
    ensures s == p + s[|p|..]
  {
    assert s == s[..|p|] + s[|p|..];
  }

  /** The token of an Authorization header: what follows "Bearer ", or None for
      a missing header or another scheme (matched with case). */
  function BearerToken(h: Headers): (r: Option<string>)
    ensures r.Some? <==> GetFirst(h, AuthorizationHeader).Some? && StartsWith(GetFirst(h, AuthorizationHeader).value, BearerPrefix)
    ensures r.Some? ==> GetFirst(h, AuthorizationHeader).value == BearerPrefix + r.value
  {
    var auth := GetFirst(h, AuthorizationHeader);
    if auth.None? || !StartsWith(auth.value, BearerPrefix) then None
    else
      PrefixSplit(auth.value, BearerPrefix);
      Some(auth.value[|BearerPrefix|..])
  }

  /** The request with the caller's identity set, replacing any X-User-*
      header the client sent. */
  function WithIdentity(req: Request, c: Claims): (r: Request)
    requires c.userId.Some?
    ensures r.path == req.path
  {
    var h1 := SetHeader(req.headers, UserIdHeader, IntToString(c.userId.value));
    var h2 := SetHeader(h1, EmailHeader, c.email);
    req.(headers := SetHeader(h2, RoleHeader, c.role))
  }

  /** The caller the request's token names: None when there is no bearer
      token, when it does not validate or validation throws, when extracting
      the claims throws, or when the id claim is missing (its `toString`
      dereferences null). `validate` is the token check and `claims` the
      extraction of the three claims; None from either means it threw. */
  function Caller(h: Headers, validate: string -> Option<bool>, claims: string -> Option<Claims>): (r: Option<Claims>)
    ensures r.Some? <==> BearerToken(h).Some? && validate(BearerToken(h).value) == Some(true)
                         && claims(BearerToken(h).value).Some? && claims(BearerToken(h).value).value.userId.Some?
    ensures r.Some? ==> r == claims(BearerToken(h).value)
  {
    var token := BearerToken(h);
    if token.None? || validate(token.value) != Some(true) then None
    else
      var c := claims(token.value);
      if c.None? || c.value.userId.None? then None else c
  }

  /** The filter: a public path passes as it came; any other is forwarded with
      the caller's identity, or answered 401 when there is no caller. */
  function Apply(req: Request, validate: string -> Option<bool>, claims: string -> Option<Claims>): (d: Decision)
    ensures StartsWith(req.path, PublicPrefix) ==> d == Forward(req)
    ensures !StartsWith(req.path, PublicPrefix) ==> (d.Forward? <==> Caller(req.headers, validate, claims).Some?)
    ensures d.Forward? ==> d.request.path == req.path
  {
    if StartsWith(req.path, PublicPrefix) then Forward(req)
    else
      var c := Caller(req.headers, validate, claims);
      if c.None? then Unauthorized
      else Forward(WithIdentity(req, c.value))
  }

  /** Two names that differ, ignoring case, at one position are different names. */
  lemma DifferAt(a: string, b: string, i: int)
    requires 0 <= i < |a| && i < |b| && ToUpper(a[i]) != ToUpper(b[i])
    ensures !SameName(a, b)
  {
    assert UpperCase(a)[i] != UpperCase(b)[i];
  }

  lemma XUserNamesDistinct()
    ensures !SameName(UserIdHeader, EmailHeader) && !SameName(UserIdHeader, RoleHeader)
    ensures !SameName(EmailHeader, RoleHeader)
  {
    DifferAt(UserIdHeader, EmailHeader, 7);
    DifferAt(UserIdHeader, RoleHeader, 7);
    DifferAt(EmailHeader, RoleHeader, 7);
  }

  /** A request forwarded from a protected path carries exactly one value in
      each X-User-* header, the token's own, whatever the client sent; every
      other header is passed on as it came. */
  lemma ForwardedIdentity(req: Request, validate: string -> Option<bool>, claims: string -> Option<Claims>, other: string)
    requires !StartsWith(req.path, PublicPrefix)
    requires Apply(req, validate, claims).Forward?
    ensures var c := Caller(req.headers, validate, claims).value;
            var h := Apply(req, validate, claims).request.headers;
            Values(h, UserIdHeader) == [IntToString(c.userId.value)]
            && Values(h, EmailHeader) == [c.email]
            && Values(h, RoleHeader) == [c.role]
    ensures !SameName(UserIdHeader, other) && !SameName(EmailHeader, other) && !SameName(RoleHeader, other) ==>
              Values(Apply(req, validate, claims).request.headers, other) == Values(req.headers, other)
  {
    var c := Caller(req.headers, validate, claims).value;
    var h1 := SetHeader(req.headers, UserIdHeader, IntToString(c.userId.value));
    var h2 := SetHeader(h1, EmailHeader, c.email);
    XUserNamesDistinct();
    SetHeaderValues(req.headers, UserIdHeader, IntToString(c.userId.value), other);
    SetHeaderValues(h1, EmailHeader, c.email, other);
    SetHeaderValues(h2, RoleHeader, c.role, other);
    SetHeaderValues(req.headers, UserIdHeader, IntToString(c.userId.value), UserIdHeader);
    SetHeaderValues(h1, EmailHeader, c.email, UserIdHeader);
    SetHeaderValues(h2, RoleHeader, c.role, UserIdHeader);
    SetHeaderValues(h1, EmailHeader, c.email, EmailHeader);
    SetHeaderValues(h2, RoleHeader, c.role, EmailHeader);
    SetHeaderValues(h2, RoleHeader, c.role, RoleHeader);
  }

  /** A request to a protected path without any Authorization header is never
      forwarded. */
  lemma NoHeaderNoEntry(req: Request, validate: string -> Option<bool>, claims: string -> Option<Claims>)
    requires !StartsWith(req.path, PublicPrefix)
    requires forall i :: 0 <= i < |req.headers| ==> !SameName(req.headers[i].0, AuthorizationHeader)
    ensures Apply(req, validate, claims) == Unauthorized
  {
  }

  /** The scheme name is matched with case, so "bearer" is refused. */
  lemma LowerCaseSchemeRefused(req: Request, validate: string -> Option<bool>, claims: string -> Option<Claims>)
    requires !StartsWith(req.path, PublicPrefix)
    requires req.headers == [("Authorization", "bearer abc")]
    ensures Apply(req, validate, claims) == Unauthorized
  {
    assert "bearer abc"[0] != BearerPrefix[0];
  }
}
