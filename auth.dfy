/**
 * The bearer-token middlewares. `auth` answers 401 for a missing header, a header that is
 * not `Bearer <token>`, and a token the verifier refuses; otherwise it records the user and
 * passes the request on. `optionalAuth` never answers: it records the user or nobody and
 * always passes the request on.
 */
module Auth {
  import opened Wrappers
  import opened Text

  const Prefix := "Bearer "

  const NoToken := "Token não fornecido"
  const NoTokenHint := "Forneça o token no header: Authorization: Bearer {token}"
  const BadFormat := "Formato de token inválido"
  const BadFormatHint := "Use o formato: Authorization: Bearer {token}"
  const BadToken := "Token inválido ou expirado"
  const BadTokenHint := "Faça login novamente ou renove o token usando /api/auth/refresh"
  const Unauthorized := "Não autorizado"

  /** The authenticated user the verifier returns. */
  datatype User = User(id: string)

  /** What the token verifier does with a token: returns its user or throws with a message. */
  datatype Verdict = Verified(user: User) | Rejected(message: string)

  /** A JSON error response. */
  datatype Response = Response(status: nat, error: string, message: string)

  /** What a middleware does with the request: passes it on with a user, or answers it. */
  datatype Outcome = Next(user: Option<User>) | Answer(response: Response)

  /** `s.indexOf(t)`: the first position at which `t` occurs in `s`, or -1. */
  function IndexOf(s: string, t: string): (i: int)
    ensures i >= -1
    ensures i >= 0 ==> i + |t| <= |s| && s[i..i + |t|] == t
    ensures i >= 0 ==> forall k :: 0 <= k < i ==> !(t <= s[k..])
    ensures i < 0 ==> forall k :: 0 <= k <= |s| ==> !(t <= s[k..])
    decreases |s|
  {
    if t <= s then 0
    else if |s| == 0 then -1
    else
      var j := IndexOf(s[1..], t);
      assert forall k :: 1 <= k <= |s| ==> s[k..] == s[1..][k - 1..];
      if j < 0 then -1 else j + 1
  }

  /** `s.replace(t, rep)` with a string pattern: only the first occurrence is replaced. */
  function ReplaceFirst(s: string, t: string, rep: string): string {
    var i := IndexOf(s, t);
    if i < 0 then s else s[..i] + rep + s[i + |t|..]
  }

  /** On a header that starts with the prefix, removing the prefix's first occurrence drops the first seven characters. */
  lemma TokenIsRest(header: string)
    requires StartsWith(header, Prefix)
    ensures ReplaceFirst(header, Prefix, "") == header[7..]
    ensures Prefix + ReplaceFirst(header, Prefix, "") == header
  {
    assert IndexOf(header, Prefix) == 0;
  }

  /** The header is absent or empty, both falsy. */
  predicate Missing(header: Option<string>) {
    header.None? || header.value == ""
  }

  /** `auth`: the header checks in order, then the verifier's verdict. */
  function Decide(header: Option<string>, verify: string -> Verdict): (o: Outcome) {
    if Missing(header) then Answer(Response(401, NoToken, NoTokenHint))
    else if !StartsWith(header.value, Prefix) then Answer(Response(401, BadFormat, BadFormatHint))
    else
      match verify(ReplaceFirst(header.value, Prefix, ""))
      case Verified(user) => Next(Some(user))
      case Rejected(m) =>
        if Contains(m, "inválido") || Contains(m, "expirado")
        then Answer(Response(401, BadToken, BadTokenHint))
        else Answer(Response(401, Unauthorized, m))
  }

  /**
   * `auth` passes the request on exactly when the header is `Bearer ` followed by a token the
   * verifier accepts, and then with that user; every answer it gives is a 401.
   */
  lemma DecideCases(header: Option<string>, verify: string -> Verdict)
    ensures Decide(header, verify).Next? <==>
              !Missing(header) && StartsWith(header.value, Prefix) && verify(header.value[7..]).Verified?
    ensures Decide(header, verify).Next? ==> Decide(header, verify).user == Some(verify(header.value[7..]).user)
    ensures Decide(header, verify).Answer? ==> Decide(header, verify).response.status == 401
    ensures Missing(header) ==> Decide(header, verify) == Answer(Response(401, NoToken, NoTokenHint))
    ensures !Missing(header) && !StartsWith(header.value, Prefix) ==>
              Decide(header, verify) == Answer(Response(401, BadFormat, BadFormatHint))
  {
    if !Missing(header) && StartsWith(header.value, Prefix) {
      TokenIsRest(header.value);
    }
  }

  /** A refusal mentioning an invalid or expired token gets the fixed text; any other passes its message on. */
  lemma RejectionText(header: string, verify: string -> Verdict)
    requires header != "" && StartsWith(header, Prefix) && verify(header[7..]).Rejected?
    ensures var m := verify(header[7..]).message;
            Decide(Some(header), verify)
            == if Contains(m, "inválido") || Contains(m, "expirado")
               then Answer(Response(401, BadToken, BadTokenHint))
               else Answer(Response(401, Unauthorized, m))
  {
    TokenIsRest(header);
  }

  /** `optionalAuth`: never answers; records the verified user, or nobody. */
  function DecideOptional(header: Option<string>, verify: string -> Verdict): (o: Outcome)
    ensures o.Next?
  {
    if Missing(header) || !StartsWith(header.value, Prefix) then Next(None)
    else
      match verify(ReplaceFirst(header.value, Prefix, ""))
      case Verified(user) => Next(Some(user))
      case Rejected(_) => Next(None)
  }

  /** `optionalAuth` records a user exactly when `auth` would pass the request on, and the same user. */
  lemma OptionalAgreesWithAuth(header: Option<string>, verify: string -> Verdict)
    ensures DecideOptional(header, verify).user.Some? <==> Decide(header, verify).Next?
    ensures Decide(header, verify).Next? ==> DecideOptional(header, verify) == Decide(header, verify)
  {
  }

  /** The request and response a middleware sees: `req.user`, the `next` calls and the answer sent. */
  class Exchange {
    var user: Option<User>
    var nextCalls: nat
    var response: Option<Response>

    constructor ()
      ensures user.None? && nextCalls == 0 && response.None?
    {
      user := None;
      nextCalls := 0;
      response := None;
    }

    /** `res.status(s).json(...)`. */
    method Send(r: Response)
      modifies this
      ensures response == Some(r) && user == old(user) && nextCalls == old(nextCalls)
    {
      response := Some(r);
    }

    /** `next()`. */
    method CallNext()
      modifies this
      ensures nextCalls == old(nextCalls) + 1 && user == old(user) && response == old(response)
    {
      nextCalls := nextCalls + 1;
    }
  }

  /**
   * `auth` on a fresh exchange: either it sets `req.user` and calls `next` once and sends
   * nothing, or it sends the answer Decide gives and neither calls `next` nor sets a user.
   */
  method AuthMiddleware(ex: Exchange, header: Option<string>, verify: string -> Verdict)
    requires ex.user.None? && ex.nextCalls == 0 && ex.response.None?
    modifies ex
    ensures Decide(header, verify).Next? ==>
              ex.user == Decide(header, verify).user && ex.nextCalls == 1 && ex.response.None?
    ensures Decide(header, verify).Answer? ==>
              ex.response == Some(Decide(header, verify).response) && ex.nextCalls == 0 && ex.user.None?
  {
    if header.None? || header.value == "" {
      ex.Send(Response(401, NoToken, NoTokenHint));
      return;
    }
    if !StartsWith(header.value, Prefix) {
      ex.Send(Response(401, BadFormat, BadFormatHint));
      return;
    }
    var token := ReplaceFirst(header.value, Prefix, "");
    var verdict := verify(token);
    if verdict.Verified? {
      ex.user := Some(verdict.user);
      ex.CallNext();
    } else if Contains(verdict.message, "inválido") || Contains(verdict.message, "expirado") {
      ex.Send(Response(401, BadToken, BadTokenHint));
    } else {
      ex.Send(Response(401, Unauthorized, verdict.message));
    }
  }

  /** `optionalAuth` on a fresh exchange: it sends nothing and calls `next` exactly once. */
  method OptionalAuthMiddleware(ex: Exchange, header: Option<string>, verify: string -> Verdict)
    requires ex.user.None? && ex.nextCalls == 0 && ex.response.None?
    modifies ex
    ensures ex.user == DecideOptional(header, verify).user
    ensures ex.nextCalls == 1 && ex.response.None?
  {
    if header.None? || header.value == "" || !StartsWith(header.value, Prefix) {
      ex.user := None;
      ex.CallNext();
      return;
    }
    var verdict := verify(ReplaceFirst(header.value, Prefix, ""));
    if verdict.Verified? {
      ex.user := Some(verdict.user);
    } else {
      ex.user := None;
    }
    ex.CallNext();
  }
}
