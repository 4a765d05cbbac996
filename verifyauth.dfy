/**
 * The `verifyAuth` middleware: a request must carry
 * `Authorization: Bearer <token>` with a token Firebase accepts; it then
 * gets the decoded token as `req.user` and is passed on, and otherwise it
 * is answered with 401.
 */
module VerifyAuth {
  import opened Wrappers
  import opened Js
  import opened Collaborators

  const MissingHeader: string := "Missing or invalid Authorization header"
  const InvalidToken: string := "Invalid or expired token"
  const BearerPrefix: string := "Bearer "

  /** The parts of an Express request the middleware reads and writes. */
  class Request {
    const authorization: Option<string>
    var user: Option<Json>

    constructor(authorization: Option<string>)
      ensures this.authorization == authorization && user.None?
    {
      this.authorization := authorization;
      user := None;
    }
  }

  /** `res.status(code).json({ error })`, once sent. */
  datatype Reply = Reply(status: nat, error: string)

  class Response {
    var sent: Option<Reply>

    constructor()
      ensures sent.None?
    {
      sent := None;
    }
  }

  /** `split(" ")[1]`; a header that passed the prefix check has that field. */
  function Token(header: string): (t: string)
    requires StartsWith(header, BearerPrefix)
    ensures ' ' !in t
  {
    var parts := SplitOn(header, ' ');
    assert |parts| >= 2 by {
      IndexOfAt(header, ' ', 6);
    }
    parts[1]
  }

  /** How the middleware ends: a 401 with its message, or the decoded token. */
  datatype Decision = Reject(message: string) | Accept(decoded: Json)

  function Decide(authorization: Option<string>, verifyToken: string -> Option<Json>): (d: Decision)
    ensures d.Reject? ==> d.message == MissingHeader || d.message == InvalidToken
  {
    if authorization.None? || authorization.value == "" || !StartsWith(authorization.value, BearerPrefix)
    then Reject(MissingHeader)
    else
      match verifyToken(Token(authorization.value))
      case None => Reject(InvalidToken)
      case Some(decoded) => Accept(decoded)
  }

  /**
   * `verifyAuth(req, res, next)`; `nexts` is how many times `next` was
   * called.
   */
  method Verify(req: Request, res: Response, env: Env) returns (nexts: nat)
    requires res.sent.None?
    modifies req, res
    ensures Decide(req.authorization, env.verifyToken).Reject? ==>
              nexts == 0 && req.user == old(req.user)
              && res.sent == Some(Reply(401, Decide(req.authorization, env.verifyToken).message))
    ensures Decide(req.authorization, env.verifyToken).Accept? ==>
              nexts == 1 && req.user == Some(Decide(req.authorization, env.verifyToken).decoded)
              && res.sent.None?
  {
    var authHeader := req.authorization;
    if authHeader.None? || authHeader.value == "" || !StartsWith(authHeader.value, BearerPrefix) {
      res.sent := Some(Reply(401, MissingHeader));
      return 0;
    }
    var token := Token(authHeader.value);
    var decoded := env.verifyToken(token);
    if decoded.None? {
      res.sent := Some(Reply(401, InvalidToken));
      return 0;
    }
    req.user := decoded;
    nexts := 1;
  }

  // ---------------------------------------------------------------------
  // Properties

  /**
   * Without a header that starts with exactly "Bearer " (case matters),
   * the request is refused before any token is looked at.
   */
  lemma BearerRequired(authorization: Option<string>, verifyToken: string -> Option<Json>)
    ensures Decide(authorization, verifyToken) == Reject(MissingHeader) <==>
              authorization.None? || !StartsWith(authorization.value, BearerPrefix)
  {
    if authorization.Some? && StartsWith(authorization.value, BearerPrefix) {
      assert authorization.value != "";
      assert Decide(authorization, verifyToken).Reject? ==> Decide(authorization, verifyToken).message == InvalidToken;
      assert InvalidToken[0] != MissingHeader[0];
    }
  }

  /** A lower-case scheme is not accepted. */
  lemma SchemeIsCaseSensitive(t: string, verifyToken: string -> Option<Json>)
    ensures Decide(Some("bearer " + t), verifyToken) == Reject(MissingHeader)
  {
    assert ("bearer " + t)[0] != BearerPrefix[0];
  }

  /**
   * The token is the field after "Bearer ": everything up to the next
   * space, whatever follows it.
   */
  lemma TokenAfterScheme(t: string, rest: string)
    requires ' ' !in t
    ensures StartsWith(BearerPrefix + t, BearerPrefix) && Token(BearerPrefix + t) == t
    ensures StartsWith(BearerPrefix + t + " " + rest, BearerPrefix) && Token(BearerPrefix + t + " " + rest) == t
  {
    TokenOf(BearerPrefix + t, t);
    TokenOf(BearerPrefix + t + " " + rest, t);
  }

  lemma TokenOf(h: string, t: string)
    requires |h| >= 7 + |t| && h[..7] == BearerPrefix && h[7..7 + |t|] == t && ' ' !in t
    requires |h| == 7 + |t| || h[7 + |t|] == ' '
    ensures StartsWith(h, BearerPrefix) && Token(h) == t
  {
    assert h[..6] == "Bearer";
    assert ' ' !in h[..6];
    IndexOfAt(h, ' ', 6);
    var tail := h[7..];
    assert SplitOn(h, ' ') == [h[..6]] + SplitOn(tail, ' ');
    assert tail[..|t|] == t;
    if |tail| == |t| {
      assert tail == t;
      IndexOfFirst(tail, ' ');
    } else {
      assert tail[|t|] == ' ';
      IndexOfAt(tail, ' ', |t|);
    }
  }

  /**
   * A header with a token Firebase accepts is passed on exactly once with
   * the decoded token; one Firebase rejects gets the second message.
   */
  lemma TokenChecked(t: string, verifyToken: string -> Option<Json>)
    requires ' ' !in t
    ensures verifyToken(t).Some? ==> Decide(Some(BearerPrefix + t), verifyToken) == Accept(verifyToken(t).value)
    ensures verifyToken(t).None? ==> Decide(Some(BearerPrefix + t), verifyToken) == Reject(InvalidToken)
  {
    TokenAfterScheme(t, "");
  }
}
