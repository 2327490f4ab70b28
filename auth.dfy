/** The token middleware (middleware/auth.js): splits the bearer token out
    of the Authorization header, checks it, looks the user up and either
    answers 401/403 or hands the request on with `req.usuario` filled in.
    Signature checking and the user lookup's database round-trip are inputs:
    `verify` is the outcome of `jwt.verify` (the id in the payload, or None
    when it throws) and `users` is the users collection. */
module Auth {
  import opened Http
  import opened Usuario

  /** The request context `req.usuario` that every authenticated handler reads. */
  datatype Caller = Caller(id: UserId, nombre: string, correo: string, permisos: seq<string>)

  /** Index of the first `c` in `s`, or -1 when there is none. */
  function IndexOf(s: string, c: char): (i: int)
    ensures -1 <= i < |s|
    ensures i == -1 <==> c !in s
    ensures 0 <= i ==> s[i] == c && c !in s[..i]
  {
    if |s| == 0 then -1
    else if s[0] == c then 0
    else
      var j := IndexOf(s[1..], c);
      if j == -1 then -1
      else
        assert s[..j + 1] == [s[0]] + s[1..][..j];
        j + 1
  }

  /** `s.split(c)`: the maximal runs of `s` between occurrences of `c`. */
  function Split(s: string, c: char): (pieces: seq<string>)
    ensures |pieces| >= 1
    ensures forall k :: 0 <= k < |pieces| ==> c !in pieces[k]
    decreases |s|
  {
    var i := IndexOf(s, c);
    if i < 0 then [s] else [s[..i]] + Split(s[i + 1..], c)
  }

  /** Joins pieces with `c` between them: the inverse of Split. */
  function Join(pieces: seq<string>, c: char): string
  {
    if |pieces| <= 1 then (if pieces == [] then "" else pieces[0])
    else pieces[0] + [c] + Join(pieces[1..], c)
  }

  /** Joining a piece in front of at least one more puts the separator between. */
  lemma JoinCons(piece: string, tail: seq<string>, c: char)
    requires |tail| >= 1
    ensures Join([piece] + tail, c) == piece + [c] + Join(tail, c)
  {
    assert ([piece] + tail)[1..] == tail;
  }

  /** A text is the part before position `i`, the character at `i`, and the rest. */
  lemma Reassemble(s: string, i: nat)
    requires i < |s|
    ensures s[..i] + [s[i]] + s[i + 1..] == s
  {
  }

  /** Splitting loses nothing: joining the pieces gives the header back. */
  lemma {:induction false} JoinSplit(s: string, c: char)
    ensures Join(Split(s, c), c) == s
    decreases |s|
  {
    var i := IndexOf(s, c);
    if i >= 0 {
      var tail := Split(s[i + 1..], c);
      assert Split(s, c) == [s[..i]] + tail;
      JoinCons(s[..i], tail, c);
      JoinSplit(s[i + 1..], c);
      Reassemble(s, i);
    }
  }

  /** `authHeader.split(' ')[1]`: undefined (None) when the header has no space. */
  function Token(header: string): (t: Option<string>)
    ensures t.None? <==> ' ' !in header
    ensures t.Some? ==> ' ' !in t.value
  {
    var pieces := Split(header, ' ');
    if |pieces| >= 2 then Some(pieces[1]) else None
  }

  /** For a header made of a space-free word, a space and the rest, the token
      is the first space-separated piece of the rest. */
  lemma TokenAfterFirstSpace(word: string, rest: string)
    ensures ' ' !in word ==> Token(word + " " + rest) == Some(Split(rest, ' ')[0])
  {
    var header := word + " " + rest;
    if ' ' !in word {
      assert header[|word|] == ' ' && header[..|word|] == word;
      var i := IndexOf(header, ' ');
      assert i == |word|;
      assert header[i + 1..] == rest;
    }
  }

  /** What the middleware does with the request. */
  datatype Verdict = Deny(status: Status, reason: Reason) | Next(usuario: Caller)

  /** `verificarToken`: the first failing check decides the answer. */
  function VerifyToken(authorization: Option<string>, verify: string -> Option<UserId>, users: Users): (v: Verdict)
    // no header: 401, and the handler is not reached
    ensures !Truthy(authorization) ==> v == Deny(Unauthorized401, TokenMissing)
    // a header without a (non-empty) second word: 401
    ensures Truthy(authorization) && !Truthy(Token(authorization.value)) ==>
              v == Deny(Unauthorized401, TokenMalformed)
    // a token the verifier rejects: 403
    ensures Truthy(authorization) && Truthy(Token(authorization.value))
            && verify(Token(authorization.value).value).None? ==>
              v == Deny(Forbidden403, TokenRejected)
    // a verified token naming an absent or disabled user: 401
    ensures Truthy(authorization) && Truthy(Token(authorization.value))
            && verify(Token(authorization.value).value).Some? ==>
              var id := verify(Token(authorization.value).value).value;
              (id !in users || users[id].inhabilitado) ==> v == Deny(Unauthorized401, InvalidOrDisabledUser)
    // an enabled user named by a verified token always goes on
    ensures v.Next? <==>
              && Truthy(authorization) && Truthy(Token(authorization.value))
              && verify(Token(authorization.value).value).Some?
              && verify(Token(authorization.value).value).value in users
              && !users[verify(Token(authorization.value).value).value].inhabilitado
    // the request goes on only for an enabled user named by a verified token,
    // and the context copies that user's name, address and permissions
    ensures v.Next? ==>
              && Truthy(authorization) && Truthy(Token(authorization.value))
              && verify(Token(authorization.value).value) == Some(v.usuario.id)
              && v.usuario.id in users && !users[v.usuario.id].inhabilitado
              && v.usuario.nombre == users[v.usuario.id].nombre
              && v.usuario.correo == users[v.usuario.id].correo
              && v.usuario.permisos == users[v.usuario.id].permisos
  {
    if !Truthy(authorization) then Deny(Unauthorized401, TokenMissing)
    else
      var token := Token(authorization.value);
      if !Truthy(token) then Deny(Unauthorized401, TokenMalformed)
      else match verify(token.value)
        case None => Deny(Forbidden403, TokenRejected)
        case Some(id) =>
          if id !in users || users[id].inhabilitado then Deny(Unauthorized401, InvalidOrDisabledUser)
          else
            var u := users[id];
            Next(Caller(id, u.nombre, u.correo, u.permisos))
  }
}
