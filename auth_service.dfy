/** The authentication service: the in-memory admin-session store, the
    salted password check, the byte-wise secret comparison and the HTTP
    Basic `authorizer` middleware. */
module Auth {
  import opened Js
  import opened JsStrings

  /** The fixed, non-secret salt appended to every password before hashing. */
  const HashSalt := "S4kXGx5W5LatEXhk2UGbHBJM"
  const AdminCookieName := "ovCallAdminToken"
  const Unauthorized := "Unauthorized"
  const ExceptionText := "Exception"

  type Byte = bv8

  /** A user document. The schema does not require `password`, so a stored
      document may have none (`undefined`). */
  datatype UserRecord = UserRecord(userid: string, password: Option<string>)

  /** The answer of the user store to `findOne({userid})`: the record, no
      record, or an exception. */
  datatype UserLookup = Found(record: UserRecord) | NotFound | LookupFailed

  /** What the middleware does: call `next()`, or answer with a status and a
      plain-text body. */
  datatype AuthOutcome = Next | Reply(status: int, text: string)

  /** The string bcrypt compares against the stored hash. */
  function SaltedCandidate(input: string): (candidate: string)
    ensures |candidate| == |input| + |HashSalt|
    ensures candidate[..|input|] == input && candidate[|input|..] == HashSalt
  {
    input + HashSalt
  }

  /** Two different passwords never give the same candidate. */
  lemma SaltedCandidateInjective(x: string, y: string)
    requires SaltedCandidate(x) == SaltedCandidate(y)
    ensures x == y
  {
    assert |x| == |y|;
    assert x == SaltedCandidate(x)[..|x|];
  }

  /** The length of every hash bcrypt produces. */
  const BcryptHashLength := 60

  /** bcryptjs `compare(candidate, hash)`, whose promise resolves to
      `Some(answer)` or rejects (`None`). A hash that is not a string is
      rejected outright, and a string of the wrong length never matches; a
      hash of the right length is checked by `hashCompare`, which rejects
      when the hash's salt cannot be parsed. */
  function BcryptCompare(candidate: string, hash: Option<string>,
                         hashCompare: (string, string) -> Option<bool>): (r: Option<bool>)
    ensures hash == None ==> r == None
    ensures hash.Some? && |hash.value| != BcryptHashLength ==> r == Some(false)
    ensures r == Some(true) ==> hash.Some? && |hash.value| == BcryptHashLength
  {
    match hash
    case None => None
    case Some(h) => if |h| != BcryptHashLength then Some(false) else hashCompare(candidate, h)
  }

  /** The user name of a decoded Basic credential: the text before the first ':'. */
  function UserOf(credential: string): (user: string)
    ensures |user| <= |credential| && credential[..|user|] == user
    ensures |user| < |credential| ==> credential[|user|] == ':'
  {
    SplitColon(credential)[0]
  }

  /** The password of a decoded Basic credential: the text between the first
      and the second ':', or `undefined` when there is no ':'. */
  function PasswordOf(credential: string): (pass: Option<string>)
    ensures pass.Some? <==> |UserOf(credential)| < |credential|
  {
    var parts := SplitColon(credential);
    if |parts| > 1 then Some(parts[1]) else None
  }

  /** The string JavaScript's `+` makes of the password: `undefined`
      becomes the text "undefined". */
  function PasswordArgument(pass: Option<string>): (text: string)
    ensures text == "" ==> pass == Some("")
    ensures pass.Some? ==> text == pass.value
  {
    match pass
    case Some(p) => p
    case None => "undefined"
  }

  /** The user name is the colon-free prefix that the first ':' ends; there is
      a password exactly when the credential holds a ':'. */
  lemma UserIsTextBeforeFirstColon(credential: string)
    ensures var user := UserOf(credential);
      && ColonFree(user)
      && |user| <= |credential| && credential[..|user|] == user
      && (|user| < |credential| ==> credential[|user|] == ':')
    ensures PasswordOf(credential).Some? <==> ':' in credential
  {
    SplitPiecesColonFree(credential);
    var i := FirstColon(credential);
    if i < |credential| {
      assert credential[i] == ':';
    } else {
      assert ColonFree(credential);
    }
  }

  /** The ordinary credential `user:pass` splits into exactly that user and
      that password. */
  lemma PlainCredentialSplits(user: string, pass: string)
    requires ColonFree(user) && ColonFree(pass)
    ensures UserOf(user + ":" + pass) == user
    ensures PasswordOf(user + ":" + pass) == Some(pass)
  {
    SplitColonFree(pass);
    SplitAfterHead(user, pass);
    var parts := SplitColon(user + ":" + pass);
    assert parts == [user] + [pass];
    assert parts[0] == user && parts[1] == pass;
  }

  /** A password holding ':' is cut at its first ':', unlike the rule of
      section 2 of RFC 7617 that the password is everything after the first
      colon. */
  lemma PasswordStopsAtSecondColon(user: string, pass: string, rest: string)
    requires ColonFree(user) && ColonFree(pass)
    ensures UserOf(user + ":" + pass + ":" + rest) == user
    ensures PasswordOf(user + ":" + pass + ":" + rest) == Some(pass)
  {
    var credential, tail := user + ":" + pass + ":" + rest, pass + ":" + rest;
    assert credential == user + ":" + tail;
    SplitAfterHead(user, tail);
    SplitAfterHead(pass, rest);
    var parts := SplitColon(credential);
    assert parts == [user] + ([pass] + SplitColon(rest));
    assert parts[0] == user && parts[1] == pass;
  }

  lemma UndefinedIsColonFree()
    ensures ColonFree("undefined")
  {
    var undef := "undefined";
    forall j | 0 <= j < |undef| ensures undef[j] != ':' {
      assert undef[j] in "undefind";
    }
  }

  /** A credential without ':' is checked with the password "undefined":
      it is indistinguishable from the same user with that literal password. */
  lemma MissingPasswordReadsUndefined(user: string)
    requires ColonFree(user)
    ensures UserOf(user) == UserOf(user + ":" + "undefined") == user
    ensures PasswordArgument(PasswordOf(user)) == PasswordArgument(PasswordOf(user + ":" + "undefined"))
  {
    UndefinedIsColonFree();
    SplitColonFree(user);
    SplitColonFree("undefined");
    SplitAfterHead(user, "undefined");
    var parts := SplitColon(user + ":" + "undefined");
    assert parts == [user] + ["undefined"];
    assert PasswordOf(user) == None && PasswordOf(user + ":" + "undefined") == Some("undefined");
  }

  class AuthService {
    /** Admin session id -> expiry time in milliseconds since the epoch. */
    var adminSessions: map<string, int>

    constructor ()
      ensures adminSessions == map[]
    {
      adminSessions := map[];
    }

    /** An admin session is valid while it is stored and its expiry lies
        strictly after `now`; an empty or missing id is never valid. */
    function IsAdminSessionValid(sessionId: string, now: int): (valid: bool)
      reads this
      ensures sessionId == "" ==> !valid
      ensures sessionId !in adminSessions ==> !valid
      ensures valid <==> sessionId != "" && sessionId in adminSessions && now < adminSessions[sessionId]
    {
      if sessionId == "" then false
      else sessionId in adminSessions && adminSessions[sessionId] > now
    }

    /** There is no grace period: a session is valid one millisecond before
        its expiry and invalid at the expiry itself. */
    lemma ExpiryIsStrict(sessionId: string)
      requires sessionId != "" && sessionId in adminSessions
      ensures IsAdminSessionValid(sessionId, adminSessions[sessionId] - 1)
      ensures !IsAdminSessionValid(sessionId, adminSessions[sessionId])
    {
    }

    /** Reading does not renew: a session invalid at some time stays invalid
        at every later time. */
    lemma ExpiredStaysExpired(sessionId: string, now: int, later: int)
      requires now <= later
      requires !IsAdminSessionValid(sessionId, now)
      ensures !IsAdminSessionValid(sessionId, later)
    {
    }

    /** `checkPassword`: bcrypt's comparison of the salted input with the
        stored hash; `None` when that comparison rejects. */
    function CheckPassword(input: string, storedHash: Option<string>,
                           hashCompare: (string, string) -> Option<bool>): (r: Option<bool>)
      ensures storedHash == None ==> r == None
      ensures r == Some(true) ==>
        && storedHash.Some? && |storedHash.value| == BcryptHashLength
        && hashCompare(input + HashSalt, storedHash.value) == Some(true)
      ensures storedHash.Some? && |storedHash.value| == BcryptHashLength ==>
        r == hashCompare(input + HashSalt, storedHash.value)
    {
      BcryptCompare(SaltedCandidate(input), storedHash, hashCompare)
    }

    /** `safeCompare` on the UTF-8 bytes of its two arguments: both are
        written into buffers of `a`'s length (so `b` is cut or zero-padded),
        the buffers are compared, and the lengths must agree too. */
    method SafeCompare(a: seq<Byte>, b: seq<Byte>) returns (equal: bool)
      ensures equal <==> a != [] && b != [] && a == b
    {
      if a != [] && b != [] {
        var aLength, bLength := |a|, |b|;
        var aBuffer := new Byte[aLength](_ => 0);
        var _ := Write(aBuffer, a);
        var bBuffer := new Byte[aLength](_ => 0);
        var bWritten := Write(bBuffer, b);
        var same := TimingSafeEqual(aBuffer, bBuffer);
        equal := same && aLength == bLength;
        assert aBuffer[..] == a;
        if aLength == bLength {
          assert bBuffer[..] == bBuffer[..bWritten] == b;
        }
      } else {
        equal := false;
      }
    }

    /** The `authorizer` middleware, once the `Authorization` header has been
        base64-decoded into `credential`. `privateAccess` is the
        CALL_PRIVATE_ACCESS setting, `findUser` the user store and
        `hashCompare` bcrypt's check of a well-formed hash. A rejected lookup
        or a rejected comparison both land in the `catch` and give 500. */
    method Authorizer(privateAccess: string, credential: string,
                      findUser: string -> UserLookup,
                      hashCompare: (string, string) -> Option<bool>)
      returns (outcome: AuthOutcome)
      ensures privateAccess != "ENABLED" ==> outcome == Next
      ensures outcome == Next <==>
        || privateAccess != "ENABLED"
        || (&& findUser(UserOf(credential)).Found?
            && CheckPassword(PasswordArgument(PasswordOf(credential)),
                             findUser(UserOf(credential)).record.password, hashCompare) == Some(true))
      ensures outcome == Reply(500, ExceptionText) <==>
        && privateAccess == "ENABLED"
        && (|| findUser(UserOf(credential)).LookupFailed?
            || (&& findUser(UserOf(credential)).Found?
                && CheckPassword(PasswordArgument(PasswordOf(credential)),
                                 findUser(UserOf(credential)).record.password, hashCompare) == None))
      ensures privateAccess == "ENABLED" && findUser(UserOf(credential)).Found?
              && findUser(UserOf(credential)).record.password == None ==>
        outcome == Reply(500, ExceptionText)
      ensures outcome == Next || outcome == Reply(401, Unauthorized) || outcome == Reply(500, ExceptionText)
    {
      if privateAccess == "ENABLED" {
        var auth := SplitColon(credential);
        var user := auth[0];
        var pass := if |auth| > 1 then Some(auth[1]) else None;
        var data := findUser(user);
        match data {
          case LookupFailed =>
            outcome := Reply(500, ExceptionText);
          case NotFound =>
            outcome := Reply(401, Unauthorized);
          case Found(record) =>
            var validAuth := CheckPassword(PasswordArgument(pass), record.password, hashCompare);
            match validAuth {
              case None =>
                outcome := Reply(500, ExceptionText);
              case Some(true) =>
                outcome := Next;
              case Some(false) =>
                outcome := Reply(401, Unauthorized);
            }
        }
      } else {
        outcome := Next;
      }
    }
  }

  /** `buffer.write(bytes)`: copies as many bytes as fit from the start and
      returns how many it wrote; the rest of the buffer is left as it was. */
  method Write(buffer: array<Byte>, bytes: seq<Byte>) returns (written: nat)
    modifies buffer
    ensures written <= buffer.Length && written <= |bytes|
    ensures written == buffer.Length || written == |bytes|
    ensures buffer[..written] == bytes[..written]
    ensures buffer[written..] == old(buffer[written..])
  {
    written := 0;
    while written < buffer.Length && written < |bytes|
      invariant written <= buffer.Length && written <= |bytes|
      invariant buffer[..written] == bytes[..written]
      invariant buffer[written..] == old(buffer[written..])
    {
      buffer[written] := bytes[written];
      written := written + 1;
    }
  }

  /** `crypto.timingSafeEqual` on two buffers of equal length: every byte
      pair is visited, and the differences are or-ed together. */
  method TimingSafeEqual(x: array<Byte>, y: array<Byte>) returns (equal: bool)
    requires x.Length == y.Length
    ensures equal <==> x[..] == y[..]
  {
    var diff: Byte := 0;
    var i := 0;
    while i < x.Length
      invariant 0 <= i <= x.Length
      invariant diff == 0 <==> x[..i] == y[..i]
    {
      assert x[..i + 1] == x[..i] + [x[i]] && y[..i + 1] == y[..i] + [y[i]];
      diff := diff | (x[i] ^ y[i]);
      i := i + 1;
    }
    equal := diff == 0;
    assert x[..] == x[..i] && y[..] == y[..i];
  }
}
