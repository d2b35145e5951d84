/** The login service's account lockout (login-service/src/services/authService.js):
    two in-memory maps, failed-attempt counts and lockout expiry times,
    both keyed by e-mail, driven by `login`; and the conflict check of
    `register`.

    The clock is a parameter (`now`, in milliseconds). The user service,
    bcrypt and jsonwebtoken are oracles: their answers are inputs. */
module AuthService {
  import opened Wrappers
  import opened JsText

  /** Consecutive failures that lock an account. */
  const MaxFailures: nat := 5

  /** How long a lock lasts: five minutes. */
  const LockoutMs: nat := 300000

  const InvalidCredentials := "Invalid email or password"

  /** A user record as the user service returns it. */
  datatype User = User(id: string, email: string, role: string, phoneNumber: string)

  /** `getUserByEmail(email)`: it throws, finds nobody, or finds a user. */
  datatype Lookup = LookupThrew(message: string) | NoUser | Found(user: User)

  /** `bcrypt.compare(password, user.password_hash)`. */
  datatype Compare = Matches | Mismatch | CompareThrew

  /** `jwt.sign(...)`. */
  datatype Sign = Signed(token: string) | SignThrew

  /** The user summary a successful login returns. */
  datatype UserSummary = UserSummary(id: string, email: string, role: string, phoneNumber: string)

  /** Response bodies. */
  datatype Body =
    | Message(message: string)
    | LoginOk(message: string, token: string, user: UserSummary)
    | Registered(message: string, token: string)

  datatype Response = Response(status: int, body: Body)

  /** The two maps: `failedAttempts` and `lockoutMap`. */
  datatype LockState = LockState(failed: map<string, nat>, lockout: map<string, int>)

  /** Between calls no stored count is zero or has reached the limit. */
  predicate ValidState(s: LockState)
  {
    forall e :: e in s.failed ==> 1 <= s.failed[e] < MaxFailures
  }

  /** `Math.ceil(d / q)` for a positive divisor. */
  function CeilDiv(d: nat, q: nat): (r: nat)
    requires q > 0
    ensures r * q >= d && (r == 0 || (r - 1) * q < d)
  {
    (d + q - 1) / q
  }

  /** The 429 response for a lock that expires at `unlock`. */
  function LockedResponse(unlock: int, now: int): Response
    requires now < unlock
  {
    Response(429, Message("Account temporarily locked. Try again in " + Decimal(CeilDiv(unlock - now, 1000)) + "s."))
  }

  /** `trackFailedAttempt(email)`: count one more failure; the fifth locks
      the account until five minutes from now and forgets the count. */
  function TrackFailed(s: LockState, email: string, now: int): LockState
  {
    var count := if email in s.failed then s.failed[email] else 0;
    var failed := s.failed[email := count + 1];
    if count + 1 >= MaxFailures then LockState(failed - {email}, s.lockout[email := now + LockoutMs])
    else LockState(failed, s.lockout)
  }

  /** The account is locked at `now`. */
  predicate Locked(s: LockState, email: string, now: int)
  {
    email in s.lockout && now < s.lockout[email]
  }

  /** `login({email, password})` at time `now`: the new maps and the
      response. */
  function LoginStep(s: LockState, email: string, now: int, lookup: Lookup, compare: Compare, sign: Sign)
    : (LockState, Response)
  {
    if Locked(s, email, now) then (s, LockedResponse(s.lockout[email], now))
    else
      var s1 := s.(lockout := s.lockout - {email});
      match lookup
      case LookupThrew(_) => (s1, Response(500, Message("Authentication service error")))
      case NoUser => (TrackFailed(s1, email, now), Response(401, Message(InvalidCredentials)))
      case Found(user) =>
        match compare
        case CompareThrew => (s1, Response(500, Message("Authentication service error")))
        case Mismatch => (TrackFailed(s1, email, now), Response(401, Message(InvalidCredentials)))
        case Matches =>
          var s2 := LockState(s1.failed - {email}, s1.lockout - {email});
          match sign
          case SignThrew => (s2, Response(500, Message("Authentication service error")))
          case Signed(token) =>
            (s2, Response(200, LoginOk("Login successful", token,
                                       UserSummary(user.id, user.email, user.role, user.phoneNumber))))
  }

  /** While locked, login answers 429 with the whole seconds left, at least
      one, makes no use of the user service, bcrypt or jsonwebtoken, and
      changes neither map. */
  lemma LockedRejects(s: LockState, email: string, now: int, lookup: Lookup, compare: Compare, sign: Sign,
                      lookup2: Lookup, compare2: Compare, sign2: Sign)
    requires Locked(s, email, now)
    ensures var (t, resp) := LoginStep(s, email, now, lookup, compare, sign);
      && t == s
      && resp.status == 429
      && CeilDiv(s.lockout[email] - now, 1000) >= 1
      && resp.body == Message("Account temporarily locked. Try again in "
                              + Decimal(CeilDiv(s.lockout[email] - now, 1000)) + "s.")
    ensures LoginStep(s, email, now, lookup, compare, sign) == LoginStep(s, email, now, lookup2, compare2, sign2)
  {
  }

  /** An expired lock is dropped and the attempt goes on as if there had
      been no lock. */
  lemma ExpiredLockDropped(s: LockState, email: string, now: int, lookup: Lookup, compare: Compare, sign: Sign)
    requires email in s.lockout && s.lockout[email] <= now
    ensures LoginStep(s, email, now, lookup, compare, sign)
         == LoginStep(s.(lockout := s.lockout - {email}), email, now, lookup, compare, sign)
  {
    var s1 := s.(lockout := s.lockout - {email});
    assert s1.(lockout := s1.lockout - {email}) == s1;
  }

  /** An unknown e-mail and a wrong password are indistinguishable: same
      response, same new state, one more counted failure. */
  lemma UnknownUserLikeWrongPassword(s: LockState, email: string, now: int, user: User, compare: Compare, sign: Sign)
    requires !Locked(s, email, now)
    ensures LoginStep(s, email, now, NoUser, compare, sign) == LoginStep(s, email, now, Found(user), Mismatch, sign)
    ensures LoginStep(s, email, now, NoUser, compare, sign).1 == Response(401, Message(InvalidCredentials))
    ensures LoginStep(s, email, now, NoUser, compare, sign).0
         == TrackFailed(s.(lockout := s.lockout - {email}), email, now)
  {
  }

  /** A failure below the limit counts one more; the fifth locks the
      account until `now + 300000` and removes the count. */
  lemma FailureCounting(s: LockState, email: string, now: int)
    requires ValidState(s)
    ensures var t := TrackFailed(s, email, now);
      var before := if email in s.failed then s.failed[email] else 0;
      && (before + 1 < MaxFailures ==> t.failed == s.failed[email := before + 1] && t.lockout == s.lockout)
      && (before + 1 == MaxFailures ==>
            && email !in t.failed && t.failed == s.failed - {email}
            && t.lockout == s.lockout[email := now + LockoutMs])
  {
    var before := if email in s.failed then s.failed[email] else 0;
    if before + 1 == MaxFailures {
      assert s.failed[email := before + 1] - {email} == s.failed - {email};
    }
  }

  /** Login keeps every stored count between 1 and 4. */
  lemma LoginPreservesValid(s: LockState, email: string, now: int, lookup: Lookup, compare: Compare, sign: Sign)
    requires ValidState(s)
    ensures ValidState(LoginStep(s, email, now, lookup, compare, sign).0)
  {
    var s1 := s.(lockout := s.lockout - {email});
    assert ValidState(s1);
  }

  /** Only the entries of the given e-mail change. */
  lemma LoginIsLocal(s: LockState, email: string, now: int, lookup: Lookup, compare: Compare, sign: Sign, other: string)
    requires other != email
    ensures var t := LoginStep(s, email, now, lookup, compare, sign).0;
      && (other in t.failed <==> other in s.failed)
      && (other in s.failed ==> t.failed[other] == s.failed[other])
      && (other in t.lockout <==> other in s.lockout)
      && (other in s.lockout ==> t.lockout[other] == s.lockout[other])
  {
  }

  /** A successful login clears both entries of the e-mail and returns 200
      with the token and the user summary. */
  lemma SuccessResets(s: LockState, email: string, now: int, user: User, token: string)
    requires !Locked(s, email, now)
    ensures var (t, resp) := LoginStep(s, email, now, Found(user), Matches, Signed(token));
      && email !in t.failed && email !in t.lockout
      && t.failed == s.failed - {email} && t.lockout == s.lockout - {email}
      && resp == Response(200, LoginOk("Login successful", token,
                                       UserSummary(user.id, user.email, user.role, user.phoneNumber)))
  {
  }

  /** `n` failed logins with an unknown e-mail at the times `nows`. */
  function FailLogins(s: LockState, email: string, nows: seq<int>): LockState
    decreases |nows|
  {
    if nows == [] then s
    else FailLogins(LoginStep(s, email, nows[0], NoUser, Mismatch, SignThrew).0, email, nows[1..])
  }

  /** From a clean slate, up to four failures are counted and nothing is
      locked. */
  lemma {:induction false} FailuresBelowLimit(s: LockState, email: string, nows: seq<int>, k: nat)
    requires email !in s.lockout
    requires (k == 0 && email !in s.failed) || (email in s.failed && s.failed[email] == k)
    requires k + |nows| < MaxFailures
    decreases |nows|
    ensures var t := FailLogins(s, email, nows);
      && email !in t.lockout
      && (|nows| + k == 0 || (email in t.failed && t.failed[email] == k + |nows|))
  {
    if nows != [] {
      var s1 := LoginStep(s, email, nows[0], NoUser, Mismatch, SignThrew).0;
      assert s.(lockout := s.lockout - {email}) == s;
      assert s1 == TrackFailed(s, email, nows[0]);
      FailuresBelowLimit(s1, email, nows[1..], k + 1);
    }
  }

  /** Five consecutive failed logins from a clean slate lock the account
      for five minutes from the fifth, and leave no count behind. */
  lemma {:induction false} FiveFailuresLock(s: LockState, email: string, nows: seq<int>)
    requires email !in s.lockout && email !in s.failed
    requires |nows| == MaxFailures
    ensures var t := FailLogins(s, email, nows);
      && email in t.lockout && t.lockout[email] == nows[4] + LockoutMs
      && email !in t.failed
  {
    FailuresBelowLimit(s, email, nows[..4], 0);
    var s4 := FailLogins(s, email, nows[..4]);
    FailLoginsSplit(s, email, nows[..4], nows[4..]);
    assert nows[..4] + nows[4..] == nows;
    assert nows[4..][1..] == [];
    var s5 := LoginStep(s4, email, nows[4], NoUser, Mismatch, SignThrew).0;
    assert s4.(lockout := s4.lockout - {email}) == s4;
    assert FailLogins(s4, email, nows[4..]) == s5;
  }

  /** Failing logins in two runs is failing them in one. */
  lemma {:induction false} FailLoginsSplit(s: LockState, email: string, a: seq<int>, b: seq<int>)
    ensures FailLogins(s, email, a + b) == FailLogins(FailLogins(s, email, a), email, b)
    decreases |a|
  {
    if a == [] {
      assert a + b == b;
    } else {
      assert (a + b)[0] == a[0] && (a + b)[1..] == a[1..] + b;
      FailLoginsSplit(LoginStep(s, email, a[0], NoUser, Mismatch, SignThrew).0, email, a[1..], b);
    }
  }

  /** The login service's two module-level maps. */
  class LoginService {
    var failedAttempts: map<string, nat>
    var lockoutMap: map<string, int>

    predicate Valid()
      reads this
    {
      ValidState(LockState(failedAttempts, lockoutMap))
    }

    constructor ()
      ensures Valid() && failedAttempts == map[] && lockoutMap == map[]
    {
      failedAttempts := map[];
      lockoutMap := map[];
    }

    /** `trackFailedAttempt(email)`. */
    method TrackFailedAttempt(email: string, now: int)
      modifies this
      ensures LockState(failedAttempts, lockoutMap) == TrackFailed(LockState(old(failedAttempts), old(lockoutMap)), email, now)
    {
      var count := if email in failedAttempts then failedAttempts[email] else 0;
      failedAttempts := failedAttempts[email := count + 1];
      if failedAttempts[email] >= MaxFailures {
        lockoutMap := lockoutMap[email := now + LockoutMs];
        failedAttempts := failedAttempts - {email};
      }
    }

    /** `login({email, password})`. */
    method Login(email: string, now: int, lookup: Lookup, compare: Compare, sign: Sign) returns (resp: Response)
      requires Valid()
      modifies this
      ensures Valid()
      ensures (LockState(failedAttempts, lockoutMap), resp)
           == LoginStep(LockState(old(failedAttempts), old(lockoutMap)), email, now, lookup, compare, sign)
    {
      LoginPreservesValid(LockState(failedAttempts, lockoutMap), email, now, lookup, compare, sign);
      if email in lockoutMap {
        var unlockTime := lockoutMap[email];
        if now < unlockTime {
          var remaining := CeilDiv(unlockTime - now, 1000);
          return Response(429, Message("Account temporarily locked. Try again in " + Decimal(remaining) + "s."));
        } else {
          lockoutMap := lockoutMap - {email};
        }
      } else {
        assert lockoutMap - {email} == lockoutMap;
      }
      match lookup {
        case LookupThrew(_) =>
          return Response(500, Message("Authentication service error"));
        case NoUser =>
          TrackFailedAttempt(email, now);
          return Response(401, Message(InvalidCredentials));
        case Found(user) =>
          match compare {
            case CompareThrew =>
              return Response(500, Message("Authentication service error"));
            case Mismatch =>
              TrackFailedAttempt(email, now);
              return Response(401, Message(InvalidCredentials));
            case Matches =>
          }
          failedAttempts := failedAttempts - {email};
          lockoutMap := lockoutMap - {email};
          match sign {
            case SignThrew =>
              return Response(500, Message("Authentication service error"));
            case Signed(token) =>
              return Response(200, LoginOk("Login successful", token,
                                           UserSummary(user.id, user.email, user.role, user.phoneNumber)));
          }
      }
    }
  }

  // ---------------------------------------------------------------------
  // register

  /** `bcrypt.hash(password, 10)` then `createUser(...)`: hashing throws
      (and the user service is not called), creation throws, or it returns
      the new user's id. */
  datatype Create = HashThrew | CreateThrew | Created(userId: string)

  /** The calls `register` makes to the user service. */
  datatype UserCall =
    | GetUserByEmail(email: string)
    | CreateUser(email: string, username: string, phoneNumber: string, role: string)

  /** `register({email, username, phoneNumber, password, role})`: the calls
      made and the response. */
  function Register(email: string, username: string, phoneNumber: string, role: string,
                    lookup: Lookup, create: Create, sign: Sign): (r: (seq<UserCall>, Response))
    ensures |r.0| >= 1 && r.0[0] == GetUserByEmail(email)
    ensures r.1.status == 409 <==> lookup.Found?
    ensures r.1.status == 409 ==> r.0 == [GetUserByEmail(email)] && r.1.body == Message("User already exists")
    ensures r.1.status == 201 <==> lookup.NoUser? && create.Created? && sign.Signed?
    ensures r.1.status == 201 ==>
      && r.0 == [GetUserByEmail(email), CreateUser(email, username, phoneNumber, role)]
      && r.1.body == Registered("Registration successful", sign.token)
    ensures r.1.status in {201, 409, 500}
    ensures r.1.status == 500 ==> r.1.body == Message("Registration failed")
    ensures r.1.status == 500 ==>
      r.0 == if lookup.NoUser? && !create.HashThrew?
             then [GetUserByEmail(email), CreateUser(email, username, phoneNumber, role)]
             else [GetUserByEmail(email)]
    ensures CreateUser(email, username, phoneNumber, role) in r.0 <==> lookup.NoUser? && !create.HashThrew?
  {
    match lookup
    case LookupThrew(_) => ([GetUserByEmail(email)], Response(500, Message("Registration failed")))
    case Found(_) => ([GetUserByEmail(email)], Response(409, Message("User already exists")))
    case NoUser =>
      var calls := [GetUserByEmail(email), CreateUser(email, username, phoneNumber, role)];
      match create
      case HashThrew => ([GetUserByEmail(email)], Response(500, Message("Registration failed")))
      case CreateThrew => (calls, Response(500, Message("Registration failed")))
      case Created(_) =>
        match sign
        case SignThrew => (calls, Response(500, Message("Registration failed")))
        case Signed(token) => (calls, Response(201, Registered("Registration successful", token)))
  }
}
