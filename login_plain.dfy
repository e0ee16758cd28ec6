/**
 * Login by email or nick and password (server/users/auth/login/plain_exec.js):
 * an ordered chain of guards (parameters, the total-rate captcha, the per-IP
 * limit), the lookup of the user and its plain authlink, the password check
 * and, after a successful login, the removal of the oauth keys from the
 * session.
 *
 * The rate limiter's answers, the captcha service's verdict and bcrypt's
 * password check are foreign: the first two are inputs (`Checks`), the last
 * a function parameter. The rate limiter's own counters are modelled as the
 * number of updates each hook makes.
 */
module LoginPlain {
  import opened Wrappers
  import opened Json

  type Id = string

  datatype User = User(id: Id, nick: string)

  /** An `AuthLink` record: `kind` is its `type` field, `exist` its `exist` field. */
  datatype AuthLink = AuthLink(userId: Id, email: string, kind: string, exist: bool, passHash: string)

  datatype Db = Db(users: seq<User>, authLinks: seq<AuthLink>)

  datatype Params = Params(emailOrNick: string, pass: string, captchaResponse: string)

  /** What the rate limiter and the captcha service answer for this request. */
  datatype Checks = Checks(totalExceeded: bool, captchaValid: bool, ipExceeded: bool)

  /** A CLIENT_ERROR response. */
  datatype Failure = Failure(message: string, fields: seq<string>, captcha: bool)

  /** What the lookups leave in `env.data.user` and `env.data.authLink`. */
  datatype Found = Found(user: Option<User>, authLink: Option<AuthLink>)

  /** The outcome of the request and whether the rate limits were updated. */
  datatype Decision = Decision(failure: Option<Failure>, found: Found, limitsUpdated: bool)

  const LoginFields := ["email_or_nick", "pass"]
  const CaptchaFields := ["recaptcha_response_field"]

  /** Mongo's `findOne`: the first record, in store order, that satisfies the query. */
  function First<T(==)>(s: seq<T>, p: T -> bool): (r: Option<T>)
    ensures r.Some? ==> r.value in s && p(r.value)
    ensures r.Some? ==> exists i :: 0 <= i < |s| && s[i] == r.value && forall j :: 0 <= j < i ==> !p(s[j])
    ensures r.None? <==> forall x :: x in s ==> !p(x)
  {
    if s == [] then None
    else if p(s[0]) then Some(s[0])
    else
      var r := First(s[1..], p);
      assert forall x :: x in s[1..] ==> x in s;
      assert forall x :: x in s ==> x == s[0] || x in s[1..];
      if r.Some? then
        var i :| 0 <= i < |s[1..]| && s[1..][i] == r.value && forall j :: 0 <= j < i ==> !p(s[1..][j]);
        assert s[i + 1] == r.value && forall j :: 0 <= j < i + 1 ==> !p(s[j]);
        r
      else r
  }

  /** The authlink query of `find_authlink_by_email`. */
  predicate PlainWithEmail(email: string, l: AuthLink) {
    l.email == email && l.kind == "plain" && l.exist
  }

  /** The authlink query of `find_authlink_by_nick`. */
  predicate PlainOfUser(userId: Id, l: AuthLink) {
    l.userId == userId && l.kind == "plain" && l.exist
  }

  /** `check_params`: an empty `email_or_nick` or `pass` fails before any query. */
  function CheckParams(params: Params): (r: Option<Failure>)
    ensures r.Some? <==> params.emailOrNick == [] || params.pass == []
    ensures r.Some? ==> r.value == Failure("login_failed", LoginFields, false)
  {
    if params.emailOrNick == [] || params.pass == [] then Some(Failure("login_failed", LoginFields, false))
    else None
  }

  /** `check_total_rate_limit` once the total limit has answered; no captcha is asked for below it. */
  function CaptchaCheck(params: Params, checks: Checks): Option<Failure> {
    if !checks.totalExceeded then None
    else if params.captchaResponse == [] then Some(Failure("missed_captcha_solution", [], true))
    else if !checks.captchaValid then Some(Failure("wrong_captcha_solution", CaptchaFields, true))
    else None
  }

  /** `check_ip_rate_limit`. */
  function IpCheck(checks: Checks): Option<Failure> {
    if checks.ipExceeded then Some(Failure("too_many_attempts", CaptchaFields, checks.totalExceeded)) else None
  }

  /** `find_authlink_by_email`: both fields are set, or neither. */
  function ByEmail(db: Db, emailOrNick: string, prior: Found): Found {
    if prior.user.Some? && prior.authLink.Some? then prior
    else
      match First(db.authLinks, (l: AuthLink) => PlainWithEmail(emailOrNick, l))
      case None => prior
      case Some(link) =>
        match First(db.users, (u: User) => u.id == link.userId)
        case None => prior
        case Some(user) => Found(Some(user), Some(link))
  }

  /**
   * `find_authlink_by_nick`. When the user is found but has no plain
   * authlink, the handler does not return after its first callback: it goes
   * on to store the user with a null authlink.
   */
  function ByNick(db: Db, emailOrNick: string, prior: Found): Found {
    if prior.user.Some? && prior.authLink.Some? then prior
    else
      match First(db.users, (u: User) => u.nick == emailOrNick)
      case None => prior
      case Some(user) => Found(Some(user), First(db.authLinks, (l: AuthLink) => PlainOfUser(user.id, l)))
  }

  /** `login_do`: a user with an authlink whose password matches. */
  function LoginCheck(found: Found, pass: string, captchaRequired: bool, checkPass: (AuthLink, string) -> bool)
    : Option<Failure>
  {
    if found.user.None? || found.authLink.None? then Some(Failure("login_failed", LoginFields, captchaRequired))
    else if !checkPass(found.authLink.value, pass) then Some(Failure("login_failed", LoginFields, captchaRequired))
    else None
  }

  /** The whole chain: the first hook that fails decides the response. */
  function Decide(db: Db, params: Params, checks: Checks, checkPass: (AuthLink, string) -> bool): Decision {
    var none := Found(None, None);
    if CheckParams(params).Some? then Decision(CheckParams(params), none, false)
    else if CaptchaCheck(params, checks).Some? then Decision(CaptchaCheck(params, checks), none, true)
    else if IpCheck(checks).Some? then Decision(IpCheck(checks), none, true)
    else
      var found := ByNick(db, params.emailOrNick, ByEmail(db, params.emailOrNick, none));
      var failure := LoginCheck(found, params.pass, checks.totalExceeded, checkPass);
      Decision(failure, found, failure.Some?)
  }

  /** Empty parameters fail with `login_failed` and no captcha, before the limits or the store are consulted. */
  lemma EmptyParamsFailFirst(db: Db, params: Params, checks: Checks, checkPass: (AuthLink, string) -> bool)
    requires params.emailOrNick == [] || params.pass == []
    ensures Decide(db, params, checks, checkPass) ==
      Decision(Some(Failure("login_failed", ["email_or_nick", "pass"], false)), Found(None, None), false)
  {
  }

  /**
   * Below the total limit the captcha is not checked: the service's verdict
   * and the response field make no difference, and no failure asks for a
   * captcha.
   */
  lemma CaptchaOnlyWhenExceeded(db: Db, params: Params, checks: Checks, checkPass: (AuthLink, string) -> bool,
                                captchaValid: bool, captchaResponse: string)
    requires !checks.totalExceeded
    ensures Decide(db, params, checks, checkPass) ==
      Decide(db, params.(captchaResponse := captchaResponse), checks.(captchaValid := captchaValid), checkPass)
    ensures var d := Decide(db, params, checks, checkPass);
      d.failure.Some? ==> !d.failure.value.captcha
  {
  }

  /** Above the total limit, a missing or a wrong captcha solution fails and updates the limits. */
  lemma CaptchaFailures(db: Db, params: Params, checks: Checks, checkPass: (AuthLink, string) -> bool)
    requires CheckParams(params).None? && checks.totalExceeded
    ensures var d := Decide(db, params, checks, checkPass);
      && (params.captchaResponse == [] ==>
            d == Decision(Some(Failure("missed_captcha_solution", [], true)), Found(None, None), true))
      && (params.captchaResponse != [] && !checks.captchaValid ==>
            d == Decision(Some(Failure("wrong_captcha_solution", ["recaptcha_response_field"], true)),
                          Found(None, None), true))
  {
  }

  /** Past the captcha, an exceeded per-IP limit fails with `too_many_attempts` and updates the limits. */
  lemma IpLimitFails(db: Db, params: Params, checks: Checks, checkPass: (AuthLink, string) -> bool)
    requires CheckParams(params).None? && CaptchaCheck(params, checks).None? && checks.ipExceeded
    ensures Decide(db, params, checks, checkPass) ==
      Decision(Some(Failure("too_many_attempts", ["recaptcha_response_field"], checks.totalExceeded)),
               Found(None, None), true)
  {
  }

  /**
   * Every failure updates the rate limits, except the parameter check that
   * runs before them; a success does not update them.
   */
  lemma FailuresUpdateLimits(db: Db, params: Params, checks: Checks, checkPass: (AuthLink, string) -> bool)
    ensures var d := Decide(db, params, checks, checkPass);
      d.limitsUpdated <==> d.failure.Some? && CheckParams(params).None?
  {
  }

  /**
   * The email lookup comes first: a plain, existing authlink with that email
   * whose user exists decides the login, and the nick lookup is skipped.
   */
  lemma EmailBeforeNick(db: Db, emailOrNick: string, link: AuthLink, user: User)
    requires First(db.authLinks, (l: AuthLink) => PlainWithEmail(emailOrNick, l)) == Some(link)
    requires First(db.users, (u: User) => u.id == link.userId) == Some(user)
    ensures ByNick(db, emailOrNick, ByEmail(db, emailOrNick, Found(None, None))) == Found(Some(user), Some(link))
    ensures link.kind == "plain" && link.exist && link.email == emailOrNick && user.id == link.userId
  {
  }

  /**
   * A login succeeds exactly when the guards pass, the lookups leave a user
   * with an authlink, and the password matches that authlink; the authlink is
   * then plain and existing, and belongs to the user.
   */
  lemma SuccessMeansMatchingPlainLink(db: Db, params: Params, checks: Checks, checkPass: (AuthLink, string) -> bool)
    ensures var d := Decide(db, params, checks, checkPass);
      d.failure.None? <==>
        && CheckParams(params).None? && CaptchaCheck(params, checks).None? && IpCheck(checks).None?
        && d.found.user.Some? && d.found.authLink.Some? && checkPass(d.found.authLink.value, params.pass)
    ensures var d := Decide(db, params, checks, checkPass);
      d.failure.None? ==>
        && d.found.authLink.value.kind == "plain" && d.found.authLink.value.exist
        && d.found.authLink.value.userId == d.found.user.value.id
  {
    var d := Decide(db, params, checks, checkPass);
    if d.failure.None? {
      var none := Found(None, None);
      var byEmail := ByEmail(db, params.emailOrNick, none);
      if byEmail.user.Some? && byEmail.authLink.Some? {
        var link := First(db.authLinks, (l: AuthLink) => PlainWithEmail(params.emailOrNick, l)).value;
        assert PlainWithEmail(params.emailOrNick, link);
      } else {
        var user := First(db.users, (u: User) => u.nick == params.emailOrNick).value;
        var link := First(db.authLinks, (l: AuthLink) => PlainOfUser(user.id, l)).value;
        assert PlainOfUser(user.id, link);
      }
    }
  }

  /**
   * The nick lookup's fall-through stores a user without an authlink; the
   * login then fails with `login_failed` whether `login_do` sees the state
   * before or after that store.
   */
  lemma NickFallThroughFails(db: Db, params: Params, checks: Checks, checkPass: (AuthLink, string) -> bool,
                             user: User)
    requires CheckParams(params).None? && CaptchaCheck(params, checks).None? && IpCheck(checks).None?
    requires ByEmail(db, params.emailOrNick, Found(None, None)) == Found(None, None)
    requires First(db.users, (u: User) => u.nick == params.emailOrNick) == Some(user)
    requires First(db.authLinks, (l: AuthLink) => PlainOfUser(user.id, l)).None?
    ensures Decide(db, params, checks, checkPass) ==
      Decision(Some(Failure("login_failed", ["email_or_nick", "pass"], checks.totalExceeded)),
               Found(Some(user), None), true)
    ensures LoginCheck(Found(None, None), params.pass, checks.totalExceeded, checkPass) ==
      Decide(db, params, checks, checkPass).failure
  {
  }

  /** The rate limiter's state: how often each IP and the total counter were touched. */
  class RateLimits {
    var ipUpdates: map<string, nat>
    var totalUpdates: nat

    constructor ()
      ensures ipUpdates == map[] && totalUpdates == 0
    {
      ipUpdates := map[];
      totalUpdates := 0;
    }

    /** `updateRateLimits`: one hit on the client's IP and one on the total. */
    method Update(ip: string)
      modifies this
      ensures ipUpdates == old(ipUpdates)[ip := Count(old(ipUpdates), ip) + 1]
      ensures totalUpdates == old(totalUpdates) + 1
    {
      ipUpdates := ipUpdates[ip := Count(ipUpdates, ip) + 1];
      totalUpdates := totalUpdates + 1;
    }
  }

  function Count(m: map<string, nat>, ip: string): nat {
    if ip in m then m[ip] else 0
  }

  /** The request's `env`: `env.data` and `env.session`. */
  class LoginEnv {
    var user: Option<User>
    var authLink: Option<AuthLink>
    var captchaRequired: bool
    var session: map<string, Value>

    constructor (session: map<string, Value>)
      ensures user.None? && authLink.None? && !captchaRequired && this.session == session
    {
      user := None;
      authLink := None;
      captchaRequired := false;
      this.session := session;
    }

    /** `check_total_rate_limit`. */
    method CheckTotalRateLimit(params: Params, checks: Checks, ip: string, limits: RateLimits)
      returns (r: Option<Failure>)
      modifies this, limits
      ensures r == CaptchaCheck(params, checks)
      ensures captchaRequired == checks.totalExceeded
      ensures user == old(user) && authLink == old(authLink) && session == old(session)
      ensures r.Some? ==> limits.totalUpdates == old(limits.totalUpdates) + 1 &&
                          limits.ipUpdates == old(limits.ipUpdates)[ip := Count(old(limits.ipUpdates), ip) + 1]
      ensures r.None? ==> limits.totalUpdates == old(limits.totalUpdates) && limits.ipUpdates == old(limits.ipUpdates)
    {
      captchaRequired := checks.totalExceeded;
      if !captchaRequired {
        return None;
      }
      if params.captchaResponse == [] {
        limits.Update(ip);
        return Some(Failure("missed_captcha_solution", [], captchaRequired));
      }
      if !checks.captchaValid {
        limits.Update(ip);
        return Some(Failure("wrong_captcha_solution", CaptchaFields, captchaRequired));
      }
      return None;
    }

    /** `check_ip_rate_limit`. */
    method CheckIpRateLimit(checks: Checks, ip: string, limits: RateLimits) returns (r: Option<Failure>)
      requires captchaRequired == checks.totalExceeded
      modifies limits
      ensures r == IpCheck(checks)
      ensures r.Some? ==> limits.totalUpdates == old(limits.totalUpdates) + 1 &&
                          limits.ipUpdates == old(limits.ipUpdates)[ip := Count(old(limits.ipUpdates), ip) + 1]
      ensures r.None? ==> limits.totalUpdates == old(limits.totalUpdates) && limits.ipUpdates == old(limits.ipUpdates)
    {
      if checks.ipExceeded {
        limits.Update(ip);
        return Some(Failure("too_many_attempts", CaptchaFields, captchaRequired));
      }
      return None;
    }

    /** `find_authlink_by_email`. */
    method FindAuthLinkByEmail(db: Db, emailOrNick: string)
      modifies this
      ensures Found(user, authLink) == ByEmail(db, emailOrNick, old(Found(user, authLink)))
      ensures captchaRequired == old(captchaRequired) && session == old(session)
    {
      if user.Some? && authLink.Some? {
        return;
      }
      var link := First(db.authLinks, (l: AuthLink) => PlainWithEmail(emailOrNick, l));
      if link.None? {
        return;
      }
      var found := First(db.users, (u: User) => u.id == link.value.userId);
      if found.None? {
        return;
      }
      user := found;
      authLink := link;
    }

    /**
     * `find_authlink_by_nick`; `callbacks` is how many times the hook calls
     * its callback: twice when the user has no plain authlink.
     */
    method FindAuthLinkByNick(db: Db, emailOrNick: string) returns (callbacks: nat)
      modifies this
      ensures Found(user, authLink) == ByNick(db, emailOrNick, old(Found(user, authLink)))
      ensures captchaRequired == old(captchaRequired) && session == old(session)
      ensures callbacks == (if old(user.Some? && authLink.Some?) then 1
                            else if First(db.users, (u: User) => u.nick == emailOrNick).None? then 1
                            else if authLink.None? then 2 else 1)
    {
      if user.Some? && authLink.Some? {
        return 1;
      }
      var found := First(db.users, (u: User) => u.nick == emailOrNick);
      if found.None? {
        return 1;
      }
      var link := First(db.authLinks, (l: AuthLink) => PlainOfUser(found.value.id, l));
      callbacks := 0;
      if link.None? {
        callbacks := callbacks + 1;
      }
      user := found;
      authLink := link;
      callbacks := callbacks + 1;
    }

    /** `login_do`. */
    method LoginDo(pass: string, checkPass: (AuthLink, string) -> bool, ip: string, limits: RateLimits)
      returns (r: Option<Failure>)
      modifies limits
      ensures r == LoginCheck(Found(user, authLink), pass, captchaRequired, checkPass)
      ensures r.Some? ==> limits.totalUpdates == old(limits.totalUpdates) + 1 &&
                          limits.ipUpdates == old(limits.ipUpdates)[ip := Count(old(limits.ipUpdates), ip) + 1]
      ensures r.None? ==> limits.totalUpdates == old(limits.totalUpdates) && limits.ipUpdates == old(limits.ipUpdates)
    {
      if user.None? || authLink.None? {
        limits.Update(ip);
        return Some(Failure("login_failed", LoginFields, captchaRequired));
      }
      if !checkPass(authLink.value, pass) {
        limits.Update(ip);
        return Some(Failure("login_failed", LoginFields, captchaRequired));
      }
      return None;
    }

    /** `clear_oauth_data`. */
    method ClearOauthData()
      modifies this
      ensures session == old(session) - {"state", "oauth"}
      ensures user == old(user) && authLink == old(authLink) && captchaRequired == old(captchaRequired)
    {
      session := session - {"state"};
      session := session - {"oauth"};
    }

    /**
     * The request: the before hooks, the on hooks and, on success only, the
     * after hook. The response and the lookups' result are those of `Decide`;
     * the limits are updated once on exactly the failures `Decide` marks.
     */
    method Run(db: Db, params: Params, checks: Checks, checkPass: (AuthLink, string) -> bool,
               ip: string, limits: RateLimits) returns (r: Option<Failure>)
      requires user.None? && authLink.None?
      modifies this, limits
      ensures var d := Decide(db, params, checks, checkPass);
        && r == d.failure
        && (r.None? ==> Found(user, authLink) == d.found)
        && (d.limitsUpdated ==>
              limits.totalUpdates == old(limits.totalUpdates) + 1 &&
              limits.ipUpdates == old(limits.ipUpdates)[ip := Count(old(limits.ipUpdates), ip) + 1])
        && (!d.limitsUpdated ==>
              limits.totalUpdates == old(limits.totalUpdates) && limits.ipUpdates == old(limits.ipUpdates))
        && session == (if r.None? then old(session) - {"state", "oauth"} else old(session))
    {
      ghost var d := Decide(db, params, checks, checkPass);
      r := CheckParams(params);
      if r.Some? {
        assert d == Decision(r, Found(None, None), false);
        return;
      }
      r := CheckTotalRateLimit(params, checks, ip, limits);
      if r.Some? {
        assert d == Decision(r, Found(None, None), true);
        return;
      }
      r := CheckIpRateLimit(checks, ip, limits);
      if r.Some? {
        assert d == Decision(r, Found(None, None), true);
        return;
      }
      ghost var ipUpdates0, totalUpdates0 := limits.ipUpdates, limits.totalUpdates;
      FindAuthLinkByEmail(db, params.emailOrNick);
      var _ := FindAuthLinkByNick(db, params.emailOrNick);
      assert Found(user, authLink) == d.found;
      assert limits.ipUpdates == ipUpdates0 && limits.totalUpdates == totalUpdates0;
      r := LoginDo(params.pass, checkPass, ip, limits);
      assert r == d.failure;
      if r.Some? {
        return;
      }
      ClearOauthData();
    }
  }
}
