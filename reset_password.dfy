/**
 * Applying a new password from a reset token
 * (server/users/auth/reset_password/change_exec.js): the password, token,
 * authlink and provider checks in order, then the provider's new password,
 * the removal of every reset token of that provider, the save of the
 * authlink and the auto-login of its user.
 *
 * `validatePassword`, the token's expiry (which reads the clock) and the
 * password hash (bcrypt, salted) are function parameters.
 */
module ResetPassword {
  import opened Wrappers

  type Id = string

  datatype User = User(id: Id, nick: string)

  datatype Token = Token(secretKey: string, authLinkId: Id, providerId: Id)

  datatype Provider = Provider(id: Id, passHash: string)

  datatype AuthLink = AuthLink(userId: Id, providers: seq<Provider>)

  /** A CLIENT_ERROR response: `message` is null for a bad password. */
  datatype Failure = Failure(message: Option<string>, badPassword: bool)

  /** What the checks found: the token, its authlink and the index of the provider in it. */
  datatype Target = Target(token: Token, authLinkId: Id, provider: nat)

  /** The store writes, in the order they are made. */
  datatype Step = TokensRemoved(providerId: Id) | AuthLinkSaved(authLinkId: Id) | LoggedIn(user: Option<User>)

  /** `findOne({ secret_key })`: the first token with that key. */
  function TokenBySecret(tokens: seq<Token>, secretKey: string): (r: Option<Token>)
    ensures r.Some? ==> r.value in tokens && r.value.secretKey == secretKey
    ensures r.None? <==> forall t :: t in tokens ==> t.secretKey != secretKey
  {
    if tokens == [] then None
    else if tokens[0].secretKey == secretKey then Some(tokens[0])
    else
      assert forall t :: t in tokens ==> t == tokens[0] || t in tokens[1..];
      TokenBySecret(tokens[1..], secretKey)
  }

  /** `_.find` over the providers: the index of the first one with that id. */
  function ProviderIndex(providers: seq<Provider>, id: Id): (r: Option<nat>)
    ensures r.Some? ==> r.value < |providers| && providers[r.value].id == id
    ensures r.Some? ==> forall j :: 0 <= j < r.value ==> providers[j].id != id
    ensures r.None? <==> forall j :: 0 <= j < |providers| ==> providers[j].id != id
  {
    if providers == [] then None
    else if providers[0].id == id then Some(0)
    else
      var r := ProviderIndex(providers[1..], id);
      assert forall j :: 0 < j < |providers| ==> providers[j] == providers[1..][j - 1];
      if r.Some? then Some(r.value + 1) else None
  }

  /** The checks of the `on` handler, in order. */
  function Check(tokens: seq<Token>, authLinks: map<Id, AuthLink>, secretKey: string, newPassword: string,
                 validatePassword: string -> bool, isExpired: Token -> bool): (r: Result<Target, Failure>)
    ensures r.Ok? ==> && r.value.token in tokens
                      && r.value.authLinkId == r.value.token.authLinkId
                      && r.value.authLinkId in authLinks
                      && r.value.provider < |authLinks[r.value.authLinkId].providers|
                      && authLinks[r.value.authLinkId].providers[r.value.provider].id == r.value.token.providerId
    ensures r.Ok? ==> && validatePassword(newPassword)
                      && TokenBySecret(tokens, secretKey) == Some(r.value.token)
                      && r.value.token.secretKey == secretKey
                      && !isExpired(r.value.token)
                      && ProviderIndex(authLinks[r.value.authLinkId].providers, r.value.token.providerId)
                         == Some(r.value.provider)
  {
    if !validatePassword(newPassword) then Err(Failure(None, true))
    else
      var token := TokenBySecret(tokens, secretKey);
      if token.None? || isExpired(token.value) then Err(Failure(Some("expired_token"), false))
      else if token.value.authLinkId !in authLinks then Err(Failure(Some("broken_token"), false))
      else
        var index := ProviderIndex(authLinks[token.value.authLinkId].providers, token.value.providerId);
        if index.None? then Err(Failure(Some("broken_token"), false))
        else Ok(Target(token.value, token.value.authLinkId, index.value))
  }

  /** `TokenResetPassword.remove({ authprovider_id })`. */
  function RemoveTokens(tokens: seq<Token>, providerId: Id): (r: seq<Token>)
    ensures forall t :: t in r <==> t in tokens && t.providerId != providerId
    ensures |r| <= |tokens|
  {
    if tokens == [] then []
    else
      var rest := RemoveTokens(tokens[1..], providerId);
      assert forall t :: t in tokens <==> t == tokens[0] || t in tokens[1..];
      if tokens[0].providerId == providerId then rest else [tokens[0]] + rest
  }

  /** `provider.setPass`: the provider at `index` gets the new hash. */
  function SetPass(link: AuthLink, index: nat, hash: string): AuthLink
    requires index < |link.providers|
  {
    link.(providers := link.providers[index := link.providers[index].(passHash := hash)])
  }

  function UserById(users: map<Id, User>, id: Id): Option<User> {
    if id in users then Some(users[id]) else None
  }

  /** An invalid password fails with `bad_password` whatever the token store holds. */
  lemma BadPasswordFirst(tokens: seq<Token>, authLinks: map<Id, AuthLink>, secretKey: string, newPassword: string,
                         validatePassword: string -> bool, isExpired: Token -> bool)
    requires !validatePassword(newPassword)
    ensures Check(tokens, authLinks, secretKey, newPassword, validatePassword, isExpired) == Err(Failure(None, true))
  {
  }

  /**
   * With a valid password, the request is refused with `expired_token` exactly
   * when no token has the key or the first one has expired, and with
   * `broken_token` exactly when its authlink is missing or has no provider
   * with the token's provider id.
   */
  lemma TokenFailures(tokens: seq<Token>, authLinks: map<Id, AuthLink>, secretKey: string, newPassword: string,
                      validatePassword: string -> bool, isExpired: Token -> bool)
    requires validatePassword(newPassword)
    ensures var r := Check(tokens, authLinks, secretKey, newPassword, validatePassword, isExpired);
      var token := TokenBySecret(tokens, secretKey);
      && (r == Err(Failure(Some("expired_token"), false)) <==>
            (forall t :: t in tokens ==> t.secretKey != secretKey) || isExpired(token.value))
      && (r == Err(Failure(Some("broken_token"), false)) <==>
            && token.Some? && !isExpired(token.value)
            && (|| token.value.authLinkId !in authLinks
                || forall p :: p in authLinks[token.value.authLinkId].providers ==> p.id != token.value.providerId))
  {
    var token := TokenBySecret(tokens, secretKey);
    if token.Some? && !isExpired(token.value) && token.value.authLinkId in authLinks {
      var providers := authLinks[token.value.authLinkId].providers;
      var index := ProviderIndex(providers, token.value.providerId);
      if index.Some? {
        assert providers[index.value] in providers;
      } else {
        assert forall p :: p in providers ==> exists j :: 0 <= j < |providers| && providers[j] == p;
      }
    }
  }

  /**
   * The request gets past the checks exactly when the password is valid, a
   * token has the key, the first such token has not expired, its authlink
   * exists and holds a provider with the token's provider id.
   */
  lemma CheckPassesIff(tokens: seq<Token>, authLinks: map<Id, AuthLink>, secretKey: string, newPassword: string,
                       validatePassword: string -> bool, isExpired: Token -> bool)
    ensures var token := TokenBySecret(tokens, secretKey);
      Check(tokens, authLinks, secretKey, newPassword, validatePassword, isExpired).Ok? <==>
        && validatePassword(newPassword)
        && (exists t :: t in tokens && t.secretKey == secretKey)
        && !isExpired(token.value)
        && token.value.authLinkId in authLinks
        && (exists p :: p in authLinks[token.value.authLinkId].providers && p.id == token.value.providerId)
  {
    var token := TokenBySecret(tokens, secretKey);
    if token.Some? && token.value.authLinkId in authLinks {
      var providers := authLinks[token.value.authLinkId].providers;
      var index := ProviderIndex(providers, token.value.providerId);
      if index.Some? {
        assert providers[index.value] in providers;
      } else {
        assert forall p :: p in providers ==> exists j :: 0 <= j < |providers| && providers[j] == p;
      }
    }
  }

  /**
   * Removing the provider's tokens keeps exactly the tokens of other
   * providers, and removes the token that was used.
   */
  lemma RemovalKeepsOthers(tokens: seq<Token>, authLinks: map<Id, AuthLink>, secretKey: string, newPassword: string,
                           validatePassword: string -> bool, isExpired: Token -> bool)
    requires Check(tokens, authLinks, secretKey, newPassword, validatePassword, isExpired).Ok?
    ensures var t := Check(tokens, authLinks, secretKey, newPassword, validatePassword, isExpired).value;
      var left := RemoveTokens(tokens, t.token.providerId);
      && t.token !in left
      && (forall x :: x in tokens && x.providerId != t.token.providerId ==> x in left)
      && (forall x :: x in left ==> x.providerId != t.token.providerId)
  {
  }

  /**
   * Removal keeps the remaining tokens in their store order: it works on each
   * part of the collection independently.
   */
  lemma {:induction false} RemovalKeepsOrder(a: seq<Token>, b: seq<Token>, providerId: Id)
    ensures RemoveTokens(a + b, providerId) == RemoveTokens(a, providerId) + RemoveTokens(b, providerId)
  {
    if a == [] {
      assert a + b == b;
    } else {
      assert (a + b)[0] == a[0] && (a + b)[1..] == a[1..] + b;
      RemovalKeepsOrder(a[1..], b, providerId);
    }
  }

  /** Setting the password changes that provider's hash and nothing else of the authlink. */
  lemma SetPassOnlyThatProvider(link: AuthLink, index: nat, hash: string)
    requires index < |link.providers|
    ensures var l := SetPass(link, index, hash);
      && l.userId == link.userId && |l.providers| == |link.providers|
      && l.providers[index] == Provider(link.providers[index].id, hash)
      && forall j :: 0 <= j < |link.providers| && j != index ==> l.providers[j] == link.providers[j]
  {
  }

  /** The token and authlink collections and the users, with the handler's `env.data.user`. */
  class ResetStore {
    var tokens: seq<Token>
    var authLinks: map<Id, AuthLink>
    const users: map<Id, User>
    var loginUser: Option<User>
    var journal: seq<Step>

    constructor (tokens: seq<Token>, authLinks: map<Id, AuthLink>, users: map<Id, User>)
      ensures this.tokens == tokens && this.authLinks == authLinks && this.users == users
      ensures loginUser.None? && journal == []
    {
      this.tokens := tokens;
      this.authLinks := authLinks;
      this.users := users;
      loginUser := None;
      journal := [];
    }

    /**
     * The `on` handler. A failed check changes nothing. On success the
     * provider has the hash of the new password, its tokens are gone, the
     * authlink is saved, and then its user is logged in.
     */
    method Change(secretKey: string, newPassword: string, validatePassword: string -> bool,
                  isExpired: Token -> bool, hash: string -> string) returns (r: Result<Target, Failure>)
      modifies this
      ensures r == Check(old(tokens), old(authLinks), secretKey, newPassword, validatePassword, isExpired)
      ensures r.Err? ==> tokens == old(tokens) && authLinks == old(authLinks) &&
                         loginUser == old(loginUser) && journal == old(journal)
      ensures r.Ok? ==>
        var t := r.value;
        && tokens == RemoveTokens(old(tokens), t.token.providerId)
        && authLinks == old(authLinks)[t.authLinkId := SetPass(old(authLinks)[t.authLinkId], t.provider, hash(newPassword))]
        && loginUser == UserById(users, authLinks[t.authLinkId].userId)
        && journal == old(journal) + [TokensRemoved(t.token.providerId), AuthLinkSaved(t.authLinkId), LoggedIn(loginUser)]
    {
      if !validatePassword(newPassword) {
        return Err(Failure(None, true));
      }
      var token := TokenBySecret(tokens, secretKey);
      if token.None? || isExpired(token.value) {
        return Err(Failure(Some("expired_token"), false));
      }
      if token.value.authLinkId !in authLinks {
        return Err(Failure(Some("broken_token"), false));
      }
      var authLink := authLinks[token.value.authLinkId];
      var index := ProviderIndex(authLink.providers, token.value.providerId);
      if index.None? {
        return Err(Failure(Some("broken_token"), false));
      }
      // setPass changes the loaded document; the store sees it on save.
      authLink := SetPass(authLink, index.value, hash(newPassword));
      var providerId := authLink.providers[index.value].id;
      tokens := RemoveTokens(tokens, providerId);
      journal := journal + [TokensRemoved(providerId)];
      authLinks := authLinks[token.value.authLinkId := authLink];
      journal := journal + [AuthLinkSaved(token.value.authLinkId)];
      loginUser := UserById(users, authLink.userId);
      journal := journal + [LoggedIn(loginUser)];
      r := Ok(Target(token.value, token.value.authLinkId, index.value));
    }
  }
}
