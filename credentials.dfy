/**
 * Where the vendor session comes from: the entries the system keychain holds
 * for the "picobrew" service, or (in intent) an interactive prompt; and the
 * cookie jar that carries the session on every request.
 */
module Credentials {
  import opened Wrappers
  import Picobrew

  /** One keychain entry of the service: an account (the user id) and its password (the session token). */
  datatype Credential = Credential(account: string, password: string)

  /** What `credentials()` returns; a password of None is JavaScript's undefined. */
  datatype Login = Login(account: string, password: Option<string>)

  /** What `keytar.findCredentials` may hand back: null or an array of entries. */
  datatype Found = NullResult | List(entries: seq<Credential>)

  /** The outcome of evaluating a guard: its value, or the TypeError evaluating it raised. */
  datatype Guard = Evaluated(enter: bool) | ThrewTypeError

  datatype CredentialError = TypeError(message: string)

  /** The TypeError reading `credentials[0].account` raises when nothing is stored. */
  const NoEntryMessage := "Cannot read property 'account' of undefined"

  /** Truthiness of the found value: null is falsy, an array (even an empty one) is truthy. */
  predicate FoundTruthy(found: Found) {
    found.List?
  }

  /**
   * The guard of the prompt branch as written, `!credentials && credentials.length != 1`,
   * evaluated left to right with short-circuit. It is never true: for an array the
   * left operand is false, and for null reading `length` throws.
   */
  function PromptGuard(found: Found): (g: Guard)
    ensures g != Evaluated(true)
    ensures g == ThrewTypeError <==> found.NullResult?
    ensures g == Evaluated(false) <==> found.List?
  {
    if FoundTruthy(found) then Evaluated(false)
    else match found
      case NullResult => ThrewTypeError
      case List(entries) => Evaluated(|entries| != 1)
  }

  /** The guard as evidently intended, `!credentials || credentials.length != 1`: prompt unless exactly one entry is stored. */
  function IntendedPromptGuard(found: Found): (g: Guard)
    ensures g.Evaluated?
    ensures g.enter <==> found.NullResult? || |found.entries| != 1
  {
    if !FoundTruthy(found) then Evaluated(true)
    else Evaluated(|found.entries| != 1)
  }

  /** With an empty keychain the guard as written stays false, where the intended guard prompts. */
  lemma EmptyKeychainSkipsPrompt()
    ensures PromptGuard(List([])) == Evaluated(false)
    ensures IntendedPromptGuard(List([])) == Evaluated(true)
  {
  }

  /** The password stored for an account: the first entry with that account. */
  function Lookup(entries: seq<Credential>, account: string): Option<string> {
    if entries == [] then None
    else if entries[0].account == account then Some(entries[0].password)
    else Lookup(entries[1..], account)
  }

  /** `keytar.setPassword(service, account, password)`: overwrite the account's entry, or add one. */
  function Store(entries: seq<Credential>, account: string, password: string): (r: seq<Credential>)
    ensures Lookup(r, account) == Some(password)
    ensures forall other :: other != account ==> Lookup(r, other) == Lookup(entries, other)
    ensures |r| == if Lookup(entries, account).Some? then |entries| else |entries| + 1
  {
    if entries == [] then [Credential(account, password)]
    else if entries[0].account == account then [Credential(account, password)] + entries[1..]
    else [entries[0]] + Store(entries[1..], account, password)
  }

  /**
   * The login `credentials()` evidently means to produce: the one stored entry
   * when there is exactly one, otherwise the user id and token entered at the
   * prompts; either way a password is present.
   */
  function IntendedLogin(entries: seq<Credential>, answeredUser: string, answeredToken: string): (login: Login)
    ensures login.password.Some?
    ensures |entries| != 1 ==> login == Login(answeredUser, Some(answeredToken))
    ensures |entries| == 1 ==> Lookup(entries, login.account) == login.password
  {
    if |entries| == 1 then Login(entries[0].account, Some(entries[0].password))
    else Login(answeredUser, Some(answeredToken))
  }

  /** The keychain entries stored under the "picobrew" service. */
  class Keychain {
    var entries: seq<Credential>

    constructor (initial: seq<Credential>)
      ensures entries == initial
    {
      entries := initial;
    }

    /** `keytar.findCredentials("picobrew")`: always an array. */
    method FindCredentials() returns (found: Found)
      ensures found == List(entries)
    {
      found := List(entries);
    }

    /** `keytar.setPassword("picobrew", account, password)` */
    method SetPassword(account: string, password: string)
      modifies this
      ensures entries == Store(old(entries), account, password)
    {
      entries := Store(entries, account, password);
    }

    /**
     * `credentials()` as written. The prompt guard is always false, so the first
     * stored entry is returned; with no entry, reading `credentials[0].account`
     * throws. The keychain is only read.
     */
    method Credentials() returns (r: Result<Login, CredentialError>)
      ensures r.Success? <==> |entries| > 0
      ensures r.Failure? ==> r.error == TypeError(NoEntryMessage)
      ensures r.Success? ==> r.value == Login(entries[0].account, Some(entries[0].password))
      ensures r.Success? ==> Lookup(entries, r.value.account) == r.value.password
    {
      var found := FindCredentials();
      var guard := PromptGuard(found);
      // the prompt branch is never taken: the guard is false for every array
      assert guard == Evaluated(false);
      if |found.entries| == 0 {
        r := Failure(TypeError(NoEntryMessage));
      } else {
        r := Success(Login(found.entries[0].account, Some(found.entries[0].password)));
      }
    }

    /**
     * The prompt branch as written: the answers are stored, but the returned
     * password is the outer `sessionToken`, which the inner `const` declaration
     * shadows and so is never assigned.
     */
    method PromptForCredentials(answeredUser: string, answeredToken: string) returns (login: Login)
      modifies this
      ensures entries == Store(old(entries), answeredUser, answeredToken)
      ensures login == Login(answeredUser, None)
    {
      var userId := answeredUser;
      var sessionToken: Option<string> := None;
      var innerSessionToken := answeredToken;
      SetPassword(userId, innerSessionToken);
      login := Login(userId, sessionToken);
    }

    /**
     * `credentials()` as evidently intended: prompt unless exactly one entry is
     * stored, store the answers, and return the token that was entered.
     */
    method CredentialsIntended(answeredUser: string, answeredToken: string) returns (login: Login)
      modifies this
      ensures |old(entries)| == 1 ==>
                entries == old(entries) && login == Login(old(entries)[0].account, Some(old(entries)[0].password))
      ensures |old(entries)| != 1 ==>
                entries == Store(old(entries), answeredUser, answeredToken)
                && login == Login(answeredUser, Some(answeredToken))
      ensures login == IntendedLogin(old(entries), answeredUser, answeredToken)
      ensures login.password.Some? && Lookup(entries, login.account) == login.password
      ensures |old(entries)| == 0 ==> entries == [Credential(answeredUser, answeredToken)]
    {
      var found := FindCredentials();
      var guard := IntendedPromptGuard(found);
      if guard.enter {
        SetPassword(answeredUser, answeredToken);
        login := Login(answeredUser, Some(answeredToken));
      } else {
        login := Login(found.entries[0].account, Some(found.entries[0].password));
      }
    }
  }

  const AuthCookieName := ".ASPXAUTH"
  const CookieUrl := "https://picobrew.com"

  /** `${session}` for a session that may be undefined: the token itself, or the text "undefined". */
  function SessionText(session: Option<string>): (text: string)
    ensures session.Some? ==> text == session.value
    ensures session.None? ==> text == "undefined"
  {
    if session.Some? then session.value else "undefined"
  }

  /** The session a cookie carries, when it is the auth cookie. */
  function CookieSession(c: Picobrew.Cookie): Option<string> {
    var prefix := AuthCookieName + "=";
    if |prefix| <= |c.text| && c.text[..|prefix|] == prefix then Some(c.text[|prefix|..]) else None
  }

  /** `setupCookieJar(session)`: a jar holding exactly the auth cookie, scoped to the vendor site. */
  function SetupCookieJar(session: Option<string>): (jar: seq<Picobrew.Cookie>)
    ensures |jar| == 1 && jar[0].url == CookieUrl == Picobrew.PrefixUrl
    ensures CookieSession(jar[0]) == Some(SessionText(session))
  {
    var c := Picobrew.Cookie(AuthCookieName + "=" + SessionText(session), CookieUrl);
    assert c.text[..|AuthCookieName + "="|] == AuthCookieName + "=";
    [c]
  }

  /** A login from the prompt branch as written authenticates with the literal session "undefined", whatever was entered. */
  lemma PromptedLoginSendsUndefined(answeredUser: string, answeredToken: string)
    ensures CookieSession(SetupCookieJar(Login(answeredUser, None).password)[0]) == Some("undefined")
    ensures answeredToken != "undefined" ==>
              CookieSession(SetupCookieJar(Login(answeredUser, None).password)[0]) != Some(answeredToken)
  {
  }
}
