/**
 * The login screen's view-model: one `LoginUiState` record that every
 * operation replaces, a nullable success callback, and two coroutines
 * (`login`, `checkAutoLogin`) that run a chain of guards against the
 * network check, the credential store and the authentication gateway.
 *
 * The gateway, the credential store and the network check are parameters of
 * the operations; what the view-model does with them (which of them it
 * consults, in which order, with which arguments) is recorded in a ghost
 * event log, so that "no call was made" and "saved before the callback" are
 * statements about that log.
 */
module Login {
  import opened Wrappers

  // ---------------------------------------------------------------------------
  // Data model
  // ---------------------------------------------------------------------------

  datatype LoginUiState = LoginUiState(
    phoneNumber: string,
    password: string,
    autoLoginEnabled: bool,
    isLoading: bool,
    showEmptyFieldsPopup: bool,
    showInvalidCredentialsPopup: bool,
    showNetworkErrorPopup: bool)

  /** `LoginUiState()`: every field at its declared default. */
  const DefaultUiState := LoginUiState("", "", false, false, false, false, false)

  /** What the authentication gateway does with a login request. */
  datatype GatewayOutcome =
    | Accepted   // `AuthRepository.login` returned true
    | Rejected   // it returned false
    | Failed     // it threw an exception

  /** A saved credential pair of the credential store. */
  datatype Credentials = Credentials(phone: string, password: string)

  /** The side effects the view-model has on its collaborators. */
  datatype Event =
    | NetworkCheck                                            // isNetworkAvailable
    | ReadAutoLoginFlag                                       // AutoLoginManager.isAutoLoginEnabled
    | ReadSavedCredentials                                    // AutoLoginManager.getSavedCredentials
    | GatewayLogin(phone: string, password: string)           // AuthRepository.login
    | SaveLoginInfo(phone: string, password: string, autoLogin: bool)  // AutoLoginManager.saveLoginInfo
    | LoginCallback(success: bool)                            // onLoginSuccess?.invoke

  /** The new state of one operation together with the events it caused, in order. */
  datatype Effect = Effect(state: LoginUiState, events: seq<Event>)

  predicate CallsGateway(events: seq<Event>) {
    exists e :: e in events && e.GatewayLogin?
  }

  predicate SavesCredentials(events: seq<Event>) {
    exists e :: e in events && e.SaveLoginInfo?
  }

  predicate ReadsStorage(events: seq<Event>) {
    ReadAutoLoginFlag in events || ReadSavedCredentials in events
  }

  // ---------------------------------------------------------------------------
  // The phone-number filter
  // ---------------------------------------------------------------------------

  /** `Char.isDigit()`, restricted to the ASCII digits. */
  predicate IsDigit(c: char): (r: bool)
    ensures r <==> c in "0123456789"
  {
    '0' <= c <= '9'
  }

  predicate AllDigits(s: string) {
    forall i :: 0 <= i < |s| ==> IsDigit(s[i])
  }

  /** `phoneNumber.filter { it.isDigit() }`. */
  function FilterDigits(s: string): (r: string)
    ensures AllDigits(r)
    ensures |r| <= |s|
  {
    if s == [] then [] else (if IsDigit(s[0]) then [s[0]] else []) + FilterDigits(s[1..])
  }

  /** `r` can be obtained from `s` by deleting characters. */
  predicate IsSubsequence(r: string, s: string)
    decreases |s|
  {
    if r == [] then true
    else if s == [] then false
    else (r[0] == s[0] && IsSubsequence(r[1..], s[1..])) || IsSubsequence(r, s[1..])
  }

  /** The filter keeps characters in their original order. */
  lemma {:induction false} FilterDigitsIsSubsequence(s: string)
    ensures IsSubsequence(FilterDigits(s), s)
  {
    if s != [] {
      FilterDigitsIsSubsequence(s[1..]);
      var r := FilterDigits(s);
      if IsDigit(s[0]) {
        assert r[0] == s[0] && r[1..] == FilterDigits(s[1..]);
      } else if r != [] {
        assert r == FilterDigits(s[1..]);
      }
    }
  }

  /** Every digit of the input is kept, as often as it occurs, and nothing else. */
  lemma {:induction false} FilterDigitsCounts(s: string, c: char)
    ensures multiset(FilterDigits(s))[c] == if IsDigit(c) then multiset(s)[c] else 0
  {
    if s != [] {
      FilterDigitsCounts(s[1..], c);
      assert s == [s[0]] + s[1..];
      assert multiset(s) == multiset([s[0]]) + multiset(s[1..]);
    }
  }

  /** No all-digit subsequence of `s` is longer than the filtered string. */
  lemma {:induction false} FilterDigitsIsLongest(r: string, s: string)
    requires AllDigits(r) && IsSubsequence(r, s)
    ensures |r| <= |FilterDigits(s)|
    decreases |s|
  {
    if r != [] {
      assert s != [];
      if r[0] == s[0] && IsSubsequence(r[1..], s[1..]) {
        FilterDigitsIsLongest(r[1..], s[1..]);
        assert IsDigit(s[0]);
      } else {
        FilterDigitsIsLongest(r, s[1..]);
      }
    }
  }

  /**
   * The filtered string is the only longest all-digit subsequence of the
   * input: "exactly the digits of the input, in their original order".
   */
  lemma {:induction false} FilterDigitsUnique(r: string, s: string)
    requires AllDigits(r) && IsSubsequence(r, s)
    requires |r| == |FilterDigits(s)|
    ensures r == FilterDigits(s)
    decreases |s|
  {
    if r != [] {
      assert s != [];
      var t := s[1..];
      if IsDigit(s[0]) {
        if r[0] == s[0] && IsSubsequence(r[1..], t) {
          FilterDigitsUnique(r[1..], t);
          assert r == [r[0]] + r[1..];
        } else {
          FilterDigitsIsLongest(r, t);
          assert false;
        }
      } else {
        assert r[0] != s[0];
        FilterDigitsUnique(r, t);
      }
    }
  }

  /** Filtering a string that is already all digits changes nothing (so filtering twice is filtering once). */
  lemma {:induction false} FilterDigitsOfDigits(s: string)
    requires AllDigits(s)
    ensures FilterDigits(s) == s
  {
    if s != [] {
      FilterDigitsOfDigits(s[1..]);
      assert s == [s[0]] + s[1..];
    }
  }

  // ---------------------------------------------------------------------------
  // Specification of the two coroutines
  // ---------------------------------------------------------------------------

  /**
   * `login(context, phoneNumber, password)` run to completion: the loading
   * guard, the empty-field guard, the network guard, then the gateway call
   * inside `try/catch/finally`.
   */
  function LoginEffect(s: LoginUiState, callbackSet: bool, phone: string, password: string,
                       networkUp: bool, outcome: GatewayOutcome): (r: Effect)
    // login never writes the fields it is given
    ensures r.state.phoneNumber == s.phoneNumber && r.state.password == s.password
    ensures r.state.autoLoginEnabled == s.autoLoginEnabled
    // the gateway is reached exactly when all three guards pass
    ensures CallsGateway(r.events) <==> !s.isLoading && phone != [] && password != [] && networkUp
    ensures !ReadsStorage(r.events)
    // credentials are saved, with the current auto-login flag, exactly on acceptance
    ensures SaveLoginInfo(phone, password, s.autoLoginEnabled) in r.events
        <==> CallsGateway(r.events) && outcome.Accepted?
    ensures LoginCallback(true) in r.events <==> CallsGateway(r.events) && outcome.Accepted? && callbackSet
    ensures LoginCallback(false) !in r.events
    ensures r.state.showInvalidCredentialsPopup
        == (s.showInvalidCredentialsPopup || (CallsGateway(r.events) && !outcome.Accepted?))
    // loading is never left on by a finished login that started idle
    ensures !s.isLoading ==> !r.state.isLoading
  {
    if s.isLoading then
      Effect(s, [])
    else if phone == [] || password == [] then
      Effect(s.(showEmptyFieldsPopup := true), [])
    else if !networkUp then
      Effect(s.(showNetworkErrorPopup := true), [NetworkCheck])
    else
      var called := [NetworkCheck, GatewayLogin(phone, password)];
      assert called[1].GatewayLogin?;
      match outcome
      case Accepted =>
        var save := SaveLoginInfo(phone, password, s.autoLoginEnabled);
        var ev := called + [save] + (if callbackSet then [LoginCallback(true)] else []);
        Effect(s, ev)
      case Rejected =>
        Effect(s.(showInvalidCredentialsPopup := true), called)
      case Failed =>
        Effect(s.(showInvalidCredentialsPopup := true), called)
  }

  /**
   * `checkAutoLogin(context)` run to completion: the network guard, the
   * stored auto-login flag, the saved credentials, then the gateway call
   * with them inside `try/catch/finally`. `storedFlag` and `saved` are what
   * the credential store would answer; they are consulted only when the
   * code reaches the corresponding read.
   */
  function AutoLoginEffect(s: LoginUiState, callbackSet: bool, networkUp: bool,
                           storedFlag: bool, saved: Option<Credentials>,
                           outcome: GatewayOutcome): (r: Effect)
    ensures !networkUp ==> !ReadsStorage(r.events) && !CallsGateway(r.events)
    ensures CallsGateway(r.events) <==> networkUp && storedFlag && saved.Some?
    ensures !SavesCredentials(r.events)
    ensures networkUp ==> r.state.autoLoginEnabled == storedFlag
    ensures CallsGateway(r.events) ==>
      r.state.phoneNumber == saved.value.phone && r.state.password == saved.value.password
    ensures LoginCallback(true) in r.events <==> CallsGateway(r.events) && outcome.Accepted? && callbackSet
    ensures LoginCallback(false) !in r.events
    // the gateway call's `finally` clears loading, and a refusal raises the popup
    ensures CallsGateway(r.events) ==> !r.state.isLoading
    ensures CallsGateway(r.events) ==>
      r.state.showInvalidCredentialsPopup == (s.showInvalidCredentialsPopup || !outcome.Accepted?)
    ensures !s.isLoading ==> !r.state.isLoading
  {
    if !networkUp then
      Effect(s.(showNetworkErrorPopup := true), [NetworkCheck])
    else
      var flagged := s.(autoLoginEnabled := storedFlag);
      if !storedFlag then
        Effect(flagged, [NetworkCheck, ReadAutoLoginFlag])
      else
        match saved
        case None =>
          Effect(flagged, [NetworkCheck, ReadAutoLoginFlag, ReadSavedCredentials])
        case Some(c) =>
          var filled := flagged.(phoneNumber := c.phone, password := c.password);
          var called := [NetworkCheck, ReadAutoLoginFlag, ReadSavedCredentials, GatewayLogin(c.phone, c.password)];
          assert called[3].GatewayLogin?;
          match outcome
          case Accepted =>
            var ev := called + (if callbackSet then [LoginCallback(true)] else []);
            Effect(filled.(isLoading := false), ev)
          case Rejected =>
            Effect(filled.(isLoading := false, showInvalidCredentialsPopup := true), called)
          case Failed =>
            Effect(filled.(isLoading := false, showInvalidCredentialsPopup := true), called)
  }

  // ---------------------------------------------------------------------------
  // Properties of the coroutines, path by path
  // ---------------------------------------------------------------------------

  /** A login while another is in flight is a no-op: no state change, no call, no callback. */
  lemma LoginWhileLoadingIsNoOp(s: LoginUiState, cb: bool, p: string, w: string, up: bool, o: GatewayOutcome)
    requires s.isLoading
    ensures LoginEffect(s, cb, p, w, up, o) == Effect(s, [])
  {
  }

  /** An empty field raises only the empty-fields popup, before the network is even checked. */
  lemma LoginWithEmptyField(s: LoginUiState, cb: bool, p: string, w: string, up: bool, o: GatewayOutcome)
    requires !s.isLoading && (p == [] || w == [])
    ensures LoginEffect(s, cb, p, w, up, o) == Effect(s.(showEmptyFieldsPopup := true), [])
  {
  }

  /** With the network down, only the network popup is raised and the gateway is not called. */
  lemma LoginOffline(s: LoginUiState, cb: bool, p: string, w: string, o: GatewayOutcome)
    requires !s.isLoading && p != [] && w != []
    ensures LoginEffect(s, cb, p, w, false, o) == Effect(s.(showNetworkErrorPopup := true), [NetworkCheck])
  {
  }

  /**
   * On acceptance the credentials are saved with the current auto-login flag,
   * then the callback (when one is set) receives `true`; no popup is raised
   * and loading ends cleared.
   */
  lemma LoginAccepted(s: LoginUiState, cb: bool, p: string, w: string)
    requires !s.isLoading && p != [] && w != []
    ensures LoginEffect(s, cb, p, w, true, Accepted) == Effect(s,
      [NetworkCheck, GatewayLogin(p, w), SaveLoginInfo(p, w, s.autoLoginEnabled)]
      + (if cb then [LoginCallback(true)] else []))
  {
  }

  /** A rejection or an exception raises the invalid-credentials popup and nothing else. */
  lemma LoginRefused(s: LoginUiState, cb: bool, p: string, w: string, o: GatewayOutcome)
    requires !s.isLoading && p != [] && w != [] && !o.Accepted?
    ensures LoginEffect(s, cb, p, w, true, o)
      == Effect(s.(showInvalidCredentialsPopup := true), [NetworkCheck, GatewayLogin(p, w)])
  {
  }

  /** The save precedes the callback in the event log. */
  lemma SaveBeforeCallback(s: LoginUiState, p: string, w: string)
    requires !s.isLoading && p != [] && w != []
    ensures var ev := LoginEffect(s, true, p, w, true, Accepted).events;
      exists i, j :: 0 <= i < j < |ev| && ev[i] == SaveLoginInfo(p, w, s.autoLoginEnabled) && ev[j] == LoginCallback(true)
  {
  }

  /** Offline, auto-login raises only the network popup and reads no storage. */
  lemma AutoLoginOffline(s: LoginUiState, cb: bool, f: bool, c: Option<Credentials>, o: GatewayOutcome)
    ensures AutoLoginEffect(s, cb, false, f, c, o) == Effect(s.(showNetworkErrorPopup := true), [NetworkCheck])
  {
  }

  /** With auto-login off or nothing saved, only the flag is copied into the state. */
  lemma AutoLoginSkipped(s: LoginUiState, cb: bool, f: bool, c: Option<Credentials>, o: GatewayOutcome)
    requires !f || c.None?
    ensures AutoLoginEffect(s, cb, true, f, c, o).state == s.(autoLoginEnabled := f)
    ensures !CallsGateway(AutoLoginEffect(s, cb, true, f, c, o).events)
  {
  }

  /** `events` with every SaveLoginInfo removed. */
  function WithoutSaves(events: seq<Event>): (r: seq<Event>)
    ensures !SavesCredentials(r)
    ensures |r| <= |events|
  {
    if events == [] then []
    else (if events[0].SaveLoginInfo? then [] else [events[0]]) + WithoutSaves(events[1..])
  }

  lemma WithoutSavesCons(e: Event, rest: seq<Event>)
    ensures WithoutSaves([e] + rest) == (if e.SaveLoginInfo? then [] else [e]) + WithoutSaves(rest)
  {
  }

  /** Auto-login from the store agrees with a manual login with the same credentials typed in. */
  ghost predicate AgreesWithLogin(s: LoginUiState, cb: bool, c: Credentials, o: GatewayOutcome) {
    var typed := s.(autoLoginEnabled := true, phoneNumber := c.phone, password := c.password);
    var manual := LoginEffect(typed, cb, c.phone, c.password, true, o);
    var auto := AutoLoginEffect(s, cb, true, true, Some(c), o);
    |manual.events| > 0 &&
    auto.state == manual.state &&
    auto.events == [NetworkCheck, ReadAutoLoginFlag, ReadSavedCredentials] + WithoutSaves(manual.events[1..])
  }

  lemma AutoLoginAsLoginAccepted(s: LoginUiState, cb: bool, c: Credentials)
    requires !s.isLoading && c.phone != [] && c.password != []
    ensures AgreesWithLogin(s, cb, c, Accepted)
  {
    var typed := s.(autoLoginEnabled := true, phoneNumber := c.phone, password := c.password);
    var g, v := GatewayLogin(c.phone, c.password), SaveLoginInfo(c.phone, c.password, true);
    var tail := if cb then [LoginCallback(true)] else [];
    assert LoginEffect(typed, cb, c.phone, c.password, true, Accepted).events[1..] == [g] + ([v] + tail);
    WithoutSavesCons(g, [v] + tail);
    WithoutSavesCons(v, tail);
    if cb {
      WithoutSavesCons(LoginCallback(true), []);
    }
  }

  lemma AutoLoginAsLoginRefused(s: LoginUiState, cb: bool, c: Credentials, o: GatewayOutcome)
    requires !s.isLoading && c.phone != [] && c.password != [] && !o.Accepted?
    ensures AgreesWithLogin(s, cb, c, o)
  {
  }

  /**
   * Auto-login with saved, non-empty credentials ends in the same state as a
   * manual login with those credentials typed in, and has the same effects
   * except that it reads the store first and never saves the credentials.
   */
  lemma AutoLoginAsLogin(s: LoginUiState, cb: bool, c: Credentials, o: GatewayOutcome)
    requires !s.isLoading && c.phone != [] && c.password != []
    ensures AgreesWithLogin(s, cb, c, o)
  {
    if o.Accepted? {
      AutoLoginAsLoginAccepted(s, cb, c);
    } else {
      AutoLoginAsLoginRefused(s, cb, c, o);
    }
  }

  // ---------------------------------------------------------------------------
  // The view-model
  // ---------------------------------------------------------------------------

  class LoginViewModel {
    /** `_uiState.value` */
    var uiState: LoginUiState
    /** `onLoginSuccess != null` */
    var callbackSet: bool
    /** Everything the view-model has done to its collaborators, in order. */
    ghost var events: seq<Event>

    constructor ()
      ensures uiState == DefaultUiState && !callbackSet && events == []
    {
      uiState := DefaultUiState;
      callbackSet := false;
      events := [];
    }

    method SetOnLoginSuccess()
      modifies this
      ensures callbackSet
      ensures uiState == old(uiState) && events == old(events)
    {
      callbackSet := true;
    }

    /** Stores exactly the digits of the input; nothing else changes. */
    method UpdatePhoneNumber(input: string)
      modifies this`uiState
      ensures uiState == old(uiState).(phoneNumber := FilterDigits(input))
      ensures AllDigits(uiState.phoneNumber) && IsSubsequence(uiState.phoneNumber, input)
    {
      uiState := uiState.(phoneNumber := FilterDigits(input));
      FilterDigitsIsSubsequence(input);
    }

    method UpdatePassword(password: string)
      modifies this`uiState
      ensures uiState == old(uiState).(password := password)
    {
      uiState := uiState.(password := password);
    }

    method UpdateAutoLogin(enabled: bool)
      modifies this`uiState
      ensures uiState == old(uiState).(autoLoginEnabled := enabled)
    {
      uiState := uiState.(autoLoginEnabled := enabled);
    }

    method DismissEmptyFieldsPopup()
      modifies this`uiState
      ensures uiState == old(uiState).(showEmptyFieldsPopup := false)
    {
      uiState := uiState.(showEmptyFieldsPopup := false);
    }

    method DismissInvalidCredentialsPopup()
      modifies this`uiState
      ensures uiState == old(uiState).(showInvalidCredentialsPopup := false)
    {
      uiState := uiState.(showInvalidCredentialsPopup := false);
    }

    method DismissNetworkErrorPopup()
      modifies this`uiState
      ensures uiState == old(uiState).(showNetworkErrorPopup := false)
    {
      uiState := uiState.(showNetworkErrorPopup := false);
    }

    /**
     * `login`: `networkUp` is what the network check answers and `outcome` what
     * the gateway does; each is consulted only if the code reaches it.
     */
    method Login(phone: string, password: string, networkUp: bool, outcome: GatewayOutcome)
      modifies this`uiState, this`events
      ensures var r := LoginEffect(old(uiState), callbackSet, phone, password, networkUp, outcome);
        uiState == r.state && events == old(events) + r.events
    {
      if uiState.isLoading {
        return;
      }
      if |phone| == 0 || |password| == 0 {
        uiState := uiState.(showEmptyFieldsPopup := true);
        return;
      }
      events := events + [NetworkCheck];
      if !networkUp {
        uiState := uiState.(showNetworkErrorPopup := true);
        return;
      }
      uiState := uiState.(isLoading := true);
      events := events + [GatewayLogin(phone, password)];
      match outcome {
        case Accepted =>
          events := events + [SaveLoginInfo(phone, password, uiState.autoLoginEnabled)];
          if callbackSet {
            events := events + [LoginCallback(true)];
          }
        case Rejected =>
          uiState := uiState.(showInvalidCredentialsPopup := true);
        case Failed =>
          uiState := uiState.(showInvalidCredentialsPopup := true);
      }
      uiState := uiState.(isLoading := false);
    }

    /**
     * `checkAutoLogin`: `storedFlag` and `saved` are what the credential store
     * answers when it is read.
     */
    method CheckAutoLogin(networkUp: bool, storedFlag: bool, saved: Option<Credentials>, outcome: GatewayOutcome)
      modifies this`uiState, this`events
      ensures var r := AutoLoginEffect(old(uiState), callbackSet, networkUp, storedFlag, saved, outcome);
        uiState == r.state && events == old(events) + r.events
    {
      events := events + [NetworkCheck];
      if !networkUp {
        uiState := uiState.(showNetworkErrorPopup := true);
        return;
      }
      events := events + [ReadAutoLoginFlag];
      var autoLoginEnabled := storedFlag;
      uiState := uiState.(autoLoginEnabled := autoLoginEnabled);
      if autoLoginEnabled {
        events := events + [ReadSavedCredentials];
        if saved.Some? {
          var c := saved.value;
          uiState := uiState.(phoneNumber := c.phone, password := c.password, isLoading := true);
          events := events + [GatewayLogin(c.phone, c.password)];
          match outcome {
            case Accepted =>
              if callbackSet {
                events := events + [LoginCallback(true)];
              }
            case Rejected =>
              uiState := uiState.(showInvalidCredentialsPopup := true);
            case Failed =>
              uiState := uiState.(showInvalidCredentialsPopup := true);
          }
          uiState := uiState.(isLoading := false);
        }
      }
    }
  }
}
