/** The START_NOTIFICATION_SERVICE handler of the push receiver: the
    once-only guard, the decision to register or to reuse stored credentials,
    the persistence of the account identifiers as decimal text, the bring-up
    of the push client and the events sent to the renderer process. */
module PushReceiver {
  import opened Wrappers
  import opened Decimal

  /** The account identifiers the registrar issues (`acg`), as integers. */
  datatype Acg = Acg(id: nat, securityToken: nat)

  /** What a successful registration returns: the push token and the
      account identifiers. */
  datatype Registration = Registration(token: string, acg: Acg)

  /** The `credentials` entry of the persisted store: the identifiers are
      held as decimal text, since the store keeps JSON. */
  datatype StoredCredentials = StoredCredentials(token: string, acgId: string, acgSecurityToken: string)

  /** How the client's `connect()` settles. */
  datatype ConnectOutcome = Connected | ConnectFailed(message: string)

  /** A decrypted push message; its content is opaque to the receiver. */
  datatype Message = Message(payload: string)

  /** The events sent to the renderer process, one constructor per channel. */
  datatype Event =
    | ServiceStarted(startedToken: Option<string>)
    | ServiceError(description: string)
    | TokenUpdated(newToken: string)
    | NotificationReceived(notification: Message)

  /** The message of the SyntaxError that `BigInt(s)` throws on text that is
      not a number. */
  function CannotConvert(s: string): string {
    "Cannot convert " + s + " to a BigInt"
  }

  /** The token read off the stored credentials, absent when there are none. */
  function TokenOf(stored: Option<StoredCredentials>): (r: Option<string>)
    ensures r.Some? <==> stored.Some?
    ensures stored.Some? ==> r.value == stored.value.token
  {
    match stored
    case None => None
    case Some(c) => Some(c.token)
  }

  /** Register when nothing is stored or the stored appID differs from the
      requested one; an absent appID differs from every requested one. When
      no registration is needed, credentials stored for this very appID exist. */
  function NeedsRegistration(stored: Option<StoredCredentials>, savedAppID: Option<string>, appID: string): (r: bool)
    ensures !r ==> stored.Some? && savedAppID == Some(appID)
    ensures r ==> stored.None? || savedAppID.None? || savedAppID.value != appID
  {
    stored.None? || savedAppID != Some(appID)
  }

  /** The copy of the issued credentials that is written to the store, with
      both identifiers turned into decimal text. */
  function Stringify(issued: Registration): (c: StoredCredentials)
    ensures c.token == issued.token
    ensures IsCanonical(c.acgId) && IsCanonical(c.acgSecurityToken)
  {
    StoredCredentials(issued.token, ToDecimal(issued.acg.id), ToDecimal(issued.acg.securityToken))
  }

  /** The identifiers turned back into integers; `id` is converted first, so
      its error is the one reported when both are malformed. */
  function ReviveAcg(c: StoredCredentials): (r: Result<Acg, string>)
    ensures r.Success? <==> IsDigits(c.acgId) && IsDigits(c.acgSecurityToken)
    ensures !IsDigits(c.acgId) ==> r == Failure(CannotConvert(c.acgId))
    ensures IsDigits(c.acgId) && !IsDigits(c.acgSecurityToken) ==> r == Failure(CannotConvert(c.acgSecurityToken))
  {
    match ParseBigInt(c.acgId)
    case None => Failure(CannotConvert(c.acgId))
    case Some(id) =>
      match ParseBigInt(c.acgSecurityToken)
      case None => Failure(CannotConvert(c.acgSecurityToken))
      case Some(securityToken) =>
        Success(Acg(id, securityToken))
  }

  /** What the registrar issued survives the store: the client is built with
      exactly the identifiers the registrar returned, in this process or in a
      later one that reuses the stored credentials. */
  lemma PersistedAcgRevives(issued: Registration)
    ensures ReviveAcg(Stringify(issued)) == Success(issued.acg)
  {
    DecimalRoundTrip(issued.acg.id);
    DecimalRoundTrip(issued.acg.securityToken);
  }

  /** Conversely, stored credentials in the form the receiver writes are
      reproduced exactly when their revived identifiers are written again. */
  lemma RevivedCredentialsRestringify(c: StoredCredentials)
    requires IsCanonical(c.acgId) && IsCanonical(c.acgSecurityToken)
    ensures ReviveAcg(c).Success?
    ensures Stringify(Registration(c.token, ReviveAcg(c).value)) == c
  {
    CanonicalDecimalRoundTrip(c.acgId);
    CanonicalDecimalRoundTrip(c.acgSecurityToken);
  }

  /** The event that settles a request once the client exists: STARTED with
      the token only when `connect()` resolved, otherwise ERROR with its message. */
  function AfterConnect(connection: ConnectOutcome, token: string): (e: Event)
    ensures e.ServiceStarted? <==> connection.Connected?
    ensures e.ServiceStarted? ==> e.startedToken == Some(token)
    ensures e.ServiceError? <==> connection.ConnectFailed?
    ensures e.ServiceError? ==> e.description == connection.message
  {
    match connection
    case Connected => ServiceStarted(Some(token))
    case ConnectFailed(message) => ServiceError(message)
  }

  /** The receiver of one process: the process-wide `started` flag, the two
      store entries, the log of events sent to the renderer, and the push
      client once it has been built. */
  class Receiver {
    var started: bool
    var storedCredentials: Option<StoredCredentials>
    var storedAppID: Option<string>
    var events: seq<Event>
    /** The identifiers the push client was built with, once it exists. */
    var client: Option<Acg>
    /** Whether the client's `connect()` has resolved. */
    var connected: bool
    /** How many times the registrar and `connect()` have been called. */
    ghost var registerCalls: nat
    ghost var connectCalls: nat

    /** At most one registration and one connect per process, none before the
        first request; a connect is attempted exactly when a client is built. */
    ghost predicate Valid()
      reads this
    {
      && registerCalls <= 1
      && (connectCalls == 1 <==> client.Some?)
      && (connectCalls == 0 <==> client.None?)
      && (connected ==> client.Some?)
      && (!started ==> registerCalls == 0 && client.None?)
    }

    /** A fresh process: not started, no events, whatever a previous run of
        the application left in the store. */
    constructor (credentials: Option<StoredCredentials>, appID: Option<string>)
      ensures Valid()
      ensures !started && events == [] && client.None? && !connected
      ensures storedCredentials == credentials && storedAppID == appID
      ensures registerCalls == 0
    {
      started := false;
      storedCredentials := credentials;
      storedAppID := appID;
      events := [];
      client := None;
      connected := false;
      registerCalls := 0;
      connectCalls := 0;
    }

    /** Handles one START request for `appID`. `registrar` is what
        registration would yield and `connection` how `connect()` would
        settle; each is consulted only when the handler gets that far. */
    method Start(appID: string, registrar: Result<Registration, string>, connection: ConnectOutcome)
      requires Valid()
      modifies this
      ensures Valid()
      ensures started
      // A repeated request only echoes the stored token.
      ensures old(started) ==>
        && storedCredentials == old(storedCredentials) && storedAppID == old(storedAppID)
        && client == old(client) && connected == old(connected)
        && registerCalls == old(registerCalls) && connectCalls == old(connectCalls)
        && events == old(events) + [ServiceStarted(TokenOf(old(storedCredentials)))]
      // The first request registers exactly when the re-registration rule says so.
      ensures !old(started) ==>
        registerCalls == if NeedsRegistration(old(storedCredentials), old(storedAppID), appID) then 1 else 0
      // Registration fails: the store is untouched and one error is sent.
      ensures !old(started) && NeedsRegistration(old(storedCredentials), old(storedAppID), appID) && registrar.Failure? ==>
        && storedCredentials == old(storedCredentials) && storedAppID == old(storedAppID)
        && client.None? && !connected
        && events == old(events) + [ServiceError(registrar.error)]
      // Registration succeeds: the store holds the new credentials as text,
      // the client gets the issued identifiers, and TOKEN_UPDATED precedes
      // the event that settles the connect.
      ensures !old(started) && NeedsRegistration(old(storedCredentials), old(storedAppID), appID) && registrar.Success? ==>
        && storedCredentials == Some(Stringify(registrar.value)) && storedAppID == Some(appID)
        && client == Some(registrar.value.acg)
        && connected == connection.Connected?
        && events == old(events) + [TokenUpdated(registrar.value.token), AfterConnect(connection, registrar.value.token)]
      // Stored credentials are reused: the store is untouched.
      ensures !old(started) && !NeedsRegistration(old(storedCredentials), old(storedAppID), appID) ==>
        && storedCredentials == old(storedCredentials) && storedAppID == old(storedAppID)
        && var revived := ReviveAcg(old(storedCredentials).value);
           && (revived.Failure? ==>
                 client.None? && !connected && events == old(events) + [ServiceError(revived.error)])
           && (revived.Success? ==>
                 && client == Some(revived.value)
                 && connected == connection.Connected?
                 && events == old(events) + [AfterConnect(connection, old(storedCredentials).value.token)])
    {
      var credentials := storedCredentials;
      var savedAppID := storedAppID;

      if started {
        events := events + [ServiceStarted(TokenOf(credentials))];
        return;
      }
      started := true;

      var persisted: StoredCredentials;
      if NeedsRegistration(credentials, savedAppID, appID) {
        registerCalls := registerCalls + 1;
        if registrar.Failure? {
          events := events + [ServiceError(registrar.error)];
          return;
        }
        var issued := registrar.value;
        persisted := Stringify(issued);
        storedCredentials := Some(persisted);
        storedAppID := Some(appID);
        events := events + [TokenUpdated(issued.token)];
        PersistedAcgRevives(issued);
      } else {
        persisted := credentials.value;
      }

      var acg := ReviveAcg(persisted);
      if acg.Failure? {
        events := events + [ServiceError(acg.error)];
        return;
      }
      client := Some(acg.value);
      connectCalls := connectCalls + 1;
      if connection.ConnectFailed? {
        events := events + [ServiceError(connection.message)];
        return;
      }
      connected := true;
      events := events + [ServiceStarted(Some(persisted.token))];
    }

    /** The client's `message` handler: the message is forwarded only while
        the renderer's web contents are not destroyed. */
    method OnMessage(message: Message, targetDestroyed: bool)
      requires Valid() && client.Some?
      modifies this`events
      ensures Valid()
      ensures events == if targetDestroyed then old(events) else old(events) + [NotificationReceived(message)]
    {
      if !targetDestroyed {
        events := events + [NotificationReceived(message)];
      }
    }
  }

  /** A fresh process with an empty store receives START for "app1"; the
      registrar issues token "T1" with identifiers 123 and 456 and the
      client connects. */
  method FreshRegistrationScenario() returns (log: seq<Event>, stored: Option<StoredCredentials>, appID: Option<string>)
    ensures log == [TokenUpdated("T1"), ServiceStarted(Some("T1"))]
    ensures stored == Some(StoredCredentials("T1", "123", "456"))
    ensures appID == Some("app1")
  {
    var r := new Receiver(None, None);
    r.Start("app1", Success(Registration("T1", Acg(123, 456))), Connected);
    log, stored, appID := r.events, r.storedCredentials, r.storedAppID;
    assert ToDecimal(1) == "1" && ToDecimal(12) == "12" && ToDecimal(123) == "123";
    assert ToDecimal(4) == "4" && ToDecimal(45) == "45" && ToDecimal(456) == "456";
  }

  /** Two START requests in a fresh process with an empty store, the second
      arriving after the first has settled: the second only echoes the stored
      token, even when the first one failed to connect, and never registers
      again. A second request arriving while the first is suspended at a
      registration or connect await is not covered. */
  method StartTwiceOnFreshStore(appID: string, registrar: Result<Registration, string>, connection: ConnectOutcome)
    returns (log: seq<Event>)
    ensures registrar.Failure? ==> log == [ServiceError(registrar.error), ServiceStarted(None)]
    ensures registrar.Success? ==>
      log == [TokenUpdated(registrar.value.token), AfterConnect(connection, registrar.value.token),
              ServiceStarted(Some(registrar.value.token))]
  {
    var r := new Receiver(None, None);
    r.Start(appID, registrar, connection);
    r.Start(appID, registrar, connection);
    log := r.events;
  }
}
