/**
 * The WhatsApp service (pkg/wa/wa.go): one instance per tenant, built from
 * the environment, and the decisions that bring an instance's session up.
 * Every provider call is an input: its outcome is given, not computed.
 */
module WaService {
  import opened Wrappers
  import opened GoStrings
  import opened GoStrconv
  import opened WaApi
  import Util

  /** The errors of the provider's restore calls the relay tells apart. */
  datatype ProviderError = AlreadyConnected | AlreadyLoggedIn | InvalidSession | OtherProviderError

  /** A decision: whether the session is up, and the error to report. */
  datatype Step = Step(ok: bool, err: Option<SessionError>)

  datatype SessionError =
    | SaveSessionFailed
    | RestoreSessionFailed
    | DeleteQRFailed
    | LoginFailed

  /** `restore`: reconnect with the provider's own state. */
  function Restore(reply: Option<ProviderError>): (r: Step)
    ensures r.err.None?
    ensures r.ok <==> reply != Some(InvalidSession)
  {
    match reply
    case Some(AlreadyConnected) => Step(true, None)
    case Some(AlreadyLoggedIn) => Step(true, None)
    case Some(InvalidSession) => Step(false, None)
    case _ => Step(true, None)
  }

  /** What `readSession` found: nothing readable, or a stored session. */
  datatype StoredSession = NoSessionFile | SessionFile(clientId: string)

  /**
   * `restoreSession`: reconnect with the stored session. With nothing usable
   * stored, the provider is not called. After any other provider error the
   * session is written back, and a failure to write it takes precedence.
   */
  function RestoreSession(stored: StoredSession, reply: Option<ProviderError>, writeOk: bool): (r: Step)
    ensures (stored == NoSessionFile || stored.clientId == "") ==> r == Step(false, None)
    ensures stored.SessionFile? && stored.clientId != "" ==>
      (reply.None? ==> r == Step(true, None))
      && (reply == Some(AlreadyConnected) || reply == Some(AlreadyLoggedIn) ==> r == Step(true, None))
      && (reply == Some(InvalidSession) ==> r == Step(false, None))
      && (reply == Some(OtherProviderError) ==>
            r == Step(false, Some(if writeOk then RestoreSessionFailed else SaveSessionFailed)))
  {
    if stored.SessionFile? && stored.clientId != "" then
      match reply
      case Some(AlreadyConnected) => Step(true, None)
      case Some(AlreadyLoggedIn) => Step(true, None)
      case Some(InvalidSession) => Step(false, None)
      case Some(OtherProviderError) =>
        if !writeOk then Step(false, Some(SaveSessionFailed))
        else Step(false, Some(RestoreSessionFailed))
      case None => Step(true, None)
    else Step(false, None)
  }

  /**
   * What happens during a QR login: whether the provider's login failed,
   * whether the QR code had been posted to Telegram by the time it returned,
   * whether deleting that post worked, and whether writing the session did.
   */
  datatype QRLogin = QRLogin(loginFailed: bool, qrPosted: bool, deleteOk: bool, writeOk: bool)

  /**
   * `loginSession` as written: deleting the QR post assigns the shared error
   * variable, so a login failure is forgotten once the post is deleted.
   */
  function LoginSessionAsWritten(q: QRLogin): (r: Step)
    ensures r.ok <==> r.err.None?
    ensures q.qrPosted && !q.deleteOk ==> r == Step(false, Some(DeleteQRFailed))
  {
    var err := if q.qrPosted then (if q.deleteOk then false else true) else q.loginFailed;
    if q.qrPosted && !q.deleteOk then Step(false, Some(DeleteQRFailed))
    else if err then Step(false, Some(LoginFailed))
    else if !q.writeOk then Step(false, Some(SaveSessionFailed))
    else Step(true, None)
  }

  /** A failed login with a deleted QR post is reported as a successful login. */
  lemma LoginSessionAsWrittenMasksFailure()
    ensures LoginSessionAsWritten(QRLogin(true, true, true, true)) == Step(true, None)
    ensures LoginSession(QRLogin(true, true, true, true)) == Step(false, Some(LoginFailed))
  {
  }

  /**
   * `loginSession` with the login's own error kept: the session is up only
   * when the provider's login succeeded, the QR post (if any) was deleted and
   * the session was written.
   */
  function LoginSession(q: QRLogin): (r: Step)
    ensures r.ok <==> r.err.None?
    ensures r.ok <==> !q.loginFailed && (q.qrPosted ==> q.deleteOk) && q.writeOk
    ensures q.qrPosted && !q.deleteOk ==> r.err == Some(DeleteQRFailed)
    ensures !(q.qrPosted && !q.deleteOk) && q.loginFailed ==> r.err == Some(LoginFailed)
  {
    if q.qrPosted && !q.deleteOk then Step(false, Some(DeleteQRFailed))
    else if q.loginFailed then Step(false, Some(LoginFailed))
    else if !q.writeOk then Step(false, Some(SaveSessionFailed))
    else Step(true, None)
  }

  /** The provider outcomes one `login` can meet, in the order it meets them. */
  datatype LoginScript = LoginScript(
    restoreReply: Option<ProviderError>,
    stored: StoredSession,
    sessionReply: Option<ProviderError>,
    sessionWriteOk: bool,
    qr: QRLogin,
    pingOk: bool,
    versionOk: bool)

  datatype LoginCall = CallRestore | CallRestoreSession | CallLoginSession | CallPing | CallVersion

  datatype LoginError =
    | RestoreSessionError(e: SessionError)
    | LoginSessionError(e: SessionError)
    | BadStatus
    | PingFailed
    | VersionFailed

  /** The calls `login` made and the error it returned, if any. */
  datatype LoginOutcome = LoginOutcome(calls: seq<LoginCall>, err: Option<LoginError>)

  /**
   * `login(onlyRestore)` once the QR login's outcome `qrLogin` is known:
   * restore, then the stored session, then (unless only restoring) the QR
   * login; then a ping and the server version check.
   */
  function LoginWith(onlyRestore: bool, s: LoginScript, qrLogin: Step): LoginOutcome
  {
    // `restore` never reports an error, so the error branch after it is omitted.
    var restored := Restore(s.restoreReply);
    var afterSession :=
      if !restored.ok then RestoreSession(s.stored, s.sessionReply, s.sessionWriteOk) else restored;
    var calls1 := if !restored.ok then [CallRestore, CallRestoreSession] else [CallRestore];
    if !restored.ok && afterSession.err.Some? && !onlyRestore then
      LoginOutcome(calls1, Some(RestoreSessionError(afterSession.err.value)))
    else
      var afterLogin := if !afterSession.ok && !onlyRestore then qrLogin else afterSession;
      var calls2 := if !afterSession.ok && !onlyRestore then calls1 + [CallLoginSession] else calls1;
      if !afterSession.ok && !onlyRestore && afterLogin.err.Some? then
        LoginOutcome(calls2, Some(LoginSessionError(afterLogin.err.value)))
      else if !afterLogin.ok && !onlyRestore then
        LoginOutcome(calls2, Some(BadStatus))
      else if !s.pingOk && !onlyRestore then
        LoginOutcome(calls2 + [CallPing], Some(PingFailed))
      else if !s.versionOk then
        LoginOutcome(calls2 + [CallPing, CallVersion], Some(VersionFailed))
      else
        LoginOutcome(calls2 + [CallPing, CallVersion], None)
  }

  /** `login(onlyRestore)` as written, with `loginSession` as written. */
  function Login(onlyRestore: bool, s: LoginScript): (r: LoginOutcome)
    ensures r.calls != [] && r.calls[0] == CallRestore
    ensures CallRestoreSession in r.calls <==> !Restore(s.restoreReply).ok
  {
    LoginWith(onlyRestore, s, LoginSessionAsWritten(s.qr))
  }

  /** `login(onlyRestore)` with the QR login's own error kept, as intended. */
  function LoginIntended(onlyRestore: bool, s: LoginScript): (r: LoginOutcome)
    ensures r.calls != [] && r.calls[0] == CallRestore
    ensures CallRestoreSession in r.calls <==> !Restore(s.restoreReply).ok
  {
    LoginWith(onlyRestore, s, LoginSession(s.qr))
  }

  /** When only restoring, the QR login is never reached, so the two logins agree. */
  lemma RestoreOnlyLoginUnaffected(s: LoginScript)
    ensures Login(true, s) == LoginIntended(true, s)
  {
  }

  /** A QR login is attempted exactly when both restores failed quietly and more than restoring is asked for. */
  lemma LoginSessionCalledWhen(onlyRestore: bool, s: LoginScript)
    ensures CallLoginSession in Login(onlyRestore, s).calls <==>
      !onlyRestore && !Restore(s.restoreReply).ok
      && RestoreSession(s.stored, s.sessionReply, s.sessionWriteOk) == Step(false, None)
  {
  }

  /** With `onlyRestore`, the version check is the only way `login` fails. */
  lemma OnlyRestoreFailsOnVersion(s: LoginScript)
    ensures Login(true, s).err.Some? <==> !s.versionOk
    ensures !s.versionOk ==> Login(true, s).err == Some(VersionFailed)
  {
  }

  /**
   * A full login in which no step brings the session up fails. The QR login
   * as written reports an error whenever it leaves the session down, so the
   * "bad status" error is never the one returned.
   */
  lemma FullLoginFailsWithoutSession(s: LoginScript)
    requires !Restore(s.restoreReply).ok
    requires !RestoreSession(s.stored, s.sessionReply, s.sessionWriteOk).ok
    requires !LoginSessionAsWritten(s.qr).ok
    ensures Login(false, s).err.Some?
    ensures Login(false, s).err != Some(BadStatus)
  {
  }

  /**
   * As written, a full login with no stored session whose QR login failed
   * but whose QR post was deleted succeeds: the masked failure of
   * `loginSession` reaches `login`.
   */
  lemma FullLoginSucceedsOnMaskedFailure(s: LoginScript)
    requires !Restore(s.restoreReply).ok
    requires RestoreSession(s.stored, s.sessionReply, s.sessionWriteOk) == Step(false, None)
    requires s.qr.loginFailed && s.qr.qrPosted && s.qr.deleteOk && s.qr.writeOk
    requires s.pingOk && s.versionOk
    ensures Login(false, s).err.None?
    ensures LoginIntended(false, s).err == Some(LoginSessionError(LoginFailed))
  {
  }

  /**
   * With the QR login's own error kept, a full login in which no step brings
   * the session up fails, and never with "bad status".
   */
  lemma IntendedLoginFailsWithoutSession(s: LoginScript)
    requires !Restore(s.restoreReply).ok
    requires !RestoreSession(s.stored, s.sessionReply, s.sessionWriteOk).ok
    requires !LoginSession(s.qr).ok
    ensures LoginIntended(false, s).err.Some?
    ensures LoginIntended(false, s).err != Some(BadStatus)
  {
  }

  /** A failed ping is fatal to a full login once the session is up, and ignored when only restoring. */
  lemma PingFatalOnlyForFullLogin(s: LoginScript)
    requires Restore(s.restoreReply).ok && !s.pingOk
    ensures Login(false, s).err == Some(PingFailed)
    ensures Login(true, s).err.Some? <==> !s.versionOk
  {
  }

  /** One WhatsApp account, serving one tenant. */
  class Instance {
    /** The tenant: the main group's Telegram chat id. */
    const id: int
    /** The clients seen in inbound messages, in order of first appearance. */
    var clients: seq<string>
    /** The provider's contact book. */
    var contacts: map<string, WaContact>
    /** The account's own JID. */
    const wid: string
    /** Inbound messages older than this Unix time are ignored. */
    const pointTime: nat

    ghost predicate Valid()
      reads this
    {
      Util.NoDuplicates(clients)
    }

    constructor (id: int, pointTime: nat, contacts: map<string, WaContact>, wid: string)
      ensures Valid()
      ensures this.id == id && this.pointTime == pointTime && this.contacts == contacts
      ensures this.wid == wid && clients == []
    {
      this.id := id;
      this.pointTime := pointTime;
      this.contacts := contacts;
      this.wid := wid;
      clients := [];
    }

    /** The instance's state as the identifier helpers read it. */
    function View(): (v: InstanceView)
      reads this
      ensures v.id == id && v.clients == clients && v.contacts == contacts
      ensures v.wid == wid && v.pointTime == pointTime
    {
      InstanceView(id, contacts, clients, wid, pointTime)
    }
  }

  class Service {
    var instances: map<int, Instance>

    constructor ()
      ensures instances == map[]
    {
      instances := map[];
    }

    /** `GetInstance`: the tenant's instance, if one was started. */
    function GetInstance(id: int): (r: Option<Instance>)
      reads this
      ensures r.Some? <==> id in instances
      ensures r.Some? ==> r.value == instances[id]
    {
      if id in instances then Some(instances[id]) else None
    }
  }

  /** `WA_POINT_TIME`: an unparseable value (including an unset one) means 0. */
  function PointTime(env: string): (t: nat)
    ensures ParseUint(env).err != NoError ==> t == 0
    ensures ParseUint(env).err == NoError ==> t == ParseUint(env).value && IsDecimal(env)
  {
    var p := ParseUint(env);
    if p.err != NoError then 0 else p.value
  }

  /** What starting the instance of one configured tenant meets. */
  datatype InstanceSetup = InstanceSetup(
    connOk: bool,
    login: LoginScript,
    contacts: map<string, WaContact>,
    wid: string)

  datatype NewError =
    | ParseIDFailed(item: string)
    | ConnectionFailed(id: int)
    | StartFailed(id: int, e: LoginError)
    | PointTimeFailed(env: string, parseErr: NumError)

  /** Why starting the instance for one `TG_MAIN_GROUPS` item fails, if it does. */
  function SetupFailure(item: string, setup: InstanceSetup): (r: Option<NewError>)
    ensures ParseInt(item).err != NoError ==> r == Some(ParseIDFailed(item))
    ensures r.None? <==> (ParseInt(item).err == NoError && setup.connOk
      && Login(true, setup.login).err.None?)
  {
    var p := ParseInt(item);
    if p.err != NoError then Some(ParseIDFailed(item))
    else if !setup.connOk then Some(ConnectionFailed(p.value))
    else match Login(true, setup.login).err
      case Some(e) => Some(StartFailed(p.value, e))
      case None => None
  }

  /** How many items, from the first, start without failure. */
  function Started(items: seq<string>, setups: seq<InstanceSetup>): (n: nat)
    requires |setups| == |items|
    ensures n <= |items|
    ensures forall i :: 0 <= i < n ==> SetupFailure(items[i], setups[i]).None?
    ensures n < |items| ==> SetupFailure(items[n], setups[n]).Some?
  {
    if items == [] || SetupFailure(items[0], setups[0]).Some? then 0
    else 1 + Started(items[1..], setups[1..])
  }

  /** An item at or before the first failure that starts is before it. */
  lemma StartedPast(items: seq<string>, setups: seq<InstanceSetup>, k: nat)
    requires |setups| == |items| && k < |items| && k <= Started(items, setups)
    requires SetupFailure(items[k], setups[k]).None?
    ensures k < Started(items, setups)
  {
  }

  /** An item at or before the first failure that fails is the first failure. */
  lemma StartedAt(items: seq<string>, setups: seq<InstanceSetup>, k: nat)
    requires |setups| == |items| && k < |items| && k <= Started(items, setups)
    requires SetupFailure(items[k], setups[k]).Some?
    ensures k == Started(items, setups)
  {
  }

  /** The tenant ids of the first `k` items. */
  function StartedIds(items: seq<string>, k: nat): set<int>
    requires k <= |items|
  {
    if k == 0 then {} else StartedIds(items, k - 1) + {ParseInt(items[k - 1]).value}
  }

  /** The ids of the first `k` items are exactly the values they parse to. */
  lemma {:induction false} StartedIdsMembers(items: seq<string>, k: nat)
    requires k <= |items|
    ensures forall i :: 0 <= i < k ==> ParseInt(items[i]).value in StartedIds(items, k)
    ensures forall id :: id in StartedIds(items, k) ==> exists i :: 0 <= i < k && ParseInt(items[i]).value == id
  {
    if k > 0 {
      StartedIdsMembers(items, k - 1);
    }
  }

  /**
   * `New`'s error as intended: only a failing item stops the start, and an
   * unparseable point time just means 0.
   */
  function NewErrorIntended(items: seq<string>, setups: seq<InstanceSetup>): (r: Option<NewError>)
    requires |setups| == |items|
    ensures r.None? <==> Started(items, setups) == |items|
    ensures r.Some? ==> r == SetupFailure(items[Started(items, setups)], setups[Started(items, setups)])
    ensures r.Some? ==> !r.value.PointTimeFailed?
  {
    var n := Started(items, setups);
    if n < |items| then SetupFailure(items[n], setups[n]) else None
  }

  /**
   * `New`'s error as written: `pointTime, err :=` assigns the named result,
   * the loop's own `err` hides it only inside the loop, and the final bare
   * `return` hands back the point time's parse error.
   */
  function NewErrorAsWritten(pointTimeEnv: string, items: seq<string>, setups: seq<InstanceSetup>)
    : (r: Option<NewError>)
    requires |setups| == |items|
    ensures r.None? <==> Started(items, setups) == |items| && ParseUint(pointTimeEnv).err == NoError
    ensures NewErrorIntended(items, setups).Some? ==> r == NewErrorIntended(items, setups)
    ensures ParseUint(pointTimeEnv).err == NoError ==> r == NewErrorIntended(items, setups)
    ensures NewErrorIntended(items, setups).None? && ParseUint(pointTimeEnv).err != NoError ==>
      r == Some(PointTimeFailed(pointTimeEnv, ParseUint(pointTimeEnv).err))
  {
    var e := NewErrorIntended(items, setups);
    var p := ParseUint(pointTimeEnv);
    if e.Some? then e
    else if p.err != NoError then Some(PointTimeFailed(pointTimeEnv, p.err))
    else None
  }

  /** A tenant whose instance starts: connected, and its restore-only login passes the version check. */
  const StartingSetup := InstanceSetup(true,
    LoginScript(None, NoSessionFile, None, true, QRLogin(false, false, true, true), true, true), map[], "")

  /**
   * With an unset WA_POINT_TIME and one tenant that starts, `New` as written
   * fails with the point time's syntax error, where as intended it succeeds.
   */
  lemma UnsetPointTimeFailsNew()
    ensures NewErrorAsWritten("", ["5"], [StartingSetup]) == Some(PointTimeFailed("", ErrSyntax))
    ensures NewErrorIntended(["5"], [StartingSetup]) == None
  {
    assert "5"[1..] == [];
    assert ParseInt("5") == Parsed(5, NoError);
    assert Login(true, StartingSetup.login).err.None?;
    assert SetupFailure("5", StartingSetup).None?;
    assert ["5"][1..] == [];
    assert Started(["5"], [StartingSetup]) == 1;
  }

  /** An instance as `New` registers it under `id`. */
  ghost predicate Registered(inst: Instance, id: int, pointTime: nat)
    reads inst
  {
    inst.Valid() && inst.id == id && inst.clients == [] && inst.pointTime == pointTime
  }

  /** An unset `TG_MAIN_GROUPS` splits into one empty id, which does not parse. */
  lemma UnsetGroupsAbort(setups: seq<InstanceSetup>)
    requires |setups| == 1
    ensures SplitOn("", ',') == [""]
    ensures Started([""], setups) == 0
    ensures SetupFailure("", setups[0]) == Some(ParseIDFailed(""))
  {
  }

  /**
   * One item of `New`'s loop: parse the tenant id, create the instance,
   * connect and log in; only an instance that gets through all of these is
   * registered.
   */
  method StartOne(service: Service, pointTime: nat, item: string, setup: InstanceSetup)
    returns (err: Option<NewError>)
    modifies service
    ensures err == SetupFailure(item, setup)
    ensures err.Some? ==> service.instances == old(service.instances)
    ensures err.None? ==>
      var id := ParseInt(item).value;
      && id in service.instances && fresh(service.instances[id])
      && Registered(service.instances[id], id, pointTime)
      && service.instances == old(service.instances)[id := service.instances[id]]
      && service.instances.Keys == old(service.instances).Keys + {id}
      && forall j :: j in old(service.instances) && j != id ==> service.instances[j] == old(service.instances)[j]
  {
    var parsed := ParseInt(item);
    if parsed.err != NoError {
      return Some(ParseIDFailed(item));
    }
    var instance := new Instance(parsed.value, pointTime, setup.contacts, setup.wid);
    if !setup.connOk {
      return Some(ConnectionFailed(parsed.value));
    }
    var login := Login(true, setup.login);
    if login.err.Some? {
      return Some(StartFailed(parsed.value, login.err.value));
    }
    service.instances := service.instances[parsed.value := instance];
    return None;
  }

  /**
   * `New`: parse the point time, then start one instance per comma-separated
   * tenant id, stopping at the first item that fails. The instances started
   * before a failure stay registered, as the partly built service is returned.
   * When every item starts, the point time's parse error is returned (see
   * `NewErrorAsWritten`).
   */
  method New(pointTimeEnv: string, groupsEnv: string, setups: seq<InstanceSetup>)
    returns (service: Service, err: Option<NewError>)
    requires |setups| == |SplitOn(groupsEnv, ',')|
    ensures fresh(service)
    ensures var items := SplitOn(groupsEnv, ',');
      var n := Started(items, setups);
      && (err.None? <==> n == |items| && ParseUint(pointTimeEnv).err == NoError)
      && err == NewErrorAsWritten(pointTimeEnv, items, setups)
      && service.instances.Keys == StartedIds(items, n)
    ensures forall id :: id in service.instances ==>
      fresh(service.instances[id]) && Registered(service.instances[id], id, PointTime(pointTimeEnv))
  {
    service := new Service();
    var parsed := ParseUint(pointTimeEnv);
    err := StartAll(service, PointTime(pointTimeEnv), SplitOn(groupsEnv, ','), setups);
    if err.None? && parsed.err != NoError {
      err := Some(PointTimeFailed(pointTimeEnv, parsed.err));
    }
  }

  /** `New`'s loop over the tenant ids, on a service with no instance yet. */
  method StartAll(service: Service, pointTime: nat, items: seq<string>, setups: seq<InstanceSetup>)
    returns (err: Option<NewError>)
    requires |setups| == |items| && service.instances == map[]
    modifies service
    ensures var n := Started(items, setups);
      && (err.None? <==> n == |items|)
      && (err.Some? ==> err == SetupFailure(items[n], setups[n]))
      && service.instances.Keys == StartedIds(items, n)
    ensures forall id :: id in service.instances ==>
      fresh(service.instances[id]) && Registered(service.instances[id], id, pointTime)
  {
    ghost var n := Started(items, setups);
    var k := 0;
    while k < |items|
      invariant 0 <= k <= n
      invariant service.instances.Keys == StartedIds(items, k)
      invariant forall id :: id in service.instances ==>
        fresh(service.instances[id]) && Registered(service.instances[id], id, pointTime)
    {
      err := StartOne(service, pointTime, items[k], setups[k]);
      if err.Some? {
        StartedAt(items, setups, k);
        return err;
      }
      StartedPast(items, setups, k);
      assert StartedIds(items, k + 1) == StartedIds(items, k) + {ParseInt(items[k]).value};
      k := k + 1;
    }
    return None;
  }
}
