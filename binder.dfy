/** The binder-based strategies: a privilege source (Shizuku or Dhizuku) that can run, wraps the
    activity-manager binder and names the identity the call is made as, composed with a call
    target (activity, service or receiver) that knows the version-specific call and how to read
    its result. */
module BinderLaunch {
  import opened Outcomes
  import opened Text
  import opened Intents
  import opened Sdk

  /** `ActivityManager.START_SUCCESS`. */
  const START_SUCCESS: int := 0
  /** `AppOpsManager.OP_NONE`. */
  const OP_NONE: int := -1
  /** `UserHandle.PER_USER_RANGE`: the number of app ids per user. */
  const PER_USER_RANGE: int := 100000
  /** The package the Dhizuku strategy acts as. */
  const DHIZUKU_PACKAGE: string := "com.rosan.dhizuku"

  const SERVICE_NOT_FOUND: string := "Unable to find service!"

  // ---------------------------------------------------------------------------------------------
  // The binder wrapper's failure handling

  /** `BinderWrapperLaunchStrategy.tryLaunch`: runs `callLaunch` on the request's intent and catches
      exceptions only. An `Error` is not an `Exception`, so it is not caught. */
  function WrapperTryLaunch(callLaunch: Outcome): (r: LaunchResult)
    ensures r == Returned([]) <==> callLaunch.Pass?
    ensures callLaunch.Fail? && callLaunch.cause.kind == ExceptionKind ==> r == Returned([callLaunch.cause])
    ensures callLaunch.Fail? && callLaunch.cause.kind == ErrorKind ==> r == Raised(callLaunch.cause)
    ensures r.Returned? ==> |r.errors| <= 1
  {
    match callLaunch
    case Pass => Returned([])
    case Fail(e) => if e.kind == ExceptionKind then Returned([e]) else Raised(e)
  }

  // ---------------------------------------------------------------------------------------------
  // Privilege sources

  datatype PrivilegeSource = Shizuku | Dhizuku

  /** The three external calls of a privilege source's `canRun`, in the order they can happen:
      reaching the service (`Shizuku.pingBinder()`, `Dhizuku.init(this)`), asking whether
      permission is held, and the interactive permission request. */
  datatype ProbeStep = Reach | CheckGrant | RequestGrant

  /** What each of those calls would answer. */
  datatype Probe = Probe(reachable: bool, granted: bool, grantOnRequest: bool)

  /** The verdict of `canRun` and the calls it made. */
  datatype ProbeRun = ProbeRun(canRun: bool, steps: seq<ProbeStep>)

  /** The service must be reachable, and permission must be held or granted when requested. Each
      call is made only when the ones before it leave the answer open. */
  function PrivilegeCanRun(p: Probe): (r: ProbeRun)
    ensures r.canRun <==> p.reachable && (p.granted || p.grantOnRequest)
    ensures |r.steps| >= 1 && r.steps <= [Reach, CheckGrant, RequestGrant]
    ensures CheckGrant in r.steps <==> p.reachable
    ensures RequestGrant in r.steps <==> p.reachable && !p.granted
  {
    if !p.reachable then ProbeRun(false, [Reach])
    else if p.granted then ProbeRun(true, [Reach, CheckGrant])
    else ProbeRun(p.grantOnRequest, [Reach, CheckGrant, RequestGrant])
  }

  /** The identity a binder call is attributed to: the user id and the calling package, if any. */
  datatype Identity = Identity(userId: int, packageName: Option<string>)

  /** `UserHandle.getUserId`: the uid divided by PER_USER_RANGE. Java's division truncates toward zero. */
  function UserIdOf(uid: int): (userId: int)
    ensures uid >= 0 ==> 0 <= userId * PER_USER_RANGE <= uid < (userId + 1) * PER_USER_RANGE
    ensures uid < 0 ==> 0 <= -userId * PER_USER_RANGE <= -uid < (-userId + 1) * PER_USER_RANGE
  {
    if uid >= 0 then uid / PER_USER_RANGE else -((-uid) / PER_USER_RANGE)
  }

  /** What the platform answers. Each field is a call the model cannot see; `activityManager`
      stands for fetching the activity-manager binder and wrapping it through the privilege
      source (`ShizukuBinderWrapper`, `Dhizuku.binderWrapper`). */
  datatype Platform = Platform(
    sdk: int,
    activityManager: Call<()>,
    shizukuUid: Call<int>,
    packagesForUid: int -> seq<string>,
    applicationUid: string -> Call<int>,
    startActivity: ActivityCall -> Call<int>,
    startService: ServiceCall -> Call<Option<ComponentName>>,
    broadcastIntent: ReceiverCall -> Call<int>)

  /** `ShizukuLaunchStrategy.getUidAndPackage`: the user of Shizuku's uid and the first package
      that uid owns, or no package when it owns none. */
  function ShizukuIdentity(p: Platform): (r: Call<Identity>)
    ensures p.shizukuUid.Throws? ==> r == Throws(p.shizukuUid.cause)
    ensures p.shizukuUid.Returns? ==> r.Returns? && r.value.userId == UserIdOf(p.shizukuUid.value)
    ensures p.shizukuUid.Returns? ==>
      (r.value.packageName.None? <==> p.packagesForUid(p.shizukuUid.value) == [])
    ensures p.shizukuUid.Returns? && r.value.packageName.Some? ==>
      r.value.packageName.value == p.packagesForUid(p.shizukuUid.value)[0]
  {
    match p.shizukuUid
    case Throws(e) => Throws(e)
    case Returns(uid) =>
      var packages := p.packagesForUid(uid);
      Returns(Identity(UserIdOf(uid), if |packages| == 0 then None else Some(packages[0])))
  }

  /** `DhizukuLaunchStrategy.getUidAndPackage`: always the Dhizuku package, with the user of that
      package's uid; the lookup throws when the package is not installed. */
  function DhizukuIdentity(p: Platform): (r: Call<Identity>)
    ensures r.Returns? <==> p.applicationUid(DHIZUKU_PACKAGE).Returns?
    ensures r.Returns? ==> r.value.packageName == Some(DHIZUKU_PACKAGE)
    ensures r.Returns? ==> r.value.userId == UserIdOf(p.applicationUid(DHIZUKU_PACKAGE).value)
    ensures r.Throws? ==> r.cause == p.applicationUid(DHIZUKU_PACKAGE).cause
  {
    match p.applicationUid(DHIZUKU_PACKAGE)
    case Throws(e) => Throws(e)
    case Returns(uid) => Returns(Identity(UserIdOf(uid), Some(DHIZUKU_PACKAGE)))
  }

  /** The identity of a privilege source: it is obtained exactly when that source's uid lookup
      returns. A Dhizuku identity always names the Dhizuku package, and a Shizuku identity names a
      package of its uid. */
  function IdentityOf(source: PrivilegeSource, p: Platform): (r: Call<Identity>)
    ensures source == Shizuku ==> (r.Returns? <==> p.shizukuUid.Returns?)
    ensures source == Dhizuku ==> (r.Returns? <==> p.applicationUid(DHIZUKU_PACKAGE).Returns?)
    ensures source == Dhizuku && r.Returns? ==> r.value.packageName == Some(DHIZUKU_PACKAGE)
    ensures source == Shizuku && r.Returns? && r.value.packageName.Some? ==>
      r.value.packageName.value in p.packagesForUid(p.shizukuUid.value)
  {
    match source
    case Shizuku => ShizukuIdentity(p)
    case Dhizuku => DhizukuIdentity(p)
  }

  // ---------------------------------------------------------------------------------------------
  // Call shapes. Only the arguments that vary are kept; the others are the constants the calls pass
  // (null caller, null resolved type, null feature id, zero request code and flags, null options).

  datatype ActivityCall =
    | StartActivityWithFeature(callingPackage: Option<string>, intent: Intent)
    | StartActivity(callingPackage: Option<string>, intent: Intent)

  /** The start-activity call for an API level: the `WithFeature` form from R on. */
  function ActivityCallFor(sdk: int, id: Identity, intent: Intent): (c: ActivityCall)
    ensures c.StartActivityWithFeature? <==> FeatureBandOf(sdk) == WithFeature
    ensures c.callingPackage == id.packageName && c.intent == intent
  {
    if sdk >= R then StartActivityWithFeature(id.packageName, intent)
    else StartActivity(id.packageName, intent)
  }

  datatype ServiceCall =
    | StartServiceWithFeature(intent: Intent, requireForeground: bool, callingPackage: Option<string>, userId: int)
    | StartServiceForeground(intent: Intent, requireForeground: bool, callingPackage: Option<string>, userId: int)
    | StartServiceWithPackage(intent: Intent, callingPackage: Option<string>, userId: int)
    | StartServiceLegacy(intent: Intent, userId: int)

  /** The band whose signature a service call has. */
  function ServiceCallBand(c: ServiceCall): ServiceBand
  {
    match c
    case StartServiceWithFeature(_, _, _, _) => ServiceFromR
    case StartServiceForeground(_, _, _, _) => ServiceFromO
    case StartServiceWithPackage(_, _, _) => ServiceFromM
    case StartServiceLegacy(_, _) => ServiceBeforeM
  }

  /** The start-service call for an API level: the typed call from R on, and one of three
      signatures looked up by reflection below R. Every shape passes the intent and the user id;
      only the oldest passes no calling package; foreground is never requested. */
  function ServiceCallFor(sdk: int, id: Identity, intent: Intent): (c: ServiceCall)
    ensures ServiceCallBand(c) == ServiceBandOf(sdk)
    ensures c.intent == intent && c.userId == id.userId
    ensures !c.StartServiceLegacy? ==> c.callingPackage == id.packageName
    ensures c.StartServiceWithFeature? || c.StartServiceForeground? ==> !c.requireForeground
  {
    match ServiceBandOf(sdk)
    case ServiceFromR => StartServiceWithFeature(intent, false, id.packageName, id.userId)
    case ServiceFromO => StartServiceForeground(intent, false, id.packageName, id.userId)
    case ServiceFromM => StartServiceWithPackage(intent, id.packageName, id.userId)
    case ServiceBeforeM => StartServiceLegacy(intent, id.userId)
  }

  datatype ReceiverCall =
    | BroadcastIntentWithFeature(intent: Intent, appOp: int, serialized: bool, sticky: bool, userId: int)
    | BroadcastIntent(intent: Intent, appOp: int, serialized: bool, sticky: bool, userId: int)

  /** The broadcast call for an API level: no app op, neither ordered nor sticky, always user 0. */
  function ReceiverCallFor(sdk: int, intent: Intent): (c: ReceiverCall)
    ensures c.BroadcastIntentWithFeature? <==> FeatureBandOf(sdk) == WithFeature
    ensures c.intent == intent && c.appOp == OP_NONE && !c.serialized && !c.sticky && c.userId == 0
  {
    if sdk >= R then BroadcastIntentWithFeature(intent, OP_NONE, false, false, 0)
    else BroadcastIntent(intent, OP_NONE, false, false, 0)
  }

  // ---------------------------------------------------------------------------------------------
  // Reading the results

  /** The message thrown for a status other than START_SUCCESS: `Error starting <what>: ` and then
      the status in decimal, which can be read back from the message. */
  function StatusMessage(what: string, status: int): (m: string)
    ensures "Error starting " + what + ": " <= m
    ensures ParseDecimal(m[|"Error starting " + what + ": "|..]) == Some(status)
  {
    var prefix := "Error starting " + what + ": ";
    DecimalRoundTrip(status);
    assert (prefix + Decimal(status))[|prefix|..] == Decimal(status);
    prefix + Decimal(status)
  }

  /** The status check of the activity and receiver calls. */
  function CheckStatus(what: string, status: int): (o: Outcome)
    ensures o.Pass? <==> status == START_SUCCESS
    ensures o.Fail? ==> o.cause == Failure(StatusMessage(what, status))
  {
    if status != START_SUCCESS then Fail(Failure(StatusMessage(what, status))) else Pass
  }

  /** Different codes, or different kinds of component, never give the same message. */
  lemma StatusMessageDistinguishes(status1: int, status2: int)
    ensures StatusMessage("Activity", status1) == StatusMessage("Activity", status2) ==> status1 == status2
    ensures StatusMessage("Receiver", status1) == StatusMessage("Receiver", status2) ==> status1 == status2
    ensures StatusMessage("Activity", status1) != StatusMessage("Receiver", status2)
  {
    assert StatusMessage("Activity", status1)[15] == 'A';
    assert StatusMessage("Receiver", status2)[15] == 'R';
  }

  /** The package names `startService` returns to signal a failure. */
  predicate IsServiceSentinel(packageName: string)
  {
    packageName == "!" || packageName == "!!" || packageName == "?"
  }

  /** The check of the component name the service call returns: a missing one and the sentinel
      packages fail, each with its own message; any other component passes. */
  function CheckService(cn: Option<ComponentName>): (o: Outcome)
    ensures o.Pass? <==> cn.Some? && !IsServiceSentinel(cn.value.packageName)
    ensures cn.None? ==> o == Fail(Failure(SERVICE_NOT_FOUND))
    ensures cn.Some? && cn.value.packageName == "!" ==>
      o == Fail(Failure("Requires permission " + cn.value.className))
    ensures cn.Some? && (cn.value.packageName == "!!" || cn.value.packageName == "?") ==>
      o == Fail(Failure(cn.value.className))
  {
    match cn
    case None => Fail(Failure(SERVICE_NOT_FOUND))
    case Some(c) =>
      if c.packageName == "!" then Fail(Failure("Requires permission " + c.className))
      else if c.packageName == "!!" || c.packageName == "?" then Fail(Failure(c.className))
      else Pass
  }

  // ---------------------------------------------------------------------------------------------
  // The composed strategies

  datatype CallTarget = ActivityTarget | ServiceTarget | ReceiverTarget

  /** A binder strategy: a privilege source composed with a call target. */
  datatype BinderStrategy = BinderStrategy(source: PrivilegeSource, target: CallTarget)

  /** `BinderActivityLaunchStrategy.callLaunch`: the binder, then the identity, then the start call
      of the API level and the check of its status. A failure at any step is passed on unchanged. */
  function ActivityCallLaunch(source: PrivilegeSource, p: Platform, intent: Intent): (o: Outcome)
    ensures o.Pass? <==>
      && p.activityManager.Returns?
      && IdentityOf(source, p).Returns?
      && p.startActivity(ActivityCallFor(p.sdk, IdentityOf(source, p).value, intent)) == Returns(START_SUCCESS)
    ensures p.activityManager.Throws? ==> o == Fail(p.activityManager.cause)
    ensures p.activityManager.Returns? && IdentityOf(source, p).Throws? ==> o == Fail(IdentityOf(source, p).cause)
    ensures p.activityManager.Returns? && IdentityOf(source, p).Returns? ==>
      var reply := p.startActivity(ActivityCallFor(p.sdk, IdentityOf(source, p).value, intent));
      && (reply.Throws? ==> o == Fail(reply.cause))
      && (reply.Returns? ==> o == CheckStatus("Activity", reply.value))
  {
    match p.activityManager
    case Throws(e) => Fail(e)
    case Returns(_) =>
      match IdentityOf(source, p)
      case Throws(e) => Fail(e)
      case Returns(id) =>
        match p.startActivity(ActivityCallFor(p.sdk, id, intent))
        case Throws(e) => Fail(e)
        case Returns(status) => CheckStatus("Activity", status)
  }

  /** `BinderServiceLaunchStrategy.callLaunch`: the binder, then the identity, then the start call of
      the API level and the check of the component it returns. A failure at any step is passed on. */
  function ServiceCallLaunch(source: PrivilegeSource, p: Platform, intent: Intent): (o: Outcome)
    ensures o.Pass? <==>
      && p.activityManager.Returns?
      && IdentityOf(source, p).Returns?
      && var reply := p.startService(ServiceCallFor(p.sdk, IdentityOf(source, p).value, intent));
         reply.Returns? && reply.value.Some? && !IsServiceSentinel(reply.value.value.packageName)
    ensures p.activityManager.Throws? ==> o == Fail(p.activityManager.cause)
    ensures p.activityManager.Returns? && IdentityOf(source, p).Throws? ==> o == Fail(IdentityOf(source, p).cause)
    ensures p.activityManager.Returns? && IdentityOf(source, p).Returns? ==>
      var reply := p.startService(ServiceCallFor(p.sdk, IdentityOf(source, p).value, intent));
      && (reply.Throws? ==> o == Fail(reply.cause))
      && (reply.Returns? ==> o == CheckService(reply.value))
  {
    match p.activityManager
    case Throws(e) => Fail(e)
    case Returns(_) =>
      match IdentityOf(source, p)
      case Throws(e) => Fail(e)
      case Returns(id) =>
        match p.startService(ServiceCallFor(p.sdk, id, intent))
        case Throws(e) => Fail(e)
        case Returns(cn) => CheckService(cn)
  }

  /** `BinderReceiverLaunchStrategy.callLaunch`: the binder, then the broadcast of the API level and
      the check of its status. The identity of the privilege source is not consulted. */
  function ReceiverCallLaunch(p: Platform, intent: Intent): (o: Outcome)
    ensures o.Pass? <==>
      p.activityManager.Returns? && p.broadcastIntent(ReceiverCallFor(p.sdk, intent)) == Returns(START_SUCCESS)
    ensures p.activityManager.Throws? ==> o == Fail(p.activityManager.cause)
    ensures p.activityManager.Returns? ==>
      var reply := p.broadcastIntent(ReceiverCallFor(p.sdk, intent));
      && (reply.Throws? ==> o == Fail(reply.cause))
      && (reply.Returns? ==> o == CheckStatus("Receiver", reply.value))
  {
    match p.activityManager
    case Throws(e) => Fail(e)
    case Returns(_) =>
      match p.broadcastIntent(ReceiverCallFor(p.sdk, intent))
      case Throws(e) => Fail(e)
      case Returns(status) => CheckStatus("Receiver", status)
  }

  /** `callLaunch` of a binder strategy: that of its call target. Nothing is started without the
      activity-manager binder. */
  function CallLaunch(s: BinderStrategy, p: Platform, intent: Intent): (o: Outcome)
    ensures p.activityManager.Throws? ==> o == Fail(p.activityManager.cause)
    ensures o.Pass? ==> p.activityManager.Returns?
  {
    match s.target
    case ActivityTarget => ActivityCallLaunch(s.source, p, intent)
    case ServiceTarget => ServiceCallLaunch(s.source, p, intent)
    case ReceiverTarget => ReceiverCallLaunch(p, intent)
  }

  /** A broadcast does not depend on the privilege source or on its identity lookups. */
  lemma ReceiverIgnoresIdentity(a: PrivilegeSource, b: PrivilegeSource, p: Platform, q: Platform, intent: Intent)
    requires p.sdk == q.sdk && p.activityManager == q.activityManager && p.broadcastIntent == q.broadcastIntent
    ensures CallLaunch(BinderStrategy(a, ReceiverTarget), p, intent) == CallLaunch(BinderStrategy(b, ReceiverTarget), q, intent)
  {
  }

  /** What each privilege source's probes would answer. */
  datatype Probes = Probes(shizuku: Probe, dhizuku: Probe)

  function ProbeOf(source: PrivilegeSource, probes: Probes): Probe
  {
    match source
    case Shizuku => probes.shizuku
    case Dhizuku => probes.dhizuku
  }

  /** `canRun` of a binder strategy: the probe of its own privilege source, whatever its target. */
  function CanRun(s: BinderStrategy, probes: Probes): (r: ProbeRun)
    ensures var q := ProbeOf(s.source, probes);
      r.canRun <==> q.reachable && (q.granted || q.grantOnRequest)
    ensures var q := ProbeOf(s.source, probes);
      RequestGrant in r.steps <==> q.reachable && !q.granted
  {
    PrivilegeCanRun(ProbeOf(s.source, probes))
  }

  /** `tryLaunch` of a binder strategy: no errors exactly when `callLaunch` passes, the exception
      itself when it throws one, and an escaping `Error` otherwise. */
  function TryLaunch(s: BinderStrategy, p: Platform, args: LaunchArgs): (r: LaunchResult)
    ensures r == Returned([]) <==> CallLaunch(s, p, args.intent).Pass?
    ensures var o := CallLaunch(s, p, args.intent);
      o.Fail? && o.cause.kind == ExceptionKind ==> r == Returned([o.cause])
    ensures var o := CallLaunch(s, p, args.intent);
      o.Fail? && o.cause.kind == ErrorKind ==> r == Raised(o.cause)
    ensures r.Returned? ==> |r.errors| <= 1
  {
    WrapperTryLaunch(CallLaunch(s, p, args.intent))
  }

  /** Every call the platform can answer throws only exceptions, never errors. */
  ghost predicate ThrowsOnlyExceptions(p: Platform)
  {
    && (p.activityManager.Throws? ==> p.activityManager.cause.kind == ExceptionKind)
    && (p.shizukuUid.Throws? ==> p.shizukuUid.cause.kind == ExceptionKind)
    && (forall pkg :: p.applicationUid(pkg).Throws? ==> p.applicationUid(pkg).cause.kind == ExceptionKind)
    && (forall c :: p.startActivity(c).Throws? ==> p.startActivity(c).cause.kind == ExceptionKind)
    && (forall c :: p.startService(c).Throws? ==> p.startService(c).cause.kind == ExceptionKind)
    && (forall c :: p.broadcastIntent(c).Throws? ==> p.broadcastIntent(c).cause.kind == ExceptionKind)
  }

  /** The failures `callLaunch` produces itself are exceptions, so a binder strategy returns its
      failure list unless the platform throws an `Error`. */
  lemma TryLaunchReturnsUnlessError(s: BinderStrategy, p: Platform, args: LaunchArgs)
    requires ThrowsOnlyExceptions(p)
    ensures TryLaunch(s, p, args).Returned?
  {
  }
}
