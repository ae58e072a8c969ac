/** The webhook's TLS posture: resolved at startup, recovered by a poller. */
module WebhookTls {
  import opened Text

  /** A failed APIServer read: a Kubernetes API status (denied is one), and whether it is a
      deadline, a cancellation or a network error. */
  datatype LoadError = LoadError(status: bool, denied: bool, retriable: bool)

  datatype Profile = Intermediate | Other(name: string)

  datatype Adherence = Strict | OtherAdherence(name: string)

  datatype Settings = Settings(profile: Profile, adherence: Adherence, usedFallback: bool, watchable: bool)

  datatype Observation = LoadFailed(error: LoadError) | Loaded(settings: Settings)

  datatype Reason = Denied | Transport | Unexpected | Transient

  datatype Decision = StandIn(reason: Reason) | Refuse | Use(settings: Settings)

  /** The library's side: which policies honor the profile, which profiles are valid under
      Strict, and which of those convert. */
  datatype Library = Library(honors: Adherence -> bool, validates: Profile -> bool, configures: Profile -> bool)

  datatype Options = GoDefaults | FromProfile(profile: Profile)

  datatype Posture = Posture(options: Options, profile: Profile, adherence: Adherence, watchable: bool, degraded: bool)

  datatype LeaveReason = Keep | LeaveHealthy | LeaveFailClosed

  datatype Reload = NoReload | Watcher | Poller

  // ---- Decisions ----

  function Decide(o: Observation): Decision {
    match o
    case LoadFailed(e) =>
      if e.status || e.retriable then StandIn(if e.denied then Denied else if e.retriable then Transport else Unexpected)
      else Refuse
    case Loaded(settings) =>
      if settings.usedFallback && settings.watchable then StandIn(Transient) else Use(settings)
  }

  function BuildOptions(lib: Library, profile: Profile, adherence: Adherence): Option<Options> {
    if !lib.honors(adherence) then Some(GoDefaults)
    else if !lib.validates(profile) || !lib.configures(profile) then None
    else Some(FromProfile(profile))
  }

  /** The posture of a process that starts on an observation; None refuses to start. */
  function Evaluate(lib: Library, o: Observation): Option<Posture> {
    match Decide(o)
    case Refuse => None
    case StandIn(_) =>
      (match BuildOptions(lib, Intermediate, Strict)
       case None => None
       case Some(options) => Some(Posture(options, Intermediate, Strict, false, true)))
    case Use(s) =>
      match BuildOptions(lib, s.profile, s.adherence)
      case None => None
      case Some(options) => Some(Posture(options, s.profile, s.adherence, s.watchable, false))
  }

  function ReloadOf(p: Posture): Reload {
    if p.degraded then Poller else if p.watchable then Watcher else NoReload
  }

  function Classify(stopping: bool, o: Observation): LeaveReason {
    if stopping then Keep
    else match Decide(o)
      case StandIn(_) => Keep
      case Refuse => LeaveFailClosed
      case Use(_) => LeaveHealthy
  }

  predicate StandsIn(o: Observation) {
    Decide(o).StandIn?
  }

  // ---- Recovery agrees with startup ----

  predicate StandInBuilds(lib: Library) {
    BuildOptions(lib, Intermediate, Strict).Some?
  }

  /** On one observation the poller keeps the stand-in exactly when startup would stand in. */
  lemma RecoveryAgreesWithStartup(lib: Library, o: Observation)
    ensures Classify(false, o).Keep? <==> StandsIn(o)
    ensures StandInBuilds(lib) ==> (Classify(false, o).Keep? <==> Evaluate(lib, o).Some? && Evaluate(lib, o).value.degraded)
    ensures Classify(false, o).LeaveFailClosed? ==> Evaluate(lib, o).None?
    ensures Evaluate(lib, o).Some? && Evaluate(lib, o).value.degraded ==> Classify(false, o).Keep?
  {
  }

  /** What startup does, on the observation: a failed read stands in if the API answered with
      a status or the failure is a transport one, and refuses otherwise; settings that are a
      fallback though they could be watched stand in too; all other settings are served as
      read, or refused where their policy honors a profile that cannot be built. */
  lemma StartupExactly(lib: Library, o: Observation)
    ensures var p := Evaluate(lib, o);
            match o
            case LoadFailed(e) => p == if e.status || e.retriable then StandInOf(lib) else None
            case Loaded(s) =>
              if s.usedFallback && s.watchable then p == StandInOf(lib)
              else if lib.honors(s.adherence) && !(lib.validates(s.profile) && lib.configures(s.profile)) then p.None?
              else p == Some(Posture(if lib.honors(s.adherence) then FromProfile(s.profile) else GoDefaults,
                                     s.profile, s.adherence, s.watchable, false))
  {
  }

  /** The stand-in: Strict Intermediate, if the library can build it. */
  function StandInOf(lib: Library): Option<Posture> {
    if !lib.honors(Strict) then Some(Posture(GoDefaults, Intermediate, Strict, false, true))
    else if lib.validates(Intermediate) && lib.configures(Intermediate)
    then Some(Posture(FromProfile(Intermediate), Intermediate, Strict, false, true))
    else None
  }

  /** A degraded posture is Strict Intermediate, is not watched and is left to the poller;
      a posture is only ever handed to one of the two. */
  lemma DegradedIsStrictIntermediate(lib: Library, o: Observation)
    requires Evaluate(lib, o).Some?
    ensures var p := Evaluate(lib, o).value;
            && (p.degraded <==> StandsIn(o))
            && (p.degraded ==> p.profile == Intermediate && p.adherence == Strict)
            && (p.degraded && lib.honors(Strict) ==> p.options == FromProfile(Intermediate))
            && (p.degraded ==> !p.watchable)
            && (ReloadOf(p) == Poller <==> p.degraded)
            && (ReloadOf(p) == Watcher ==> Decide(o).Use? && Decide(o).settings.watchable && !Decide(o).settings.usedFallback)
  {
  }

  // ---- The process ----

  /** One attempt of the poller, which may come when the process is already stopping. */
  datatype Attempt = Attempt(stopping: bool, o: Observation)

  predicate Leaves(a: Attempt) {
    !a.stopping && !StandsIn(a.o)
  }

  class Webhook {
    const lib: Library
    /** The degraded gauge. */
    var degraded: bool
    var cancelled: bool

    constructor (lib: Library)
      ensures this.lib == lib && !degraded && !cancelled
    {
      this.lib := lib;
      degraded, cancelled := false, false;
    }

    /** Resolves the posture at startup; the gauge follows it, and stays on a refusal. */
    method Resolve(o: Observation) returns (r: Option<Posture>)
      modifies this`degraded
      ensures r == Evaluate(lib, o)
      ensures degraded == if r.Some? then r.value.degraded else old(degraded)
    {
      var decision := Decide(o);
      if decision.Refuse? { return None; }
      if decision.StandIn? {
        var options := BuildOptions(lib, Intermediate, Strict);
        if options.None? { return None; }
        degraded := true;
        return Some(Posture(options.value, Intermediate, Strict, false, true));
      }
      var s := decision.settings;
      var options := BuildOptions(lib, s.profile, s.adherence);
      if options.None? { return None; }
      degraded := false;
      return Some(Posture(options.value, s.profile, s.adherence, s.watchable, false));
    }

    /** The poller: one attempt at once and one per tick, until one of them leaves or the
        process stops. It cancels at the first attempt that is not made while stopping and
        whose observation does not stand in. */
    method Poll(attempts: seq<Attempt>) returns (used: nat)
      requires !cancelled
      modifies this`cancelled
      ensures used <= |attempts| && forall i :: 0 <= i < used - 1 ==> !Leaves(attempts[i])
      ensures cancelled <==> exists i :: 0 <= i < |attempts| && Leaves(attempts[i])
      ensures if cancelled then used > 0 && Leaves(attempts[used - 1]) else used == |attempts|
    {
      for i := 0 to |attempts|
        invariant !cancelled && forall j :: 0 <= j < i ==> !Leaves(attempts[j])
      {
        var reason := Classify(attempts[i].stopping, attempts[i].o);
        if !reason.Keep? {
          cancelled := true;
          return i + 1;
        }
      }
      used := |attempts|;
    }
  }

  // ---- Any sequence of reads ----

  datatype Life = Starting | Serving | Polling

  /** What the process meets at one moment: what a read would observe, and whether something
      other than the poller restarts it afterwards. */
  datatype Moment = Moment(o: Observation, restarted: bool)

  /** A refused start exits and is started again; a process that serves does not read. */
  function Next(lib: Library, life: Life, m: Moment): Life {
    if m.restarted then Starting
    else match life
      case Serving => Serving
      case Polling => if Classify(false, m.o).Keep? then Polling else Starting
      case Starting =>
        match Evaluate(lib, m.o)
        case None => Starting
        case Some(p) => if ReloadOf(p) == Poller then Polling else Serving
  }

  predicate PollerRestarts(life: Life, m: Moment) {
    life == Polling && !Classify(false, m.o).Keep?
  }

  function LifeAt(lib: Library, moments: seq<Moment>, n: nat): Life
    requires n <= |moments|
  {
    if n == 0 then Starting else Next(lib, LifeAt(lib, moments, n - 1), moments[n - 1])
  }

  /** How often the poller restarts the process. */
  function Restarts(lib: Library, moments: seq<Moment>, n: nat): nat
    requires n <= |moments|
  {
    if n == 0 then 0
    else Restarts(lib, moments, n - 1) + (if PollerRestarts(LifeAt(lib, moments, n - 1), moments[n - 1]) then 1 else 0)
  }

  predicate Recovers(moments: seq<Moment>, i: nat)
    requires i < |moments|
  {
    i > 0 && StandsIn(moments[i - 1].o) && !StandsIn(moments[i].o)
  }

  /** How often an observation stands in and the next one does not. */
  function Recoveries(moments: seq<Moment>, n: nat): nat
    requires n <= |moments|
  {
    if n == 0 then 0 else Recoveries(moments, n - 1) + (if Recovers(moments, n - 1) then 1 else 0)
  }

  /** The poller restarts at a moment exactly when that moment is a recovery of a process
      that was not already serving, was not restarted otherwise, and could build its stand-in. */
  lemma RestartExactly(lib: Library, moments: seq<Moment>, i: nat)
    requires i < |moments|
    ensures PollerRestarts(LifeAt(lib, moments, i), moments[i]) <==>
            && Recovers(moments, i) && !moments[i - 1].restarted && LifeAt(lib, moments, i - 1) != Serving
            && (LifeAt(lib, moments, i - 1) == Starting ==> StandInBuilds(lib))
  {
    if i > 0 {
      var before := LifeAt(lib, moments, i - 1);
      assert LifeAt(lib, moments, i) == Next(lib, before, moments[i - 1]);
      RecoveryAgreesWithStartup(lib, moments[i - 1].o);
      RecoveryAgreesWithStartup(lib, moments[i].o);
    }
  }

  /** The recovery loop cannot spin: over any sequence of reads, whatever else restarts the
      process, the poller restarts it at most once per recovery. */
  lemma {:induction false} RestartsAreBounded(lib: Library, moments: seq<Moment>, n: nat)
    requires n <= |moments|
    ensures Restarts(lib, moments, n) <= Recoveries(moments, n)
  {
    if n > 0 {
      RestartsAreBounded(lib, moments, n - 1);
      RestartExactly(lib, moments, n - 1);
    }
  }

  /** A restart is never undone by the observation that caused it. */
  lemma RestartDoesNotBounce(lib: Library, moments: seq<Moment>, i: nat)
    requires i < |moments| && PollerRestarts(LifeAt(lib, moments, i), moments[i])
    ensures Next(lib, Starting, moments[i]) != Polling
  {
    RecoveryAgreesWithStartup(lib, moments[i].o);
  }
}
