/**
 * Start-up registration of the feature blueprints. Each module is loaded
 * and its blueprint attached to the function app inside its own failure
 * boundary: an `ImportError` is reported as an import error, any other
 * `Exception` as a failed registration, and the next module is tried
 * either way.
 */
module Registration {

  /** The two handlers: `except ImportError` (subclasses included) and `except Exception`. */
  datatype ExceptionClass = ImportErrorClass | OtherException

  /** What one step of an attempt does: finish, or raise an exception with its text. */
  datatype Step = Completes | Raises(cls: ExceptionClass, text: string)

  /**
   * One feature module: its name as the log lines give it, the abstract
   * behaviour of loading it (`from functions import bp_snippy`) and of
   * `app.register_blueprint(...)`.
   */
  datatype ModuleDescriptor = ModuleDescriptor(name: string, load: Step, attach: Step)

  /** The result of one attempt, tagged by the handler that caught it. */
  datatype Attempt = Ok | ImportErr(msg: string) | RuntimeErr(msg: string)

  datatype Outcome = Outcome(moduleName: string, attempt: Attempt)

  /** Which handler catches an exception of class `cls`. */
  function Caught(cls: ExceptionClass, text: string): (a: Attempt)
    ensures !a.Ok? && a.msg == text
    ensures a.ImportErr? <==> cls == ImportErrorClass
  {
    match cls
    case ImportErrorClass => ImportErr(text)
    case OtherException => RuntimeErr(text)
  }

  /**
   * The attempt for one module: loading runs first and attaching only after
   * it; the first exception raised decides the result.
   */
  function AttemptOf(d: ModuleDescriptor): (a: Attempt)
    ensures a.Ok? <==> d.load.Completes? && d.attach.Completes?
    ensures d.load.Raises? ==>
              a.msg == d.load.text && (a.ImportErr? <==> d.load.cls == ImportErrorClass)
    ensures d.load.Completes? && d.attach.Raises? ==>
              a.msg == d.attach.text && (a.ImportErr? <==> d.attach.cls == ImportErrorClass)
  {
    match d.load
    case Raises(cls, text) => Caught(cls, text)
    case Completes =>
      match d.attach
      case Raises(cls, text) => Caught(cls, text)
      case Completes => Ok
  }

  function OutcomeOf(d: ModuleDescriptor): Outcome {
    Outcome(d.name, AttemptOf(d))
  }

  predicate Succeeds(d: ModuleDescriptor) {
    AttemptOf(d).Ok?
  }

  /** The outcomes of a registration pass over `ds`, one per descriptor. */
  function Outcomes(ds: seq<ModuleDescriptor>): (os: seq<Outcome>)
    ensures |os| == |ds|
  {
    if ds == [] then [] else Outcomes(ds[..|ds| - 1]) + [OutcomeOf(ds[|ds| - 1])]
  }

  /** The names of the modules of `ds` that register, in the order of `ds`. */
  function Successful(ds: seq<ModuleDescriptor>): (names: seq<string>)
    ensures |names| <= |ds|
    ensures |names| == |ds| <==> forall i :: 0 <= i < |ds| ==> Succeeds(ds[i])
  {
    if ds == [] then []
    else
      var init := ds[..|ds| - 1];
      assert forall i :: 0 <= i < |init| ==> init[i] == ds[i];
      Successful(init) + (if Succeeds(ds[|ds| - 1]) then [ds[|ds| - 1].name] else [])
  }

  /** The names of all modules of `ds`, in order. */
  function Names(ds: seq<ModuleDescriptor>): (ns: seq<string>)
    ensures |ns| == |ds| && forall i :: 0 <= i < |ds| ==> ns[i] == ds[i].name
  {
    seq(|ds|, i requires 0 <= i < |ds| => ds[i].name)
  }

  /** The outcome of module `i` is decided by module `i` alone. */
  lemma {:induction false} OutcomeAt(ds: seq<ModuleDescriptor>, i: nat)
    requires i < |ds|
    ensures Outcomes(ds)[i] == OutcomeOf(ds[i])
  {
    if i < |ds| - 1 {
      OutcomeAt(ds[..|ds| - 1], i);
    }
  }

  /** Changing the behaviour of module `i` changes no other module's outcome. */
  lemma OtherOutcomesUnaffected(ds: seq<ModuleDescriptor>, i: nat, d: ModuleDescriptor)
    requires i < |ds|
    ensures forall j :: 0 <= j < |ds| && j != i ==> Outcomes(ds[i := d])[j] == Outcomes(ds)[j]
  {
    forall j | 0 <= j < |ds| && j != i
      ensures Outcomes(ds[i := d])[j] == Outcomes(ds)[j]
    {
      OutcomeAt(ds, j);
      OutcomeAt(ds[i := d], j);
    }
  }

  /** A name is registered exactly when some module of that name succeeds. */
  lemma {:induction false} SuccessfulMembers(ds: seq<ModuleDescriptor>, x: string)
    ensures x in Successful(ds) <==> exists i :: 0 <= i < |ds| && ds[i].name == x && Succeeds(ds[i])
  {
    if ds != [] {
      var init := ds[..|ds| - 1];
      SuccessfulMembers(init, x);
      assert forall i :: 0 <= i < |init| ==> init[i] == ds[i];
    }
  }

  /** A failing module leaves the registered list as if it were not in the list at all. */
  lemma {:induction false} FailureIsTransparent(ds: seq<ModuleDescriptor>, i: nat)
    requires i < |ds| && !Succeeds(ds[i])
    ensures Successful(ds) == Successful(ds[..i] + ds[i + 1..])
  {
    var n := |ds|;
    var rest := ds[..i] + ds[i + 1..];
    if i == n - 1 {
      assert rest == ds[..n - 1];
    } else {
      var init := ds[..n - 1];
      FailureIsTransparent(init, i);
      assert rest[..|rest| - 1] == init[..i] + init[i + 1..];
      assert rest[|rest| - 1] == ds[n - 1];
    }
  }

  /** When every module registers, the app holds all of them in order. */
  lemma {:induction false} AllSucceed(ds: seq<ModuleDescriptor>)
    requires forall i :: 0 <= i < |ds| ==> Succeeds(ds[i])
    ensures Successful(ds) == Names(ds)
  {
    if ds != [] {
      AllSucceed(ds[..|ds| - 1]);
    }
  }

  /** When no module registers, the app gains nothing. */
  lemma {:induction false} NoneSucceed(ds: seq<ModuleDescriptor>)
    requires forall i :: 0 <= i < |ds| ==> !Succeeds(ds[i])
    ensures Successful(ds) == []
  {
    if ds != [] {
      NoneSucceed(ds[..|ds| - 1]);
    }
  }

  datatype Level = Info | Error

  datatype LogLine = LogLine(level: Level, text: string)

  /** The log line written for an outcome. */
  function Log(o: Outcome): (l: LogLine)
    ensures l.level == Info <==> o.attempt.Ok?
    ensures !o.attempt.Ok? ==>
              |o.attempt.msg| <= |l.text| && l.text[|l.text| - |o.attempt.msg|..] == o.attempt.msg
  {
    match o.attempt
    case Ok => LogLine(Info, "\U{2705} " + o.moduleName + " blueprint registered successfully")
    case ImportErr(msg) => LogLine(Error, "\U{274C} Import error for " + o.moduleName + " blueprint: " + msg)
    case RuntimeErr(msg) => LogLine(Error, "\U{274C} " + o.moduleName + " blueprint registration failed: " + msg)
  }

  /** The function app: the blueprints attached to it, in order. */
  class App {
    var blueprints: seq<string>

    constructor ()
      ensures blueprints == []
    {
      blueprints := [];
    }

    /** `app.register_blueprint(bp)`. */
    method RegisterBlueprint(bp: string)
      modifies this
      ensures blueprints == old(blueprints) + [bp]
    {
      blueprints := blueprints + [bp];
    }
  }

  /** One `try` block: load, attach, and convert any exception into the outcome. */
  method Register(app: App, d: ModuleDescriptor) returns (o: Outcome)
    modifies app
    ensures o == OutcomeOf(d)
    ensures app.blueprints == old(app.blueprints) + (if Succeeds(d) then [d.name] else [])
  {
    match d.load {
      case Raises(cls, text) =>
        o := Outcome(d.name, Caught(cls, text));
      case Completes =>
        match d.attach {
          case Raises(cls, text) =>
            o := Outcome(d.name, Caught(cls, text));
          case Completes =>
            app.RegisterBlueprint(d.name);
            o := Outcome(d.name, Ok);
        }
    }
  }

  /** The registration pass: every module is tried, in order, whatever the earlier ones did. */
  method RegisterAll(app: App, ds: seq<ModuleDescriptor>) returns (outcomes: seq<Outcome>)
    modifies app
    ensures outcomes == Outcomes(ds)
    ensures app.blueprints == old(app.blueprints) + Successful(ds)
  {
    outcomes := [];
    var i := 0;
    while i < |ds|
      invariant 0 <= i <= |ds|
      invariant outcomes == Outcomes(ds[..i])
      invariant app.blueprints == old(app.blueprints) + Successful(ds[..i])
    {
      var o := Register(app, ds[i]);
      assert ds[..i + 1][..i] == ds[..i];
      outcomes := outcomes + [o];
      i := i + 1;
    }
    assert ds[..|ds|] == ds;
  }

  /** The five feature modules, in the order they are registered. */
  const ModuleNames: seq<string> := ["Snippy", "Query", "Embeddings", "Ingestion", "Multi-agent"]

  /** How loading and attaching one module behave at this start-up. */
  datatype Behaviour = Behaviour(load: Step, attach: Step)

  function Descriptors(bs: seq<Behaviour>): (ds: seq<ModuleDescriptor>)
    requires |bs| == |ModuleNames|
    ensures |ds| == |ModuleNames|
    ensures forall i :: 0 <= i < |ds| ==> ds[i] == ModuleDescriptor(ModuleNames[i], bs[i].load, bs[i].attach)
  {
    seq(|bs|, i requires 0 <= i < |bs| => ModuleDescriptor(ModuleNames[i], bs[i].load, bs[i].attach))
  }

  /**
   * Start-up: a fresh app, then the registration pass over the five modules.
   * Every module gets an outcome, and the app holds exactly the ones that
   * registered.
   */
  method Bootstrap(bs: seq<Behaviour>) returns (app: App, outcomes: seq<Outcome>)
    requires |bs| == |ModuleNames|
    ensures fresh(app)
    ensures app.blueprints == Successful(Descriptors(bs))
    ensures |outcomes| == |ModuleNames|
    ensures forall i :: 0 <= i < |ModuleNames| ==>
              outcomes[i] == Outcome(ModuleNames[i], AttemptOf(Descriptors(bs)[i]))
  {
    app := new App();
    var ds := Descriptors(bs);
    outcomes := RegisterAll(app, ds);
    forall i | 0 <= i < |ModuleNames|
      ensures outcomes[i] == Outcome(ModuleNames[i], AttemptOf(ds[i]))
    {
      OutcomeAt(ds, i);
    }
  }
}
