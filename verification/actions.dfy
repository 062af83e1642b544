/**
 * The message layer of the snmpcollector polling pipeline: the actions that
 * travel between pipeline stages, the durable queue each kind of action
 * travels on, and the double dispatch by which an action hands itself to
 * the matching handler of a stage.
 *
 * Python's open class hierarchy (an `Action` base class, five subclasses,
 * `AnnotatedResult` a subclass of `Result`) is modelled as one closed
 * datatype with five constructors. The bare base class is not part of it.
 */
module Actions {

  // ---------------------------------------------------------------------
  // Opaque payload
  // ---------------------------------------------------------------------

  /** A stand-in domain for the dynamically typed Python values the layer
      stores and forwards but never inspects (a device identifier, a measured
      datum, a table index). Python allows any object there, tuples and
      instances included; since no operation here looks inside a value, a few
      scalar cases are enough to tell values apart. */
  datatype Value =
    | Nil
    | Bool(b: bool)
    | Int(i: int)
    | Real(r: real)
    | Str(s: string)

  datatype Option<T> = None | Some(value: T)

  // ---------------------------------------------------------------------
  // Plain records
  // ---------------------------------------------------------------------

  /** One reading after MIB annotation; a fixed-field record, compared by value. */
  datatype AnnotatedResultEntry = AnnotatedResultEntry(
    data: Value, mib: Value, obj: Value, index: Value, interface: Value, vlan: Value)

  /** Error counters of one walk attempt. */
  datatype Statistics = Statistics(timeouts: int, errors: int)

  /** An element of the `results` sequence of a Result or AnnotatedResult:
      a raw reading as produced by a walk, or an annotated one. */
  datatype Entry =
    | Raw(reading: Value)
    | Annotated(entry: AnnotatedResultEntry)

  // ---------------------------------------------------------------------
  // The action family
  // ---------------------------------------------------------------------

  /** The five actions, each carrying the fields its constructor stores. */
  datatype Action =
    | Trigger
    | SnmpWalk(target: Value)
    | Summary(timestamp: real, targets: int)
    | Result(target: Value, results: seq<Entry>, stats: Statistics)
    | AnnotatedResult(target: Value, results: seq<Entry>, stats: Statistics)

  /** The class of an action, as a value: what a classmethod receives as `cls`. */
  datatype Kind =
    | TriggerKind
    | SnmpWalkKind
    | SummaryKind
    | ResultKind
    | AnnotatedResultKind

  function KindOf(a: Action): Kind
  {
    match a
    case Trigger => TriggerKind
    case SnmpWalk(_) => SnmpWalkKind
    case Summary(_, _) => SummaryKind
    case Result(_, _, _) => ResultKind
    case AnnotatedResult(_, _, _) => AnnotatedResultKind
  }

  /** A field of an action, or an argument of a stage call. */
  datatype Field =
    | FValue(v: Value)
    | FReal(r: real)
    | FInt(i: int)
    | FEntries(es: seq<Entry>)
    | FStats(st: Statistics)

  /** The fields an action was constructed with, in the order of its
      constructor's parameters (AnnotatedResult inherits Result's). */
  function FieldsOf(a: Action): seq<Field>
  {
    match a
    case Trigger => []
    case SnmpWalk(t) => [FValue(t)]
    case Summary(ts, n) => [FReal(ts), FInt(n)]
    case Result(t, rs, st) => [FValue(t), FEntries(rs), FStats(st)]
    case AnnotatedResult(t, rs, st) => [FValue(t), FEntries(rs), FStats(st)]
  }

  // ---------------------------------------------------------------------
  // Queue naming
  // ---------------------------------------------------------------------

  const QueuePrefix: string := "dhmon:snmp:"

  /** The class's own `__name__`. */
  function ClassName(k: Kind): (r: string)
    ensures r != [] && ':' !in r
  {
    match k
    case TriggerKind => "Trigger"
    case SnmpWalkKind => "SnmpWalk"
    case SummaryKind => "Summary"
    case ResultKind => "Result"
    case AnnotatedResultKind => "AnnotatedResult"
  }

  /** The class whose `__name__` is `s`, if any. */
  function KindNamed(s: string): (r: Option<Kind>)
    ensures forall k :: r == Some(k) <==> ClassName(k) == s
  {
    if s == "Trigger" then Some(TriggerKind)
    else if s == "SnmpWalk" then Some(SnmpWalkKind)
    else if s == "Summary" then Some(SummaryKind)
    else if s == "Result" then Some(ResultKind)
    else if s == "AnnotatedResult" then Some(AnnotatedResultKind)
    else None
  }

  /** Auxiliary, used only to state the inverse of `GetQueue`: the position
      of the last `c` in `s`, or -1 when `s` has none. */
  function LastIndexOf(s: string, c: char): (r: int)
    ensures -1 <= r < |s|
    ensures r >= 0 ==> s[r] == c
    ensures forall j :: r < j < |s| ==> s[j] != c
    decreases |s|
  {
    if |s| == 0 then -1
    else if s[|s| - 1] == c then |s| - 1
    else LastIndexOf(s[..|s| - 1], c)
  }

  lemma LastIndexOfJoin(a: string, c: char, b: string)
    requires c !in b
    ensures LastIndexOf(a + [c] + b, c) == |a|
  {
    var s := a + [c] + b;
    var r := LastIndexOf(s, c);
    assert s[|a|] == c;
  }

  /** The queue an instance's traffic of class `k` travels on
      (`Action.get_queue`; `instance` is the text Python's `format` makes of it). */
  function GetQueue(k: Kind, instance: string): string
  {
    QueuePrefix + instance + ":" + ClassName(k)
  }

  /** `get_queue` called through an action (a classmethod sees only the class). */
  function QueueOf(a: Action, instance: string): string
  {
    GetQueue(KindOf(a), instance)
  }

  /** Auxiliary: what a queue name is built from. */
  datatype QueueId = QueueId(instance: string, kind: Kind)

  /** Auxiliary reference inverse of `GetQueue` (the code itself never parses
      a queue name): the class name is the text after the last colon, the
      instance the text between the prefix and that colon. */
  function ParseQueue(name: string): Option<QueueId>
  {
    if |name| < |QueuePrefix| || name[..|QueuePrefix|] != QueuePrefix then None
    else
      var rest := name[|QueuePrefix|..];
      var i := LastIndexOf(rest, ':');
      if i < 0 then None
      else
        match KindNamed(rest[i + 1..])
        case None => None
        case Some(k) => Some(QueueId(rest[..i], k))
  }

  /** Every queue name parses back into the instance and class it was built
      from, whatever the instance text holds: the class name has no colon. */
  lemma ParseGetQueue(k: Kind, instance: string)
    ensures ParseQueue(GetQueue(k, instance)) == Some(QueueId(instance, k))
  {
    var r := GetQueue(k, instance);
    assert r[..|QueuePrefix|] == QueuePrefix;
    var rest := r[|QueuePrefix|..];
    assert rest == instance + [':'] + ClassName(k);
    LastIndexOfJoin(instance, ':', ClassName(k));
    assert rest[..|instance|] == instance;
    assert rest[|instance| + 1..] == ClassName(k);
    assert KindNamed(ClassName(k)) == Some(k);
  }

  /** Parsing accepts exactly the names `get_queue` produces. */
  lemma ParseQueueExact(name: string, q: QueueId)
    ensures ParseQueue(name) == Some(q) <==> name == GetQueue(q.kind, q.instance)
  {
    if ParseQueue(name) == Some(q) {
      var rest := name[|QueuePrefix|..];
      var i := LastIndexOf(rest, ':');
      assert KindNamed(rest[i + 1..]) == Some(q.kind);
      assert q.instance == rest[..i];
      assert rest == rest[..i] + [':'] + rest[i + 1..];
      assert name == name[..|QueuePrefix|] + rest;
    } else if name == GetQueue(q.kind, q.instance) {
      ParseGetQueue(q.kind, q.instance);
    }
  }

  /** Distinct (instance, class) pairs never share a queue, for every
      instance text, including ones that contain colons or are empty. */
  lemma GetQueueInjective(k1: Kind, i1: string, k2: Kind, i2: string)
    ensures GetQueue(k1, i1) == GetQueue(k2, i2) <==> k1 == k2 && i1 == i2
  {
    if GetQueue(k1, i1) == GetQueue(k2, i2) {
      ParseGetQueue(k1, i1);
      ParseGetQueue(k2, i2);
    }
  }

  /** The queue depends on the action's class alone, never on its fields. */
  lemma QueueOfByClass(a1: Action, a2: Action, instance: string)
    ensures QueueOf(a1, instance) == QueueOf(a2, instance) <==> KindOf(a1) == KindOf(a2)
  {
    GetQueueInjective(KindOf(a1), instance, KindOf(a2), instance);
  }

  /** `AnnotatedResult` is named after its own class, so it travels on a
      queue of its own, apart from `Result` traffic of the same instance. */
  lemma AnnotatedResultOwnQueue(instance: string, target: Value, results: seq<Entry>, stats: Statistics)
    ensures QueueOf(AnnotatedResult(target, results, stats), instance) == QueuePrefix + instance + ":AnnotatedResult"
    ensures QueueOf(AnnotatedResult(target, results, stats), instance) != QueueOf(Result(target, results, stats), instance)
  {
    GetQueueInjective(AnnotatedResultKind, instance, ResultKind, instance);
  }

  // ---------------------------------------------------------------------
  // Stages and dispatch
  // ---------------------------------------------------------------------

  /** A stage, seen only through its four handlers (`do_trigger`,
      `do_snmp_walk`, `do_summary`, `do_result`); each gives the follow-up
      actions, in order. Their effects are not part of this model. */
  datatype Stage = Stage(
    doTrigger: () -> seq<Action>,
    doSnmpWalk: Value -> seq<Action>,
    doSummary: (real, int) -> seq<Action>,
    doResult: (Value, seq<Entry>, Statistics) -> seq<Action>)

  /** Names a stage handler. */
  datatype Handler = DoTriggerHandler | DoSnmpWalkHandler | DoSummaryHandler | DoResultHandler

  /** One call into a stage: the handler and its positional arguments. */
  datatype StageCall =
    | DoTrigger
    | DoSnmpWalk(target: Value)
    | DoSummary(timestamp: real, targets: int)
    | DoResult(target: Value, results: seq<Entry>, stats: Statistics)

  function HandlerOf(c: StageCall): Handler
  {
    match c
    case DoTrigger => DoTriggerHandler
    case DoSnmpWalk(_) => DoSnmpWalkHandler
    case DoSummary(_, _) => DoSummaryHandler
    case DoResult(_, _, _) => DoResultHandler
  }

  function ArgsOf(c: StageCall): seq<Field>
  {
    match c
    case DoTrigger => []
    case DoSnmpWalk(t) => [FValue(t)]
    case DoSummary(ts, n) => [FReal(ts), FInt(n)]
    case DoResult(t, rs, st) => [FValue(t), FEntries(rs), FStats(st)]
  }

  /** The handler each class's `do` method targets; AnnotatedResult has no
      `do` of its own and inherits Result's. */
  function HandlerFor(k: Kind): Handler
  {
    match k
    case TriggerKind => DoTriggerHandler
    case SnmpWalkKind => DoSnmpWalkHandler
    case SummaryKind => DoSummaryHandler
    case ResultKind => DoResultHandler
    case AnnotatedResultKind => DoResultHandler
  }

  /** The routing table: the one stage call an action makes. */
  function Dispatch(a: Action): (c: StageCall)
    ensures HandlerOf(c) == HandlerFor(KindOf(a))
    ensures ArgsOf(c) == FieldsOf(a)
  {
    match a
    case Trigger => DoTrigger
    case SnmpWalk(t) => DoSnmpWalk(t)
    case Summary(ts, n) => DoSummary(ts, n)
    case Result(t, rs, st) => DoResult(t, rs, st)
    case AnnotatedResult(t, rs, st) => DoResult(t, rs, st)
  }

  /** Performs a stage call and hands back what the handler returns. */
  function Invoke(stage: Stage, c: StageCall): seq<Action>
  {
    match c
    case DoTrigger => stage.doTrigger()
    case DoSnmpWalk(t) => stage.doSnmpWalk(t)
    case DoSummary(ts, n) => stage.doSummary(ts, n)
    case DoResult(t, rs, st) => stage.doResult(t, rs, st)
  }

  /** `action.do(stage)`, one case per class's `do` method. Summary forwards
      its stored `timestamp` and `targets` (see `DoAsWritten` for the code
      as it stands). */
  function Do(a: Action, stage: Stage): (r: seq<Action>)
    ensures r == Invoke(stage, Dispatch(a))
  {
    match a
    case Trigger => stage.doTrigger()
    case SnmpWalk(t) => stage.doSnmpWalk(t)
    case Summary(ts, n) => stage.doSummary(ts, n)
    case Result(t, rs, st) => stage.doResult(t, rs, st)
    case AnnotatedResult(t, rs, st) => stage.doResult(t, rs, st)
  }

  /** Each class's `do` in terms of the stage: Trigger calls `do_trigger()`
      with no arguments, SnmpWalk passes its own target, Result its target,
      results and stats in that order; the handler's actions come back as
      they are. */
  lemma DoPerClass(target: Value, results: seq<Entry>, stats: Statistics, stage: Stage)
    ensures Do(Trigger, stage) == stage.doTrigger()
    ensures Do(SnmpWalk(target), stage) == stage.doSnmpWalk(target)
    ensures Do(Result(target, results, stats), stage) == stage.doResult(target, results, stats)
  {
  }

  /** Two stages behave alike on handler `h`, whatever the others do. */
  ghost predicate AgreeOn(s1: Stage, s2: Stage, h: Handler)
  {
    match h
    case DoTriggerHandler => s1.doTrigger() == s2.doTrigger()
    case DoSnmpWalkHandler => forall t :: s1.doSnmpWalk(t) == s2.doSnmpWalk(t)
    case DoSummaryHandler => forall ts, n :: s1.doSummary(ts, n) == s2.doSummary(ts, n)
    case DoResultHandler => forall t, rs, st :: s1.doResult(t, rs, st) == s2.doResult(t, rs, st)
  }

  /** `do` consults only the handler of its own class: stages that agree on
      that handler give the same follow-up actions, however they differ
      elsewhere. */
  lemma DoConsultsOnlyItsHandler(a: Action, s1: Stage, s2: Stage)
    requires AgreeOn(s1, s2, HandlerFor(KindOf(a)))
    ensures Do(a, s1) == Do(a, s2)
  {
  }

  /** Two actions make the same stage call exactly when they are equal or
      are a Result and an AnnotatedResult with the same fields: a stage
      cannot tell the subclass from its base. */
  lemma DispatchDistinguishes(a1: Action, a2: Action)
    ensures Dispatch(a1) == Dispatch(a2) <==>
      a1 == a2 ||
      ((a1.Result? || a1.AnnotatedResult?) && (a2.Result? || a2.AnnotatedResult?) &&
       FieldsOf(a1) == FieldsOf(a2))
  {
  }

  /** AnnotatedResult is substitutable for Result: for every stage, `do`
      gives the same follow-up actions for both, built from the same fields. */
  lemma AnnotatedResultAsResult(target: Value, results: seq<Entry>, stats: Statistics, stage: Stage)
    ensures Do(AnnotatedResult(target, results, stats), stage) == Do(Result(target, results, stats), stage)
    ensures Do(AnnotatedResult(target, results, stats), stage) == stage.doResult(target, results, stats)
  {
  }

  // ---------------------------------------------------------------------
  // Summary.do as written
  // ---------------------------------------------------------------------

  /** What a call of `do` comes to: the handler's actions, or an exception
      raised before the handler is reached. */
  datatype Outcome = Returned(actions: seq<Action>) | Raised(unboundName: string)

  /** `do` as the code stands: Summary's method names `timestamp` and
      `targets` without `self.`, neither is bound in the method or the
      module, and evaluating the first argument raises before `do_summary`
      is called. */
  function DoAsWritten(a: Action, stage: Stage): Outcome
  {
    match a
    case Summary(_, _) => Raised("timestamp")
    case _ => Returned(Do(a, stage))
  }

  /** The discrepancy: as written, no Summary ever reaches `do_summary`;
      every other action behaves as intended. */
  lemma SummaryAsWrittenFails(a: Action, stage: Stage)
    ensures a.Summary? ==> DoAsWritten(a, stage).Raised?
    ensures !a.Summary? ==> DoAsWritten(a, stage) == Returned(Do(a, stage))
  {
  }

  /** The intended Summary dispatch forwards the stored timestamp and target
      count, in that order, to `do_summary`, and returns what it returns. */
  lemma SummaryForwardsStoredFields(timestamp: real, targets: int, stage: Stage)
    ensures Dispatch(Summary(timestamp, targets)) == DoSummary(timestamp, targets)
    ensures Do(Summary(timestamp, targets), stage) == stage.doSummary(timestamp, targets)
  {
  }
}
