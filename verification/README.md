# snmpcollector actions, in Dafny

This project models the message layer of the snmpcollector polling pipeline (`src/snmpcollector/src/actions.py`). Pipeline stages pass five kinds of action between them: `Trigger`, `SnmpWalk`, `Summary`, `Result` and `AnnotatedResult`. The model covers three things:

- what each action carries;
- the name of the queue that an instance's traffic of each action class travels on (`Action.get_queue`);
- the double dispatch `action.do(stage)`, by which an action calls the one stage handler that matches its class.

Everything is in `actions.dfy`, in module `Actions`:

- **Records.** The two namedtuples `AnnotatedResultEntry` and `Statistics` become datatypes.
- **Actions.** The class family becomes the closed datatype `Action`. `AnnotatedResult` is a constructor of its own with the same fields as `Result`.
- **Classes.** `Kind` stands for the class itself, which is what the classmethod `get_queue` receives as `cls`. `ClassName` gives the class's `__name__`.
- **Opaque payload.** `Value` is a stand-in domain for the Python values the layer forwards without inspecting them: device targets, measured data, table indexes. Python allows any object there. Since nothing looks inside a value, a few scalar cases are enough.
- **Stages.** A stage is a `Stage` record of its four handlers. Each handler is a total function to the sequence of follow-up actions it returns.
- **Dispatch.** `Do` is the per-class `do` method. `Dispatch` is the routing table: which handler is called, with which positional arguments. `Invoke` performs a call.

Queue names are `"dhmon:snmp:" + instance + ":" + ClassName`. The auxiliary `ParseQueue` recovers the instance and class from a name. It splits at the last colon, because no class name contains a colon. The lemmas show that parsing inverts `GetQueue` in both directions. It follows that queue naming is injective for every instance text, including the empty one and ones that contain colons.

## Model

| member | source | states |
|---|---|---|
| `Actions.ClassName` | src/snmpcollector/src/actions.py:25-75 | Each class name is non-empty and contains no colon. |
| `Actions.KindNamed` | src/snmpcollector/src/actions.py:25-75 | Maps a name to a class exactly when it is that class's `__name__`. No two classes share a name. |
| `Actions.GetQueue` | src/snmpcollector/src/actions.py:15-17 | `get_queue`: the name is `"dhmon:snmp:" + instance + ":" + ` the class's `__name__`. Its meaning is carried by the lemmas below: `ParseGetQueue` and `ParseQueueExact` give its inverse, and `GetQueueInjective` its injectivity. |
| `Actions.LastIndexOf` | src/snmpcollector/src/actions.py:17 | Auxiliary: the code never searches for a colon. Returns the position of the last colon of the text, or -1 when there is none. This locates the delimiter that line 17 places between the instance and the class name. |
| `Actions.LastIndexOfJoin` | src/snmpcollector/src/actions.py:17 | Auxiliary. In `instance + ":" + name`, where `name` has no colon, the last colon sits right after the instance. |
| `Actions.ParseGetQueue` | src/snmpcollector/src/actions.py:15-17 | Parsing a `get_queue` name with the auxiliary `ParseQueue` gives back the instance and class it was built from, for any instance text. The code itself never parses a queue name. |
| `Actions.ParseQueueExact` | src/snmpcollector/src/actions.py:15-17 | A name parses to (instance, class) if and only if it is the name `get_queue` builds from them. |
| `Actions.GetQueueInjective` | src/snmpcollector/src/actions.py:15-17 | Two (class, instance) pairs give the same queue name if and only if they are equal. |
| `Actions.QueueOfByClass` | src/snmpcollector/src/actions.py:15-17 | Two actions of one instance share a queue if and only if they are of the same class. Field values never matter. |
| `Actions.AnnotatedResultOwnQueue` | src/snmpcollector/src/actions.py:73-75 | An AnnotatedResult's queue is `dhmon:snmp:<instance>:AnnotatedResult`. It differs from the queue of a Result of the same instance, because `get_queue` uses the subclass's own name. |
| `Actions.Dispatch` | src/snmpcollector/src/actions.py:28-75 | Each action calls the handler its class's `do` names: AnnotatedResult uses the inherited `do_result`. The positional arguments are exactly the constructor's fields, in constructor order. |
| `Actions.Do` | src/snmpcollector/src/actions.py:25-75 | `do` returns what the routed handler returns for the routed arguments, unchanged. |
| `Actions.DoPerClass` | src/snmpcollector/src/actions.py:28-39 | Trigger calls `do_trigger()` with no arguments. SnmpWalk calls `do_snmp_walk` with its target. Result calls `do_result(target, results, stats)`. Each returns the handler's result as it is. |
| `Actions.DoConsultsOnlyItsHandler` | src/snmpcollector/src/actions.py:28-70 | Stages that agree on the handler an action's class routes to give the same result from `do`, however their other handlers differ. |
| `Actions.DispatchDistinguishes` | src/snmpcollector/src/actions.py:61-75 | Two actions make the same stage call if and only if they are the same variant with equal field values, or are a Result and an AnnotatedResult with equal field values. Equality here is of values, not Python object identity. |
| `Actions.AnnotatedResultAsResult` | src/snmpcollector/src/actions.py:69-75 | For every stage, an AnnotatedResult dispatches exactly like a Result with the same fields: to `do_result`, with its own target, results and stats. |
| `Actions.SummaryForwardsStoredFields` | src/snmpcollector/src/actions.py:48-58 | Summary, as intended, calls `do_summary` with its stored timestamp and target count, in that order, and returns the result. |
| `Actions.DoAsWritten` | src/snmpcollector/src/actions.py:57-58 | `do` as the code stands. A Summary raises on the unbound name `timestamp` before `do_summary` is called; every other action returns what `Do` returns. `SummaryAsWrittenFails` states this. |
| `Actions.SummaryAsWrittenFails` | src/snmpcollector/src/actions.py:57-58 | As written, every Summary raises before reaching `do_summary`. Every other action behaves as `Do` says. |

## Findings

| source | as written | input that shows it | evidently intended | confidence | as-written member | corrected member |
|---|---|---|---|---|---|---|
| src/snmpcollector/src/actions.py:57-58 | `Summary.do` passes `timestamp` and `targets` to `do_summary`. Neither name is bound in the method or the module, so the call raises `NameError` before the handler runs. | `Summary(1000.0, 5).do(stage)` for any stage | Forward the stored `self.timestamp` and `self.targets`, which lines 48-55 store and document | high; not executed | `Actions.DoAsWritten` (exhibited by `Actions.SummaryAsWrittenFails`) | `Actions.Do` (property proved in `Actions.SummaryForwardsStoredFields`) |

The rest of the model uses the corrected `Do`.

## Left out

- The bare `Action` base class is left out. Its abstract-base declaration at line 13 has no effect, so Python can instantiate it, and its `do` returns `None`. The closed datatype leaves it out, as a sum type of the five real variants.
- Serialisation of actions and the queue transport are left out, because the file has no encoding or decoding code.
- Stage handlers are modelled only as total functions from their arguments to follow-up actions. Their side effects, and a stage that lacks a handler, are not modelled. The file never checks for a missing handler.
- `GetQueueInjective`: injectivity is over the instance as text, not over the instance object. `get_queue` formats `instance` with `str.format`, which calls `format(instance, '')` and so the object's `__format__`. The model takes the instance as the resulting text and does not model `__format__`. Distinct objects with the same text, such as `1` and `"1"`, share a queue.
- `get_queue` never rejects an instance, whether it is empty or contains a colon, and the model does not either. Injectivity holds anyway, because the name is split at its last colon.
- The `Summary` timestamp is a Python float and is modelled as `real`, because the layer does no arithmetic on it. The target count is an `int`, and the `Statistics` counters are `int`s. Nothing checks that they are non-negative, so the model does not require it.
- The contents of result entries are opaque payload. Like Python, the model does not stop a `Result` from holding annotated entries, or an `AnnotatedResult` from holding raw ones.
- Concurrency and SNMP walking are left out; neither appears in the file.
