/**
 * The action registry: a process-wide table from action names to callables,
 * filled by a registering decorator and read by name.
 */
module Actions {
  import opened Common

  /** A registered callable, known here only by its identity. */
  datatype Callable = Callable(ref: nat)

  /** The class-level table. One object stands for the class: every
      registration and lookup goes through it. */
  class ActionRegistry {
    var actions: map<string, Callable>

    constructor ()
      ensures actions == map[]
    {
      actions := map[];
    }

    /** The decorator `register(name)` applied to `f`: the table maps `name`
        to `f` (a later registration under the same name replaces the earlier
        one) and `f` itself is handed back undecorated. */
    method Register(name: string, f: Callable) returns (g: Callable)
      modifies this
      ensures g == f
      ensures actions == old(actions)[name := f]
    {
      actions := actions[name := f];
      g := f;
    }

    /** `get_action`: the registered callable, or a `ValueError` naming the
        unknown action. */
    method GetAction(name: string) returns (r: Result<Callable, string>)
      ensures name in actions <==> r.Ok?
      ensures r.Ok? ==> r.value == actions[name]
      ensures r.Err? ==> r.error == "Unknown action: " + name
    {
      if name !in actions {
        return Err("Unknown action: " + name);
      }
      r := Ok(actions[name]);
    }
  }

  /** Registering and then looking up: the lookup finds the callable just
      registered, and every other name keeps what it had. */
  method RegisterThenLookUp(reg: ActionRegistry, name: string, other: string, f: Callable)
    returns (found: Result<Callable, string>, before: Result<Callable, string>, after: Result<Callable, string>)
    requires other != name
    modifies reg
    ensures found == Ok(f)
    ensures before == after
  {
    before := reg.GetAction(other);
    var _ := reg.Register(name, f);
    found := reg.GetAction(name);
    after := reg.GetAction(other);
  }
}
