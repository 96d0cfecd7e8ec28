/**
 * The sequence registry: named sequence builders, and the running sequences
 * keyed by their context id. Starting a sequence gives it a fresh context
 * whose id is not already in use, records it, and hands the run to a
 * background runner that always removes the entry and the sequence's action
 * label when the run ends.
 */
module Sequences {
  import opened Common
  import opened State
  import opened Engine

  /** A builder, known by its name. */
  datatype Builder = Builder(name: string)

  /** What `builder.build(...)` gives: the node tree to run, or the error the
      build raised. */
  datatype Built = Built(node: Node) | BuildFailed(err: Err)

  /** The action label a running sequence carries in the state store. */
  function ActionLabel(name: string): (t: string)
    ensures |t| == 10 + |name| && t[..10] == "Sequence: " && t[10..] == name
  {
    "Sequence: " + name
  }

  class SequenceRegistry {
    var sequences: map<string, Builder>
    var registry: map<string, (string, ExecutionContext)>

    constructor ()
      ensures sequences == map[] && registry == map[]
    {
      sequences := map[];
      registry := map[];
    }

    /** `add_sequence`: a builder is registered under its own name, replacing
        one of the same name. */
    method AddSequence(builder: Builder)
      modifies this
      ensures sequences == old(sequences)[builder.name := builder]
      ensures registry == old(registry)
    {
      sequences := sequences[builder.name := builder];
    }

    /** `run_sequence`: contexts are created until one has an id not in the
        registry; that context is registered under its id with the builder's
        name. `draws` are the ids the successive contexts draw. */
    method RunSequence(builder: Builder, draws: seq<string>) returns (id: string, ctx: ExecutionContext)
      requires forall i :: 0 <= i < |draws| ==> IsContextId(draws[i])
      requires exists i :: 0 <= i < |draws| && draws[i] !in registry
      modifies this
      ensures fresh(ctx) && ctx.id == id && ctx.gateOpen && !ctx.aborted
      ensures id !in old(registry)
      ensures registry == old(registry)[id := (builder.name, ctx)]
      ensures sequences == old(sequences)
      // the id kept is the first draw not already taken
      ensures exists k :: 0 <= k < |draws| && draws[k] == id && forall j :: 0 <= j < k ==> draws[j] in old(registry)
    {
      var k := 0;
      ctx := new ExecutionContext(draws[0]);
      while ctx.id in registry
        invariant 0 <= k < |draws| && ctx.id == draws[k]
        invariant forall j :: 0 <= j < k ==> draws[j] in registry
        invariant fresh(ctx) && ctx.gateOpen && !ctx.aborted
        invariant registry == old(registry) && sequences == old(sequences)
        decreases |draws| - k
      {
        k := k + 1;
        ctx := new ExecutionContext(draws[k]);
      }
      id := ctx.id;
      registry := registry[id := (builder.name, ctx)];
    }

    /** `_runner`: the action label is added, the sequence is built and run,
        and then, whatever the run's end, the registry entry is deleted and
        the label removed. Deleting an entry that is no longer there raises a
        `KeyError` from the cleanup, which replaces the run's own end (the
        run's events stay) and skips removing the label. */
    method Runner(m: StateManager, id: string, name: string, built: Built, st: St, env: Env) returns (end: Out)
      modifies this, m
      ensures sequences == old(sequences)
      ensures registry == old(registry) - {id}
      ensures m.status == old(m.status) && m.messages == old(m.messages) && m.devices == old(m.devices)
      ensures id in old(registry) ==> multiset(m.actions) == multiset(old(m.actions))
      ensures id in old(registry) && ActionLabel(name) !in old(m.actions) ==> m.actions == old(m.actions)
      ensures var ran := match built case Built(n) => Run(n, st, env) case BuildFailed(e) => Stop(e, st);
        && (id in old(registry) ==> end == ran)
        && (id !in old(registry) ==> m.actions == old(m.actions) + [ActionLabel(name)] && end == Stop(Exc, ran.st))
    {
      m.AddAction(ActionLabel(name));
      end := match built case Built(n) => Run(n, st, env) case BuildFailed(e) => Stop(e, st);
      if id !in registry {
        end := Stop(Exc, end.st);
        return;
      }
      registry := registry - {id};
      AddThenRemoveAction(old(m.actions), ActionLabel(name));
      m.RemoveAction(ActionLabel(name));
    }
  }
}
