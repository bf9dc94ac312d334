/** The shape every phase of the tool shares: create a snapshot, run the phase's steps until the
    first error, and commit the snapshot only when all of them succeeded. */
module Phase {
  import opened Wrappers
  import opened Machine
  import opened Plans
  import opened Shell
  import opened Rollback

  /** A phase whose steps are the plan `plan`. */
  method RunPhase(h: Host, rb: RollbackManager, plan: seq<Step>) returns (r: Outcome)
    modifies h, rb
    ensures Exit(r, h.World()) == Run(h.oracle, old(h.World()), plan)
    ensures rb.snapshots == old(rb.snapshots) + [Fresh]
  {
    var snapshot := rb.CreateSnapshot();
    r := h.Perform(plan);
    if r.Fail? {
      return;
    }
    r := rb.CommitSnapshot(snapshot);
  }

  /** The plans of `f` for each item, one after another. */
  function Each(items: seq<string>, f: string -> seq<Step>): seq<Step>
    decreases |items|
  {
    if items == [] then [] else f(items[0]) + Each(items[1..], f)
  }

  lemma {:induction false} EachAppend(a: seq<string>, b: seq<string>, f: string -> seq<Step>)
    ensures Each(a + b, f) == Each(a, f) + Each(b, f)
    decreases |a|
  {
    if a == [] {
      assert a + b == b;
    } else {
      assert (a + b)[1..] == a[1..] + b;
      EachAppend(a[1..], b, f);
    }
  }

  /** `for item in items { f(item)?; }`: the items in order, stopping at the first failure. */
  method PerformEach(h: Host, items: seq<string>, f: string -> seq<Step>) returns (r: Outcome)
    modifies h
    ensures Exit(r, h.World()) == Run(h.oracle, old(h.World()), Each(items, f))
  {
    ghost var w0 := h.World();
    var i := 0;
    r := Pass;
    while i < |items|
      invariant 0 <= i <= |items| && r.Pass?
      invariant Run(h.oracle, w0, Each(items, f)) == Run(h.oracle, h.World(), Each(items[i..], f))
    {
      assert items[i..][1..] == items[i + 1..];
      RunAppend(h.oracle, h.World(), f(items[i]), Each(items[i + 1..], f));
      r := h.Perform(f(items[i]));
      if r.Fail? {
        return;
      }
      i := i + 1;
    }
  }

  /** A loop phase: one snapshot around `f` applied to each item. */
  method RunEachPhase(h: Host, rb: RollbackManager, items: seq<string>, f: string -> seq<Step>) returns (r: Outcome)
    modifies h, rb
    ensures Exit(r, h.World()) == Run(h.oracle, old(h.World()), Each(items, f))
    ensures rb.snapshots == old(rb.snapshots) + [Fresh]
  {
    var snapshot := rb.CreateSnapshot();
    r := PerformEach(h, items, f);
    if r.Fail? {
      return;
    }
    r := rb.CommitSnapshot(snapshot);
  }
}
