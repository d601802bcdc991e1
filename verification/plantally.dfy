/**
 * The plan tally of collectMetrics: every planned resource change counts
 * once towards the total and once towards each of the add / change /
 * destroy / import buckets whose action its action list contains.
 */
module PlanTally {

  /** One entry of the plan's `resource_changes`: its type and `change.actions`. */
  datatype ResourceChange = ResourceChange(resourceType: string, actions: seq<string>)

  datatype Tally = Tally(total: nat, toAdd: nat, toChange: nat, toDestroy: nat, toImport: nat)

  const Create := "create"
  const Update := "update"
  const Delete := "delete"
  const Import := "import"

  /** contains: a linear search that stops at the first match. */
  method SliceContains(slice: seq<string>, val: string) returns (found: bool)
    ensures found <==> val in slice
  {
    for i := 0 to |slice|
      invariant val !in slice[..i]
    {
      if slice[i] == val {
        return true;
      }
    }
    return false;
  }

  /** The number of changes whose action list contains `action`. */
  function CountWith(changes: seq<ResourceChange>, action: string): (n: nat)
    ensures n <= |changes|
  {
    if changes == [] then 0
    else
      var last := changes[|changes| - 1];
      CountWith(changes[..|changes| - 1], action) + (if action in last.actions then 1 else 0)
  }

  /** The tally that the loop over `resource_changes` arrives at. */
  function TallyOf(changes: seq<ResourceChange>): (t: Tally)
    ensures t.total == |changes|
    ensures t.toAdd <= t.total && t.toChange <= t.total
    ensures t.toDestroy <= t.total && t.toImport <= t.total
  {
    Tally(|changes|, CountWith(changes, Create), CountWith(changes, Update),
          CountWith(changes, Delete), CountWith(changes, Import))
  }

  /** The tally loop of collectMetrics. */
  method TallyChanges(changes: seq<ResourceChange>) returns (t: Tally)
    ensures t == TallyOf(changes)
  {
    var total: nat, toAdd: nat, toChange: nat, toDestroy: nat, toImport: nat := 0, 0, 0, 0, 0;
    for i := 0 to |changes|
      invariant Tally(total, toAdd, toChange, toDestroy, toImport) == TallyOf(changes[..i])
    {
      assert changes[..i + 1][..i] == changes[..i];
      total := total + 1;
      var actions := changes[i].actions;
      var isCreate := SliceContains(actions, Create);
      if isCreate {
        toAdd := toAdd + 1;
      }
      var isUpdate := SliceContains(actions, Update);
      if isUpdate {
        toChange := toChange + 1;
      }
      var isDelete := SliceContains(actions, Delete);
      if isDelete {
        toDestroy := toDestroy + 1;
      }
      var isImport := SliceContains(actions, Import);
      if isImport {
        toImport := toImport + 1;
      }
    }
    assert changes[..|changes|] == changes;
    t := Tally(total, toAdd, toChange, toDestroy, toImport);
  }

  /** The positions of the changes whose action list contains `action`. */
  function PositionsWith(changes: seq<ResourceChange>, action: string): set<nat>
  {
    set i: nat | i < |changes| && action in changes[i].actions
  }

  /** Each bucket counts exactly the changes that carry its action. */
  lemma {:induction false} CountWithIsCardinality(changes: seq<ResourceChange>, action: string)
    ensures CountWith(changes, action) == |PositionsWith(changes, action)|
  {
    if changes != [] {
      var n := |changes| - 1;
      var init := changes[..n];
      CountWithIsCardinality(init, action);
      var before := PositionsWith(init, action);
      var after := PositionsWith(changes, action);
      if action in changes[n].actions {
        assert after == before + {n};
      } else {
        assert after == before;
      }
    }
  }

  function Sum(a: Tally, b: Tally): Tally
  {
    Tally(a.total + b.total, a.toAdd + b.toAdd, a.toChange + b.toChange,
          a.toDestroy + b.toDestroy, a.toImport + b.toImport)
  }

  lemma {:induction false} CountWithConcat(a: seq<ResourceChange>, b: seq<ResourceChange>, action: string)
    ensures CountWith(a + b, action) == CountWith(a, action) + CountWith(b, action)
  {
    if b == [] {
      assert a + b == a;
    } else {
      var n := |b| - 1;
      assert (a + b)[..|a + b| - 1] == a + b[..n];
      CountWithConcat(a, b[..n], action);
    }
  }

  /** Tallying two halves of a plan and adding gives the tally of the whole plan. */
  lemma TallyConcat(a: seq<ResourceChange>, b: seq<ResourceChange>)
    ensures TallyOf(a + b) == Sum(TallyOf(a), TallyOf(b))
  {
    var whole, left, right := TallyOf(a + b), TallyOf(a), TallyOf(b);
    assert whole.toAdd == left.toAdd + right.toAdd by { CountWithConcat(a, b, Create); }
    assert whole.toChange == left.toChange + right.toChange by { CountWithConcat(a, b, Update); }
    assert whole.toDestroy == left.toDestroy + right.toDestroy by { CountWithConcat(a, b, Delete); }
    assert whole.toImport == left.toImport + right.toImport by { CountWithConcat(a, b, Import); }
  }

  /**
   * A recreation (an action list holding both "delete" and "create") counts
   * in both the add and the destroy bucket, and not in the change bucket
   * unless it also holds "update".
   */
  lemma RecreationCountsTwice(changes: seq<ResourceChange>, rc: ResourceChange)
    requires Delete in rc.actions && Create in rc.actions && Update !in rc.actions
    ensures TallyOf(changes + [rc]).total == TallyOf(changes).total + 1
    ensures TallyOf(changes + [rc]).toAdd == TallyOf(changes).toAdd + 1
    ensures TallyOf(changes + [rc]).toDestroy == TallyOf(changes).toDestroy + 1
    ensures TallyOf(changes + [rc]).toChange == TallyOf(changes).toChange
  {
    assert (changes + [rc])[..|changes|] == changes;
  }
}
