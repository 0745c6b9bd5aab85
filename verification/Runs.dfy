/** The run table of runtime/db.ts: rows are only ever appended, so a run's number is its index
    and the order of numbers is the order of `created_at`. */
module Runs {
  import opened Rows

  const READ_LIMIT := 100

  function ActiveRuns(runs: seq<Run>): set<RunId> {
    set r: RunId | r < |runs| && runs[r].state.Active()
  }

  /** Active runs of depth exactly 0, the ones `activeTopLevelCount` counts. */
  function TopLevelRuns(runs: seq<Run>): set<RunId> {
    set r: RunId | r < |runs| && runs[r].state.Active() && runs[r].depth == 0
  }

  function QueuedRuns(runs: seq<Run>): set<RunId> {
    set r: RunId | r < |runs| && runs[r].state.Queued?
  }

  predicate AgentBusy(runs: seq<Run>, agent: AgentId) {
    exists r: RunId :: r < |runs| && runs[r].agent == agent && runs[r].state.Active()
  }

  function SetState(runs: seq<Run>, r: RunId, state: RunState): seq<Run>
    requires r < |runs|
  {
    runs[r := runs[r].(state := state)]
  }

  lemma SetsAfter(runs: seq<Run>, r: RunId, state: RunState)
    requires r < |runs|
    ensures var runs' := SetState(runs, r, state);
            && ActiveRuns(runs') == (if state.Active() then ActiveRuns(runs) + {r} else ActiveRuns(runs) - {r})
            && TopLevelRuns(runs') ==
               (if state.Active() && runs[r].depth == 0 then TopLevelRuns(runs) + {r} else TopLevelRuns(runs) - {r})
            && QueuedRuns(runs') == (if state.Queued? then QueuedRuns(runs) + {r} else QueuedRuns(runs) - {r})
  {}

  lemma SetsAfterCreate(runs: seq<Run>, run: Run)
    requires run.state.Queued?
    ensures ActiveRuns(runs + [run]) == ActiveRuns(runs)
    ensures TopLevelRuns(runs + [run]) == TopLevelRuns(runs)
    ensures QueuedRuns(runs + [run]) == QueuedRuns(runs) + {|runs|}
  {}

  // ----- the delegation forest -----

  /** Parents are older than their children, one level up, and delegation goes two levels down at most. */
  ghost predicate Rooted(runs: seq<Run>) {
    forall r: RunId | r < |runs| ::
      && runs[r].depth <= 2
      && (runs[r].parent.Of? ==>
            && runs[r].parent.id < r
            && runs[r].depth == runs[runs[r].parent.id].depth + 1)
  }

  /** The agents met on the walk from `r` to its root, `r` included. */
  function LineAgents(runs: seq<Run>, r: RunId): set<AgentId>
    requires r < |runs|
  {
    {runs[r].agent} +
    if runs[r].parent.Of? && runs[r].parent.id < r then LineAgents(runs, runs[r].parent.id) else {}
  }

  ghost predicate NoCycles(runs: seq<Run>) {
    forall r: RunId | r < |runs| && runs[r].parent.Of? && runs[r].parent.id < r ::
      runs[r].agent !in LineAgents(runs, runs[r].parent.id)
  }

  ghost predicate Forest(runs: seq<Run>) { Rooted(runs) && NoCycles(runs) }

  /** The ancestor chain of a run: itself, its parent, and so on to the root. */
  ghost function Line(runs: seq<Run>, r: RunId): seq<RunId>
    requires r < |runs|
  {
    [r] + if runs[r].parent.Of? && runs[r].parent.id < r then Line(runs, runs[r].parent.id) else []
  }

  lemma {:induction false} LineFacts(runs: seq<Run>, r: RunId)
    requires Forest(runs) && r < |runs|
    ensures forall i | 0 <= i < |Line(runs, r)| :: Line(runs, r)[i] < |runs|
    ensures forall i | 0 <= i < |Line(runs, r)| :: runs[Line(runs, r)[i]].agent in LineAgents(runs, r)
    ensures forall i, j | 0 <= i < j < |Line(runs, r)| :: runs[Line(runs, r)[i]].agent != runs[Line(runs, r)[j]].agent
    ensures |Line(runs, r)| == runs[r].depth - runs[Line(runs, r)[|Line(runs, r)| - 1]].depth + 1
    ensures !runs[Line(runs, r)[|Line(runs, r)| - 1]].parent.Of?
    decreases r
  {
    if runs[r].parent.Of? {
      var p := runs[r].parent.id;
      LineFacts(runs, p);
      assert Line(runs, r) == [r] + Line(runs, p);
    } else {
      assert Line(runs, r) == [r];
    }
  }

  /** Along every ancestor chain the agents are pairwise distinct, the chain ends at a root, and it
      has one run per level: three at most when the root has natural depth. */
  lemma ChainsAreShortAndAcyclic(runs: seq<Run>, r: RunId)
    requires Forest(runs) && r < |runs|
    ensures var line := Line(runs, r);
            && (forall i | 0 <= i < |line| :: line[i] < |runs|)
            && (forall i, j | 0 <= i < j < |line| :: runs[line[i]].agent != runs[line[j]].agent)
            && !runs[line[|line| - 1]].parent.Of?
            && |line| == runs[r].depth - runs[line[|line| - 1]].depth + 1
            && (runs[line[|line| - 1]].depth >= 0 ==> |line| <= 3)
  {
    LineFacts(runs, r);
  }

  lemma {:induction false} LineAgentsStable(runs: seq<Run>, runs': seq<Run>, r: RunId)
    requires r < |runs| <= |runs'|
    requires forall q: RunId | q < |runs| :: runs'[q].agent == runs[q].agent && runs'[q].parent == runs[q].parent
    ensures LineAgents(runs', r) == LineAgents(runs, r)
    decreases r
  {
    if runs[r].parent.Of? && runs[r].parent.id < r { LineAgentsStable(runs, runs', runs[r].parent.id); }
  }

  lemma ForestAfterState(runs: seq<Run>, r: RunId, state: RunState)
    requires Forest(runs) && r < |runs|
    ensures Forest(SetState(runs, r, state))
  {
    var runs' := SetState(runs, r, state);
    forall q: RunId | q < |runs'| && runs'[q].parent.Of? && runs'[q].parent.id < q
      ensures runs'[q].agent !in LineAgents(runs', runs'[q].parent.id)
    {
      LineAgentsStable(runs, runs', runs[q].parent.id);
    }
  }

  lemma ForestAfterCreate(runs: seq<Run>, run: Run)
    requires Forest(runs) && run.depth <= 2
    requires run.parent.Of? ==>
      && run.parent.id < |runs|
      && run.depth == runs[run.parent.id].depth + 1
      && run.agent !in LineAgents(runs, run.parent.id)
    ensures Forest(runs + [run])
  {
    var runs' := runs + [run];
    forall q: RunId | q < |runs'| && runs'[q].parent.Of? && runs'[q].parent.id < q
      ensures runs'[q].agent !in LineAgents(runs', runs'[q].parent.id)
    {
      LineAgentsStable(runs, runs', runs'[q].parent.id);
    }
  }

  // ----- descendants -----

  /** `d` hangs somewhere below `r`. */
  ghost predicate Below(runs: seq<Run>, r: RunId, d: RunId)
    decreases d
  {
    d < |runs| && runs[d].parent.Of? && runs[d].parent.id < d
    && (runs[d].parent.id == r || Below(runs, r, runs[d].parent.id))
  }

  lemma {:induction false} BelowIsLater(runs: seq<Run>, r: RunId, d: RunId)
    requires Below(runs, r, d)
    ensures r < d
    decreases d
  {
    if runs[d].parent.id != r { BelowIsLater(runs, r, runs[d].parent.id); }
  }

  /** The direct children of a run, oldest first. */
  function Children(runs: seq<Run>, r: RunId): (kids: seq<RunId>)
    ensures forall d: RunId :: d in kids <==> d < |runs| && runs[d].parent == Of(r)
    ensures forall i, j | 0 <= i < j < |kids| :: kids[i] != kids[j]
  {
    ChildrenUpTo(runs, r, |runs|)
  }

  function ChildrenUpTo(runs: seq<Run>, r: RunId, n: nat): (kids: seq<RunId>)
    requires n <= |runs|
    ensures forall d: RunId :: d in kids <==> d < n && runs[d].parent == Of(r)
    ensures forall i, j | 0 <= i < j < |kids| :: kids[i] != kids[j]
  {
    if n == 0 then []
    else ChildrenUpTo(runs, r, n - 1) + if runs[n - 1].parent == Of(r) then [n - 1] else []
  }

  ghost predicate Distinct(s: seq<RunId>) {
    forall i, j | 0 <= i < j < |s| :: s[i] != s[j]
  }

  lemma {:induction false} ClosedCoversBelow(runs: seq<Run>, r: RunId, found: seq<RunId>, d: RunId)
    requires Rooted(runs) && Below(runs, r, d)
    requires forall q: RunId | q < |runs| && runs[q].parent.Of? && (runs[q].parent.id == r || runs[q].parent.id in found) :: q in found
    ensures d in found
    decreases d
  {
    if runs[d].parent.id != r { ClosedCoversBelow(runs, r, found, runs[d].parent.id); }
  }

  /** `WITH RECURSIVE children`: the queue starts with the children of `r`; each row taken from it
      adds its own children. Every proper descendant comes out, once. */
  method Descendants(runs: seq<Run>, r: RunId) returns (found: seq<RunId>)
    requires Rooted(runs)
    ensures Distinct(found)
    ensures forall d: RunId :: d in found <==> Below(runs, r, d)
  {
    found := Children(runs, r);
    DistinctFits(found, |runs|);
    var next := 0;
    while next < |found|
      invariant 0 <= next <= |found|
      invariant |found| <= |runs|
      invariant Distinct(found)
      invariant forall d | d in found :: Below(runs, r, d) && (runs[d].parent.id == r || runs[d].parent.id in found[..next])
      invariant forall q: RunId | q < |runs| && runs[q].parent.Of? && (runs[q].parent.id == r || runs[q].parent.id in found[..next]) :: q in found
      decreases |runs| - next
    {
      var kids := Children(runs, found[next]);
      Append(runs, r, found, next, kids);
      found := found + kids;
      next := next + 1;
    }
    assert found[..next] == found;
    forall d | Below(runs, r, d) ensures d in found { ClosedCoversBelow(runs, r, found, d); }
  }

  lemma Append(runs: seq<Run>, r: RunId, found: seq<RunId>, next: nat, kids: seq<RunId>)
    requires Rooted(runs) && next < |found| && Distinct(found)
    requires forall d | d in found :: Below(runs, r, d) && (runs[d].parent.id == r || runs[d].parent.id in found[..next])
    requires kids == Children(runs, found[next])
    ensures Distinct(found + kids)
    ensures |found + kids| <= |runs|
    ensures forall d | d in kids :: Below(runs, r, d)
    ensures (found + kids)[..next + 1] == found[..next] + [found[next]]
  {
    BelowIsLater(runs, r, found[next]);
    forall d | d in kids ensures d !in found && Below(runs, r, d) {
    }
    forall i, j | 0 <= i < j < |found + kids| ensures (found + kids)[i] != (found + kids)[j] {
      if i < |found| <= j { assert kids[j - |found|] in kids && found[i] in found; }
    }
    DistinctFits(found + kids, |runs|);
  }

  lemma DistinctFits(s: seq<RunId>, n: nat)
    requires Distinct(s) && forall x | x in s :: x < n
    ensures |s| <= n
  {
    var all := UpTo(n);
    var elements := set x: RunId | x in s;
    DistinctCount(s);
    assert elements <= all;
    Cardinality(elements, all);
  }

  ghost function UpTo(n: nat): (all: set<nat>)
    ensures forall x: nat :: x in all <==> x < n
    ensures |all| == n
  {
    if n == 0 then {} else UpTo(n - 1) + {n - 1}
  }

  lemma {:induction false} DistinctCount(s: seq<RunId>)
    requires Distinct(s)
    ensures |set x: RunId | x in s| == |s|
  {
    if s != [] {
      var rest := s[1..];
      DistinctCount(rest);
      assert (set x: RunId | x in s) == {s[0]} + (set x: RunId | x in rest);
    }
  }

  lemma {:induction false} Cardinality<T>(a: set<T>, b: set<T>)
    requires a <= b
    ensures |a| <= |b|
    decreases |a|
  {
    if a != {} {
      var x :| x in a;
      Cardinality(a - {x}, b - {x});
    }
  }
}
