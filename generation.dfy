/** The history of game states as a tree (blackjack/src/generation.rs). The wall
    clock is replaced by a logical timestamp that the owner of the tree issues. */
module Generations {
  import opened Wrappers
  import opened GameStates

  /** A node of the history: a snapshot, when it was created, and the branches
      that follow it, in the order they were added. */
  datatype Generation = Generation(state: GameState, timestamp: nat, children: seq<Generation>)

  /** Some node of the tree rooted at g holds snapshot s. */
  ghost predicate StateInTree(g: Generation, s: GameState)
    decreases g
  {
    g.state == s || exists i :: 0 <= i < |g.children| && StateInTree(g.children[i], s)
  }

  /** Generation::new: a node with no branches, whose current state is its own. */
  function NewGeneration(state: GameState, stamp: nat): (g: Generation)
    ensures NumberOfBranches(g) == 0
    ensures CurrentState(g) == state && g.timestamp == stamp
  {
    Generation(state, stamp, [])
  }

  /** add_generation: one more branch, a new node for s, after the existing ones,
      which stay as they were; the node's own snapshot and timestamp are kept. */
  function AddGeneration(g: Generation, s: GameState, stamp: nat): (r: Generation)
    ensures NumberOfBranches(r) == NumberOfBranches(g) + 1
    ensures Branches(r)[..NumberOfBranches(g)] == Branches(g)
    ensures Branches(r)[NumberOfBranches(g)] == NewGeneration(s, stamp)
    ensures r.state == g.state && r.timestamp == g.timestamp
  {
    g.(children := g.children + [NewGeneration(s, stamp)])
  }

  /** branches: the direct children, in insertion order. */
  function Branches(g: Generation): (r: seq<Generation>)
    ensures forall i :: 0 <= i < |r| ==> StateInTree(g, r[i].state)
  {
    g.children
  }

  /** number_of_branches: how many direct children there are. */
  function NumberOfBranches(g: Generation): (n: nat)
    ensures n == |Branches(g)|
  {
    |g.children|
  }

  /** Iterator::max_by on timestamps: the index of a latest child, the last such
      when several share the latest timestamp. */
  function LatestIndex(cs: seq<Generation>): (i: nat)
    requires |cs| > 0
    ensures i < |cs|
    ensures forall j :: 0 <= j < |cs| ==> cs[j].timestamp <= cs[i].timestamp
    ensures forall j :: i < j < |cs| ==> cs[j].timestamp < cs[i].timestamp
  {
    if |cs| == 1 then 0
    else
      var k := LatestIndex(cs[..|cs| - 1]);
      if cs[|cs| - 1].timestamp >= cs[k].timestamp then |cs| - 1 else k
  }

  /** current_branch: None for a node without children, otherwise a child with the
      latest timestamp, the last such on ties. */
  function CurrentBranch(g: Generation): (r: Option<Generation>)
    ensures r.None? <==> g.children == []
    ensures r.Some? ==> exists i :: 0 <= i < |g.children| && r.value == g.children[i]
                                    && (forall j :: 0 <= j < |g.children| ==> g.children[j].timestamp <= g.children[i].timestamp)
                                    && (forall j :: i < j < |g.children| ==> g.children[j].timestamp < g.children[i].timestamp)
  {
    if g.children == [] then None else Some(g.children[LatestIndex(g.children)])
  }

  /** current_state: follows the current branch down to a leaf and returns its
      snapshot, which is a snapshot stored in the tree; a leaf's is its own. */
  function CurrentState(g: Generation): (s: GameState)
    ensures StateInTree(g, s)
    ensures g.children == [] ==> s == g.state
    decreases g
  {
    match CurrentBranch(g)
    case Some(branch) => CurrentState(branch)
    case None => g.state
  }

  /** The tie rule of max_by: among children sharing one timestamp the last wins. */
  lemma TiesGoToTheLast(cs: seq<Generation>)
    requires |cs| > 0
    requires forall j :: 0 <= j < |cs| ==> cs[j].timestamp == cs[0].timestamp
    ensures LatestIndex(cs) == |cs| - 1
  {
  }

  /** With strictly increasing timestamps, the latest child is the last one added. */
  lemma LatestOfIncreasing(cs: seq<Generation>)
    requires |cs| > 0
    requires forall i, j :: 0 <= i < j < |cs| ==> cs[i].timestamp < cs[j].timestamp
    ensures LatestIndex(cs) == |cs| - 1
  {
  }

  /** A node added with a timestamp later than every existing child becomes the
      current branch, and its snapshot the current state. */
  lemma AddedBecomesCurrent(g: Generation, s: GameState, stamp: nat)
    requires forall j :: 0 <= j < |g.children| ==> g.children[j].timestamp < stamp
    ensures CurrentBranch(AddGeneration(g, s, stamp)) == Some(NewGeneration(s, stamp))
    ensures CurrentState(AddGeneration(g, s, stamp)) == s
  {
  }
}
