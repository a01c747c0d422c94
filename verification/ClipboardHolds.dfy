/**
 What the clipboards of the star hold: the last content copied there, or brought
 by the session that set the clipboard last
 (apps/tailkvm-ui/src-tauri/src/session/controller.rs and receiver.rs).
 */
module ClipboardHolds {
  import opened Basics
  import opened Clipboard

  /** The node a move is about, and the message it takes in, if it is a mark. */
  function Marks(s: Star, m: Move): Option<(nat, Flight)>
    requires s.nodes != [] && Enabled(s, m)
  {
    match m
    case MarkUp(i) => Some((0, s.up[i]))
    case MarkDown(i) => Some((s.down[i].client + 1, s.down[i]))
    case _ => None
  }

  /** The message that the session of a client took in last at this node. */
  ghost function LastTaken(hash: Hash, s: Star, moves: seq<Move>, node: nat, client: nat): Option<Content> {
    if moves == [] then None
    else
      var front, m := moves[..|moves| - 1], moves[|moves| - 1];
      var before, mid := LastTaken(hash, s, front, node, client), Play(hash, s, front);
      if mid.Some? && mid.value.nodes != [] && Enabled(mid.value, m) && Marks(mid.value, m).Some?
         && Marks(mid.value, m).value.0 == node && Marks(mid.value, m).value.1.client == client
      then Some(Marks(mid.value, m).value.1.content)
      else before
  }

  /** What the node was given last: a copy, or what the session that set it had taken in. */
  ghost function LastGiven(hash: Hash, s: Star, moves: seq<Move>, node: nat): Option<Content> {
    if moves == [] then if node < |s.nodes| then Some(s.nodes[node].clip) else None
    else
      var front, m := moves[..|moves| - 1], moves[|moves| - 1];
      var mid := Play(hash, s, front);
      if m.Copy? && m.node == node then Some(m.content)
      else if m.Set? && m.node == node && m.ok && mid.Some? && node < |mid.value.nodes| && m.index < |mid.value.nodes[node].applying|
      then LastTaken(hash, s, front, node, mid.value.nodes[node].applying[m.index].client)
      else LastGiven(hash, s, front, node)
  }

  /** Each session applies at most one message, the last it took in; and the clipboard holds what was given last. */
  ghost predicate Holds(n: Node, taken: nat -> Option<Content>, given: Option<Content>) {
    && given == Some(n.clip)
    && (forall f | f in n.applying :: taken(f.client) == Some(f.content))
    && forall i, j | 0 <= i < j < |n.applying| :: n.applying[i].client != n.applying[j].client
  }

  ghost function TakenAt(hash: Hash, s: Star, moves: seq<Move>, node: nat): nat -> Option<Content> {
    (client: nat) => LastTaken(hash, s, moves, node, client)
  }

  lemma RemovedDistinct(fs: seq<Flight>, i: nat)
    requires i < |fs| && forall a, b | 0 <= a < b < |fs| :: fs[a].client != fs[b].client
    ensures forall a, b | 0 <= a < b < |Removed(fs, i)| :: Removed(fs, i)[a].client != Removed(fs, i)[b].client
  {
    var rest := Removed(fs, i);
    assert forall a | 0 <= a < |rest| :: rest[a] == fs[if a < i then a else a + 1];
  }

  /** The move has this session take in a message at this node. */
  predicate Takes(s: Star, m: Move, k: nat, client: nat)
    requires s.nodes != [] && Enabled(s, m)
  {
    Marks(s, m).Some? && Marks(s, m).value.0 == k && Marks(s, m).value.1.client == client
  }

  /** What one move does to one node. */
  predicate Changes(s: Star, m: Move, k: nat, n': Node)
    requires s.nodes != [] && Enabled(s, m) && k < |s.nodes|
  {
    var n := s.nodes[k];
    if m.Copy? && m.node == k then n'.clip == m.content && n'.applying == n.applying
    else if Marks(s, m).Some? && Marks(s, m).value.0 == k then
      var f := Marks(s, m).value.1; n'.clip == n.clip && n'.applying == n.applying + [f] && Idle(n, f.client)
    else if m.Set? && m.node == k then
      n'.applying == Removed(n.applying, m.index) && n'.clip == if m.ok then n.applying[m.index].content else n.clip
    else n'.clip == n.clip && n'.applying == n.applying
  }

  lemma NodeAfter(hash: Hash, s: Star, m: Move, k: nat)
    requires s.nodes != [] && Enabled(s, m) && k < |s.nodes|
    ensures |Moved(hash, s, m).nodes| == |s.nodes| && Changes(s, m, k, Moved(hash, s, m).nodes[k])
  {
  }

  lemma TakenNext(hash: Hash, s: Star, front: seq<Move>, m: Move, mid: Star, k: nat, client: nat)
    requires Play(hash, s, front) == Some(mid) && mid.nodes != [] && Enabled(mid, m)
    ensures LastTaken(hash, s, front + [m], k, client)
         == if Takes(mid, m, k, client) then Some(Marks(mid, m).value.1.content) else LastTaken(hash, s, front, k, client)
  {
    assert (front + [m])[..|front|] == front;
  }

  lemma GivenNext(hash: Hash, s: Star, front: seq<Move>, m: Move, mid: Star, k: nat)
    requires Play(hash, s, front) == Some(mid) && k < |mid.nodes| && Enabled(mid, m)
    ensures LastGiven(hash, s, front + [m], k)
         == if m.Copy? && m.node == k then Some(m.content)
            else if m.Set? && m.node == k && m.ok then LastTaken(hash, s, front, k, mid.nodes[k].applying[m.index].client)
            else LastGiven(hash, s, front, k)
  {
    assert (front + [m])[..|front|] == front;
  }

  lemma HoldsOn(s: Star, m: Move, k: nat, n': Node, taken: nat -> Option<Content>, taken': nat -> Option<Content>,
                given: Option<Content>, given': Option<Content>)
    requires k < |s.nodes| && Enabled(s, m) && Changes(s, m, k, n') && Holds(s.nodes[k], taken, given)
    requires forall client: nat ::
               taken'(client) == if Takes(s, m, k, client) then Some(Marks(s, m).value.1.content) else taken(client)
    requires given' == if m.Copy? && m.node == k then Some(m.content)
                       else if m.Set? && m.node == k && m.ok then taken(s.nodes[k].applying[m.index].client)
                       else given
    ensures Holds(n', taken', given')
  {
    var n := s.nodes[k];
    if m.Set? && m.node == k {
      RemovedDistinct(n.applying, m.index);
      RemovedKeeps(n.applying, m.index);
    }
  }

  /** Over every run from a settled star. */
  lemma {:induction false} HoldsWhatItWasGiven(hash: Hash, s: Star, moves: seq<Move>, k: nat)
    requires Settled(s) && Play(hash, s, moves).Some? && k < |s.nodes|
    ensures |Play(hash, s, moves).value.nodes| == |s.nodes|
    ensures Holds(Play(hash, s, moves).value.nodes[k], TakenAt(hash, s, moves, k), LastGiven(hash, s, moves, k))
  {
    if moves != [] {
      var front, m := moves[..|moves| - 1], moves[|moves| - 1];
      HoldsWhatItWasGiven(hash, s, front, k);
      var mid := Play(hash, s, front).value;
      assert moves == front + [m];
      NodeAfter(hash, mid, m, k);
      GivenNext(hash, s, front, m, mid, k);
      forall client: nat
        ensures LastTaken(hash, s, moves, k, client)
             == if Takes(mid, m, k, client) then Some(Marks(mid, m).value.1.content) else LastTaken(hash, s, front, k, client)
      {
        TakenNext(hash, s, front, m, mid, k, client);
      }
      HoldsOn(mid, m, k, Moved(hash, mid, m).nodes[k], TakenAt(hash, s, front, k), TakenAt(hash, s, moves, k),
              LastGiven(hash, s, front, k), LastGiven(hash, s, moves, k));
    } else {
      assert s.nodes[k] in s.nodes;
    }
  }
}
