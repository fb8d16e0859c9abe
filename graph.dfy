/**
 * The node graphs the scripts hand to the graph framework, as static edge
 * relations. A run is a path from START that only follows edges; which of
 * several successors is taken (a conditional edge) is left open.
 */
module Graph {

  /** Node names of all the graphs; `Start` and `End` are the framework's START and END. */
  datatype Node = Start | End | Chatbot | Tools | Approval | Router | Stock | Knowledge

  /** `p` begins at START and every step follows an edge of `edges`. */
  predicate IsRun(edges: Node -> set<Node>, p: seq<Node>) {
    |p| >= 1 && p[0] == Start && forall i :: 0 <= i < |p| - 1 ==> p[i + 1] in edges(p[i])
  }

  /** The step out of position `i` of a run, when there is one, follows an edge. */
  lemma RunStep(edges: Node -> set<Node>, p: seq<Node>, i: nat)
    requires IsRun(edges, p) && i < |p|
    ensures i + 1 < |p| ==> p[i + 1] in edges(p[i])
  {
  }

  /** How many times `p` passes through `n`. */
  function Visits(p: seq<Node>, n: Node): nat {
    if p == [] then 0 else (if p[0] == n then 1 else 0) + Visits(p[1..], n)
  }

  lemma {:induction false} VisitsConcat(a: seq<Node>, b: seq<Node>, n: Node)
    ensures Visits(a + b, n) == Visits(a, n) + Visits(b, n)
  {
    if a == [] {
      assert a + b == b;
    } else {
      assert (a + b)[1..] == a[1..] + b;
      VisitsConcat(a[1..], b, n);
    }
  }

  /** A prefix of a run passes through a node no more often than the run. */
  lemma {:induction false} VisitsPrefix(p: seq<Node>, q: seq<Node>, n: Node)
    requires p <= q
    ensures Visits(p, n) <= Visits(q, n)
  {
    if p != [] {
      assert p[1..] <= q[1..];
      VisitsPrefix(p[1..], q[1..], n);
    }
  }
}
