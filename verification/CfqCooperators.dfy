/** CFQ's queue-merge links (new_cfqq) never form a loop. */
module CfqCooperators {
  import opened Common

  /** `next` holds the non-null new_cfqq links, `refs` the process references of each queue. */
  datatype Links = Links(next: map<nat, nat>, refs: map<nat, nat>)

  function Refs(s: Links, q: nat): nat {
    if q in s.refs then s.refs[q] else 0
  }

  /** The queue n links on. */
  function Walk(next: map<nat, nat>, q: nat, n: nat): Option<nat>
    decreases n
  {
    if n == 0 then Some(q) else if q in next then Walk(next, next[q], n - 1) else None
  }

  ghost predicate Acyclic(next: map<nat, nat>) {
    forall q: nat, n: nat | n > 0 :: Walk(next, q, n) != Some(q)
  }

  /** The end of a chain of links. */
  ghost predicate IsEnd(next: map<nat, nat>, q: nat, e: nat) {
    e !in next && exists n: nat :: Walk(next, q, n) == Some(e)
  }

  // ---------------------------------------------------------------------------
  // Walks end
  // ---------------------------------------------------------------------------

  lemma {:induction false} WalkOn(next: map<nat, nat>, q: nat, m: nat, n: nat)
    requires Walk(next, q, m).Some?
    ensures Walk(next, q, m + n) == Walk(next, Walk(next, q, m).value, n)
    decreases m
  {
    if m > 0 {
      WalkOn(next, next[q], m - 1, n);
    }
  }

  ghost function Visited(next: map<nat, nat>, q: nat, n: nat): set<nat> {
    if n == 0 then {}
    else Visited(next, q, n - 1) + if Walk(next, q, n - 1).Some? then {Walk(next, q, n - 1).value} else {}
  }

  lemma {:induction false} VisitedIs(next: map<nat, nat>, q: nat, n: nat, x: nat)
    requires x in Visited(next, q, n)
    ensures exists i: nat :: i < n && Walk(next, q, i) == Some(x)
  {
    if x in Visited(next, q, n - 1) {
      VisitedIs(next, q, n - 1, x);
    } else {
      assert Walk(next, q, n - 1) == Some(x);
    }
  }

  /** A walk through acyclic links visits a new queue at every step. */
  lemma {:induction false} WalkVisits(next: map<nat, nat>, q: nat, n: nat)
    requires Acyclic(next) && Walk(next, q, n).Some?
    ensures |Visited(next, q, n)| == n && Visited(next, q, n) <= next.Keys
  {
    hide Acyclic;
    if n > 0 {
      WalkBefore(next, q, n - 1);
      WalkVisits(next, q, n - 1);
      WalkOn(next, q, n - 1, 1);
      VisitsNew(next, q, n - 1);
    }
  }

  lemma VisitsNew(next: map<nat, nat>, q: nat, n: nat)
    requires Acyclic(next) && Walk(next, q, n).Some?
    ensures Walk(next, q, n).value !in Visited(next, q, n)
  {
    hide Visited;
    var x := Walk(next, q, n).value;
    if x in Visited(next, q, n) {
      VisitedIs(next, q, n, x);
      var i: nat :| i < n && Walk(next, q, i) == Some(x);
      WalkOn(next, q, i, n - i);
      assert false;
    }
  }

  lemma {:induction false} WalkBefore(next: map<nat, nat>, q: nat, n: nat)
    requires Walk(next, q, n + 1).Some?
    ensures Walk(next, q, n).Some?
    decreases n
  {
    if n > 0 {
      WalkBefore(next, next[q], n - 1);
    }
  }

  /** No walk is longer than the number of links. */
  lemma WalkIsShort(next: map<nat, nat>, q: nat, n: nat)
    requires Acyclic(next) && Walk(next, q, n).Some?
    ensures n <= |next|
  {
    WalkVisits(next, q, n);
    SubsetSize(Visited(next, q, n), next.Keys);
    assert |next.Keys| == |next|;
  }

  // ---------------------------------------------------------------------------
  // cfq_setup_merge
  // ---------------------------------------------------------------------------

  /** Linking one chain end to another keeps the links acyclic. */
  lemma LinkKeeps(next: map<nat, nat>, a: nat, b: nat)
    requires Acyclic(next) && a !in next && b !in next && a != b
    ensures Acyclic(next[a := b])
  {
    var next' := next[a := b];
    forall q: nat, n: nat | n > 0 ensures Walk(next', q, n) != Some(q) {
      if Walk(next', q, n) == Some(q) {
        LinkedWalk(next, a, b, q, n, q);
        assert false;
      }
    }
  }

  lemma {:induction false} LinkedWalk(next: map<nat, nat>, a: nat, b: nat, q: nat, n: nat, x: nat)
    requires a !in next && b !in next && a != b
    requires Walk(next[a := b], q, n) == Some(x)
    ensures Walk(next, q, n) == Some(x) || x == b
    decreases n
  {
    if n > 0 {
      if q == a {
        assert b !in next[a := b];
      } else {
        LinkedWalk(next, a, b, next[q], n - 1, x);
      }
    }
  }

  lemma {:induction false} UnlinkKeeps(next: map<nat, nat>, a: nat)
    requires Acyclic(next)
    ensures Acyclic(next - {a})
  {
    var next' := next - {a};
    forall q: nat, n: nat | n > 0 ensures Walk(next', q, n) != Some(q) {
      if Walk(next', q, n) == Some(q) {
        UnlinkedWalk(next, a, q, n, q);
      }
    }
  }

  lemma {:induction false} UnlinkedWalk(next: map<nat, nat>, a: nat, q: nat, n: nat, x: nat)
    requires Walk(next - {a}, q, n) == Some(x)
    ensures Walk(next, q, n) == Some(x)
    decreases n
  {
    if n > 0 {
      UnlinkedWalk(next, a, next[q], n - 1, x);
    }
  }

  /** What cfq_setup_merge may do: nothing, or link two distinct chain ends, towards the one
      with more process references, which takes over the other's. */
  ghost predicate Merged(s: Links, s': Links, cfqq: nat, newq: nat) {
    s' == s || exists e: nat ::
      && IsEnd(s.next, newq, e)
      && e != cfqq
      && Refs(s, cfqq) != 0 && Refs(s, e) != 0
      && s' == if Refs(s, e) >= Refs(s, cfqq)
               then Links(s.next[cfqq := e], s.refs[e := Refs(s, e) + Refs(s, cfqq)])
               else Links(s.next[e := cfqq], s.refs[cfqq := Refs(s, cfqq) + Refs(s, e)])
  }

  /** cfq_setup_merge: the walk to the end of the chain terminates, and the links stay acyclic. */
  method SetupMerge(s: Links, cfqq: nat, newq: nat) returns (s': Links)
    requires Acyclic(s.next) && cfqq !in s.next && cfqq != newq
    ensures Acyclic(s'.next) && Merged(s, s', cfqq, newq)
    ensures s' == s <==> Refs(s, newq) == 0 || Refs(s, cfqq) == 0
                         || (exists n: nat :: Walk(s.next, newq, n) == Some(cfqq))
                         || (exists e: nat :: IsEnd(s.next, newq, e) && Refs(s, e) == 0)
  {
    if Refs(s, newq) == 0 {
      return s;
    }
    var cur := newq;
    ghost var n: nat := 0;
    while cur in s.next
      invariant Walk(s.next, newq, n) == Some(cur) && cur != cfqq
      invariant forall i: nat | i <= n :: Walk(s.next, newq, i) != Some(cfqq)
      decreases |s.next| - n
    {
      WalkOn(s.next, newq, n, 1);
      WalkIsShort(s.next, newq, n + 1);
      if s.next[cur] == cfqq {
        assert Walk(s.next, newq, n + 1) == Some(cfqq);
        return s;
      }
      cur, n := s.next[cur], n + 1;
    }
    assert IsEnd(s.next, newq, cur);
    OneEnd(s.next, newq, n, cur);
    NotReached(s.next, newq, n, cfqq);
    var refs, newRefs := Refs(s, cfqq), Refs(s, cur);
    if refs == 0 || newRefs == 0 {
      return s;
    }
    if newRefs >= refs {
      LinkKeeps(s.next, cfqq, cur);
      s' := Links(s.next[cfqq := cur], s.refs[cur := newRefs + refs]);
      assert cfqq in s'.next;
    } else {
      LinkKeeps(s.next, cur, cfqq);
      s' := Links(s.next[cur := cfqq], s.refs[cfqq := refs + newRefs]);
      assert cur in s'.next;
    }
  }

  lemma OneEnd(next: map<nat, nat>, q: nat, n: nat, e: nat)
    requires Walk(next, q, n) == Some(e) && e !in next
    ensures forall e': nat | IsEnd(next, q, e') :: e' == e
  {
    forall e': nat | IsEnd(next, q, e') ensures e' == e {
      var m: nat :| Walk(next, q, m) == Some(e');
      if m < n {
        WalkOn(next, q, m, n - m);
      } else {
        WalkOn(next, q, n, m - n);
      }
    }
  }

  lemma NotReached(next: map<nat, nat>, q: nat, n: nat, x: nat)
    requires Walk(next, q, n).Some? && Walk(next, q, n).value !in next
    requires forall i: nat | i <= n :: Walk(next, q, i) != Some(x)
    ensures forall i: nat :: Walk(next, q, i) != Some(x)
  {
    forall i: nat ensures Walk(next, q, i) != Some(x) {
      if i > n {
        WalkOn(next, q, n, i - n);
      }
    }
  }

  // ---------------------------------------------------------------------------
  // cfq_put_cooperator
  // ---------------------------------------------------------------------------

  /** cfq_put_cooperator drops one reference on every queue of the chain behind cfqq, and its
      loop warning is unreachable. */
  method PutCooperator(s: Links, cfqq: nat) returns (dropped: seq<nat>, warned: bool)
    requires Acyclic(s.next)
    ensures !warned
    ensures forall i | 0 <= i < |dropped| :: Walk(s.next, cfqq, i + 1) == Some(dropped[i])
    ensures Walk(s.next, cfqq, |dropped| + 1).None?
  {
    dropped, warned := [], false;
    var cur := if cfqq in s.next then Some(s.next[cfqq]) else None;
    WalkOn(s.next, cfqq, 0, 1);
    while cur.Some?
      invariant cur == Walk(s.next, cfqq, |dropped| + 1)
      invariant forall i | 0 <= i < |dropped| :: Walk(s.next, cfqq, i + 1) == Some(dropped[i])
      invariant !warned
      decreases |s.next| - |dropped|
    {
      WalkIsShort(s.next, cfqq, |dropped| + 1);
      if cur.value == cfqq {
        warned := true;
        break;
      }
      WalkOn(s.next, cfqq, |dropped| + 1, 1);
      dropped := dropped + [cur.value];
      cur := if cur.value in s.next then Some(s.next[cur.value]) else None;
    }
  }

  // ---------------------------------------------------------------------------
  // Runs
  // ---------------------------------------------------------------------------

  /** A step: a merge is set up, a queue is freed, or references come and go. */
  ghost predicate Step(s: Links, s': Links) {
    || (exists cfqq: nat, newq: nat :: cfqq !in s.next && cfqq != newq && Merged(s, s', cfqq, newq))
    || (exists q: nat :: s' == Links(s.next - {q}, s.refs - {q}))
    || s'.next == s.next
  }

  lemma MergedKeeps(s: Links, s': Links, cfqq: nat, newq: nat)
    requires Acyclic(s.next) && cfqq !in s.next && Merged(s, s', cfqq, newq)
    ensures Acyclic(s'.next)
  {
    hide Acyclic;
    if s' != s {
      var e: nat :| IsEnd(s.next, newq, e) && e != cfqq && s'.next == if Refs(s, e) >= Refs(s, cfqq) then s.next[cfqq := e] else s.next[e := cfqq];
      LinkKeeps(s.next, cfqq, e);
      LinkKeeps(s.next, e, cfqq);
    }
  }

  /** The links are acyclic in every state of every run, so both walks always terminate. */
  lemma {:induction false} LinksStayAcyclic(run: seq<Links>, i: nat)
    requires i < |run| && run[0].next == map[]
    requires forall j | 0 <= j < |run| - 1 :: Step(run[j], run[j + 1])
    ensures Acyclic(run[i].next)
  {
    hide Acyclic, Merged;
    if i == 0 {
      NoLinks();
    } else {
      LinksStayAcyclic(run, i - 1);
      var s, s' := run[i - 1], run[i];
      assert Step(s, s');
      if s'.next != s.next {
        if exists q: nat :: s' == Links(s.next - {q}, s.refs - {q}) {
          var q: nat :| s' == Links(s.next - {q}, s.refs - {q});
          UnlinkKeeps(s.next, q);
        } else {
          var cfqq: nat, newq: nat :| cfqq !in s.next && cfqq != newq && Merged(s, s', cfqq, newq);
          MergedKeeps(s, s', cfqq, newq);
        }
      }
    }
  }

  lemma NoLinks()
    ensures Acyclic(map[])
  {
  }
}
