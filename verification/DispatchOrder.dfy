/** elv_dispatch_sort keeps the dispatch queue in the order of a sweep. */
module DispatchOrder {
  import opened Barrier

  /** A sweep that starts at the boundary comes to x no later than to y. */
  ghost predicate Before(boundary: int, x: Request, y: Request) {
    if (x.sector >= boundary) == (y.sector >= boundary) then x.sector <= y.sector else x.sector >= boundary
  }

  ghost predicate Swept(head: seq<Request>, from: nat, boundary: int) {
    forall i, j | from <= i < j < |head| :: Before(boundary, head[i], head[j])
  }

  /** r may pass every request from here on. */
  ghost predicate Open(head: seq<Request>, from: nat, r: Request) {
    forall i | from <= i < |head| ::
      var x := head[i]; x.discard == r.discard && x.write == r.write && !x.soft && !x.hard && !x.started
  }

  lemma BeforeTransitive(boundary: int, x: Request, y: Request, z: Request)
    requires Before(boundary, x, y) && Before(boundary, y, z)
    ensures Before(boundary, x, z)
  {
  }

  /** Where the backward scan of an open stretch stops. */
  lemma StopsInOrder(x: Request, r: Request, boundary: int)
    requires x.discard == r.discard && x.write == r.write && !x.soft && !x.hard && !x.started
    ensures SortStops(x, r, boundary) ==> Before(boundary, x, r)
    ensures !SortStops(x, r, boundary) ==> Before(boundary, r, x) && x.sector != r.sector
  {
  }

  lemma InsertedSwept(head: seq<Request>, i: nat, r: Request, from: nat, boundary: int)
    requires from <= i <= |head| && Swept(head, from, boundary)
    requires forall j | from <= j < i :: Before(boundary, head[j], r)
    requires forall j | i <= j < |head| :: Before(boundary, r, head[j])
    ensures Swept(InsertAt(head, i, r), from, boundary)
  {
    hide Before;
    var head' := InsertAt(head, i, r);
    forall a, b | from <= a < b < |head'| ensures Before(boundary, head'[a], head'[b]) {
      var a', b' := if a < i then a else a - 1, if b < i then b else b - 1;
      if a != i && b != i {
        assert head'[a] == head[a'] && head'[b] == head[b'];
      } else if a == i {
        assert head'[a] == r && head'[b] == head[b'];
      } else {
        assert head'[b] == r && head'[a] == head[a'];
      }
    }
  }

  /** The scan stops where the sweep comes to r. */
  lemma ScanFits(head: seq<Request>, r: Request, boundary: int, from: nat)
    requires from <= |head| && Open(head, from, r) && Swept(head, from, boundary)
    requires from > 0 ==> SortStops(head[from - 1], r, boundary)
    ensures var i := SortIndex(head, r, boundary, |head|);
            && from <= i
            && (forall j | from <= j < i :: Before(boundary, head[j], r))
            && (forall j | i <= j < |head| :: Before(boundary, r, head[j]) && head[j].sector != r.sector)
  {
    hide SortStops, Before;
    var i := SortIndex(head, r, boundary, |head|);
    assert from <= i;
    forall j | from <= j < i ensures Before(boundary, head[j], r) {
      StopsInOrder(head[i - 1], r, boundary);
      if j < i - 1 {
        BeforeTransitive(boundary, head[j], head[i - 1], r);
      }
    }
    forall j | i <= j < |head| ensures Before(boundary, r, head[j]) && head[j].sector != r.sector {
      StopsInOrder(head[j], r, boundary);
    }
  }

  lemma InsertedParts(head: seq<Request>, i: nat, r: Request, from: nat)
    requires from <= i <= |head|
    ensures |InsertAt(head, i, r)| == |head| + 1 && InsertAt(head, i, r)[..from] == head[..from]
    ensures multiset(InsertAt(head, i, r)) == multiset(head) + multiset{r}
    ensures forall j | 0 <= j < i :: InsertAt(head, i, r)[j] == head[j]
  {
    assert head == head[..i] + head[i..];
  }

  /** Behind the last request that it may not pass, a request goes where the sweep comes to it, after
      those at the same sector. */
  lemma SortKeepsSweep(q: Queue, r: Request, boundary: int, from: nat)
    requires from <= |q.head| && Open(q.head, from, r) && Swept(q.head, from, boundary)
    requires from > 0 ==> SortStops(q.head[from - 1], r, boundary)
    ensures var head := DispatchSort(q, r, boundary).head;
            && |head| == |q.head| + 1 && head[..from] == q.head[..from]
            && multiset(head) == multiset(q.head) + multiset{r}
            && Swept(head, from, boundary)
            && (forall j | from <= j < |q.head| && q.head[j].sector == r.sector :: head[j] == q.head[j])
  {
    hide SortStops, Before, Swept, Open, SortIndex, InsertAt;
    var i := SortIndex(q.head, r, boundary, |q.head|);
    ScanFits(q.head, r, boundary, from);
    InsertedParts(q.head, i, r, from);
    InsertedSwept(q.head, i, r, from, boundary);
  }
}
