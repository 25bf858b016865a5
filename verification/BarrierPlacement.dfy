/** No request is lost, duplicated or ended twice, in every mode. */
module BarrierPlacement {
  import opened Common
  import opened Barrier

  type Census = multiset<Request>

  /** Every request the queue is responsible for, with multiplicity. */
  ghost function Total(head: seq<Request>, elev: set<Request>, driver: set<Request>, origBar: Option<Request>): Census {
    multiset(head) + multiset(elev) + multiset(driver) + Single(origBar)
  }

  ghost function Single(r: Option<Request>): Census {
    if r.Some? then multiset{r.value} else multiset{}
  }

  ghost function CensusOf(q: Queue): Census {
    Total(q.head, q.elev, q.driver, q.origBar)
  }

  ghost predicate Held(c: Census, w: Who) {
    exists r :: r in c && r.who == w
  }

  /** One request per identity, in one place. */
  ghost predicate Unique(c: Census) {
    && (forall r :: c[r] <= 1)
    && (forall r, r' | r in c && r' in c && r.who == r'.who :: r == r')
  }

  ghost predicate Recorded(r: Request, added: seq<Added>, done: set<nat>) {
    r.who.Client? ==>
      && r.who.id < |added|
      && r.who.id !in done
      && added[r.who.id] == Added(r.fs, r.hard, r.epoch)
  }

  ghost predicate Kept(c: Census, done: set<nat>, id: nat) {
    id in done || Held(c, Client(id))
  }

  ghost predicate Consistent(c: Census, added: seq<Added>, done: set<nat>) {
    && Unique(c)
    && (forall r | r in c :: Recorded(r, added, done))
    && (forall id: nat | id < |added| :: Kept(c, done, id))
    && (forall id: nat | id in done :: id < |added|)
  }

  ghost predicate Placement(q: Queue) {
    Consistent(CensusOf(q), q.added, q.done)
  }

  // ---------------------------------------------------------------------------
  // Three ways a step changes the census
  // ---------------------------------------------------------------------------

  lemma UniqueReplaced(c: Census, x: Request, y: Request)
    requires Unique(c) && x in c && y.who == x.who
    ensures Unique(c - multiset{x} + multiset{y})
    ensures forall r :: r in c - multiset{x} + multiset{y} <==> (r in c && r != x) || r == y
  {
    var d := c - multiset{x};
    assert forall r :: r in d <==> r in c && r != x;
    assert y !in d;
  }

  lemma HeldReplaced(c: Census, x: Request, y: Request, w: Who)
    requires Unique(c) && x in c && y.who == x.who
    ensures Held(c - multiset{x} + multiset{y}, w) <==> Held(c, w)
  {
    var c' := c - multiset{x} + multiset{y};
    UniqueReplaced(c, x, y);
    if Held(c, w) {
      var r :| r in c && r.who == w;
      assert r in c' || y in c';
    }
  }

  /** A request changes flags or place. */
  lemma Replaced(c: Census, added: seq<Added>, done: set<nat>, x: Request, y: Request)
    requires Consistent(c, added, done) && x in c
    requires y.who == x.who && y.fs == x.fs && y.hard == x.hard && y.epoch == x.epoch
    ensures Consistent(c - multiset{x} + multiset{y}, added, done)
    ensures forall w :: Held(c - multiset{x} + multiset{y}, w) <==> Held(c, w)
  {
    var c' := c - multiset{x} + multiset{y};
    UniqueReplaced(c, x, y);
    assert Recorded(x, added, done);
    forall w ensures Held(c', w) <==> Held(c, w) {
      HeldReplaced(c, x, y, w);
    }
    forall id: nat | id < |added| ensures Kept(c', done, id) {
      assert Kept(c, done, id);
    }
  }

  lemma HeldJoined(c: Census, y: Request, w: Who)
    ensures Held(c + multiset{y}, w) <==> Held(c, w) || w == y.who
  {
    var c' := c + multiset{y};
    assert y in c';
    if Held(c, w) {
      var r :| r in c && r.who == w;
      assert r in c';
    }
  }

  /** A client's new request joins. */
  lemma Joined(c: Census, added: seq<Added>, done: set<nat>, y: Request)
    requires Consistent(c, added, done) && y.who == Client(|added|)
    ensures Consistent(c + multiset{y}, added + [Added(y.fs, y.hard, y.epoch)], done)
    ensures forall w :: Held(c + multiset{y}, w) <==> Held(c, w) || w == y.who
  {
    var c', added' := c + multiset{y}, added + [Added(y.fs, y.hard, y.epoch)];
    forall r | r in c ensures r.who != y.who && Recorded(r, added', done) {
      assert Recorded(r, added, done);
    }
    assert forall r | r in c' :: r in c || r == y;
    forall w ensures Held(c', w) <==> Held(c, w) || w == y.who {
      HeldJoined(c, y, w);
    }
    forall id: nat | id < |added'| ensures Kept(c', done, id) {
      if id < |added| { assert Kept(c, done, id); }
    }
  }

  /** A proxy joins. */
  lemma ProxyJoined(c: Census, added: seq<Added>, done: set<nat>, y: Request)
    requires Consistent(c, added, done) && !y.who.Client? && !Held(c, y.who)
    ensures Consistent(c + multiset{y}, added, done)
    ensures forall w :: Held(c + multiset{y}, w) <==> Held(c, w) || w == y.who
  {
    var c' := c + multiset{y};
    assert forall r | r in c :: r.who != y.who;
    assert forall r | r in c' :: r in c || r == y;
    forall w ensures Held(c', w) <==> Held(c, w) || w == y.who {
      HeldJoined(c, y, w);
    }
    forall id: nat | id < |added| ensures Kept(c', done, id) {
      assert Kept(c, done, id);
    }
  }

  lemma HeldLeft(c: Census, x: Request, w: Who)
    requires Unique(c) && x in c
    ensures Held(c - multiset{x}, w) <==> Held(c, w) && w != x.who
  {
    var c' := c - multiset{x};
    assert forall r :: r in c' <==> r in c && r != x;
    if Held(c, w) && w != x.who {
      var r :| r in c && r.who == w;
      assert r in c';
    }
  }

  ghost function DoneAfter(done: set<nat>, x: Request): set<nat> {
    if x.who.Client? then done + {x.who.id} else done
  }

  /** A request leaves; a client's request is then done. */
  lemma Left(c: Census, added: seq<Added>, done: set<nat>, x: Request)
    requires Consistent(c, added, done) && x in c
    ensures Consistent(c - multiset{x}, added, DoneAfter(done, x))
    ensures forall w :: Held(c - multiset{x}, w) <==> Held(c, w) && w != x.who
  {
    var c', done' := c - multiset{x}, DoneAfter(done, x);
    assert Recorded(x, added, done);
    assert forall r :: r in c' <==> r in c && r != x;
    forall r | r in c' ensures Recorded(r, added, done') {
      assert Recorded(r, added, done);
    }
    forall w ensures Held(c', w) <==> Held(c, w) && w != x.who {
      HeldLeft(c, x, w);
    }
    forall id: nat | id < |added| ensures Kept(c', done', id) {
      assert Kept(c, done, id);
    }
  }
}
