/** The merge hash and the requests on it, as merging updates them in place. */
module MergeCode {
  import opened Common
  import opened MergeIndex

  class Elevator {
    const h: Hash
    var reqs: map<nat, Req>
    var buckets: map<nat, seq<nat>>

    constructor (h: Hash)
      ensures this.h == h && Valid(h, View())
    {
      this.h, reqs, buckets := h, map[], map[];
      NothingIndexed(h);
    }

    function View(): State
      reads this
    {
      State(reqs, buckets)
    }

    /** __elv_rqhash_del */
    method HashRemove(k: nat, id: nat)
      requires id in reqs
      modifies `reqs, `buckets
      ensures View() == HashDel(old(View()), k, id)
    {
      reqs := reqs[id := reqs[id].(hashed := false)];
      buckets := buckets[k := Without(Bucket(buckets, k), id)];
    }

    /** elv_rqhash_add; the precondition is its BUG_ON. */
    method HashInsert(id: nat)
      requires id in reqs && !reqs[id].hashed
      modifies `reqs, `buckets
      ensures View() == HashAdd(h, old(View()), id)
    {
      var k := h(End(reqs[id]));
      buckets := buckets[k := [id] + Bucket(buckets, k)];
      reqs := reqs[id := reqs[id].(hashed := true)];
    }

    /** elv_rqhash_find: the scan of one bucket finds a request exactly when some mergeable request
        on the hash ends at the offset; on its way it drops requests that cannot be merged. */
    method Find(offset: int) returns (found: Option<nat>)
      requires HashOk(h, View())
      modifies `reqs, `buckets
      ensures HashOk(h, View()) && Pruned(old(reqs), reqs)
      ensures found.Some? ==> EndsAt(reqs, found.value, offset)
      ensures found.None? <==> forall id: nat :: !EndsAt(old(reqs), id, offset)
    {
      hide Pruned, HashOk, End;
      ghost var s0 := View();
      PrunedNone(reqs);
      var k := h(offset);
      var list := Bucket(buckets, k);
      BucketIs(h, s0, k);
      var i := 0;
      while i < |list|
        invariant i <= |list| && HashOk(h, View()) && Pruned(s0.reqs, reqs)
        invariant forall j | 0 <= j < |list| :: list[j] in reqs && list[j] in s0.reqs && h(End(reqs[list[j]])) == k
        invariant forall j | i <= j < |list| :: reqs[list[j]].hashed
        invariant forall j | 0 <= j < i :: !EndsAt(s0.reqs, list[j], offset)
      {
        var id := list[i];
        SameFlags(s0.reqs, reqs, id);
        PrunedEnds(s0.reqs, reqs, id, offset);
        if !reqs[id].mergeable {
          HashDelKeeps(h, View(), id, k);
          PrunedStep(s0.reqs, reqs, id);
          SameEnd(reqs[id], false);
          HashRemove(k, id);
        } else if End(reqs[id]) == offset {
          return Some(id);
        }
        i := i + 1;
      }
      found := None;
      forall id: nat ensures !EndsAt(s0.reqs, id, offset) {
        if EndsAt(s0.reqs, id, offset) {
          InBucket(h, s0, id, offset);
        }
      }
    }

    /** A request becomes r, and elv_rqhash_reposition moves it to the bucket of its new end. */
    method Grow(id: nat, r: Req)
      requires id in reqs
      modifies `reqs, `buckets
      ensures View() == Reposition(h, old(View()), id, r)
    {
      hide End, Without;
      if reqs[id].hashed {
        HashRemove(h(End(reqs[id])), id);
      }
      reqs := reqs[id := r.(hashed := false)];
      HashInsert(id);
    }

    /** elv_rqhash_del, and the request is gone */
    method Forget(id: nat)
      requires id in reqs
      modifies `reqs, `buckets
      ensures View() == Drop(h, old(View()), id)
    {
      hide End, Without;
      if reqs[id].hashed {
        HashRemove(h(End(reqs[id])), id);
      }
      reqs := reqs - {id};
    }

    /** attempt_merge: adjacent requests become one; nothing happens to others. */
    method AttemptMerge(id: nat, next: nat) returns (merged: bool)
      requires Valid(h, View())
      modifies `reqs, `buckets
      ensures Valid(h, View()) && forall x :: Held(reqs, x) <==> Held(old(reqs), x)
      ensures merged <==> old(Meets(reqs, id, next))
      ensures merged ==> id in reqs && next !in reqs && reqs[id].bios == old(reqs)[id].bios + old(reqs)[next].bios
      ensures !merged ==> View() == old(View())
    {
      hide Valid, Held, Reposition, Drop;
      if !Adjacent(View(), id, next) {
        return false;
      }
      MergeReqsKeeps(h, View(), id, next);
      MergedParts(h, View(), id, next);
      Grow(id, Absorbed(reqs[id], reqs[next]));
      Forget(next);
      return true;
    }

    /** The back merge of __make_request, with the request behind it if they now meet. */
    method MergeBack(id: nat, b: Bio, next: Option<nat>)
      requires Valid(h, View()) && !Held(reqs, b) && Enabled(h, View(), Back(id, b, next))
      modifies `reqs, `buckets
      ensures Valid(h, View()) && forall x :: Held(reqs, x) <==> Held(old(reqs), x) || x == b
      ensures id in reqs
      ensures var meets := next.Some? && next.value != id && next.value in old(reqs) && old(reqs)[next.value].mergeable
                           && old(reqs)[next.value].sector == b.sector + b.sectors;
              reqs[id].bios == old(reqs)[id].bios + [b] + if meets then old(reqs)[next.value].bios else []
    {
      hide Valid, Held, Reposition;
      BackMergeKeeps(h, View(), id, b);
      Grown(h, View(), id, WithBack(reqs[id], b));
      Grow(id, WithBack(reqs[id], b));
      if next.Some? {
        var _ := AttemptMerge(id, next.value);
      }
    }

    /** The front merge of __make_request, with the request before it if they now meet. */
    method MergeFront(id: nat, b: Bio, prev: Option<nat>)
      requires Valid(h, View()) && !Held(reqs, b) && Enabled(h, View(), Front(id, b, prev))
      modifies `reqs, `buckets
      ensures Valid(h, View()) && forall x :: Held(reqs, x) <==> Held(old(reqs), x) || x == b
      ensures var meets := prev.Some? && prev.value != id && prev.value in old(reqs) && old(reqs)[prev.value].mergeable
                           && old(reqs)[prev.value].sector + old(reqs)[prev.value].sectors == b.sector;
              if meets then id !in reqs && prev.value in reqs && reqs[prev.value].bios == old(reqs)[prev.value].bios + ([b] + old(reqs)[id].bios)
              else id in reqs && reqs[id].bios == [b] + old(reqs)[id].bios
    {
      hide Valid, Held;
      FrontMergeKeeps(h, View(), id, b);
      reqs := reqs[id := WithFront(reqs[id], b)];
      if prev.Some? {
        var _ := AttemptMerge(prev.value, id);
      }
    }
  }

  /** Both may be merged, and the one ends where the other starts. */
  ghost predicate Meets(reqs: map<nat, Req>, id: nat, next: nat) {
    && id in reqs && next in reqs && id != next
    && reqs[id].mergeable && reqs[next].mergeable
    && reqs[id].sector + reqs[id].sectors == reqs[next].sector
  }

  /** Moving a request in the hash changes no other, and of this one only its place. */
  lemma Grown(h: Hash, s: State, id: nat, r: Req)
    requires id in s.reqs
    ensures var s' := Reposition(h, s, id, r);
            && id in s'.reqs && s'.reqs[id] == r.(hashed := true)
            && forall x | x != id :: (x in s'.reqs <==> x in s.reqs) && (x in s.reqs ==> s'.reqs[x] == s.reqs[x])
  {
    hide End, Without;
  }

  lemma MergedParts(h: Hash, s: State, id: nat, next: nat)
    requires Valid(h, s) && Adjacent(s, id, next)
    ensures next in Reposition(h, s, id, Absorbed(s.reqs[id], s.reqs[next])).reqs
    ensures var s' := MergeReqs(h, s, id, next);
            id in s'.reqs && next !in s'.reqs && s'.reqs[id].bios == s.reqs[id].bios + s.reqs[next].bios
  {
    hide End, Without, ChainsOk, OwnedOnce, BucketOk;
  }
}
