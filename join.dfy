/**
 * The keyed data join the charts rely on (`selection.data(items, key).join(enter,
 * update, exit)`): a pool of on-screen elements, each bound to one key.
 *
 * An element is named by an id handed out once; an entering key gets a fresh
 * id, a key present before and after keeps its element, and a key no longer in
 * the data loses its element. A join by index is the keyed join whose keys are
 * the positions `0 .. n - 1`.
 */
module Join {

  import opened Seqs

  /** A DOM element: its identity, the datum bound to it, and its attributes. */
  datatype Element<D, A> = Element(id: nat, datum: D, attrs: A)

  /** No two keys of `elements` share an element. */
  ghost predicate OneElementPerKey<K, D, A>(elements: map<K, Element<D, A>>)
  {
    forall k, k' :: k in elements && k' in elements && k != k' ==> elements[k].id != elements[k'].id
  }

  /**
   * What a join of `keys`/`items` does to a pool that held `before` and had
   * handed out ids below `nextBefore`, leaving `after` and returning the merged
   * enter + update selection `bound`, in data order:
   *  - the live keys are exactly the new keys (exits are removed);
   *  - element `i` of the selection is the one for `keys[i]`, bound to `items[i]`;
   *  - a key present before keeps its element and its attributes (update);
   *  - a key not present before gets a new element with the enter defaults.
   */
  ghost predicate Reconciled<K, D, A>(before: map<K, Element<D, A>>, nextBefore: nat,
                                      after: map<K, Element<D, A>>,
                                      keys: seq<K>, items: seq<D>, enterAttrs: seq<A>,
                                      bound: seq<Element<D, A>>)
    requires |keys| == |items| == |enterAttrs|
  {
    && after.Keys == Elements(keys)
    && |bound| == |keys|
    && (forall i :: 0 <= i < |keys| ==> after[keys[i]] == bound[i] && bound[i].datum == items[i])
    && (forall i :: 0 <= i < |keys| && keys[i] in before ==>
          bound[i].id == before[keys[i]].id && bound[i].attrs == before[keys[i]].attrs)
    && (forall i :: 0 <= i < |keys| && keys[i] !in before ==>
          nextBefore <= bound[i].id && bound[i].attrs == enterAttrs[i])
  }

  class Pool<K(==), D, A> {
    /** The live elements by key. */
    var elements: map<K, Element<D, A>>
    /** Every id below this one has been handed out. */
    var nextId: nat

    ghost predicate Valid()
      reads this
    {
      && (forall k :: k in elements ==> elements[k].id < nextId)
      && OneElementPerKey(elements)
    }

    /** An empty selection: no element is bound yet. */
    constructor ()
      ensures Valid()
      ensures elements == map[] && nextId == 0
    {
      elements := map[];
      nextId := 0;
    }

    /**
     * Binds `items` under `keys`: exits are removed, updates keep their element
     * with the new datum, enters get a new element with `enterAttrs[i]`.
     * A repeated key is not covered by this model, so the keys must be distinct.
     */
    method Join(keys: seq<K>, items: seq<D>, enterAttrs: seq<A>) returns (bound: seq<Element<D, A>>)
      requires Valid()
      requires |keys| == |items| == |enterAttrs|
      requires Distinct(keys)
      modifies this
      ensures Valid()
      ensures old(nextId) <= nextId
      ensures Reconciled(old(elements), old(nextId), elements, keys, items, enterAttrs, bound)
    {
      var live, start := elements, nextId;
      var next: map<K, Element<D, A>> := map[];
      var id := start;
      bound := [];
      var i := 0;
      while i < |keys|
        invariant i <= |keys|
        invariant JoinedPrefix(live, start, keys, items, enterAttrs, i, next, id, bound)
      {
        var (e, id') := Bind(live, id, keys[i], items[i], enterAttrs[i]);
        BindStep(live, start, keys, items, enterAttrs, i, next, id, bound);
        next, id, bound := next[keys[i] := e], id', bound + [e];
        i := i + 1;
      }
      JoinedPrefixComplete(live, start, keys, items, enterAttrs, next, id, bound);
      elements := next;
      nextId := id;
    }
  }

  /**
   * The element for key `k` bound to `item`: the live element with the new
   * datum, or else a new element with the next id and the enter defaults.
   * Also returns the next unused id.
   */
  function Bind<K, D, A>(live: map<K, Element<D, A>>, id: nat, k: K, item: D, enter: A): (r: (Element<D, A>, nat))
  {
    if k in live then (live[k].(datum := item), id)
    else (Element(id, item, enter), id + 1)
  }

  /** The first `n` keys have been bound: the loop invariant of `Pool.Join`. */
  ghost predicate JoinedPrefix<K, D, A>(live: map<K, Element<D, A>>, start: nat,
                                        keys: seq<K>, items: seq<D>, enterAttrs: seq<A>, n: nat,
                                        next: map<K, Element<D, A>>, id: nat, bound: seq<Element<D, A>>)
    requires n <= |keys| == |items| == |enterAttrs|
  {
    && start <= id
    && next.Keys == Elements(keys[..n])
    && |bound| == n
    && (forall j :: 0 <= j < n ==> next[keys[j]] == bound[j] && bound[j].datum == items[j])
    && (forall j :: 0 <= j < n && keys[j] in live ==> bound[j].attrs == live[keys[j]].attrs)
    && (forall j :: 0 <= j < n && keys[j] !in live ==> bound[j].attrs == enterAttrs[j])
    && (forall k :: k in next ==> next[k].id < id)
    && (forall k :: k in next && k in live ==> next[k].id == live[k].id)
    && (forall k :: k in next && k !in live ==> start <= next[k].id)
    && OneElementPerKey(next)
  }

  lemma BindStep<K, D, A>(live: map<K, Element<D, A>>, start: nat,
                          keys: seq<K>, items: seq<D>, enterAttrs: seq<A>, n: nat,
                          next: map<K, Element<D, A>>, id: nat, bound: seq<Element<D, A>>)
    requires n < |keys| == |items| == |enterAttrs|
    requires Distinct(keys)
    requires forall k :: k in live ==> live[k].id < start
    requires OneElementPerKey(live)
    requires JoinedPrefix(live, start, keys, items, enterAttrs, n, next, id, bound)
    ensures var (e, id') := Bind(live, id, keys[n], items[n], enterAttrs[n]);
            JoinedPrefix(live, start, keys, items, enterAttrs, n + 1, next[keys[n] := e], id', bound + [e])
  {
    var k := keys[n];
    var (e, id') := Bind(live, id, k, items[n], enterAttrs[n]);
    assert k !in next by {
      forall j | 0 <= j < n ensures keys[j] != k { }
    }
    forall k' | k' in next ensures next[k'].id != e.id {
      if k in live && k' in live {
        assert k' != k;
      }
    }
    AddKeepsOneElementPerKey(next, k, e);
    assert keys[..n + 1] == keys[..n] + [k];
  }

  lemma JoinedPrefixComplete<K, D, A>(live: map<K, Element<D, A>>, start: nat,
                                      keys: seq<K>, items: seq<D>, enterAttrs: seq<A>,
                                      next: map<K, Element<D, A>>, id: nat, bound: seq<Element<D, A>>)
    requires |keys| == |items| == |enterAttrs|
    requires JoinedPrefix(live, start, keys, items, enterAttrs, |keys|, next, id, bound)
    ensures Reconciled(live, start, next, keys, items, enterAttrs, bound)
    ensures start <= id && (forall k :: k in next ==> next[k].id < id) && OneElementPerKey(next)
  {
    assert keys[..|keys|] == keys;
  }

  /** A new key whose element differs from every element already there keeps one element per key. */
  lemma AddKeepsOneElementPerKey<K, D, A>(m: map<K, Element<D, A>>, k: K, e: Element<D, A>)
    requires OneElementPerKey(m)
    requires k !in m
    requires forall k' :: k' in m ==> m[k'].id != e.id
    ensures OneElementPerKey(m[k := e])
  {
  }

  /** After a join by index, position `i` holds the element bound to `items[i]`. */
  lemma ReconciledByIndex<D, A>(before: map<nat, Element<D, A>>, nextBefore: nat,
                                after: map<nat, Element<D, A>>,
                                items: seq<D>, enterAttrs: seq<A>, bound: seq<Element<D, A>>)
    requires |items| == |enterAttrs|
    requires Reconciled(before, nextBefore, after, Indices(|items|), items, enterAttrs, bound)
    ensures forall i :: 0 <= i < |items| ==> i in after && after[i].datum == items[i]
  {
    var keys := Indices(|items|);
    forall i | 0 <= i < |items| ensures i in after && after[i].datum == items[i] {
      assert keys[i] == i;
    }
  }

  /**
   * Identity preservation, stated on the pools alone: a key live before and
   * after keeps its element, and a key that entered has an id never handed
   * out before.
   */
  ghost predicate KeepsIdentity<K, D, A>(before: map<K, Element<D, A>>, nextBefore: nat,
                                         after: map<K, Element<D, A>>)
  {
    && (forall k :: k in before && k in after ==> after[k].id == before[k].id)
    && (forall k :: k in after && k !in before ==> nextBefore <= after[k].id)
  }

  lemma ReconciledKeepsIdentity<K, D, A>(before: map<K, Element<D, A>>, nextBefore: nat,
                                         after: map<K, Element<D, A>>,
                                         keys: seq<K>, items: seq<D>, enterAttrs: seq<A>,
                                         bound: seq<Element<D, A>>)
    requires |keys| == |items| == |enterAttrs|
    requires Reconciled(before, nextBefore, after, keys, items, enterAttrs, bound)
    ensures KeepsIdentity(before, nextBefore, after)
  {
    forall k | k in after
      ensures k in before ==> after[k].id == before[k].id
      ensures k !in before ==> nextBefore <= after[k].id
    {
      var i :| 0 <= i < |keys| && keys[i] == k;
      assert after[k] == bound[i];
    }
  }

  /**
   * The attributes a join leaves on the pool when every enter default is
   * `enter`: a key live before and after keeps its element's attributes, and
   * a key that entered carries `enter`.
   */
  ghost predicate KeepsAttrs<K, D, A>(before: map<K, Element<D, A>>, after: map<K, Element<D, A>>, enter: A)
  {
    && (forall k :: k in before && k in after ==> after[k].attrs == before[k].attrs)
    && (forall k :: k in after && k !in before ==> after[k].attrs == enter)
  }

  lemma ReconciledKeepsAttrs<K, D, A>(before: map<K, Element<D, A>>, nextBefore: nat,
                                      after: map<K, Element<D, A>>,
                                      keys: seq<K>, items: seq<D>, enterAttrs: seq<A>,
                                      bound: seq<Element<D, A>>, enter: A)
    requires |keys| == |items| == |enterAttrs|
    requires forall i :: 0 <= i < |enterAttrs| ==> enterAttrs[i] == enter
    requires Reconciled(before, nextBefore, after, keys, items, enterAttrs, bound)
    ensures KeepsAttrs(before, after, enter)
  {
    forall k | k in after
      ensures k in before ==> after[k].attrs == before[k].attrs
      ensures k !in before ==> after[k].attrs == enter
    {
      var i :| 0 <= i < |keys| && keys[i] == k;
      assert after[k] == bound[i];
    }
  }

  /**
   * An entering element is new: its id differs from that of every element
   * the pool held before the join, including the ones that exited.
   */
  lemma EnteredIsNew<K, D, A>(before: map<K, Element<D, A>>, nextBefore: nat,
                              after: map<K, Element<D, A>>,
                              keys: seq<K>, items: seq<D>, enterAttrs: seq<A>,
                              bound: seq<Element<D, A>>, k: K, gone: K)
    requires |keys| == |items| == |enterAttrs|
    requires forall k0 :: k0 in before ==> before[k0].id < nextBefore
    requires Reconciled(before, nextBefore, after, keys, items, enterAttrs, bound)
    requires k in keys && k !in before && gone in before
    ensures k in after && after[k].id != before[gone].id
  {
    var i :| 0 <= i < |keys| && keys[i] == k;
    assert after[k] == bound[i];
  }

}
