// The shape the position and the order diff share: a remembered map against an observed
// one, one decision per key, departures first, and memory advanced by the decisions.
module KeyedDiff {
  import opened Wrappers

  /** The decision about one key: what to emit, and what to remember of it. */
  datatype Change<K, E, M> = Change(key: K, event: Option<E>, keep: Option<M>)

  function Look<K, V>(m: map<K, V>, k: K): Option<V> { if k in m then Some(m[k]) else None }

  /** At most one decision per key. */
  predicate OnePerKey<K(==), E, M>(changes: seq<Change<K, E, M>>) {
    forall i, j :: 0 <= i < j < |changes| ==> changes[i].key != changes[j].key
  }

  predicate Mentions<K(==), E, M>(changes: seq<Change<K, E, M>>, k: K) {
    exists i :: 0 <= i < |changes| && changes[i].key == k
  }

  /** `change` is what `decide` says of its key. */
  ghost predicate Owed<K(!new), O, E, M>(previous: map<K, M>, current: map<K, O>,
                                   decide: (K, Option<M>, Option<O>) -> Change<K, E, M>, change: Change<K, E, M>) {
    && (change.key in previous || change.key in current)
    && change == decide(change.key, Look(previous, change.key), Look(current, change.key))
  }

  /** `changes` is the diff of `current` against `previous`: exactly one decision per key
      remembered or present, departures before everything else. */
  ghost predicate IsDiff<K(!new), O, E, M>(previous: map<K, M>, current: map<K, O>,
                                     decide: (K, Option<M>, Option<O>) -> Change<K, E, M>,
                                     changes: seq<Change<K, E, M>>) {
    && OnePerKey(changes)
    && (forall k :: k in previous || k in current ==> Mentions(changes, k))
    && (forall i :: 0 <= i < |changes| ==> Owed(previous, current, decide, changes[i]))
    && (forall i, j :: 0 <= i < j < |changes| && changes[i].key in current ==> changes[j].key in current)
  }

  /** The departures among the remembered keys in `seen`, each once. */
  ghost predicate DeparturesOf<K(!new), O, E, M>(previous: map<K, M>, current: map<K, O>, seen: set<K>,
                                           decide: (K, Option<M>, Option<O>) -> Change<K, E, M>,
                                           changes: seq<Change<K, E, M>>) {
    && OnePerKey(changes)
    && (forall k :: k in seen && k in previous && k !in current ==> Mentions(changes, k))
    && (forall i :: 0 <= i < |changes| ==>
          changes[i].key in seen && changes[i].key !in current && Owed(previous, current, decide, changes[i]))
  }

  /** The decisions owed the present keys, in the order given. */
  ghost predicate PresentOf<K(!new), O, E, M>(previous: map<K, M>, current: map<K, O>, keys: seq<K>,
                                        decide: (K, Option<M>, Option<O>) -> Change<K, E, M>,
                                        changes: seq<Change<K, E, M>>) {
    && |changes| == |keys|
    && (forall i :: 0 <= i < |keys| ==>
          changes[i].key == keys[i] && keys[i] in current && Owed(previous, current, decide, changes[i]))
  }

  lemma MentionsConcat<K, E, M>(a: seq<Change<K, E, M>>, b: seq<Change<K, E, M>>, k: K)
    ensures Mentions(a + b, k) <==> Mentions(a, k) || Mentions(b, k)
  {
    if Mentions(a, k) {
      var i :| 0 <= i < |a| && a[i].key == k;
      assert (a + b)[i].key == k;
    }
    if Mentions(b, k) {
      var i :| 0 <= i < |b| && b[i].key == k;
      assert (a + b)[|a| + i].key == k;
    }
    if Mentions(a + b, k) {
      var i :| 0 <= i < |a + b| && (a + b)[i].key == k;
      assert if i < |a| then a[i].key == k else b[i - |a|].key == k;
    }
  }

  lemma DepartureAdded<K(!new), O, E, M>(previous: map<K, M>, current: map<K, O>, seen: set<K>,
                                   decide: (K, Option<M>, Option<O>) -> Change<K, E, M>,
                                   changes: seq<Change<K, E, M>>, change: Change<K, E, M>)
    requires DeparturesOf(previous, current, seen, decide, changes)
    requires change.key !in seen && change.key !in current && Owed(previous, current, decide, change)
    ensures DeparturesOf(previous, current, seen + {change.key}, decide, changes + [change])
  {
    forall k | k in seen + {change.key} && k in previous && k !in current
      ensures Mentions(changes + [change], k)
    {
      MentionsConcat(changes, [change], k);
      if k == change.key { assert [change][0].key == k; }
    }
  }

  lemma PresentAdded<K(!new), O, E, M>(previous: map<K, M>, current: map<K, O>, keys: seq<K>,
                                 decide: (K, Option<M>, Option<O>) -> Change<K, E, M>,
                                 changes: seq<Change<K, E, M>>, change: Change<K, E, M>)
    requires PresentOf(previous, current, keys, decide, changes)
    requires change.key in current && Owed(previous, current, decide, change)
    ensures PresentOf(previous, current, keys + [change.key], decide, changes + [change])
  {
  }

  lemma DiffAssembled<K(!new), O, E, M>(previous: map<K, M>, current: map<K, O>, keys: seq<K>,
                                  decide: (K, Option<M>, Option<O>) -> Change<K, E, M>,
                                  departures: seq<Change<K, E, M>>, present: seq<Change<K, E, M>>)
    requires forall k :: k in keys <==> k in current
    requires forall i, j :: 0 <= i < j < |keys| ==> keys[i] != keys[j]
    requires DeparturesOf(previous, current, previous.Keys, decide, departures)
    requires PresentOf(previous, current, keys, decide, present)
    ensures IsDiff(previous, current, decide, departures + present)
    ensures (departures + present)[|departures|..] == present
  {
    var changes, n := departures + present, |departures|;
    forall i | 0 <= i < |changes|
      ensures Owed(previous, current, decide, changes[i]) && (changes[i].key in current <==> n <= i)
    {
      if i >= n { assert changes[i] == present[i - n]; }
    }
    forall i, j | 0 <= i < j < |changes|
      ensures changes[i].key != changes[j].key
    {
      if i >= n { assert changes[i].key == keys[i - n] && changes[j].key == keys[j - n]; }
    }
    forall k | k in previous || k in current
      ensures Mentions(changes, k)
    {
      MentionsConcat(departures, present, k);
      if k in current {
        var i :| 0 <= i < |keys| && keys[i] == k;
        assert present[i].key == k;
      }
    }
  }

  // ---------------------------------------------------------------------------
  // An observation as a dictionary
  // ---------------------------------------------------------------------------

  /** A later item for a key replaces an earlier one. */
  function DictOf<K(!new), V>(items: seq<V>, key: V -> K): (dict: map<K, V>)
    ensures forall k :: k in dict ==> key(dict[k]) == k && dict[k] in items
  {
    if items == [] then map[]
    else
      var last := items[|items| - 1];
      DictOf(items[..|items| - 1], key)[key(last) := last]
  }

  lemma {:induction false} EveryKeyIsThere<K(!new), V>(items: seq<V>, key: V -> K, i: nat)
    requires i < |items|
    ensures key(items[i]) in DictOf(items, key)
  {
    if i < |items| - 1 { EveryKeyIsThere(items[..|items| - 1], key, i); }
  }

  /** The last item for a key is the one that stands. */
  lemma {:induction false} LastItemStands<K(!new), V>(items: seq<V>, key: V -> K, i: nat)
    requires i < |items| && forall j :: i < j < |items| ==> key(items[j]) != key(items[i])
    ensures key(items[i]) in DictOf(items, key) && DictOf(items, key)[key(items[i])] == items[i]
  {
    if i < |items| - 1 { LastItemStands(items[..|items| - 1], key, i); }
  }

  /** Its keys in dictionary order: by first appearance, each once. */
  function KeyOrder<K(==, !new), V>(items: seq<V>, key: V -> K): (keys: seq<K>)
    ensures forall k :: k in keys <==> k in DictOf(items, key)
    ensures forall i, j :: 0 <= i < j < |keys| ==> keys[i] != keys[j]
  {
    if items == [] then []
    else
      var last, before := key(items[|items| - 1]), KeyOrder(items[..|items| - 1], key);
      if last in before then before else before + [last]
  }

  /** Items of distinct keys keep their order. */
  lemma {:induction false} DistinctKeysKeepOrder<K(!new), V>(items: seq<V>, key: V -> K)
    requires forall i, j :: 0 <= i < j < |items| ==> key(items[i]) != key(items[j])
    ensures |KeyOrder(items, key)| == |items|
    ensures forall i :: 0 <= i < |items| ==> KeyOrder(items, key)[i] == key(items[i])
  {
    if items != [] {
      var before, last := items[..|items| - 1], key(items[|items| - 1]);
      DistinctKeysKeepOrder(before, key);
    }
  }

  // ---------------------------------------------------------------------------
  // Advancing memory
  // ---------------------------------------------------------------------------

  /** How a kept value meets what memory already holds: it replaces it. */
  function Replace<M>(): (Option<M>, M) -> M { (was, kept) => kept }

  /** One decision written to memory: forgotten, or kept through `merge`. */
  function Applied<K, E, M>(memory: map<K, M>, change: Change<K, E, M>, merge: (Option<M>, M) -> M): map<K, M> {
    if change.keep.None? then memory - {change.key}
    else memory[change.key := merge(Look(memory, change.key), change.keep.value)]
  }

  function AllApplied<K, E, M>(memory: map<K, M>, changes: seq<Change<K, E, M>>, merge: (Option<M>, M) -> M)
      : map<K, M> {
    if changes == [] then memory
    else Applied(AllApplied(memory, changes[..|changes| - 1], merge), changes[|changes| - 1], merge)
  }

  function Merged<M>(was: Option<M>, keep: Option<M>, merge: (Option<M>, M) -> M): Option<M> {
    if keep.None? then None else Some(merge(was, keep.value))
  }

  lemma {:induction false} AppliedAt<K, E, M>(memory: map<K, M>, changes: seq<Change<K, E, M>>,
      merge: (Option<M>, M) -> M, k: K)
    requires OnePerKey(changes)
    ensures !Mentions(changes, k) ==> Look(AllApplied(memory, changes, merge), k) == Look(memory, k)
    ensures forall i :: 0 <= i < |changes| && changes[i].key == k ==>
              Look(AllApplied(memory, changes, merge), k) == Merged(Look(memory, k), changes[i].keep, merge)
  {
    if changes != [] {
      var before, last := changes[..|changes| - 1], changes[|changes| - 1];
      AppliedAt(memory, before, merge, k);
      assert forall i :: 0 <= i < |before| ==> changes[i] == before[i];
      assert before + [last] == changes;
      MentionsConcat(before, [last], k);
      if last.key == k { assert [last][0].key == k; }
    }
  }

  /** After the whole diff is applied, memory holds of each key what its decision keeps,
      and of every other key nothing. */
  lemma DiffAppliedAt<K(!new), O, E, M>(previous: map<K, M>, current: map<K, O>,
                                        decide: (K, Option<M>, Option<O>) -> Change<K, E, M>,
                                        changes: seq<Change<K, E, M>>, merge: (Option<M>, M) -> M, k: K)
    requires IsDiff(previous, current, decide, changes)
    ensures Look(AllApplied(previous, changes, merge), k)
            == if k in previous || k in current
               then Merged(Look(previous, k), decide(k, Look(previous, k), Look(current, k)).keep, merge) else None
  {
    AppliedAt(previous, changes, merge, k);
    if k in previous || k in current {
      assert Mentions(changes, k);
      var i :| 0 <= i < |changes| && changes[i].key == k;
      assert Owed(previous, current, decide, changes[i]);
    } else {
      assert forall i :: 0 <= i < |changes| ==> Owed(previous, current, decide, changes[i]);
      assert !Mentions(changes, k);
    }
  }

  lemma EqualByLookup<K(!new), V>(a: map<K, V>, b: map<K, V>)
    requires forall k :: Look(a, k) == Look(b, k)
    ensures a == b
  {
    forall k
      ensures k in a <==> k in b
      ensures k in a ==> a[k] == b[k]
    {
      assert Look(a, k) == Look(b, k);
    }
  }

  // ---------------------------------------------------------------------------
  // The news
  // ---------------------------------------------------------------------------

  /** An event and the key it is about. */
  datatype News<K, E> = News(key: K, event: E)

  /** Just the news, in decision order: silent updates dropped. */
  function NewsOf<K, E, M>(changes: seq<Change<K, E, M>>): seq<News<K, E>> {
    if changes == [] then []
    else (if changes[0].event.Some? then [News(changes[0].key, changes[0].event.value)] else []) + NewsOf(changes[1..])
  }

  /** The news is the decisions' events, in their order. */
  lemma {:induction false} NewsKeepsOrder<K, E, M>(a: seq<Change<K, E, M>>, b: seq<Change<K, E, M>>)
    ensures NewsOf(a + b) == NewsOf(a) + NewsOf(b)
    ensures forall c: Change<K, E, M> :: NewsOf([c]) == if c.event.Some? then [News(c.key, c.event.value)] else []
    decreases a
  {
    forall c: Change<K, E, M> ensures NewsOf([c]) == if c.event.Some? then [News(c.key, c.event.value)] else [] {
      assert [c][1..] == [];
    }
    if a == [] {
      assert a + b == b;
    } else {
      assert (a + b)[1..] == a[1..] + b;
      NewsKeepsOrder(a[1..], b);
    }
  }

  function About<K(==), E>(news: seq<News<K, E>>, k: K): seq<E> {
    if news == [] then []
    else (if news[0].key == k then [news[0].event] else []) + About(news[1..], k)
  }

  function AsSeq<T>(o: Option<T>): seq<T> { if o.Some? then [o.value] else [] }

  lemma {:induction false} AboutConcat<K, E>(a: seq<News<K, E>>, b: seq<News<K, E>>, k: K)
    ensures About(a + b, k) == About(a, k) + About(b, k)
  {
    if a == [] {
      assert a + b == b;
    } else {
      assert (a + b)[0] == a[0] && (a + b)[1..] == a[1..] + b;
      AboutConcat(a[1..], b, k);
      var first := if a[0].key == k then [a[0].event] else [];
      assert first + (About(a[1..], k) + About(b, k)) == (first + About(a[1..], k)) + About(b, k);
    }
  }

  /** What a diff's news says of one key is exactly that key's own decision. */
  lemma {:induction false} NewsAbout<K(!new), O, E, M>(previous: map<K, M>, current: map<K, O>,
                                                 decide: (K, Option<M>, Option<O>) -> Change<K, E, M>,
                                                 changes: seq<Change<K, E, M>>, k: K)
    requires OnePerKey(changes)
    requires forall i :: 0 <= i < |changes| ==> Owed(previous, current, decide, changes[i])
    ensures About(NewsOf(changes), k)
            == if Mentions(changes, k) then AsSeq(decide(k, Look(previous, k), Look(current, k)).event) else []
  {
    if changes != [] {
      var first, rest := changes[0], changes[1..];
      var news := if first.event.Some? then [News(first.key, first.event.value)] else [];
      assert Owed(previous, current, decide, first);
      NewsAbout(previous, current, decide, rest, k);
      assert changes == [first] + rest;
      MentionsConcat([first], rest, k);
      AboutConcat(news, NewsOf(rest), k);
      if first.key == k {
        assert [first][0].key == k;
        assert forall i :: 0 <= i < |rest| ==> rest[i] == changes[i + 1];
        assert !Mentions(rest, k);
      }
    }
  }
}
