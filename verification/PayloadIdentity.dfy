/** What a transaction token identifies: two payloads have the same canonical text, and so the
    same token, exactly when they are the same payload up to the order of dictionary entries
    and set elements, binary data being spelled as the dictionary that its canonical form is.
    A token stands for the digest of its text, of which 36 digits are kept; that these differ
    for different texts is assumed. */
module PayloadIdentity {
  import opened Canonical
  import opened CanonicalText
  import opened TextOrder

  /** Binary data written out as a dictionary. */
  function Spelled(v: Value): Value {
    match v
    case List(items) => List(seq(|items|, i requires 0 <= i < |items| => Spelled(items[i])))
    case Mapping(entries) =>
      Mapping(seq(|entries|, i requires 0 <= i < |entries| => Entry(entries[i].key, Spelled(entries[i].value))))
    case Binary(base64) => Mapping([Entry("$binary", Str(base64))])
    case _ => v
  }

  ghost predicate NoBinary(v: Value) {
    match v
    case Binary(_) => false
    case List(items) => forall i :: 0 <= i < |items| ==> NoBinary(items[i])
    case Mapping(entries) => forall i :: 0 <= i < |entries| ==> NoBinary(entries[i].value)
    case _ => true
  }

  lemma {:induction false} SpelledHasNoBinary(v: Value)
    ensures NoBinary(Spelled(v))
    ensures WellFormed(v) ==> WellFormed(Spelled(v))
  {
    match v
    case List(items) =>
      forall i | 0 <= i < |items|
        ensures NoBinary(Spelled(items[i])) && (WellFormed(items[i]) ==> WellFormed(Spelled(items[i])))
      {
        SpelledHasNoBinary(items[i]);
      }
    case Mapping(entries) =>
      forall i | 0 <= i < |entries|
        ensures NoBinary(Spelled(entries[i].value))
        ensures WellFormed(entries[i].value) ==> WellFormed(Spelled(entries[i].value))
      {
        SpelledHasNoBinary(entries[i].value);
      }
    case _ =>
  }

  lemma BinaryIsItsOwnForm(base64: string)
    ensures CanonicalForm(Mapping([Entry("$binary", Str(base64))])) == Mapping([Entry("$binary", Str(base64))])
  {
    CanonicalIsIdempotent(Binary(base64));
  }

  lemma {:induction false} SpelledHasTheSameForm(v: Value)
    ensures CanonicalForm(Spelled(v)) == CanonicalForm(v)
  {
    match v
    case List(items) =>
      forall i | 0 <= i < |items| ensures CanonicalForm(Spelled(items[i])) == CanonicalForm(items[i]) {
        SpelledHasTheSameForm(items[i]);
      }
      SameElements(CanonicalForm(Spelled(v)).items, CanonicalForm(v).items);
    case Mapping(entries) =>
      forall i | 0 <= i < |entries|
        ensures CanonicalForm(Spelled(entries[i].value)) == CanonicalForm(entries[i].value)
      {
        SpelledHasTheSameForm(entries[i].value);
      }
      SameElements(Unsorted(Spelled(v)), Unsorted(v));
    case Binary(base64) => BinaryIsItsOwnForm(base64);
    case _ =>
  }

  // ---------------------------------------------------------------- equal forms

  lemma {:induction false} PermutationFor<T>(xs: seq<T>, ys: seq<T>) returns (p: seq<nat>)
    requires multiset(xs) == multiset(ys)
    ensures PermutedBy(xs, ys, p)
    decreases |xs|
  {
    assert |multiset(xs)| == |xs| && |multiset(ys)| == |ys|;
    if xs == [] {
      p := [];
    } else {
      var n := |xs| - 1;
      var x := xs[n];
      assert xs == xs[..n] + [x];
      assert x in multiset(ys);
      var k :| 0 <= k < |ys| && ys[k] == x;
      TakenOut(ys, k);
      assert multiset(xs[..n]) == multiset(xs) - multiset{x};
      var q := PermutationFor(xs[..n], ys[..k] + ys[k + 1..]);
      p := PutBack(xs, ys, k, q);
    }
  }

  /** The permutation of all from the one of all but the last. */
  lemma PutBack<T>(xs: seq<T>, ys: seq<T>, k: nat, q: seq<nat>) returns (p: seq<nat>)
    requires xs != [] && |ys| == |xs| && k < |ys| && ys[k] == xs[|xs| - 1]
    requires PermutedBy(xs[..|xs| - 1], ys[..k] + ys[k + 1..], q)
    ensures PermutedBy(xs, ys, p)
  {
    var n := |xs| - 1;
    p := seq(n, i requires 0 <= i < n => if q[i] < k then q[i] else q[i] + 1) + [k];
    forall i | 0 <= i < n ensures xs[i] == ys[p[i]] {
      assert xs[..n][i] == (ys[..k] + ys[k + 1..])[q[i]];
    }
  }

  lemma SortedAlike<T>(key: T -> string, a: seq<T>, b: seq<T>) returns (p: seq<nat>)
    requires SortBy(key, a) == SortBy(key, b)
    ensures PermutedBy(a, b, p)
  {
    SortSorts(key, a);
    SortSorts(key, b);
    p := PermutationFor(a, b);
  }

  /** Equal canonical forms come from the same value. */
  lemma {:induction false} FormDetermines(v: Value, w: Value)
    requires NoBinary(v) && NoBinary(w) && CanonicalForm(v) == CanonicalForm(w)
    ensures Same(v, w)
    decreases v, 0
  {
    match v
    case List(items) =>
      CanonicalKeepsLists(w);
      forall i | 0 <= i < |items| ensures Same(items[i], w.items[i]) {
        assert CanonicalForm(v).items[i] == CanonicalForm(w).items[i];
        FormDetermines(items[i], w.items[i]);
      }
    case Mapping(entries) =>
      assert w.Mapping?;
      var p := SortedAlike(EntryKey(), Unsorted(v), Unsorted(w));
      forall i | 0 <= i < |entries|
        ensures entries[i].key == w.entries[p[i]].key
        ensures if SetKey(entries[i].key) then SameSet(entries[i].value, w.entries[p[i]].value)
                else Same(entries[i].value, w.entries[p[i]].value)
      {
        assert Unsorted(v)[i] == Unsorted(w)[p[i]];
        EntryFormDetermines(entries[i].key, entries[i].value, w.entries[p[i]].value);
      }
      assert SameEntries(v, w, p);
    case _ =>
  }

  lemma {:induction false} EntryFormDetermines(key: string, v: Value, w: Value)
    requires NoBinary(v) && NoBinary(w)
    requires CanonicalEntry(key, CanonicalForm(v)).value == CanonicalEntry(key, CanonicalForm(w)).value
    ensures if SetKey(key) then SameSet(v, w) else Same(v, w)
    decreases v, 1
  {
    CanonicalKeepsLists(v);
    CanonicalKeepsLists(w);
    if SetKey(key) && v.List? {
      var q := SortedAlike(Texter(), CanonicalForm(v).items, CanonicalForm(w).items);
      forall i | 0 <= i < |v.items| ensures Same(v.items[i], w.items[q[i]]) {
        assert CanonicalForm(v).items[i] == CanonicalForm(w).items[q[i]];
        FormDetermines(v.items[i], w.items[q[i]]);
      }
      assert SameItems(v, w, q);
    } else {
      FormDetermines(v, w);
    }
  }

  // ---------------------------------------------------------------- texts and tokens

  /** The same text, exactly for the same value. */
  lemma SameTextIffSame(v: Value, w: Value)
    requires Printable(v) && Printable(w) && WellFormed(v)
    ensures JsonText(CanonicalForm(v)) == JsonText(CanonicalForm(w)) <==> Same(Spelled(v), Spelled(w))
  {
    SpelledHasNoBinary(v);
    SpelledHasNoBinary(w);
    SpelledHasTheSameForm(v);
    SpelledHasTheSameForm(w);
    if JsonText(CanonicalForm(v)) == JsonText(CanonicalForm(w)) {
      CanonicalTextDetermines(v, w);
      FormDetermines(Spelled(v), Spelled(w));
    }
    if Same(Spelled(v), Spelled(w)) {
      SameText(Spelled(v), Spelled(w));
    }
  }

  /** Binary data and the dictionary it is spelled as are the one pair of different payloads
      that the text does not tell apart. */
  lemma BinaryCollides(base64: string)
    ensures var spelled := Mapping([Entry("$binary", Str(base64))]);
            Binary(base64) != spelled && JsonText(CanonicalForm(Binary(base64))) == JsonText(CanonicalForm(spelled))
  {
    BinaryIsItsOwnForm(base64);
  }

  ghost predicate SameActions(a: seq<Value>, b: seq<Value>) {
    |a| == |b| && forall i :: 0 <= i < |a| ==> Same(Spelled(a[i]), Spelled(b[i]))
  }

  /** Two requests have the same token exactly when they are the same: no two different
      transactions are taken for repetitions of each other, and no repetition for a new one. */
  lemma TokensIdentifyPayloads(namespace: string, table: string, actions: seq<Value>,
                               namespace': string, table': string, actions': seq<Value>)
    requires PayloadToken(namespace, table, actions).Token? && PayloadToken(namespace', table', actions').Token?
    requires forall i :: 0 <= i < |actions| ==> Printable(actions[i]) && WellFormed(actions[i])
    requires forall i :: 0 <= i < |actions'| ==> Printable(actions'[i])
    ensures PayloadToken(namespace, table, actions) == PayloadToken(namespace', table', actions')
            <==> namespace == namespace' && SameActions(actions, actions')
  {
    PayloadIsWellFormed(namespace, actions);
    PayloadIsPrintable(namespace, actions);
    PayloadIsPrintable(namespace', actions');
    SameTextIffSame(Payload(namespace, actions), Payload(namespace', actions'));
    if Same(Spelled(Payload(namespace, actions)), Spelled(Payload(namespace', actions'))) {
      SamePayloadSameActions(namespace, actions, namespace', actions');
    }
    if namespace == namespace' && SameActions(actions, actions') {
      SameActionsSamePayload(namespace, actions, actions');
    }
  }

  lemma PayloadKeysDiffer()
    ensures "namespace" != "TransactItems" && !SetKey("namespace") && !SetKey("TransactItems")
  {
    assert |"namespace"| == 9 && |"TransactItems"| == 13 && |"SS"| == 2 && |"NS"| == 2 && |"BS"| == 2;
  }

  lemma PayloadIsWellFormed(namespace: string, actions: seq<Value>)
    requires forall i :: 0 <= i < |actions| ==> WellFormed(actions[i])
    ensures WellFormed(Payload(namespace, actions))
  {
    PayloadKeysDiffer();
    assert WellFormed(List(actions)) && WellFormed(Str(namespace));
  }

  lemma PayloadIsPrintable(namespace: string, actions: seq<Value>)
    requires forall i :: 0 <= i < |actions| ==> Printable(actions[i])
    ensures Printable(Payload(namespace, actions))
  {
    assert Printable(List(actions)) && Printable(Str(namespace));
  }

  lemma SpelledPayload(namespace: string, actions: seq<Value>)
    ensures Spelled(Payload(namespace, actions)) ==
              Mapping([Entry("namespace", Str(namespace)), Entry("TransactItems", Spelled(List(actions)))])
  {
    var entries := [Entry("namespace", Str(namespace)), Entry("TransactItems", List(actions))];
    var spelled := Spelled(Mapping(entries)).entries;
    assert spelled[0] == Entry("namespace", Spelled(Str(namespace)));
    assert spelled[1] == Entry("TransactItems", Spelled(List(actions)));
    SameElements(spelled, [Entry("namespace", Str(namespace)), Entry("TransactItems", Spelled(List(actions)))]);
  }

  lemma SamePayloadSameActions(namespace: string, actions: seq<Value>, namespace': string, actions': seq<Value>)
    requires Same(Spelled(Payload(namespace, actions)), Spelled(Payload(namespace', actions')))
    ensures namespace == namespace' && SameActions(actions, actions')
  {
    var v, w := Spelled(Payload(namespace, actions)), Spelled(Payload(namespace', actions'));
    SpelledPayload(namespace, actions);
    SpelledPayload(namespace', actions');
    PayloadKeysDiffer();
    var p :| IsPermutation(p, 2) && SameEntries(v, w, p);
    assert v.entries[0].key == w.entries[p[0]].key && v.entries[1].key == w.entries[p[1]].key;
    assert p[0] == 0 && p[1] == 1;
    assert Same(v.entries[0].value, w.entries[0].value) && Same(v.entries[1].value, w.entries[1].value);
    SameListSameActions(actions, actions');
  }

  lemma SameListSameActions(actions: seq<Value>, actions': seq<Value>)
    requires Same(Spelled(List(actions)), Spelled(List(actions')))
    ensures SameActions(actions, actions')
  {
    var a, b := Spelled(List(actions)).items, Spelled(List(actions')).items;
    assert |a| == |b|;
    forall i | 0 <= i < |actions| ensures Same(Spelled(actions[i]), Spelled(actions'[i])) {
      assert Same(a[i], b[i]);
    }
  }

  lemma SameActionsSamePayload(namespace: string, actions: seq<Value>, actions': seq<Value>)
    requires SameActions(actions, actions')
    ensures Same(Spelled(Payload(namespace, actions)), Spelled(Payload(namespace, actions')))
  {
    var v, w := Spelled(Payload(namespace, actions)), Spelled(Payload(namespace, actions'));
    SpelledPayload(namespace, actions);
    SpelledPayload(namespace, actions');
    PayloadKeysDiffer();
    assert Same(Spelled(List(actions)), Spelled(List(actions')));
    assert Same(Str(namespace), Str(namespace));
    var p: seq<nat> := [0, 1];
    assert IsPermutation(p, 2);
    assert v.entries[0].value == Str(namespace) == w.entries[0].value;
    assert SameEntries(v, w, p);
  }
}
