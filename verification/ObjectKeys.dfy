/** Object keys: a fixed prefix and "/"-joined components; and the vector keys, joined by ".". */
module ObjectKeys {
  import opened Base64Url
  import opened Decimals
  import opened Entities

  predicate NonEmpty(parts: seq<Bytes>) { forall i :: 0 <= i < |parts| ==> parts[i] != [] }

  function Encoded(part: Bytes): string
    requires part != []
  {
    Component(part).value
  }

  function Joined(sep: char, parts: seq<Bytes>): string
    requires NonEmpty(parts)
  {
    if parts == [] then ""
    else if |parts| == 1 then Encoded(parts[0])
    else Encoded(parts[0]) + [sep] + Joined(sep, parts[1..])
  }

  /** S3JsonStore.key: an empty part is refused. */
  function Key(prefix: string, parts: seq<Bytes>): Option<string> {
    if !NonEmpty(parts) then None
    else Some(if prefix != "" then prefix + "/" + Joined('/', parts) else Joined('/', parts))
  }

  predicate Separator(sep: char) { !IsLetter(sep) }

  lemma EncodedHasNoSeparator(sep: char, part: Bytes)
    requires Separator(sep) && part != []
    ensures sep !in Encoded(part) && Encoded(part) != ""
  {
    ComponentRoundTrip(part);
  }

  lemma SeparatorInside(sep: char, a: string, b: string, x: string)
    requires sep !in a
    ensures a != b + [sep] + x
  {
    assert (b + [sep] + x)[|b|] == sep;
  }

  lemma Regroup(sep: char, a: string, b: string, c: string)
    ensures a + [sep] + (b + [sep] + c) == (a + [sep] + b) + [sep] + c
  {
  }

  /** The last component of a joined key, found at its last separator. */
  lemma {:induction false} SplitLast(sep: char, parts: seq<Bytes>)
    requires Separator(sep) && NonEmpty(parts) && |parts| > 1
    ensures NonEmpty(parts[..|parts| - 1])
    ensures Joined(sep, parts) == Joined(sep, parts[..|parts| - 1]) + [sep] + Encoded(parts[|parts| - 1])
  {
    var front := parts[..|parts| - 1];
    if |parts| > 2 {
      SplitLast(sep, parts[1..]);
      assert parts[1..][..|parts| - 2] == front[1..];
      assert Joined(sep, front) == Encoded(parts[0]) + [sep] + Joined(sep, front[1..]);
      Regroup(sep, Encoded(parts[0]), Joined(sep, front[1..]), Encoded(parts[|parts| - 1]));
    } else {
      assert front == [parts[0]] && parts[1..] == [parts[1]];
      assert Joined(sep, front) == Encoded(parts[0]) && Joined(sep, parts[1..]) == Encoded(parts[1]);
    }
  }

  /** A joined key that begins with another one and a separator has its parts and more. */
  lemma {:induction false} PrefixExactly(sep: char, base: seq<Bytes>, parts: seq<Bytes>, tail: string)
    returns (suffix: seq<Bytes>)
    requires Separator(sep) && NonEmpty(base) && NonEmpty(parts) && base != [] && parts != []
    requires Joined(sep, parts) == Joined(sep, base) + [sep] + tail
    ensures suffix != [] && NonEmpty(suffix) && parts == base + suffix && tail == Joined(sep, suffix)
  {
    var x := if |base| == 1 then tail else Joined(sep, base[1..]) + [sep] + tail;
    JoinedHead(sep, base, tail, x);
    SameHead(sep, base[0], parts, x);
    HeadAndRest(parts);
    HeadAndRest(base);
    if |base| == 1 {
      suffix := parts[1..];
    } else {
      suffix := PrefixExactly(sep, base[1..], parts[1..], tail);
      Consed(base[0], base[1..], suffix);
    }
  }

  lemma HeadAndRest(parts: seq<Bytes>)
    requires parts != []
    ensures parts == [parts[0]] + parts[1..]
  {
  }

  lemma Consed(head: Bytes, a: seq<Bytes>, b: seq<Bytes>)
    ensures [head] + (a + b) == ([head] + a) + b
  {
  }

  lemma JoinedHead(sep: char, base: seq<Bytes>, tail: string, x: string)
    requires NonEmpty(base) && base != []
    requires x == if |base| == 1 then tail else Joined(sep, base[1..]) + [sep] + tail
    ensures Joined(sep, base) + [sep] + tail == Encoded(base[0]) + [sep] + x
  {
    if |base| > 1 {
      Regroup(sep, Encoded(base[0]), Joined(sep, base[1..]), tail);
    }
  }

  lemma SameHead(sep: char, head: Bytes, parts: seq<Bytes>, x: string)
    requires Separator(sep) && head != [] && NonEmpty(parts) && parts != []
    requires Joined(sep, parts) == Encoded(head) + [sep] + x
    ensures |parts| > 1 && parts[0] == head && Joined(sep, parts[1..]) == x
  {
    EncodedHasNoSeparator(sep, parts[0]);
    EncodedHasNoSeparator(sep, head);
    if |parts| == 1 {
      SeparatorInside(sep, Encoded(parts[0]), Encoded(head), x);
    } else {
      CutAtFirst(sep, Encoded(parts[0]), Joined(sep, parts[1..]), Encoded(head), x);
      ComponentInjective(parts[0], head);
    }
  }

  lemma {:induction false} JoinedInjective(sep: char, a: seq<Bytes>, b: seq<Bytes>)
    requires Separator(sep) && NonEmpty(a) && NonEmpty(b)
    requires Joined(sep, a) == Joined(sep, b)
    ensures a == b
  {
    if a != [] {
      EncodedHasNoSeparator(sep, a[0]);
    }
    if b != [] {
      EncodedHasNoSeparator(sep, b[0]);
    }
    if a != [] && b != [] {
      if |a| > 1 && |b| > 1 {
        CutAtFirst(sep, Encoded(a[0]), Joined(sep, a[1..]), Encoded(b[0]), Joined(sep, b[1..]));
        JoinedInjective(sep, a[1..], b[1..]);
        ComponentInjective(a[0], b[0]);
      } else if |a| == 1 && |b| == 1 {
        ComponentInjective(a[0], b[0]);
      }
    }
  }

  /** Keys of one store determine their parts, whatever the arity. */
  lemma KeyInjective(prefix: string, a: seq<Bytes>, b: seq<Bytes>)
    requires Key(prefix, a).Some? && Key(prefix, a) == Key(prefix, b)
    ensures a == b
  {
    if prefix != "" {
      assert (prefix + "/" + Joined('/', a))[|prefix| + 1..] == Joined('/', a);
      assert (prefix + "/" + Joined('/', b))[|prefix| + 1..] == Joined('/', b);
    }
    JoinedInjective('/', a, b);
  }

  // ---------------------------------------------------------------- listing

  predicate StartsWith(s: string, prefix: string) { |prefix| <= |s| && s[..|prefix|] == prefix }

  /** key.rsplit("/", 1)[-1] */
  function LastSegment(s: string): string {
    if s == "" || s[|s| - 1] == '/' then "" else LastSegment(s[..|s| - 1]) + [s[|s| - 1]]
  }

  lemma {:induction false} LastSegmentAfterSlash(front: string, last: string)
    requires '/' !in last
    ensures LastSegment(front + "/" + last) == last
  {
    var s := front + "/" + last;
    if last == "" {
      assert s[|s| - 1] == '/';
    } else {
      LastSegmentAfterSlash(front, last[..|last| - 1]);
      assert s[..|s| - 1] == front + "/" + last[..|last| - 1];
      assert last == last[..|last| - 1] + [last[|last| - 1]];
    }
  }

  lemma {:induction false} LastSegmentAlone(last: string)
    requires '/' !in last
    ensures LastSegment(last) == last
  {
    if last != "" {
      LastSegmentAlone(last[..|last| - 1]);
      assert last == last[..|last| - 1] + [last[|last| - 1]];
    }
  }

  /** The last segment of a key decodes to its last part. */
  lemma LastPartIsRecovered(prefix: string, parts: seq<Bytes>)
    requires parts != [] && NonEmpty(parts)
    ensures DecodeComponent(LastSegment(Key(prefix, parts).value)) == Some(parts[|parts| - 1])
  {
    var last := parts[|parts| - 1];
    EncodedHasNoSeparator('/', last);
    ComponentRoundTrip(last);
    var key := Key(prefix, parts).value;
    if |parts| > 1 {
      SplitLast('/', parts);
      var front := Joined('/', parts[..|parts| - 1]);
      var before := if prefix != "" then prefix + "/" + front else front;
      assert key == before + "/" + Encoded(last);
      LastSegmentAfterSlash(before, Encoded(last));
    } else if prefix != "" {
      LastSegmentAfterSlash(prefix, Encoded(last));
    } else {
      LastSegmentAlone(Encoded(last));
    }
  }

  /** A listing under the key of base and a slash shows exactly the keys that extend base. */
  lemma ListedExactly(prefix: string, base: seq<Bytes>, parts: seq<Bytes>)
    requires NonEmpty(base) && NonEmpty(parts) && base != [] && parts != []
    ensures StartsWith(Key(prefix, parts).value, Key(prefix, base).value + "/")
            <==> |base| < |parts| && parts[..|base|] == base
  {
    var lead := if prefix != "" then prefix + "/" else "";
    var j, jb := Joined('/', parts), Joined('/', base);
    CommonLead(lead, j, jb + "/");
    assert Key(prefix, parts).value == lead + j;
    assert Key(prefix, base).value + "/" == lead + (jb + "/");
    if StartsWith(j, jb + "/") {
      assert j == jb + "/" + j[|jb| + 1..];
      var suffix := PrefixExactly('/', base, parts, j[|jb| + 1..]);
      assert (base + suffix)[..|base|] == base;
    }
    if |base| < |parts| && parts[..|base|] == base {
      JoinedExtends(base, parts);
    }
  }

  lemma CommonLead(lead: string, s: string, p: string)
    ensures StartsWith(lead + s, lead + p) <==> StartsWith(s, p)
  {
    if |p| <= |s| {
      assert (lead + s)[..|lead + p|] == lead + s[..|p|];
      assert (lead + s[..|p|])[|lead|..] == s[..|p|] && (lead + p)[|lead|..] == p;
    }
  }

  lemma {:induction false} JoinedExtends(base: seq<Bytes>, parts: seq<Bytes>)
    requires NonEmpty(base) && NonEmpty(parts) && base != []
    requires |base| < |parts| && parts[..|base|] == base
    ensures NonEmpty(parts[|base|..])
    ensures Joined('/', parts) == Joined('/', base) + "/" + Joined('/', parts[|base|..])
  {
    assert parts[0] == base[0];
    if |base| > 1 {
      assert parts[1..][..|base| - 1] == base[1..];
      assert parts[1..][|base| - 1..] == parts[|base|..];
      JoinedExtends(base[1..], parts[1..]);
    } else {
      assert parts[1..] == parts[|base|..];
    }
  }

  /** The object is listed under the document's prefix, and its last segment decodes to generation. */
  predicate Shown(prefix: string, kind: Bytes, tenant: Bytes, document: Bytes, generation: Bytes, parts: seq<Bytes>)
    requires kind != [] && tenant != [] && document != [] && NonEmpty(parts)
  {
    && StartsWith(Key(prefix, parts).value, Key(prefix, [kind, tenant, document]).value + "/")
    && DecodeComponent(LastSegment(Key(prefix, parts).value)) == Some(generation)
  }

  lemma ShownExactly(prefix: string, kind: Bytes, tenant: Bytes, document: Bytes, generation: Bytes, parts: seq<Bytes>)
    requires kind != [] && tenant != [] && document != [] && NonEmpty(parts) && parts != []
    requires parts[0] == kind ==> |parts| == 4
    ensures Shown(prefix, kind, tenant, document, generation, parts) <==> parts == [kind, tenant, document, generation]
  {
    var base := [kind, tenant, document];
    ListedExactly(prefix, base, parts);
    LastPartIsRecovered(prefix, parts);
    if 3 < |parts| && parts[..3] == base {
      assert parts[0] == parts[..3][0] && parts[1] == parts[..3][1] && parts[2] == parts[..3][2];
    }
    if parts == [kind, tenant, document, generation] {
      assert parts[..3] == base;
    }
  }

  /** list_document_generations and delete_document: in a bucket whose keys are built by Key,
      the manifests listed for one tenant and document decode to exactly the generations
      recorded for them; no other object of the bucket shows up. */
  lemma ListingDecodesToRecordedGenerations(prefix: string, bucket: set<seq<Bytes>>, kind: Bytes, tenant: Bytes,
                                            document: Bytes, generation: Bytes)
    requires forall parts :: parts in bucket ==> parts != [] && NonEmpty(parts)
    requires forall parts :: parts in bucket && parts[0] == kind ==> |parts| == 4
    requires kind != [] && tenant != [] && document != []
    ensures (exists parts :: parts in bucket && Shown(prefix, kind, tenant, document, generation, parts))
            <==> [kind, tenant, document, generation] in bucket
  {
    if parts :| parts in bucket && Shown(prefix, kind, tenant, document, generation, parts) {
      ShownExactly(prefix, kind, tenant, document, generation, parts);
    }
    if [kind, tenant, document, generation] in bucket {
      ShownExactly(prefix, kind, tenant, document, generation, [kind, tenant, document, generation]);
    }
  }

  /** _vector_key without its length check: distinct vectors have distinct keys. */
  function VectorKey(version: Bytes, tenant: Bytes, document: Bytes, generation: Bytes, chunk: Bytes): string
    requires NonEmpty([version, tenant, document, generation, chunk])
  {
    Joined('.', [version, tenant, document, generation, chunk])
  }

  lemma VectorKeyInjective(v: Bytes, t: Bytes, d: Bytes, g: Bytes, c: Bytes, t': Bytes, d': Bytes, g': Bytes, c': Bytes)
    requires NonEmpty([v, t, d, g, c]) && NonEmpty([v, t', d', g', c'])
    requires VectorKey(v, t, d, g, c) == VectorKey(v, t', d', g', c')
    ensures t == t' && d == d' && g == g' && c == c'
  {
    var a, b := [v, t, d, g, c], [v, t', d', g', c'];
    JoinedInjective('.', a, b);
    assert a[1] == b[1] && a[2] == b[2] && a[3] == b[3] && a[4] == b[4];
  }
}
