/** The composite keys of the control table: every part is preceded by its length. */
module CompositeKeys {
  import opened Decimals
  import opened Entities

  function Concatenated(parts: seq<string>): string {
    if parts == [] then "" else Decimal(|parts[0]|) + ":" + parts[0] + Concatenated(parts[1..])
  }

  /** _composite_key: no parts, or an empty one, are refused. */
  function CompositeKey(parts: seq<string>): Option<string> {
    if parts == [] || (exists i :: 0 <= i < |parts| && parts[i] == "") then None else Some(Concatenated(parts))
  }

  function IndexOfColon(s: string): (i: nat)
    ensures i <= |s| && ':' !in s[..i] && (i < |s| ==> s[i] == ':')
  {
    if s == "" || s[0] == ':' then 0 else
      assert forall k :: 1 <= k <= IndexOfColon(s[1..]) ==> s[k] == s[1..][k - 1];
      assert s[..IndexOfColon(s[1..]) + 1] == [s[0]] + s[1..][..IndexOfColon(s[1..])];
      IndexOfColon(s[1..]) + 1
  }

  /** Reads the parts back: the inverse that no program needs, and that shows the encoding unique. */
  function Decode(s: string): Option<seq<string>>
    decreases |s|
  {
    if s == "" then Some([])
    else
      var colon := IndexOfColon(s);
      if colon == |s| || !AllDigits(s[..colon]) then None
      else
        var end := colon + 1 + ValueOf(s[..colon]);
        if end > |s| then None
        else
          var rest := Decode(s[end..]);
          if rest.None? then None else Some([s[colon + 1..end]] + rest.value)
  }

  lemma ColonAfterDigits(digits: string, rest: string)
    requires AllDigits(digits)
    ensures IndexOfColon(digits + ":" + rest) == |digits|
  {
    var s := digits + ":" + rest;
    assert s[|digits|] == ':';
    var i := IndexOfColon(s);
    assert forall k :: 0 <= k < |digits| ==> s[k] == digits[k] && s[k] != ':';
    assert forall k :: 0 <= k < i ==> s[k] == s[..i][k];
  }

  /** Every part list, of any arity, is read back from its concatenation. */
  lemma {:induction false} CompositeRoundTrip(parts: seq<string>)
    ensures Decode(Concatenated(parts)) == Some(parts)
  {
    if parts != [] {
      CompositeRoundTrip(parts[1..]);
      DecodeOne(parts[0], Concatenated(parts[1..]));
      assert parts == [parts[0]] + parts[1..];
    }
  }

  lemma DecodeOne(part: string, rest: string)
    requires Decode(rest).Some?
    ensures Decode(Decimal(|part|) + ":" + part + rest) == Some([part] + Decode(rest).value)
  {
    var digits := Decimal(|part|);
    var s := digits + ":" + part + rest;
    assert s == digits + ":" + (part + rest);
    ColonAfterDigits(digits, part + rest);
    DecimalRoundTrip(|part|);
    assert s[..|digits|] == digits;
    assert s[|digits| + 1..|digits| + 1 + |part|] == part;
    assert s[|digits| + 1 + |part|..] == rest;
  }

  lemma CompositeInjective(a: seq<string>, b: seq<string>)
    requires CompositeKey(a).Some? && CompositeKey(a) == CompositeKey(b)
    ensures a == b
  {
    CompositeRoundTrip(a);
    CompositeRoundTrip(b);
  }

  /** The five kinds of item in the control table. */
  datatype ItemKey =
    | DocumentItem(tenant: string, document: string)
    | JobItem(tenant: string, job: string)
    | FingerprintItem(tenant: string, fingerprint: string)
    | LeaseItem(tenant: string, document: string, sourceVersion: string)
    | GenerationItem(tenant: string, document: string, generation: string)

  function SortParts(k: ItemKey): seq<string> {
    match k
    case DocumentItem(_, document) => ["DOCUMENT", document]
    case JobItem(_, job) => ["JOB", job]
    case FingerprintItem(_, fingerprint) => ["FINGERPRINT", fingerprint]
    case LeaseItem(_, document, sourceVersion) => ["LEASE", document, sourceVersion]
    case GenerationItem(_, document, generation) => ["GENERATION", document, generation]
  }

  /** Partition key and sort key. */
  function PrimaryKey(k: ItemKey): (Option<string>, Option<string>) {
    (CompositeKey(["TENANT", k.tenant]), CompositeKey(SortParts(k)))
  }

  lemma KindsDiffer()
    ensures "DOCUMENT" != "JOB" && "DOCUMENT" != "FINGERPRINT" && "JOB" != "FINGERPRINT" && "LEASE" != "GENERATION"
  {
    assert |"DOCUMENT"| == 8 && |"JOB"| == 3 && |"FINGERPRINT"| == 11 && |"LEASE"| == 5 && |"GENERATION"| == 10;
  }

  /** Distinct items never share a primary key: the control table may be read as five maps. */
  lemma DistinctItemsHaveDistinctKeys(a: ItemKey, b: ItemKey)
    requires PrimaryKey(a).0.Some? && PrimaryKey(a).1.Some? && PrimaryKey(a) == PrimaryKey(b)
    ensures a == b
  {
    CompositeInjective(["TENANT", a.tenant], ["TENANT", b.tenant]);
    assert ["TENANT", a.tenant][1] == ["TENANT", b.tenant][1];
    var x, y := SortParts(a), SortParts(b);
    CompositeInjective(x, y);
    KindsDiffer();
    assert x[0] == y[0] && x[1] == y[1] && |x| == |y| && (|x| == 3 ==> x[2] == y[2]);
  }
}
