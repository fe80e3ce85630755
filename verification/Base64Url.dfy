/** Unpadded base64url, RFC 4648 sections 4, 5 and 3.2, as the key components of the object
    stores use it.  Identifiers are modelled by the bytes of their UTF-8 encoding. */
module Base64Url {
  import opened Entities

  type Byte = x: int | 0 <= x < 256

  type Bytes = seq<Byte>

  type Sextet = x: int | 0 <= x < 64

  function Letter(i: Sextet): char {
    if i < 26 then (65 + i) as char
    else if i < 52 then (71 + i) as char
    else if i < 62 then (i - 4) as char
    else if i == 62 then '-'
    else '_'
  }

  predicate IsLetter(c: char) {
    'A' <= c <= 'Z' || 'a' <= c <= 'z' || '0' <= c <= '9' || c == '-' || c == '_'
  }

  function SextetOf(c: char): Sextet
    requires IsLetter(c)
  {
    if c == '-' then 62
    else if c == '_' then 63
    else if c <= '9' then c as int + 4
    else if c <= 'Z' then c as int - 65
    else c as int - 71
  }

  lemma LetterRoundTrip(i: Sextet)
    ensures IsLetter(Letter(i)) && SextetOf(Letter(i)) == i
  {
  }

  /** Three bytes in four sextets, and back. */
  function First(x: Byte): Sextet { x / 4 }
  function Second(x: Byte, y: Byte): Sextet { x % 4 * 16 + y / 16 }
  function Third(y: Byte, z: Byte): Sextet { y % 16 * 4 + z / 64 }
  function Fourth(z: Byte): Sextet { z % 64 }

  function High(i: Sextet, j: Sextet): Byte { i * 4 + j / 16 }
  function Middle(j: Sextet, k: Sextet): Byte { j % 16 * 16 + k / 4 }
  function Low(k: Sextet, l: Sextet): Byte { k % 4 * 64 + l }

  /** One or two bytes at the end become two or three sextets, as if zeros followed. */
  function ToSextets(b: Bytes): seq<Sextet> {
    if |b| == 0 then []
    else if |b| == 1 then [First(b[0]), Second(b[0], 0)]
    else if |b| == 2 then [First(b[0]), Second(b[0], b[1]), Third(b[1], 0)]
    else [First(b[0]), Second(b[0], b[1]), Third(b[1], b[2]), Fourth(b[2])] + ToSextets(b[3..])
  }

  /** A single sextet at the end holds no whole byte. */
  function FromSextets(s: seq<Sextet>): Option<Bytes> {
    if |s| == 0 then Some([])
    else if |s| == 1 then None
    else if |s| == 2 then Some([High(s[0], s[1])])
    else if |s| == 3 then Some([High(s[0], s[1]), Middle(s[1], s[2])])
    else
      var rest := FromSextets(s[4..]);
      if rest.None? then None
      else Some([High(s[0], s[1]), Middle(s[1], s[2]), Low(s[2], s[3])] + rest.value)
  }

  function Letters(s: seq<Sextet>): (t: string)
    ensures |t| == |s| && forall i :: 0 <= i < |t| ==> t[i] == Letter(s[i])
  {
    seq(|s|, i requires 0 <= i < |s| => Letter(s[i]))
  }

  predicate AllLetters(t: string) { forall i :: 0 <= i < |t| ==> IsLetter(t[i]) }

  function SextetsOf(t: string): (s: seq<Sextet>)
    requires AllLetters(t)
    ensures |s| == |t| && forall i :: 0 <= i < |s| ==> s[i] == SextetOf(t[i])
  {
    seq(|t|, i requires 0 <= i < |t| => SextetOf(t[i]))
  }

  /** What is missing from n characters to whole groups of four. */
  function Padding(n: nat): string {
    if n % 4 == 0 then "" else if n % 4 == 3 then "=" else if n % 4 == 2 then "==" else "==="
  }

  /** urlsafe_b64encode */
  function EncodePadded(b: Bytes): string {
    Letters(ToSextets(b)) + Padding(|ToSextets(b)|)
  }

  /** rstrip("=") */
  function StripPadding(t: string): string {
    if t != "" && t[|t| - 1] == '=' then StripPadding(t[..|t| - 1]) else t
  }

  /** urlsafe_b64decode of groups of four characters, the last of which may be padded. */
  function DecodePadded(t: string): Option<Bytes> {
    var core := StripPadding(t);
    if |t| % 4 != 0 || |t| - |core| > 2 || !AllLetters(core) then None else FromSextets(SextetsOf(core))
  }

  /** _component: an empty identifier is refused. */
  function Component(value: Bytes): Option<string> {
    if value == [] then None else Some(StripPadding(EncodePadded(value)))
  }

  /** _decode_component */
  function DecodeComponent(s: string): Option<Bytes> {
    DecodePadded(s + Padding(|s|))
  }

  lemma HighHalf(x: Byte, y: Byte)
    ensures High(First(x), Second(x, y)) == x
  {
  }

  lemma Divided(x: Byte, y: Byte, z: Byte)
    ensures High(First(x), Second(x, y)) == x
    ensures Middle(Second(x, y), Third(y, z)) == y
    ensures Low(Third(y, z), Fourth(z)) == z
  {
  }

  lemma {:induction false} SextetRoundTrip(b: Bytes)
    ensures FromSextets(ToSextets(b)) == Some(b)
  {
    if |b| == 1 {
      OneRoundTrip(b);
    } else if |b| == 2 {
      TwoRoundTrip(b);
    } else if |b| > 2 {
      SextetRoundTrip(b[3..]);
      GroupRoundTrip(b, b[3..]);
    }
  }

  lemma {:induction false} NeverOneSextet(b: Bytes)
    ensures |ToSextets(b)| % 4 != 1
  {
    if |b| > 2 {
      NeverOneSextet(b[3..]);
    }
  }

  lemma OneRoundTrip(b: Bytes)
    requires |b| == 1
    ensures FromSextets(ToSextets(b)) == Some(b)
  {
    HighHalf(b[0], 0);
    var s := ToSextets(b);
    assert s[0] == First(b[0]) && s[1] == Second(b[0], 0);
    FromTwo(s, b);
  }

  lemma TwoRoundTrip(b: Bytes)
    requires |b| == 2
    ensures FromSextets(ToSextets(b)) == Some(b)
  {
    Divided(b[0], b[1], 0);
    var s := ToSextets(b);
    assert s[0] == First(b[0]) && s[1] == Second(b[0], b[1]) && s[2] == Third(b[1], 0);
    FromThree(s, b);
  }

  lemma FromTwo(s: seq<Sextet>, b: Bytes)
    requires |s| == 2 && |b| == 1 && b[0] == High(s[0], s[1])
    ensures FromSextets(s) == Some(b)
  {
    assert [High(s[0], s[1])] == b;
  }

  lemma FromThree(s: seq<Sextet>, b: Bytes)
    requires |s| == 3 && |b| == 2 && b[0] == High(s[0], s[1]) && b[1] == Middle(s[1], s[2])
    ensures FromSextets(s) == Some(b)
  {
    assert [High(s[0], s[1]), Middle(s[1], s[2])] == b;
  }

  lemma GroupRoundTrip(b: Bytes, tail: Bytes)
    requires |b| > 2 && tail == b[3..] && FromSextets(ToSextets(tail)) == Some(tail)
    ensures FromSextets(ToSextets(b)) == Some(b)
  {
    var x, y, z := b[0], b[1], b[2];
    var i, j, k, l := First(x), Second(x, y), Third(y, z), Fourth(z);
    Divided(x, y, z);
    FromGroup(i, j, k, l, ToSextets(tail));
    assert ToSextets(b) == [i, j, k, l] + ToSextets(tail);
    assert [High(i, j), Middle(j, k), Low(k, l)] + tail == b;
  }

  lemma FromGroup(i: Sextet, j: Sextet, k: Sextet, l: Sextet, rest: seq<Sextet>)
    requires FromSextets(rest).Some?
    ensures FromSextets([i, j, k, l] + rest) == Some([High(i, j), Middle(j, k), Low(k, l)] + FromSextets(rest).value)
  {
    assert ([i, j, k, l] + rest)[4..] == rest;
  }

  lemma LettersAreLetters(s: seq<Sextet>)
    ensures AllLetters(Letters(s)) && SextetsOf(Letters(s)) == s
  {
    forall i | 0 <= i < |s| ensures IsLetter(Letters(s)[i]) && SextetOf(Letters(s)[i]) == s[i] {
      LetterRoundTrip(s[i]);
    }
  }

  /** Up to two pad characters are stripped from letters, and nothing else. */
  lemma StripLetters(t: string, pads: string)
    requires AllLetters(t) && (pads == "" || pads == "=" || pads == "==")
    ensures StripPadding(t + pads) == t
  {
    assert t != "" ==> IsLetter(t[|t| - 1]);
    assert StripPadding(t) == t;
    if pads == "" {
      assert t + pads == t;
    } else {
      assert (t + "=")[..|t + "="| - 1] == t;
      assert StripPadding(t + "=") == t;
      if pads == "==" {
        assert (t + "==")[..|t + "=="| - 1] == t + "=";
      }
    }
  }

  lemma PaddingFills(n: nat)
    requires n % 4 != 1
    ensures |Padding(n)| <= 2 && (n + |Padding(n)|) % 4 == 0
    ensures Padding(n) == "" || Padding(n) == "=" || Padding(n) == "=="
  {
  }

  /** Letters with the padding they lack decode to what their sextets stand for. */
  lemma DecodeLetters(s: seq<Sextet>, letters: string, pads: string)
    requires |s| % 4 != 1 && letters == Letters(s) && pads == Padding(|s|)
    ensures StripPadding(letters + pads) == letters
    ensures DecodePadded(letters + pads) == FromSextets(s)
  {
    LettersAreLetters(s);
    PaddingFills(|s|);
    StripLetters(letters, pads);
    assert SextetsOf(letters) == s;
  }

  /** What a component is: the letters alone, from which the padding can be told. */
  lemma ComponentIsLetters(value: Bytes)
    ensures StripPadding(EncodePadded(value)) == Letters(ToSextets(value))
    ensures DecodePadded(EncodePadded(value)) == Some(value)
  {
    SextetRoundTrip(value);
    NeverOneSextet(value);
    DecodeLetters(ToSextets(value), Letters(ToSextets(value)), Padding(|ToSextets(value)|));
  }

  /** Components round-trip, and no component holds a separator. */
  lemma ComponentRoundTrip(value: Bytes)
    requires value != []
    ensures Component(value).Some? && DecodeComponent(Component(value).value) == Some(value)
    ensures Component(value).value != "" && AllLetters(Component(value).value)
    ensures '/' !in Component(value).value && '.' !in Component(value).value
  {
    ComponentIsLetters(value);
    LettersAreLetters(ToSextets(value));
    LettersAreNotSeparators(Letters(ToSextets(value)));
  }

  lemma LettersAreNotSeparators(s: string)
    requires AllLetters(s)
    ensures '/' !in s && '.' !in s
  {
  }

  lemma ComponentInjective(a: Bytes, b: Bytes)
    requires Component(a).Some? && Component(a) == Component(b)
    ensures a == b
  {
    ComponentRoundTrip(a);
    ComponentRoundTrip(b);
  }
}
