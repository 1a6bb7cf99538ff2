/**
  The compatibility manifest of a session: the template bindings a session may use, kept sorted by
  template, together with the digest of one canonical byte encoding.

  Template identifiers are 128-bit numbers, whose order is the order of their 16 big-endian bytes.
  The digest is a parameter.
*/
module Manifest {
  import opened Wrappers

  newtype Byte = b: int | 0 <= b < 256

  const MAX_SESSION_TEMPLATES := 128
  const ID_BYTES := 16
  const LENGTH_BYTES := 8

  type TemplateId = n: nat | n < 0x1_0000_0000_0000_0000_0000_0000_0000_0000

  // A 32-byte compatibility identity.
  type Identity = s: seq<Byte> | |s| == 32 witness seq(32, _ => 0)

  datatype Binding = Binding(templateId: TemplateId, compatibility: Identity)

  datatype Manifest = Manifest(configuration: Identity, templates: seq<Binding>, compatibility: Identity)

  datatype Error = InvalidCompatibilityManifest

  // ---------------------------------------------------------------------------------------------
  // Sorting
  // ---------------------------------------------------------------------------------------------

  predicate Ordered(ts: seq<Binding>) {
    forall i, j :: 0 <= i < j < |ts| ==> ts[i].templateId <= ts[j].templateId
  }

  predicate StrictlyOrdered(ts: seq<Binding>) {
    forall i, j :: 0 <= i < j < |ts| ==> ts[i].templateId < ts[j].templateId
  }

  predicate DistinctIds(ts: seq<Binding>) {
    forall i, j :: 0 <= i < j < |ts| ==> ts[i].templateId != ts[j].templateId
  }

  function Insert(b: Binding, ts: seq<Binding>): seq<Binding> {
    if ts == [] || b.templateId <= ts[0].templateId then [b] + ts else [ts[0]] + Insert(b, ts[1..])
  }

  function SortById(ts: seq<Binding>): seq<Binding> {
    if ts == [] then [] else Insert(ts[0], SortById(ts[1..]))
  }

  lemma {:induction false} InsertAdds(b: Binding, ts: seq<Binding>)
    ensures multiset(Insert(b, ts)) == multiset{b} + multiset(ts)
  {
    if ts != [] && b.templateId > ts[0].templateId {
      InsertAdds(b, ts[1..]);
      assert ts == [ts[0]] + ts[1..];
    }
  }

  lemma {:induction false} InsertHolds(b: Binding, ts: seq<Binding>, i: nat)
    requires i < |Insert(b, ts)|
    ensures Insert(b, ts)[i] == b || Insert(b, ts)[i] in ts
  {
    if ts != [] && b.templateId > ts[0].templateId && i > 0 {
      InsertHolds(b, ts[1..], i - 1);
    }
  }

  lemma {:induction false} InsertSorts(b: Binding, ts: seq<Binding>)
    requires Ordered(ts)
    ensures Ordered(Insert(b, ts))
  {
    if ts != [] && b.templateId > ts[0].templateId {
      var rest := Insert(b, ts[1..]);
      InsertSorts(b, ts[1..]);
      forall j | 0 <= j < |rest| ensures ts[0].templateId <= rest[j].templateId {
        InsertHolds(b, ts[1..], j);
      }
    }
  }

  lemma {:induction false} SortSorts(ts: seq<Binding>)
    ensures Ordered(SortById(ts))
    ensures multiset(SortById(ts)) == multiset(ts)
  {
    if ts == [] {
    } else {
      SortSorts(ts[1..]);
      InsertSorts(ts[0], SortById(ts[1..]));
      InsertAdds(ts[0], SortById(ts[1..]));
      assert ts == [ts[0]] + ts[1..];
    }
  }

  /** Two bindings of one template, wherever they stand. */
  ghost predicate Repeats(m: multiset<Binding>) {
    exists x, y :: multiset{x, y} <= m && x.templateId == y.templateId
  }

  lemma {:induction false} TwiceHasPositions(ts: seq<Binding>, x: Binding)
    requires multiset(ts)[x] >= 2
    ensures !DistinctIds(ts)
  {
    var tail := ts[1..];
    assert ts == [ts[0]] + tail;
    assert multiset(ts) == multiset{ts[0]} + multiset(tail);
    if ts[0] == x {
      assert x in tail;
      var j :| 0 <= j < |tail| && tail[j] == x;
      assert ts[0].templateId == ts[j + 1].templateId;
    } else {
      TwiceHasPositions(tail, x);
      var i, j :| 0 <= i < j < |tail| && tail[i].templateId == tail[j].templateId;
      assert ts[i + 1].templateId == ts[j + 1].templateId;
    }
  }

  lemma PairHasPositions(ts: seq<Binding>, x: Binding, y: Binding)
    requires multiset{x, y} <= multiset(ts) && x.templateId == y.templateId
    ensures !DistinctIds(ts)
  {
    if x == y {
      assert multiset{x, y}[x] == 2;
      TwiceHasPositions(ts, x);
    } else {
      assert x in multiset{x, y} && y in multiset{x, y};
      assert x in ts && y in ts;
    }
  }

  lemma PositionsArePair(ts: seq<Binding>, i: nat, j: nat)
    requires i < j < |ts|
    ensures multiset{ts[i], ts[j]} <= multiset(ts)
  {
    var left, right := ts[..j], ts[j..];
    assert ts == left + right;
    assert ts[i] == left[i] && ts[j] == right[0];
    assert ts[i] in multiset(left) && ts[j] in multiset(right);
  }

  lemma DistinctMeansNoRepeats(ts: seq<Binding>)
    ensures DistinctIds(ts) <==> !Repeats(multiset(ts))
  {
    if !DistinctIds(ts) {
      var i, j :| 0 <= i < j < |ts| && ts[i].templateId == ts[j].templateId;
      PositionsArePair(ts, i, j);
    }
    if Repeats(multiset(ts)) {
      var x, y :| multiset{x, y} <= multiset(ts) && x.templateId == y.templateId;
      PairHasPositions(ts, x, y);
    }
  }

  lemma PermutationKeepsDistinct(a: seq<Binding>, b: seq<Binding>)
    requires multiset(a) == multiset(b)
    ensures DistinctIds(a) <==> DistinctIds(b)
  {
    DistinctMeansNoRepeats(a);
    DistinctMeansNoRepeats(b);
  }

  lemma AllIn(a: seq<Binding>, b: seq<Binding>)
    requires multiset(a) == multiset(b)
    ensures |a| == |b| && SameElements(a, b)
  {
    assert |multiset(a)| == |a| && |multiset(b)| == |b|;
    forall x ensures x in a <==> x in b {
      assert x in a <==> x in multiset(a);
      assert x in b <==> x in multiset(b);
    }
  }

  ghost predicate SameElements(a: seq<Binding>, b: seq<Binding>) {
    forall x :: x in a <==> x in b
  }

  lemma EmptyTogether(a: seq<Binding>, b: seq<Binding>)
    requires SameElements(a, b)
    ensures a == [] <==> b == []
  {
    if a != [] {
      assert a[0] in a;
    }
    if b != [] {
      assert b[0] in b;
    }
  }

  lemma FirstIsLeast(a: seq<Binding>, b: seq<Binding>)
    requires StrictlyOrdered(a) && StrictlyOrdered(b) && SameElements(a, b) && a != [] && b != []
    ensures a[0] == b[0]
  {
    assert a[0] in b && b[0] in a;
  }

  lemma TailsShareElements(a: seq<Binding>, b: seq<Binding>)
    requires StrictlyOrdered(a) && StrictlyOrdered(b) && SameElements(a, b)
    requires a != [] && b != [] && a[0] == b[0]
    ensures SameElements(a[1..], b[1..])
  {
    forall x ensures x in a[1..] <==> x in b[1..] {
      assert x in a[1..] <==> x in a && x != a[0];
      assert x in b[1..] <==> x in b && x != b[0];
    }
  }

  /** There is one strictly ordered arrangement of a set of bindings. */
  lemma {:induction false} StrictOrderIsUnique(a: seq<Binding>, b: seq<Binding>)
    requires StrictlyOrdered(a) && StrictlyOrdered(b) && SameElements(a, b)
    ensures a == b
  {
    EmptyTogether(a, b);
    if a == [] {
    } else {
      FirstIsLeast(a, b);
      TailsShareElements(a, b);
      StrictOrderIsUnique(a[1..], b[1..]);
      assert a == [a[0]] + a[1..] && b == [b[0]] + b[1..];
    }
  }

  // ---------------------------------------------------------------------------------------------
  // Encoding
  // ---------------------------------------------------------------------------------------------

  function BigEndian(v: nat, width: nat): (s: seq<Byte>)
    ensures |s| == width
  {
    if width == 0 then [] else BigEndian(v / 256, width - 1) + [(v % 256) as Byte]
  }

  function Pow256(n: nat): nat {
    if n == 0 then 1 else 256 * Pow256(n - 1)
  }

  lemma {:induction false} BigEndianIsInjective(v: nat, w: nat, width: nat)
    requires v < Pow256(width) && w < Pow256(width)
    requires BigEndian(v, width) == BigEndian(w, width)
    ensures v == w
  {
    if width == 0 {
    } else {
      var a, b := BigEndian(v, width), BigEndian(w, width);
      assert a[width - 1] == b[width - 1];
      assert a[..width - 1] == BigEndian(v / 256, width - 1);
      assert b[..width - 1] == BigEndian(w / 256, width - 1);
      BigEndianIsInjective(v / 256, w / 256, width - 1);
    }
  }

  lemma QuotientIsUnique(v: nat, d: nat, q: nat, r: nat)
    requires d > 0 && r < d && v == d * q + r
    ensures v / d == q
  {
    var q' := v / d;
    assert q' < q ==> d * (q' + 1) <= d * q;
    assert q' > q ==> d * (q + 1) <= d * q';
  }

  lemma DivideTwice(v: nat, p: nat)
    requires p > 0
    ensures v / 256 / p == v / (256 * p)
  {
    var w := v / 256;
    var q, r := w / p, w % p;
    assert v == 256 * w + v % 256 && w == p * q + r;
    assert 256 * (p * q + r) == (256 * p) * q + 256 * r;
    assert 256 * r + v % 256 < 256 * p;
    QuotientIsUnique(v, 256 * p, q, 256 * r + v % 256);
  }

  lemma {:induction false} Pow256IsPositive(n: nat)
    ensures Pow256(n) > 0
  {
    if n == 0 {
    } else {
      Pow256IsPositive(n - 1);
    }
  }

  /** The most significant byte comes first: byte `i` has weight 256 to the number of bytes after it. */
  lemma {:induction false} BigEndianByte(v: nat, width: nat, i: nat)
    requires i < width
    ensures Pow256(width - 1 - i) > 0
    ensures BigEndian(v, width)[i] as int == v / Pow256(width - 1 - i) % 256
    decreases width
  {
    Pow256IsPositive(width - 1 - i);
    if i == width - 1 {
    } else {
      Pow256IsPositive(width - 2 - i);
      BigEndianByte(v / 256, width - 1, i);
      DivideTwice(v, Pow256(width - 2 - i));
    }
  }

  lemma WidthsSuffice()
    ensures Pow256(LENGTH_BYTES) == 0x1_0000_0000_0000_0000
    ensures Pow256(ID_BYTES) == 0x1_0000_0000_0000_0000_0000_0000_0000_0000
  {
    assert Pow256(4) == 256 * Pow256(3) == 256 * 256 * Pow256(2) == 0x1_0000_0000;
    assert Pow256(8) == 256 * Pow256(7) == 256 * 256 * Pow256(6) == 0x1_0000_0000_0000_0000;
    assert Pow256(12) == 256 * Pow256(11) == 256 * 256 * Pow256(10) == 0x1_0000_0000_0000_0000_0000_0000;
    assert Pow256(16) == 256 * Pow256(15) == 256 * 256 * Pow256(14);
  }

  // The bytes of "navigator.session.compatibility-manifest.v1" and a terminating zero.
  const PREFIX: seq<Byte> := [
    110, 97, 118, 105, 103, 97, 116, 111, 114, 46, 115, 101, 115, 115, 105, 111, 110, 46, 99, 111, 109, 112, 97, 116,
    105, 98, 105, 108, 105, 116, 121, 45, 109, 97, 110, 105, 102, 101, 115, 116, 46, 118, 49, 0]

  function EncodeBinding(b: Binding): (s: seq<Byte>)
    ensures |s| == 48
  {
    BigEndian(b.templateId, ID_BYTES) + b.compatibility
  }

  function EncodeBindings(ts: seq<Binding>): seq<Byte> {
    if ts == [] then [] else EncodeBindings(ts[..|ts| - 1]) + EncodeBinding(ts[|ts| - 1])
  }

  function Encode(configuration: Identity, ts: seq<Binding>): seq<Byte> {
    PREFIX + configuration + BigEndian(|ts|, LENGTH_BYTES) + EncodeBindings(ts)
  }

  const PREFIX_TEXT := "navigator.session.compatibility-manifest.v1"

  /** The prefix spells its text and ends with a zero byte. */
  lemma PrefixSpells()
    ensures |PREFIX| == |PREFIX_TEXT| + 1 && PREFIX[|PREFIX_TEXT|] == 0
    ensures forall i :: 0 <= i < |PREFIX_TEXT| ==> PREFIX[i] as int == PREFIX_TEXT[i] as int
  {
  }

  lemma BindingIsInjective(a: Binding, b: Binding)
    requires EncodeBinding(a) == EncodeBinding(b)
    ensures a == b
  {
    WidthsSuffice();
    assert EncodeBinding(a)[..16] == BigEndian(a.templateId, ID_BYTES);
    assert EncodeBinding(b)[..16] == BigEndian(b.templateId, ID_BYTES);
    assert EncodeBinding(a)[16..] == a.compatibility && EncodeBinding(b)[16..] == b.compatibility;
    BigEndianIsInjective(a.templateId, b.templateId, ID_BYTES);
  }

  lemma {:induction false} BindingsAreInjective(a: seq<Binding>, b: seq<Binding>)
    requires |a| == |b| && EncodeBindings(a) == EncodeBindings(b)
    ensures a == b
  {
    if a == [] {
    } else {
      var ea, eb := EncodeBindings(a), EncodeBindings(b);
      var n := |a| - 1;
      assert ea[..|ea| - 48] == EncodeBindings(a[..n]) && ea[|ea| - 48..] == EncodeBinding(a[n]);
      assert eb[..|eb| - 48] == EncodeBindings(b[..n]) && eb[|eb| - 48..] == EncodeBinding(b[n]);
      BindingIsInjective(a[n], b[n]);
      BindingsAreInjective(a[..n], b[..n]);
      assert a == a[..n] + [a[n]] && b == b[..n] + [b[n]];
    }
  }

  lemma {:induction false} EncodedLength(ts: seq<Binding>)
    ensures |EncodeBindings(ts)| == 48 * |ts|
  {
    if ts == [] {
    } else {
      EncodedLength(ts[..|ts| - 1]);
    }
  }

  /** Binding `i` takes 48 bytes, in order: its template first, then its compatibility. */
  lemma {:induction false} BindingsInPlace(ts: seq<Binding>, i: nat)
    requires i < |ts|
    ensures |EncodeBindings(ts)| == 48 * |ts|
    ensures EncodeBindings(ts)[48 * i..48 * i + 16] == BigEndian(ts[i].templateId, ID_BYTES)
    ensures EncodeBindings(ts)[48 * i + 16..48 * i + 48] == ts[i].compatibility
    decreases |ts|
  {
    var n := |ts| - 1;
    var init, last := EncodeBindings(ts[..n]), EncodeBinding(ts[n]);
    EncodedLength(ts);
    EncodedLength(ts[..n]);
    if i < n {
      BindingsInPlace(ts[..n], i);
      assert (init + last)[48 * i..48 * i + 16] == init[48 * i..48 * i + 16];
      assert (init + last)[48 * i + 16..48 * i + 48] == init[48 * i + 16..48 * i + 48];
    } else {
      assert (init + last)[48 * n..48 * n + 16] == last[..16];
      assert (init + last)[48 * n + 16..48 * n + 48] == last[16..];
    }
  }

  lemma EncodeParts(c: Identity, ts: seq<Binding>)
    ensures var e := Encode(c, ts);
            && |e| >= 84
            && e[..44] == PREFIX && e[44..76] == c && e[76..84] == BigEndian(|ts|, LENGTH_BYTES)
            && e[84..] == EncodeBindings(ts)
  {
    assert |PREFIX| == 44;
    var head := PREFIX + c;
    var e := Encode(c, ts);
    assert e[..76] == head && head[44..] == c;
    assert e[44..76] == e[..76][44..];
  }

  /** The encoding determines the configuration and the bindings. */
  lemma EncodingIsInjective(c: Identity, ts: seq<Binding>, d: Identity, us: seq<Binding>)
    requires |ts| < 0x1_0000_0000_0000_0000 && |us| < 0x1_0000_0000_0000_0000
    requires Encode(c, ts) == Encode(d, us)
    ensures c == d && ts == us
  {
    EncodeParts(c, ts);
    EncodeParts(d, us);
    WidthsSuffice();
    BigEndianIsInjective(|ts|, |us|, LENGTH_BYTES);
    BindingsAreInjective(ts, us);
  }

  // ---------------------------------------------------------------------------------------------
  // Construction and lookup
  // ---------------------------------------------------------------------------------------------

  predicate Admissible(templates: seq<Binding>) {
    0 < |templates| <= MAX_SESSION_TEMPLATES && DistinctIds(templates)
  }

  /** `m` is the manifest of `templates`, given in any order. */
  ghost predicate Describes(digest: seq<Byte> -> Identity, configuration: Identity, templates: seq<Binding>,
                            m: Manifest) {
    && m.configuration == configuration
    && StrictlyOrdered(m.templates)
    && multiset(m.templates) == multiset(templates)
    && m.compatibility == digest(Encode(configuration, m.templates))
  }

  method New(digest: seq<Byte> -> Identity, configuration: Identity, templates: seq<Binding>)
    returns (r: Result<Manifest, Error>)
    ensures r.Success? <==> Admissible(templates)
    ensures r.Success? ==> Describes(digest, configuration, templates, r.value)
  {
    var sorted := SortById(templates);
    SortSorts(templates);
    AllIn(sorted, templates);
    PermutationKeepsDistinct(sorted, templates);
    var repeated := HasAdjacentRepeat(sorted);
    if sorted == [] || |sorted| > MAX_SESSION_TEMPLATES || repeated {
      return Failure(InvalidCompatibilityManifest);
    }
    var canonical := CanonicalBytes(configuration, sorted);
    r := Success(Manifest(configuration, sorted, digest(canonical)));
  }

  method CanonicalBytes(configuration: Identity, ts: seq<Binding>) returns (canonical: seq<Byte>)
    ensures canonical == Encode(configuration, ts)
  {
    canonical := PREFIX;
    canonical := canonical + configuration;
    canonical := canonical + BigEndian(|ts|, LENGTH_BYTES);
    ghost var header := canonical;
    var i := 0;
    while i < |ts|
      invariant 0 <= i <= |ts|
      invariant canonical == header + EncodeBindings(ts[..i])
    {
      assert ts[..i + 1][..i] == ts[..i];
      canonical := canonical + BigEndian(ts[i].templateId, ID_BYTES);
      canonical := canonical + ts[i].compatibility;
      i := i + 1;
      assert canonical == header + (EncodeBindings(ts[..i - 1]) + EncodeBinding(ts[i - 1]));
    }
    assert ts[..i] == ts;
  }

  method HasAdjacentRepeat(ts: seq<Binding>) returns (repeated: bool)
    requires Ordered(ts)
    ensures repeated <==> !DistinctIds(ts)
    ensures !repeated ==> StrictlyOrdered(ts)
  {
    var i := 1;
    while i < |ts|
      invariant 1 <= i
      invariant i <= |ts| ==> StrictlyOrdered(ts[..i])
      invariant |ts| < i ==> |ts| == 0
    {
      if ts[i - 1].templateId == ts[i].templateId {
        return true;
      }
      forall k | 0 <= k < i ensures ts[k].templateId < ts[i].templateId {
        assert ts[..i][k].templateId <= ts[..i][i - 1].templateId;
      }
      i := i + 1;
    }
    assert ts == [] || ts[..i] == ts;
    repeated := false;
  }

  /**
    Construction is canonical: any two orders of the same bindings are both refused or give the
    same manifest.
  */
  lemma ManifestIgnoresOrder(digest: seq<Byte> -> Identity, configuration: Identity,
                             a: seq<Binding>, b: seq<Binding>, m: Manifest, n: Manifest)
    requires multiset(a) == multiset(b)
    ensures Admissible(a) <==> Admissible(b)
    ensures Describes(digest, configuration, a, m) && Describes(digest, configuration, b, n) ==> m == n
  {
    AllIn(a, b);
    PermutationKeepsDistinct(a, b);
    if Describes(digest, configuration, a, m) && Describes(digest, configuration, b, n) {
      AllIn(m.templates, n.templates);
      StrictOrderIsUnique(m.templates, n.templates);
    }
  }

  /** Binary search by template: membership of the whole binding. */
  method Contains(m: Manifest, templateId: TemplateId, compatibility: Identity) returns (found: bool)
    requires StrictlyOrdered(m.templates)
    ensures found <==> Binding(templateId, compatibility) in m.templates
  {
    var low, high := 0, |m.templates|;
    while low < high
      invariant 0 <= low <= high <= |m.templates|
      invariant forall i :: 0 <= i < low ==> m.templates[i].templateId < templateId
      invariant forall i :: high <= i < |m.templates| ==> templateId < m.templates[i].templateId
    {
      var middle := low + (high - low) / 2;
      var here := m.templates[middle];
      if here.templateId < templateId {
        low := middle + 1;
      } else if templateId < here.templateId {
        high := middle;
      } else {
        assert forall i :: 0 <= i < |m.templates| && i != middle ==> m.templates[i].templateId != templateId;
        return here.compatibility == compatibility;
      }
    }
    found := false;
  }
}
