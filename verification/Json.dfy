/**
  JSON values and their canonical form: objects are recursively sorted by key, so that values that
  differ only in member order have one representation.

  An object is an ordered list of members with distinct keys; `WellFormed` says so at every level.
*/
module Json {
  import opened Wrappers

  datatype Number = Integer(value: int) | Float(bits: nat)

  datatype Value =
    | Null
    | Bool(truth: bool)
    | Num(number: Number)
    | Str(text: string)
    | Array(items: seq<Value>)
    | Object(members: seq<Member>)

  datatype Member = Member(key: string, value: Value)

  // ---------------------------------------------------------------------------------------------
  // Member lists
  // ---------------------------------------------------------------------------------------------

  /** Position of `key`, or the length of the list. */
  function Find(ms: seq<Member>, key: string): (i: nat)
    ensures i <= |ms|
    ensures i < |ms| ==> ms[i].key == key
    ensures forall j :: 0 <= j < i ==> ms[j].key != key
  {
    if ms == [] then 0 else if ms[0].key == key then 0 else 1 + Find(ms[1..], key)
  }

  predicate Has(ms: seq<Member>, key: string) {
    Find(ms, key) < |ms|
  }

  function Get(ms: seq<Member>, key: string): (v: Value)
    requires Has(ms, key)
  {
    ms[Find(ms, key)].value
  }

  predicate DistinctKeys(ms: seq<Member>) {
    forall i, j :: 0 <= i < j < |ms| ==> ms[i].key != ms[j].key
  }

  predicate WellFormed(v: Value) {
    match v
    case Array(items) => forall i :: 0 <= i < |items| ==> WellFormed(items[i])
    case Object(ms) => DistinctKeys(ms) && forall i :: 0 <= i < |ms| ==> WellFormed(ms[i].value)
    case _ => true
  }

  lemma FindsItself(ms: seq<Member>, i: nat)
    requires DistinctKeys(ms) && i < |ms|
    ensures Find(ms, ms[i].key) == i && Has(ms, ms[i].key) && Get(ms, ms[i].key) == ms[i].value
  {
    assert Find(ms, ms[i].key) >= i;
  }

  // ---------------------------------------------------------------------------------------------
  // Key order
  // ---------------------------------------------------------------------------------------------

  predicate Less(a: string, b: string) {
    if b == [] then false
    else if a == [] then true
    else a[0] < b[0] || (a[0] == b[0] && Less(a[1..], b[1..]))
  }

  lemma {:induction false} LessIsTotal(a: string, b: string)
    ensures a == b || Less(a, b) || Less(b, a)
    ensures !(Less(a, b) && Less(b, a))
    ensures Less(a, b) ==> a != b
  {
    if a != [] && b != [] {
      LessIsTotal(a[1..], b[1..]);
      assert a == [a[0]] + a[1..] && b == [b[0]] + b[1..];
    }
  }

  /** `a` and `b` agree up to `k`, where `a` ends or has the smaller character. */
  predicate DiffersAt(a: string, b: string, k: nat) {
    k <= |a| && k < |b| && a[..k] == b[..k] && (k == |a| || a[k] < b[k])
  }

  lemma DiffersLater(a: string, b: string, k: nat)
    requires a != [] && b != [] && a[0] == b[0]
    ensures DiffersAt(a[1..], b[1..], k) <==> DiffersAt(a, b, k + 1)
  {
    if k < |a| && k + 1 < |b| {
      assert a[..k + 1] == [a[0]] + a[1..][..k];
      assert b[..k + 1] == [b[0]] + b[1..][..k];
      assert a[..k + 1][1..] == a[1..][..k] && b[..k + 1][1..] == b[1..][..k];
    }
  }

  /** Key order is decided by the first difference, and a proper prefix comes first. */
  lemma {:induction false} LessIsFirstDifference(a: string, b: string)
    ensures Less(a, b) <==> exists k: nat :: DiffersAt(a, b, k)
  {
    if a == [] || b == [] {
      assert b != [] ==> DiffersAt(a, b, 0);
    } else if a[0] != b[0] {
      assert a[0] < b[0] ==> DiffersAt(a, b, 0);
      if k: nat :| DiffersAt(a, b, k) {
        assert k > 0 ==> a[..k][0] == b[..k][0];
      }
    } else {
      LessIsFirstDifference(a[1..], b[1..]);
      if Less(a, b) {
        var k: nat :| DiffersAt(a[1..], b[1..], k);
        DiffersLater(a, b, k);
      }
      if k: nat :| DiffersAt(a, b, k) {
        assert k > 0;
        DiffersLater(a, b, k - 1);
      }
    }
  }

  lemma {:induction false} LessIsTransitive(a: string, b: string, c: string)
    requires Less(a, b) && Less(b, c)
    ensures Less(a, c)
  {
    if a != [] && a[0] == b[0] == c[0] {
      LessIsTransitive(a[1..], b[1..], c[1..]);
    }
  }

  predicate Sorted(ms: seq<Member>) {
    forall i, j :: 0 <= i < j < |ms| ==> Less(ms[i].key, ms[j].key)
  }

  // ---------------------------------------------------------------------------------------------
  // Canonicalisation
  // ---------------------------------------------------------------------------------------------

  /** Inserting into an ordered map: a present key gets the new value. */
  function Insert(m: Member, ms: seq<Member>): seq<Member> {
    if ms == [] then [m]
    else if m.key == ms[0].key then [m] + ms[1..]
    else if Less(m.key, ms[0].key) then [m] + ms
    else [ms[0]] + Insert(m, ms[1..])
  }

  /** Collecting the members, in list order, into an ordered map. */
  function Sort(ms: seq<Member>): seq<Member> {
    if ms == [] then [] else Insert(ms[|ms| - 1], Sort(ms[..|ms| - 1]))
  }

  function Canonicalize(v: Value): Value {
    match v
    case Array(items) => Array(seq(|items|, i requires 0 <= i < |items| => Canonicalize(items[i])))
    case Object(ms) => Object(Sort(CanonicalMembers(ms)))
    case _ => v
  }

  function CanonicalMembers(ms: seq<Member>): seq<Member> {
    seq(|ms|, i requires 0 <= i < |ms| => Member(ms[i].key, Canonicalize(ms[i].value)))
  }

  /** Both lists give the same answer for `key`. */
  predicate SameAt(a: seq<Member>, b: seq<Member>, key: string) {
    (Has(a, key) <==> Has(b, key)) && (Has(a, key) ==> Get(a, key) == Get(b, key))
  }

  lemma FindInTail(head: Member, tail: seq<Member>, key: string)
    ensures Has([head] + tail, key) <==> key == head.key || Has(tail, key)
    ensures key == head.key ==> Get([head] + tail, key) == head.value
    ensures key != head.key && Has(tail, key) ==> Get([head] + tail, key) == Get(tail, key)
  {
    assert ([head] + tail)[1..] == tail;
  }

  lemma {:induction false} InsertIsMapUpdate(m: Member, ms: seq<Member>, key: string)
    requires Sorted(ms)
    ensures Has(Insert(m, ms), key) <==> key == m.key || Has(ms, key)
    ensures key == m.key ==> Get(Insert(m, ms), key) == m.value
    ensures key != m.key && Has(ms, key) ==> Get(Insert(m, ms), key) == Get(ms, key)
  {
    if ms != [] {
      assert ms == [ms[0]] + ms[1..];
      FindInTail(ms[0], ms[1..], key);
      if m.key == ms[0].key {
        FindInTail(m, ms[1..], key);
      } else if Less(m.key, ms[0].key) {
        FindInTail(m, ms, key);
      } else {
        InsertIsMapUpdate(m, ms[1..], key);
        FindInTail(ms[0], Insert(m, ms[1..]), key);
      }
    } else {
      FindInTail(m, [], key);
      assert [m] + [] == [m];
    }
  }

  lemma {:induction false} InsertKeys(m: Member, ms: seq<Member>, i: nat)
    requires i < |Insert(m, ms)|
    ensures Insert(m, ms)[i].key == m.key || exists j :: 0 <= j < |ms| && ms[j].key == Insert(m, ms)[i].key
  {
    if ms != [] && m.key != ms[0].key && !Less(m.key, ms[0].key) && i > 0 {
      InsertKeys(m, ms[1..], i - 1);
    }
  }

  lemma {:induction false} InsertKeepsSorted(m: Member, ms: seq<Member>)
    requires Sorted(ms)
    ensures Sorted(Insert(m, ms))
  {
    if ms == [] {
    } else {
      LessIsTotal(m.key, ms[0].key);
      if m.key != ms[0].key && Less(m.key, ms[0].key) {
        forall j | 0 < j < |ms| ensures Less(m.key, ms[j].key) {
          LessIsTransitive(m.key, ms[0].key, ms[j].key);
        }
      } else if m.key != ms[0].key {
        var rest := Insert(m, ms[1..]);
        InsertKeepsSorted(m, ms[1..]);
        forall j | 0 <= j < |rest| ensures Less(ms[0].key, rest[j].key) {
          InsertKeys(m, ms[1..], j);
        }
      }
    }
  }

  lemma {:induction false} SortIsSorted(ms: seq<Member>)
    ensures Sorted(Sort(ms))
  {
    if ms == [] {
    } else {
      SortIsSorted(ms[..|ms| - 1]);
      InsertKeepsSorted(ms[|ms| - 1], Sort(ms[..|ms| - 1]));
    }
  }

  lemma FindInInit(ms: seq<Member>, key: string)
    requires ms != [] && DistinctKeys(ms)
    ensures var init, last := ms[..|ms| - 1], ms[|ms| - 1];
            && (Has(ms, key) <==> Has(init, key) || key == last.key)
            && (Has(init, key) ==> key != last.key && Get(ms, key) == Get(init, key))
            && (key == last.key ==> Has(ms, key) && Get(ms, key) == last.value)
  {
    var init, last := ms[..|ms| - 1], ms[|ms| - 1];
    if Has(init, key) {
      FindsItself(ms, Find(init, key));
    }
    if key == last.key {
      FindsItself(ms, |ms| - 1);
    }
    if Has(ms, key) && key != last.key {
      FindsItself(init, Find(ms, key));
    }
  }

  /** Sorting changes no lookup. */
  lemma {:induction false} SortKeepsLookups(ms: seq<Member>, key: string)
    requires DistinctKeys(ms)
    ensures SameAt(Sort(ms), ms, key)
  {
    if ms == [] {
    } else {
      var init, last := ms[..|ms| - 1], ms[|ms| - 1];
      SortKeepsLookups(init, key);
      SortIsSorted(init);
      InsertIsMapUpdate(last, Sort(init), key);
      FindInInit(ms, key);
    }
  }

  lemma SortedKeysDiffer(ms: seq<Member>)
    requires Sorted(ms)
    ensures DistinctKeys(ms)
  {
    forall i, j | 0 <= i < j < |ms| ensures ms[i].key != ms[j].key {
      LessIsTotal(ms[i].key, ms[j].key);
    }
  }

  /** A sorted list is determined by its lookups. */
  lemma {:induction false} SortedIsUnique(a: seq<Member>, b: seq<Member>)
    requires Sorted(a) && Sorted(b) && forall k :: SameAt(a, b, k)
    ensures a == b
  {
    SortedKeysDiffer(a);
    SortedKeysDiffer(b);
    if a == [] || b == [] {
      assert a != [] ==> SameAt(a, b, a[0].key);
      assert b != [] ==> SameAt(a, b, b[0].key);
    } else {
      FindsItself(a, 0);
      assert SameAt(a, b, a[0].key);
      FindsItself(b, 0);
      assert SameAt(a, b, b[0].key);
      LessIsTotal(a[0].key, b[0].key);
      assert a[0] == b[0];
      assert a == [a[0]] + a[1..] && b == [b[0]] + b[1..];
      forall k ensures SameAt(a[1..], b[1..], k) {
        assert SameAt(a, b, k);
        FindInTail(a[0], a[1..], k);
        FindInTail(b[0], b[1..], k);
        TailLacksHead(a);
        TailLacksHead(b);
      }
      SortedIsUnique(a[1..], b[1..]);
    }
  }

  lemma TailLacksHead(ms: seq<Member>)
    requires ms != [] && DistinctKeys(ms)
    ensures !Has(ms[1..], ms[0].key)
  {
  }

  // ---------------------------------------------------------------------------------------------
  // Equality up to member order
  // ---------------------------------------------------------------------------------------------

  ghost predicate Equivalent(a: Value, b: Value)
    decreases a
  {
    match a
    case Array(items) =>
      b.Array? && |items| == |b.items| && forall i :: 0 <= i < |items| ==> Equivalent(items[i], b.items[i])
    case Object(ms) =>
      && b.Object?
      && (forall k :: Has(ms, k) <==> Has(b.members, k))
      && forall k :: Has(ms, k) && Has(b.members, k) ==> Equivalent(Get(ms, k), Get(b.members, k))
    case _ => a == b
  }

  lemma CanonicalLookup(ms: seq<Member>, key: string)
    requires DistinctKeys(ms)
    ensures var c := Sort(CanonicalMembers(ms));
            && (Has(c, key) <==> Has(ms, key))
            && (Has(ms, key) ==> Get(c, key) == Canonicalize(Get(ms, key)))
  {
    var cm := CanonicalMembers(ms);
    SortKeepsLookups(cm, key);
    if Has(ms, key) {
      FindsItself(cm, Find(ms, key));
    }
    if Has(cm, key) {
      FindsItself(ms, Find(cm, key));
    }
  }

  lemma SortKeepsMembers(ms: seq<Member>, i: nat)
    requires DistinctKeys(ms) && i < |Sort(ms)|
    ensures exists j :: 0 <= j < |ms| && ms[j] == Sort(ms)[i]
  {
    var s := Sort(ms);
    SortIsSorted(ms);
    SortedKeysDiffer(s);
    FindsItself(s, i);
    SortKeepsLookups(ms, s[i].key);
    assert ms[Find(ms, s[i].key)] == s[i];
  }

  lemma {:induction false} CanonicalIsWellFormed(v: Value)
    requires WellFormed(v)
    ensures WellFormed(Canonicalize(v))
  {
    match v
    case Array(items) =>
      forall i | 0 <= i < |items| ensures WellFormed(Canonicalize(items[i])) {
        CanonicalIsWellFormed(items[i]);
      }
    case Object(ms) =>
      var cm := CanonicalMembers(ms);
      SortIsSorted(cm);
      SortedKeysDiffer(Sort(cm));
      forall i | 0 <= i < |Sort(cm)| ensures WellFormed(Sort(cm)[i].value) {
        SortKeepsMembers(cm, i);
        var j :| 0 <= j < |cm| && cm[j] == Sort(cm)[i];
        CanonicalIsWellFormed(ms[j].value);
      }
    case _ =>
  }

  /**
    The canonical form is the form of the equivalence class: two values have the same canonical
    form exactly when they are equal up to recursive reordering of object members.
  */
  lemma {:induction false} CanonicalFormsCharacterize(a: Value, b: Value)
    requires WellFormed(a) && WellFormed(b)
    ensures Canonicalize(a) == Canonicalize(b) <==> Equivalent(a, b)
    decreases a
  {
    match a
    case Array(items) =>
      if b.Array? {
        forall i | 0 <= i < |items| && i < |b.items|
          ensures Canonicalize(items[i]) == Canonicalize(b.items[i]) <==> Equivalent(items[i], b.items[i])
        {
          CanonicalFormsCharacterize(items[i], b.items[i]);
        }
        var ca, cb := Canonicalize(a).items, Canonicalize(b).items;
        if ca == cb {
          assert |items| == |b.items|;
          forall i | 0 <= i < |items| ensures Equivalent(items[i], b.items[i]) {
            assert ca[i] == cb[i];
          }
        }
      }
    case Object(ms) =>
      if b.Object? {
        ObjectsCharacterize(ms, b.members);
      }
    case _ =>
  }

  lemma {:induction false} ObjectsCharacterize(a: seq<Member>, b: seq<Member>)
    requires WellFormed(Object(a)) && WellFormed(Object(b))
    ensures Sort(CanonicalMembers(a)) == Sort(CanonicalMembers(b)) <==> Equivalent(Object(a), Object(b))
    decreases a
  {
    var ca, cb := Sort(CanonicalMembers(a)), Sort(CanonicalMembers(b));
    forall k
      ensures Has(ca, k) <==> Has(a, k)
      ensures Has(cb, k) <==> Has(b, k)
      ensures Has(a, k) && Has(b, k) ==> (Get(ca, k) == Get(cb, k) <==> Equivalent(Get(a, k), Get(b, k)))
    {
      CanonicalLookup(a, k);
      CanonicalLookup(b, k);
      if Has(a, k) && Has(b, k) {
        CanonicalFormsCharacterize(Get(a, k), Get(b, k));
      }
    }
    if Equivalent(Object(a), Object(b)) {
      SortIsSorted(CanonicalMembers(a));
      SortIsSorted(CanonicalMembers(b));
      assert forall k :: SameAt(ca, cb, k);
      SortedIsUnique(ca, cb);
    }
  }

  /** A value is equivalent to its own canonical form. */
  lemma {:induction false} CanonicalIsEquivalent(v: Value)
    requires WellFormed(v)
    ensures Equivalent(Canonicalize(v), v)
  {
    match v
    case Array(items) =>
      forall i | 0 <= i < |items| ensures Equivalent(Canonicalize(v).items[i], items[i]) {
        CanonicalIsEquivalent(items[i]);
      }
    case Object(ms) =>
      var c := Canonicalize(v).members;
      forall k
        ensures Has(c, k) <==> Has(ms, k)
        ensures Has(ms, k) && Has(c, k) ==> Equivalent(Get(c, k), Get(ms, k))
      {
        CanonicalLookup(ms, k);
        if Has(ms, k) {
          CanonicalIsEquivalent(Get(ms, k));
        }
      }
    case _ =>
  }

  lemma CanonicalizeIsIdempotent(v: Value)
    requires WellFormed(v)
    ensures Canonicalize(Canonicalize(v)) == Canonicalize(v)
  {
    CanonicalIsWellFormed(v);
    CanonicalIsEquivalent(v);
    CanonicalFormsCharacterize(Canonicalize(v), v);
  }
}
