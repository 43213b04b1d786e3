/**
 The comparison of plugin configurations.  A list of named values is compared by walking one
 list and looking its names up in the other, so its result must not depend on their order.
 */
module NvCompare {
  import opened Options

  datatype List = List(error: bool, entries: seq<Entry>)
  datatype Entry = Entry(key: string, val: Val)
  datatype Val =
    | Null
    | Bool(b: bool)
    | Number(n: nat)
    | Str(s: string)
    | Nested(list: List)
    | Descriptor(fd: int)
    | Binary(bytes: seq<nat>)
    | Bools(bs: seq<bool>)
    | Numbers(ns: seq<nat>)
    | Strs(ss: seq<string>)
    | Lists(lists: seq<List>)
    | Descriptors(fds: seq<int>)

  /** `NV_TYPE_*`. */
  function Type(v: Val): nat {
    match v
    case Null => 1
    case Bool(_) => 2
    case Number(_) => 3
    case Str(_) => 4
    case Nested(_) => 5
    case Descriptor(_) => 6
    case Binary(_) => 7
    case Bools(_) => 8
    case Numbers(_) => 9
    case Strs(_) => 10
    case Lists(_) => 11
    case Descriptors(_) => 12
  }

  // ---------------------------------------------------------------- what it means

  /** A list as its reader sees it: names bound to values, in no order. */
  datatype Meaning = Meaning(bound: map<string, Sense>)
  datatype Sense = Plain(val: Val) | Inner(one: Meaning) | Inners(many: seq<Meaning>)

  function MeaningOf(l: List): Meaning
    decreases l, 2
  {
    Meaning(Bound(l, |l.entries|))
  }

  function Bound(l: List, n: nat): map<string, Sense>
    requires n <= |l.entries|
    decreases l, 1, n
  {
    if n == 0 then map[] else Bound(l, n - 1)[l.entries[n - 1].key := SenseOf(l.entries[n - 1].val)]
  }

  function SenseOf(v: Val): Sense
    decreases v, 0
  {
    match v
    case Nested(l) => Inner(MeaningOf(l))
    case Lists(ls) => Inners(seq(|ls|, i requires 0 <= i < |ls| => MeaningOf(ls[i])))
    case _ => Plain(v)
  }

  /** A list that libnv hands out: without error, each name once, all the way down. */
  predicate Sound(l: List)
    decreases l, 1
  {
    && !l.error
    && (forall i, j :: 0 <= i < j < |l.entries| ==> l.entries[i].key != l.entries[j].key)
    && forall i :: 0 <= i < |l.entries| ==> SoundVal(l.entries[i].val)
  }

  predicate SoundVal(v: Val)
    decreases v, 0
  {
    match v
    case Nested(l) => Sound(l)
    case Lists(ls) => forall i :: 0 <= i < |ls| ==> Sound(ls[i])
    case _ => true
  }

  // ------------------------------------------------------------------- comparison

  function Cmp(a: int, b: int): (r: int)
    ensures (r < 0 <==> a < b) && (r > 0 <==> a > b)
  {
    if a < b then -1 else if a > b then 1 else 0
  }

  /** Element by element, and then by length: the array comparisons, `memcmp` and `strcmp`. */
  function CmpSeq(a: seq<int>, b: seq<int>): int {
    if a == [] || b == [] then Cmp(|a|, |b|)
    else if a[0] != b[0] then Cmp(a[0], b[0])
    else CmpSeq(a[1..], b[1..])
  }

  function Codes(s: string): seq<int> {
    seq(|s|, i requires 0 <= i < |s| => s[i] as int)
  }

  function Bits(bs: seq<bool>): seq<int> {
    seq(|bs|, i requires 0 <= i < |bs| => if bs[i] then 1 else 0)
  }

  function Ints(ns: seq<nat>): seq<int> {
    seq(|ns|, i requires 0 <= i < |ns| => ns[i])
  }

  function CmpStrs(a: seq<string>, b: seq<string>): int {
    if a == [] || b == [] then Cmp(|a|, |b|)
    else
      var c := CmpSeq(Codes(a[0]), Codes(b[0]));
      if c != 0 then c else CmpStrs(a[1..], b[1..])
  }

  function Find(l: List, key: string): (r: Option<nat>)
    ensures r.Some? ==> r.value < |l.entries| && l.entries[r.value].key == key
    ensures r.None? ==> forall i :: 0 <= i < |l.entries| ==> l.entries[i].key != key
  {
    FindFrom(l, key, 0)
  }

  function FindFrom(l: List, key: string, i: nat): (r: Option<nat>)
    requires i <= |l.entries|
    ensures r.Some? ==> r.value < |l.entries| && l.entries[r.value].key == key
    ensures r.None? ==> forall j :: i <= j < |l.entries| ==> l.entries[j].key != key
    decreases |l.entries| - i
  {
    if i == |l.entries| then None else if l.entries[i].key == key then Some(i) else FindFrom(l, key, i + 1)
  }

  /** `nvlist_exists_type`. */
  predicate HasType(l: List, e: Entry) {
    var j := Find(l, e.key);
    j.Some? && Type(l.entries[j.value].val) == Type(e.val)
  }

  /** `compare_nvlist`, with `None` for a null pointer. */
  function Compare(a: Option<List>, b: Option<List>): int {
    if a.None? && b.None? then 0
    else if a.None? then -1
    else if b.None? then (if a.value.error then -1 else 1)
    else CompareLists(a.value, b.value)
  }

  function CompareLists(a: List, b: List): int
    decreases a, 2
  {
    if a.error then -1
    else if b.error then 1
    else
      var rc := CompareFrom(a, b, 0);
      if rc != 0 then rc else if AllIn(b, a, 0) then 0 else -1
  }

  /** The first loop, from the `i`-th name of `a` on. */
  function CompareFrom(a: List, b: List, i: nat): int
    requires i <= |a.entries|
    decreases a, 1, |a.entries| - i
  {
    if i == |a.entries| then 0
    else
      var e := a.entries[i];
      if !HasType(b, e) then 1
      else
        var rc := CompareVals(e.val, b.entries[Find(b, e.key).value].val);
        if rc != 0 then rc else CompareFrom(a, b, i + 1)
  }

  /** The second loop. */
  predicate AllIn(b: List, a: List, i: nat)
    requires i <= |b.entries|
    decreases |b.entries| - i
  {
    i == |b.entries| || (HasType(a, b.entries[i]) && AllIn(b, a, i + 1))
  }

  function CompareVals(x: Val, y: Val): int
    requires Type(x) == Type(y)
    decreases x, 0
  {
    match x
    case Null => 0
    case Bool(b) => (if b then 1 else 0) - (if y.b then 1 else 0)
    case Number(n) => Cmp(n, y.n)
    case Str(s) => CmpSeq(Codes(s), Codes(y.s))
    case Nested(l) => CompareLists(l, y.list)
    case Descriptor(d) => Cmp(d, y.fd)
    case Binary(s) => CmpSeq(Ints(s), Ints(y.bytes))
    case Bools(s) => CmpSeq(Bits(s), Bits(y.bs))
    case Numbers(s) => CmpSeq(Ints(s), Ints(y.ns))
    case Strs(s) => CmpStrs(s, y.ss)
    case Lists(s) => CompareArrays(x, y.lists, 0)
    case Descriptors(s) => CmpSeq(s, y.fds)
  }

  function CompareArrays(x: Val, ys: seq<List>, i: nat): int
    requires x.Lists? && i <= |x.lists| && i <= |ys|
    decreases x, 0, |x.lists| - i
  {
    if i == |x.lists| || i == |ys| then Cmp(|x.lists|, |ys|)
    else
      var rc := CompareLists(x.lists[i], ys[i]);
      if rc != 0 then rc else CompareArrays(x, ys, i + 1)
  }

  // ------------------------------------------------------------------ the theorem

  lemma {:induction false} CmpSeqZero(a: seq<int>, b: seq<int>)
    ensures CmpSeq(a, b) == 0 <==> a == b
  {
    if a != [] && b != [] {
      CmpSeqZero(a[1..], b[1..]);
      assert a == [a[0]] + a[1..] && b == [b[0]] + b[1..];
    }
  }

  lemma CodesInjective(s: string, t: string)
    ensures Codes(s) == Codes(t) <==> s == t
  {
    if Codes(s) == Codes(t) {
      assert |s| == |Codes(s)| && |t| == |Codes(t)|;
      forall i | 0 <= i < |s| ensures s[i] == t[i] {
        assert Codes(s)[i] == Codes(t)[i];
      }
    }
  }

  lemma BitsInjective(s: seq<bool>, t: seq<bool>)
    ensures Bits(s) == Bits(t) <==> s == t
  {
    if Bits(s) == Bits(t) {
      assert |s| == |Bits(s)| && |t| == |Bits(t)|;
      forall i | 0 <= i < |s| ensures s[i] == t[i] {
        assert Bits(s)[i] == Bits(t)[i];
      }
    }
  }

  lemma IntsInjective(s: seq<nat>, t: seq<nat>)
    ensures Ints(s) == Ints(t) <==> s == t
  {
    if Ints(s) == Ints(t) {
      assert |s| == |Ints(s)| && |t| == |Ints(t)|;
      forall i | 0 <= i < |s| ensures s[i] == t[i] {
        assert Ints(s)[i] == Ints(t)[i];
      }
    }
  }

  lemma {:induction false} CmpStrsZero(a: seq<string>, b: seq<string>)
    ensures CmpStrs(a, b) == 0 <==> a == b
  {
    if a != [] && b != [] {
      CmpSeqZero(Codes(a[0]), Codes(b[0]));
      CodesInjective(a[0], b[0]);
      CmpStrsZero(a[1..], b[1..]);
      assert a == [a[0]] + a[1..] && b == [b[0]] + b[1..];
    }
  }

  lemma {:induction false} BoundAt(l: List, n: nat, i: nat)
    requires Sound(l) && i < n <= |l.entries|
    ensures l.entries[i].key in Bound(l, n) && Bound(l, n)[l.entries[i].key] == SenseOf(l.entries[i].val)
    decreases n
  {
    if i < n - 1 { BoundAt(l, n - 1, i); }
  }

  lemma {:induction false} BoundFrom(l: List, n: nat, k: string) returns (i: nat)
    requires n <= |l.entries| && k in Bound(l, n)
    ensures i < n && l.entries[i].key == k
    decreases n
  {
    if l.entries[n - 1].key == k { i := n - 1; } else { i := BoundFrom(l, n - 1, k); }
  }

  /** What the first loop finds out. */
  ghost predicate Matches(a: List, b: List, i: nat)
    requires i < |a.entries|
  {
    var e := a.entries[i];
    HasType(b, e) && SenseOf(b.entries[Find(b, e.key).value].val) == SenseOf(e.val)
  }

  lemma {:induction false} CompareFromZero(a: List, b: List, i: nat)
    requires Sound(a) && Sound(b) && i <= |a.entries|
    ensures CompareFrom(a, b, i) == 0 <==> forall j :: i <= j < |a.entries| ==> Matches(a, b, j)
    decreases a, 1, |a.entries| - i
  {
    if i < |a.entries| {
      var e := a.entries[i];
      if HasType(b, e) {
        var f := b.entries[Find(b, e.key).value];
        assert SoundVal(e.val) && SoundVal(f.val);
        CompareValsZero(e.val, f.val);
        assert Matches(a, b, i) <==> CompareVals(e.val, f.val) == 0;
      }
      CompareFromZero(a, b, i + 1);
      assert !Matches(a, b, i) ==> !forall j :: i <= j < |a.entries| ==> Matches(a, b, j);
    }
  }

  lemma {:induction false} AllInMeans(b: List, a: List, i: nat)
    requires i <= |b.entries|
    ensures AllIn(b, a, i) <==> forall j :: i <= j < |b.entries| ==> HasType(a, b.entries[j])
    decreases |b.entries| - i
  {
    if i < |b.entries| { AllInMeans(b, a, i + 1); }
  }

  lemma {:induction false} CompareListsZero(a: List, b: List)
    requires Sound(a) && Sound(b)
    ensures CompareLists(a, b) == 0 <==> MeaningOf(a) == MeaningOf(b)
    decreases a, 2
  {
    CompareFromZero(a, b, 0);
    AllInMeans(b, a, 0);
    if CompareLists(a, b) == 0 {
      MatchedMeansSame(a, b);
    }
    if MeaningOf(a) == MeaningOf(b) {
      SameMeansMatched(a, b);
    }
  }

  lemma MatchedMeansSame(a: List, b: List)
    requires Sound(a) && Sound(b)
    requires forall j :: 0 <= j < |a.entries| ==> Matches(a, b, j)
    requires forall j :: 0 <= j < |b.entries| ==> HasType(a, b.entries[j])
    ensures MeaningOf(a) == MeaningOf(b)
  {
    var x, y := MeaningOf(a).bound, MeaningOf(b).bound;
    forall k | k in x ensures k in y && y[k] == x[k] {
      var i := BoundFrom(a, |a.entries|, k);
      assert Matches(a, b, i);
      BoundAt(a, |a.entries|, i);
      BoundAt(b, |b.entries|, Find(b, k).value);
    }
    forall k | k in y ensures k in x {
      var i := BoundFrom(b, |b.entries|, k);
      assert HasType(a, b.entries[i]);
      BoundAt(a, |a.entries|, Find(a, k).value);
    }
  }

  lemma SameSenseSameType(x: Val, y: Val)
    requires SenseOf(x) == SenseOf(y)
    ensures Type(x) == Type(y)
  {
  }

  lemma SameMeansMatched(a: List, b: List)
    requires Sound(a) && Sound(b) && MeaningOf(a) == MeaningOf(b)
    ensures forall j :: 0 <= j < |a.entries| ==> Matches(a, b, j)
    ensures forall j :: 0 <= j < |b.entries| ==> HasType(a, b.entries[j])
  {
    forall j | 0 <= j < |a.entries| ensures Matches(a, b, j) {
      MatchedAt(a, b, j);
    }
    forall j | 0 <= j < |b.entries| ensures HasType(a, b.entries[j]) {
      MatchedAt(b, a, j);
    }
  }

  lemma MatchedAt(a: List, b: List, j: nat)
    requires Sound(a) && Sound(b) && MeaningOf(a) == MeaningOf(b) && j < |a.entries|
    ensures Matches(a, b, j)
  {
    var e := a.entries[j];
    BoundAt(a, |a.entries|, j);
    var i := BoundFrom(b, |b.entries|, e.key);
    var f := Find(b, e.key).value;
    BoundAt(b, |b.entries|, f);
    SameSenseSameType(e.val, b.entries[f].val);
  }

  lemma {:induction false} CompareValsZero(x: Val, y: Val)
    requires SoundVal(x) && SoundVal(y) && Type(x) == Type(y)
    ensures CompareVals(x, y) == 0 <==> SenseOf(x) == SenseOf(y)
    decreases x, 0
  {
    match x
    case Null =>
    case Bool(_) =>
    case Number(_) =>
    case Str(s) =>
      CmpSeqZero(Codes(s), Codes(y.s));
      CodesInjective(s, y.s);
    case Nested(l) => CompareListsZero(l, y.list);
    case Descriptor(_) =>
    case Binary(s) =>
      CmpSeqZero(Ints(s), Ints(y.bytes));
      IntsInjective(s, y.bytes);
    case Bools(s) =>
      CmpSeqZero(Bits(s), Bits(y.bs));
      BitsInjective(s, y.bs);
    case Numbers(s) =>
      CmpSeqZero(Ints(s), Ints(y.ns));
      IntsInjective(s, y.ns);
    case Strs(s) => CmpStrsZero(s, y.ss);
    case Lists(s) => CompareArraysZero(x, y, 0);
    case Descriptors(s) => CmpSeqZero(s, y.fds);
  }

  lemma {:induction false} CompareArraysZero(x: Val, y: Val, i: nat)
    requires x.Lists? && y.Lists? && SoundVal(x) && SoundVal(y) && i <= |x.lists| && i <= |y.lists|
    requires forall j :: 0 <= j < i ==> MeaningOf(x.lists[j]) == MeaningOf(y.lists[j])
    ensures CompareArrays(x, y.lists, i) == 0 <==> SenseOf(x) == SenseOf(y)
    decreases x, 0, |x.lists| - i
  {
    if i < |x.lists| && i < |y.lists| {
      CompareListsZero(x.lists[i], y.lists[i]);
      if MeaningOf(x.lists[i]) == MeaningOf(y.lists[i]) {
        CompareArraysZero(x, y, i + 1);
      } else {
        assert SenseOf(x).many[i] != SenseOf(y).many[i];
      }
    } else if |x.lists| == |y.lists| {
      assert SenseOf(x).many == SenseOf(y).many;
    } else {
      assert |SenseOf(x).many| != |SenseOf(y).many|;
    }
  }

  /** The comparison finds no difference exactly when the lists mean the same, whatever their order. */
  lemma CompareZero(a: List, b: List)
    requires Sound(a) && Sound(b)
    ensures Compare(Some(a), Some(b)) == 0 <==> MeaningOf(a) == MeaningOf(b)
  {
    CompareListsZero(a, b);
  }

  /** The sign of a comparison of plain values is that of the first difference, and a prefix is smaller. */
  lemma {:induction false} CmpSeqLess(a: seq<int>, b: seq<int>, k: nat)
    requires k <= |a| && k < |b| && a[..k] == b[..k] && (k == |a| || a[k] < b[k])
    ensures CmpSeq(a, b) < 0 && CmpSeq(b, a) > 0
  {
    if k > 0 {
      assert a[0] == a[..k][0] && b[0] == b[..k][0];
      assert a[1..][..k - 1] == a[..k][1..] && b[1..][..k - 1] == b[..k][1..];
      CmpSeqLess(a[1..], b[1..], k - 1);
    }
  }

  /** A list that is missing differs from every list, and so does one with an error. */
  lemma MissingDiffers(a: Option<List>, b: Option<List>)
    ensures a.None? && b.None? ==> Compare(a, b) == 0
    ensures a.None? && b.Some? ==> Compare(a, b) < 0
    ensures a.Some? && b.None? && !a.value.error ==> Compare(a, b) > 0
    ensures a.Some? && a.value.error ==> Compare(a, b) < 0
    ensures a.Some? && b.Some? && !a.value.error && b.value.error ==> Compare(a, b) > 0
  {
  }

  /** So "no difference" is an equivalence. */
  lemma ZeroIsEquivalence(a: List, b: List, c: List)
    requires Sound(a) && Sound(b) && Sound(c)
    ensures Compare(Some(a), Some(a)) == 0
    ensures Compare(Some(a), Some(b)) == 0 <==> Compare(Some(b), Some(a)) == 0
    ensures Compare(Some(a), Some(b)) == 0 && Compare(Some(b), Some(c)) == 0 ==> Compare(Some(a), Some(c)) == 0
  {
    CompareZero(a, a);
    CompareZero(a, b);
    CompareZero(b, a);
    CompareZero(b, c);
    CompareZero(a, c);
  }

  /** The sign is no order: each of two lists can come out greater than the other. */
  lemma SignIsNoOrder()
    ensures var a, b := List(false, [Entry("x", Null)]), List(false, [Entry("y", Null)]);
      Sound(a) && Sound(b) && Compare(Some(a), Some(b)) == 1 && Compare(Some(b), Some(a)) == 1
  {
    var a, b := List(false, [Entry("x", Null)]), List(false, [Entry("y", Null)]);
    assert "x"[0] != "y"[0];
    assert Find(b, "x").None? && Find(a, "y").None?;
    assert CompareFrom(a, b, 0) == 1 && CompareFrom(b, a, 0) == 1;
  }

  // ------------------------------------------------------------------ as a program

  /** `compare_nvlist`: its two loops. */
  method CompareNvlist(a: List, b: List) returns (rc: int)
    ensures rc == CompareLists(a, b)
    ensures Sound(a) && Sound(b) ==> (rc == 0 <==> MeaningOf(a) == MeaningOf(b))
    decreases a, 1
  {
    if Sound(a) && Sound(b) { CompareListsZero(a, b); }
    if a.error {
      return -1;
    }
    if b.error {
      return 1;
    }
    var i := 0;
    while i < |a.entries|
      invariant 0 <= i <= |a.entries| && CompareFrom(a, b, 0) == CompareFrom(a, b, i)
    {
      var e := a.entries[i];
      if !HasType(b, e) {
        return 1;
      }
      rc := CompareValues(e.val, b.entries[Find(b, e.key).value].val);
      if rc != 0 {
        return;
      }
      i := i + 1;
    }
    i := 0;
    while i < |b.entries|
      invariant 0 <= i <= |b.entries| && AllIn(b, a, 0) == AllIn(b, a, i)
    {
      if !HasType(a, b.entries[i]) {
        return -1;
      }
      i := i + 1;
    }
    return 0;
  }

  /** The table of comparisons by type. */
  method CompareValues(x: Val, y: Val) returns (rc: int)
    requires Type(x) == Type(y)
    ensures rc == CompareVals(x, y)
    decreases x, 0
  {
    match x {
      case Nested(l) =>
        rc := CompareNvlist(l, y.list);
      case Lists(ls) =>
        var i := 0;
        while i < |ls| && i < |y.lists|
          invariant 0 <= i <= |ls| && i <= |y.lists|
          invariant CompareArrays(x, y.lists, 0) == CompareArrays(x, y.lists, i)
        {
          rc := CompareNvlist(ls[i], y.lists[i]);
          if rc != 0 {
            return;
          }
          i := i + 1;
        }
        rc := Cmp(|ls|, |y.lists|);
      case _ =>
        rc := CompareVals(x, y);
    }
  }
}
