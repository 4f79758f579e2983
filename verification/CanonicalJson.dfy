/** Canonical JSON as an equality test. */
module CanonicalJson {
  import opened Text
  import opened JsonText

  // ----- key orders ------------------------------------------------------------------------

  /** `a < b` on strings: by code units. */
  predicate UnitsBelow(a: JsString, b: JsString) {
    if b == [] then false
    else if a == [] then true
    else a[0] < b[0] || (a[0] == b[0] && UnitsBelow(a[1..], b[1..]))
  }

  function DigitsValue(k: JsString): nat {
    if k == [] then 0
    else
      var last := k[|k| - 1];
      DigitsValue(k[..|k| - 1]) * 10 + (if IsDigit(last) then last - 0x30 else 0)
  }

  function DecUnits(n: nat): JsString {
    assert forall i :: 0 <= i < |Dec(n)| ==> '0' <= Dec(n)[i] <= '9';
    Units(Dec(n))
  }

  /** A key that is the numeral of an array index comes first in an object's own order. */
  predicate IsIndexKey(k: JsString) {
    DigitsValue(k) < 0xFFFF_FFFF && DecUnits(DigitsValue(k)) == k
  }

  /** An object's own keys: indices ascending, then the others as they were inserted. */
  predicate OwnOrder(a: JsString, b: JsString) {
    if IsIndexKey(a) then !IsIndexKey(b) || DigitsValue(a) < DigitsValue(b)
    else !IsIndexKey(b) && UnitsBelow(a, b)
  }

  // ----- sorting ------------------------------------------------------------------------------

  function InsertBy(less: (JsString, JsString) -> bool, m: Member, ms: seq<Member>): seq<Member> {
    if ms == [] then [m]
    else if less(m.key, ms[0].key) then [m] + ms
    else [ms[0]] + InsertBy(less, m, ms[1..])
  }

  function SortBy(less: (JsString, JsString) -> bool, ms: seq<Member>): seq<Member> {
    if ms == [] then [] else InsertBy(less, ms[0], SortBy(less, ms[1..]))
  }

  function Kept(indices: bool, ms: seq<Member>): seq<Member> {
    if ms == [] then []
    else if IsIndexKey(ms[0].key) == indices then [ms[0]] + Kept(indices, ms[1..])
    else Kept(indices, ms[1..])
  }

  predicate ByIndex(a: JsString, b: JsString) { DigitsValue(a) < DigitsValue(b) }

  /** The order in which an object built from these entries lists them. */
  function OwnEntries(ms: seq<Member>): seq<Member> {
    SortBy(ByIndex, Kept(true, ms)) + Kept(false, ms)
  }

  /** Rebuild every object from its entries sorted by key. */
  function SortKeys(v: Json): Json {
    match v
    case Arr(items) => Arr(seq(|items|, i requires 0 <= i < |items| => SortKeys(items[i])))
    case Obj(members) => Obj(OwnEntries(SortBy(UnitsBelow, SortedValues(v, members))))
    case _ => v
  }

  function SortedValues(whole: Json, members: seq<Member>): (r: seq<Member>)
    requires whole == Obj(members)
    ensures |r| == |members|
    ensures forall i :: 0 <= i < |members| ==> r[i] == Member(members[i].key, SortKeys(members[i].value))
    decreases whole, 0
  {
    seq(|members|, i requires 0 <= i < |members| => Member(members[i].key, SortKeys(members[i].value)))
  }

  function Canonical(v: Json): JsString {
    Print(SortKeys(v))
  }

  // ----- the orders are orders ------------------------------------------------------------------

  lemma {:induction false} UnitsTotal(a: JsString, b: JsString)
    ensures UnitsBelow(a, b) || UnitsBelow(b, a) || a == b
    ensures !(UnitsBelow(a, b) && UnitsBelow(b, a))
    decreases |a|
  {
    if a != [] && b != [] && a[0] == b[0] {
      UnitsTotal(a[1..], b[1..]);
      assert a == [a[0]] + a[1..] && b == [b[0]] + b[1..];
    }
  }

  lemma {:induction false} UnitsTransitive(a: JsString, b: JsString, c: JsString)
    requires UnitsBelow(a, b) && UnitsBelow(b, c)
    ensures UnitsBelow(a, c)
    decreases |a|
  {
    if a != [] && a[0] == b[0] && b[0] == c[0] { UnitsTransitive(a[1..], b[1..], c[1..]); }
  }

  lemma OwnAsymmetric(a: JsString, b: JsString)
    ensures !(OwnOrder(a, b) && OwnOrder(b, a))
  {
    UnitsTotal(a, b);
    hide IsIndexKey;
    hide DigitsValue;
  }

  lemma IndexKeysDiffer(a: JsString, b: JsString)
    requires IsIndexKey(a) && IsIndexKey(b) && a != b
    ensures ByIndex(a, b) || ByIndex(b, a)
  {
  }

  // ----- sorting sorts -----------------------------------------------------------------------------

  ghost predicate HasKey(ms: seq<Member>, k: JsString) {
    exists i :: 0 <= i < |ms| && ms[i].key == k
  }

  /** `less` puts any two of these keys in order. */
  ghost predicate Orders(less: (JsString, JsString) -> bool, ms: seq<Member>) {
    && (forall i, j :: 0 <= i < |ms| && 0 <= j < |ms| && ms[i].key != ms[j].key ==>
      less(ms[i].key, ms[j].key) || less(ms[j].key, ms[i].key))
    && (forall i, j, k :: 0 <= i < |ms| && 0 <= j < |ms| && 0 <= k < |ms| ==>
          less(ms[i].key, ms[j].key) && less(ms[j].key, ms[k].key) ==> less(ms[i].key, ms[k].key))
  }

  ghost predicate SortedBy(less: (JsString, JsString) -> bool, ms: seq<Member>) {
    forall i, j :: 0 <= i < j < |ms| ==> less(ms[i].key, ms[j].key)
  }

  ghost predicate SameElements(a: seq<Member>, b: seq<Member>) {
    forall m :: m in a <==> m in b
  }

  lemma {:induction false} InsertElements(less: (JsString, JsString) -> bool, m: Member, ms: seq<Member>)
    ensures SameElements(InsertBy(less, m, ms), [m] + ms)
  {
    if ms != [] && !less(m.key, ms[0].key) {
      InsertElements(less, m, ms[1..]);
      assert ms == [ms[0]] + ms[1..];
    }
  }

  lemma {:induction false} SortElements(less: (JsString, JsString) -> bool, ms: seq<Member>)
    ensures SameElements(SortBy(less, ms), ms)
  {
    if ms != [] {
      SortElements(less, ms[1..]);
      InsertElements(less, ms[0], SortBy(less, ms[1..]));
      assert ms == [ms[0]] + ms[1..];
    }
  }

  /** Two keys the order must decide between. */
  ghost predicate Decides(less: (JsString, JsString) -> bool, m: Member, ms: seq<Member>) {
    && (forall i :: 0 <= i < |ms| ==> less(m.key, ms[i].key) || less(ms[i].key, m.key))
    && (forall i, j :: 0 <= i < |ms| && 0 <= j < |ms| && less(m.key, ms[i].key) && less(ms[i].key, ms[j].key) ==>
      less(m.key, ms[j].key))
  }

  lemma {:induction false} InsertSorts(less: (JsString, JsString) -> bool, m: Member, ms: seq<Member>)
    requires SortedBy(less, ms) && Decides(less, m, ms)
    ensures SortedBy(less, InsertBy(less, m, ms))
  {
    if ms != [] {
      if less(m.key, ms[0].key) {
        assert forall i :: 0 < i < |ms| ==> less(ms[0].key, ms[i].key);
      } else {
        var rest := InsertBy(less, m, ms[1..]);
        InsertSorts(less, m, ms[1..]);
        InsertElements(less, m, ms[1..]);
        forall i | 0 <= i < |rest| ensures less(ms[0].key, rest[i].key) {
          assert rest[i] in [m] + ms[1..];
        }
      }
    }
  }

  lemma SortedElementsDecide(less: (JsString, JsString) -> bool, ms: seq<Member>, rest: seq<Member>)
    requires ms != [] && Orders(less, ms) && DistinctKeys(ms) && SameElements(rest, ms[1..])
    ensures Decides(less, ms[0], rest)
  {
    forall i | 0 <= i < |rest| ensures exists t :: 0 < t < |ms| && ms[t] == rest[i] {
      assert rest[i] in ms[1..];
      var t :| 0 <= t < |ms[1..]| && ms[1..][t] == rest[i];
      assert ms[t + 1] == rest[i];
    }
  }

  lemma {:induction false} SortSorts(less: (JsString, JsString) -> bool, ms: seq<Member>)
    requires Orders(less, ms) && DistinctKeys(ms)
    ensures SortedBy(less, SortBy(less, ms))
  {
    if ms != [] {
      TailOrders(less, ms);
      SortSorts(less, ms[1..]);
      SortElements(less, ms[1..]);
      SortedElementsDecide(less, ms, SortBy(less, ms[1..]));
      InsertSorts(less, ms[0], SortBy(less, ms[1..]));
    }
  }

  lemma TailOrders(less: (JsString, JsString) -> bool, ms: seq<Member>)
    requires ms != [] && Orders(less, ms) && DistinctKeys(ms)
    ensures Orders(less, ms[1..]) && DistinctKeys(ms[1..])
  {
  }

  lemma {:induction false} KeptElements(indices: bool, ms: seq<Member>)
    ensures forall m :: m in Kept(indices, ms) <==> m in ms && IsIndexKey(m.key) == indices
  {
    if ms != [] {
      KeptElements(indices, ms[1..]);
      assert ms == [ms[0]] + ms[1..];
    }
  }

  lemma {:induction false} KeptSorted(less: (JsString, JsString) -> bool, indices: bool, ms: seq<Member>)
    requires SortedBy(less, ms)
    ensures SortedBy(less, Kept(indices, ms))
  {
    if ms != [] {
      KeptSorted(less, indices, ms[1..]);
      KeptElements(indices, ms[1..]);
      var rest := Kept(indices, ms[1..]);
      forall i | 0 <= i < |rest| ensures less(ms[0].key, rest[i].key) {
        assert rest[i] in ms[1..];
      }
    }
  }

  lemma SortedIsDistinct(ms: seq<Member>)
    requires SortedBy(UnitsBelow, ms)
    ensures DistinctKeys(ms)
  {
    forall i, j | 0 <= i < j < |ms| ensures ms[i].key != ms[j].key { UnitsTotal(ms[i].key, ms[j].key); }
  }

  lemma UnitsOrder(ms: seq<Member>)
    ensures Orders(UnitsBelow, ms)
  {
    forall i, j | 0 <= i < |ms| && 0 <= j < |ms| && ms[i].key != ms[j].key
      ensures UnitsBelow(ms[i].key, ms[j].key) || UnitsBelow(ms[j].key, ms[i].key)
    {
      UnitsTotal(ms[i].key, ms[j].key);
    }
    forall i, j, k | 0 <= i < |ms| && 0 <= j < |ms| && 0 <= k < |ms| && UnitsBelow(ms[i].key, ms[j].key) &&
      UnitsBelow(ms[j].key, ms[k].key)
      ensures UnitsBelow(ms[i].key, ms[k].key)
    {
      UnitsTransitive(ms[i].key, ms[j].key, ms[k].key);
    }
  }

  lemma IndicesOrder(ms: seq<Member>)
    requires forall m :: m in ms ==> IsIndexKey(m.key)
    ensures Orders(ByIndex, ms)
  {
    forall i, j | 0 <= i < |ms| && 0 <= j < |ms| && ms[i].key != ms[j].key
      ensures ByIndex(ms[i].key, ms[j].key) || ByIndex(ms[j].key, ms[i].key)
    {
      assert ms[i] in ms && ms[j] in ms;
      IndexKeysDiffer(ms[i].key, ms[j].key);
    }
  }

  /** The entries of a rebuilt object: sorted by key, then listed in the object's own order. */
  function Rebuilt(ms: seq<Member>): seq<Member> {
    OwnEntries(SortBy(UnitsBelow, ms))
  }

  lemma RebuiltElements(ms: seq<Member>)
    ensures SameElements(Rebuilt(ms), ms)
  {
    var s := SortBy(UnitsBelow, ms);
    SortElements(UnitsBelow, ms);
    KeptElements(true, s);
    KeptElements(false, s);
    SortElements(ByIndex, Kept(true, s));
  }

  lemma RebuiltSorted(ms: seq<Member>)
    requires DistinctKeys(ms)
    ensures SortedBy(OwnOrder, Rebuilt(ms))
  {
    var s := SortBy(UnitsBelow, ms);
    UnitsOrder(ms);
    SortSorts(UnitsBelow, ms);
    var front, back := SortBy(ByIndex, Kept(true, s)), Kept(false, s);
    KeptElements(true, s);
    KeptElements(false, s);
    KeptSorted(UnitsBelow, true, s);
    KeptSorted(UnitsBelow, false, s);
    SortedIsDistinct(Kept(true, s));
    IndicesOrder(Kept(true, s));
    SortSorts(ByIndex, Kept(true, s));
    SortElements(ByIndex, Kept(true, s));
    Concatenated(front, back);
  }

  lemma Concatenated(front: seq<Member>, back: seq<Member>)
    requires SortedBy(ByIndex, front) && SortedBy(UnitsBelow, back)
    requires forall m :: m in front ==> IsIndexKey(m.key)
    requires forall m :: m in back ==> !IsIndexKey(m.key)
    ensures SortedBy(OwnOrder, front + back)
  {
    var all := front + back;
    hide IsIndexKey;
    forall i, j | 0 <= i < j < |all| ensures OwnOrder(all[i].key, all[j].key) {
      assert i < |front| ==> all[i] == front[i] && front[i] in front;
      assert j < |front| ==> all[j] == front[j] && front[j] in front;
      assert i >= |front| ==> all[i] == back[i - |front|] && back[i - |front|] in back;
      assert j >= |front| ==> all[j] == back[j - |front|] && back[j - |front|] in back;
    }
  }

  /** Sorted lists with the same entries are the same list. */
  lemma {:induction false} SortedUnique(a: seq<Member>, b: seq<Member>)
    requires SortedBy(OwnOrder, a) && SortedBy(OwnOrder, b) && SameElements(a, b)
    ensures a == b
    decreases |a|
  {
    HeadIsIn(b);
    if a != [] {
      assert a[0] in a;
      assert b != [] && b[0] in b;
      SameHeads(a, b);
      TailElements(a, b);
      SortedUnique(a[1..], b[1..]);
      assert a == [a[0]] + a[1..] && b == [b[0]] + b[1..];
    }
  }

  lemma HeadIsIn(b: seq<Member>)
    ensures b != [] ==> b[0] in b
  {
  }

  lemma SameHeads(a: seq<Member>, b: seq<Member>)
    requires a != [] && b != [] && SortedBy(OwnOrder, a) && SortedBy(OwnOrder, b) && SameElements(a, b)
    ensures a[0] == b[0]
  {
    assert a[0] in b && b[0] in a by { assert a[0] in a && b[0] in b; }
    var i :| 0 <= i < |b| && b[i] == a[0];
    var j :| 0 <= j < |a| && a[j] == b[0];
    OwnAsymmetric(a[0].key, b[0].key);
  }

  lemma TailElements(a: seq<Member>, b: seq<Member>)
    requires a != [] && b != [] && SortedBy(OwnOrder, a) && SortedBy(OwnOrder, b) && SameElements(a, b) && a[0] == b[0]
    ensures SameElements(a[1..], b[1..])
  {
    HeadNotInTail(a);
    HeadNotInTail(b);
    hide SortedBy;
    forall m ensures m in a[1..] <==> m in b[1..] {
      assert a == [a[0]] + a[1..] && b == [b[0]] + b[1..];
      assert m in a <==> m in b;
    }
  }

  lemma HeadNotInTail(a: seq<Member>)
    requires a != [] && SortedBy(OwnOrder, a)
    ensures a[0] !in a[1..]
  {
    OwnAsymmetric(a[0].key, a[0].key);
    forall i | 0 <= i < |a[1..]| ensures a[1..][i] != a[0] { assert OwnOrder(a[0].key, a[i + 1].key); }
  }

  lemma RebuiltDecides(a: seq<Member>, b: seq<Member>)
    requires DistinctKeys(a) && DistinctKeys(b)
    ensures Rebuilt(a) == Rebuilt(b) <==> SameElements(a, b)
  {
    RebuiltElements(a);
    RebuiltElements(b);
    if SameElements(a, b) {
      RebuiltSorted(a);
      RebuiltSorted(b);
      SortedUnique(Rebuilt(a), Rebuilt(b));
    }
  }

  // ----- equal up to key order ---------------------------------------------------------------------

  ghost predicate SameKeys(a: seq<Member>, b: seq<Member>) {
    forall k :: HasKey(a, k) <==> HasKey(b, k)
  }

  /** The same value, whatever order its objects list their keys in. */
  ghost predicate Same(a: Json, b: Json) {
    match a
    case Arr(items) => b.Arr? && |b.items| == |items| && forall i :: 0 <= i < |items| ==> Same(items[i], b.items[i])
    case Obj(members) =>
      b.Obj? && SameKeys(members, b.members) &&
      forall i, j :: 0 <= i < |members| && 0 <= j < |b.members| && members[i].key == b.members[j].key ==>
        Same(members[i].value, b.members[j].value)
    case _ => a == b
  }

  lemma {:induction false} SortKeysDecides(a: Json, b: Json)
    requires WellFormed(a) && WellFormed(b)
    ensures SortKeys(a) == SortKeys(b) <==> Same(a, b)
  {
    if a.Arr? && b.Arr? {
      if |a.items| == |b.items| {
        forall i | 0 <= i < |a.items| ensures SortKeys(a.items[i]) == SortKeys(b.items[i]) <==>
          Same(a.items[i], b.items[i]) {
          SortKeysDecides(a.items[i], b.items[i]);
        }
        SortedArrays(a, b);
      } else {
        assert |SortKeys(a).items| == |a.items| && |SortKeys(b).items| == |b.items|;
      }
    } else if a.Obj? && b.Obj? {
      var x, y := SortedValues(a, a.members), SortedValues(b, b.members);
      forall i, j | 0 <= i < |a.members| && 0 <= j < |b.members|
        ensures SortKeys(a.members[i].value) == SortKeys(b.members[j].value) <==>
            Same(a.members[i].value, b.members[j].value)
      {
        SortKeysDecides(a.members[i].value, b.members[j].value);
      }
      RebuiltDecides(x, y);
      SortedObjects(a, b, x, y);
    }
  }

  lemma SortedArrays(a: Json, b: Json)
    requires a.Arr? && b.Arr? && |a.items| == |b.items|
    ensures SortKeys(a) == SortKeys(b) <==> forall i :: 0 <= i < |a.items| ==>
        SortKeys(a.items[i]) == SortKeys(b.items[i])
  {
    var x, y := SortKeys(a).items, SortKeys(b).items;
    assert forall i :: 0 <= i < |a.items| ==> x[i] == SortKeys(a.items[i]) && y[i] == SortKeys(b.items[i]);
    if forall i :: 0 <= i < |a.items| ==> SortKeys(a.items[i]) == SortKeys(b.items[i]) { assert x == y; }
  }

  /** The children agree in pairs of equal keys, as the induction hands them over. */
  lemma SortedObjects(a: Json, b: Json, x: seq<Member>, y: seq<Member>)
    requires a.Obj? && b.Obj? && DistinctKeys(a.members) && DistinctKeys(b.members)
    requires x == SortedValues(a, a.members) && y == SortedValues(b, b.members)
    requires forall i, j :: 0 <= i < |a.members| && 0 <= j < |b.members| ==>
      (SortKeys(a.members[i].value) == SortKeys(b.members[j].value) <==> Same(a.members[i].value, b.members[j].value))
    ensures SameElements(x, y) <==> Same(a, b)
  {
    if SameElements(x, y) {
      ElementsGiveKeys(a.members, b.members, x, y);
      ElementsGiveKeys(b.members, a.members, y, x);
      forall i, j | 0 <= i < |a.members| && 0 <= j < |b.members| && a.members[i].key == b.members[j].key
        ensures Same(a.members[i].value, b.members[j].value)
      {
        assert x[i] in x;
        var t :| 0 <= t < |y| && y[t] == x[i];
        assert b.members[t].key == b.members[j].key;
        assert t == j;
      }
    }
    if Same(a, b) {
      SameGivesElements(a, b, x, y);
    }
  }

  lemma ElementsGiveKeys(a: seq<Member>, b: seq<Member>, x: seq<Member>, y: seq<Member>)
    requires |x| == |a| && |y| == |b| && SameElements(x, y)
    requires forall i :: 0 <= i < |a| ==> x[i].key == a[i].key
    requires forall i :: 0 <= i < |b| ==> y[i].key == b[i].key
    ensures forall k :: HasKey(a, k) ==> HasKey(b, k)
  {
    forall k | HasKey(a, k) ensures HasKey(b, k) {
      var i :| 0 <= i < |a| && a[i].key == k;
      assert x[i] in x;
      var t :| 0 <= t < |y| && y[t] == x[i];
      assert b[t].key == k;
    }
  }

  lemma SameGivesElements(a: Json, b: Json, x: seq<Member>, y: seq<Member>)
    requires a.Obj? && b.Obj? && Same(a, b)
    requires x == SortedValues(a, a.members) && y == SortedValues(b, b.members)
    requires forall i, j :: 0 <= i < |a.members| && 0 <= j < |b.members| ==>
      (SortKeys(a.members[i].value) == SortKeys(b.members[j].value) <==> Same(a.members[i].value, b.members[j].value))
    ensures SameElements(x, y)
  {
    forall i | 0 <= i < |x| ensures x[i] in y {
      assert HasKey(a.members, a.members[i].key);
      var j :| 0 <= j < |b.members| && b.members[j].key == a.members[i].key;
      assert y[j] == x[i];
    }
    forall j | 0 <= j < |y| ensures y[j] in x {
      assert HasKey(b.members, b.members[j].key);
      var i :| 0 <= i < |a.members| && a.members[i].key == b.members[j].key;
      assert x[i] == y[j];
    }
  }

  // ----- the rebuilt value is well formed ------------------------------------------------------------

  lemma OwnSortedIsDistinct(ms: seq<Member>)
    requires SortedBy(OwnOrder, ms)
    ensures DistinctKeys(ms)
  {
    forall i, j | 0 <= i < j < |ms| ensures ms[i].key != ms[j].key { OwnAsymmetric(ms[i].key, ms[j].key); }
  }

  lemma {:induction false} SortKeysWellFormed(v: Json)
    requires WellFormed(v)
    ensures WellFormed(SortKeys(v))
  {
    match v {
      case Arr(items) =>
        forall i | 0 <= i < |items| ensures WellFormed(SortKeys(items[i])) { SortKeysWellFormed(items[i]); }
      case Obj(members) =>
        var x := SortedValues(v, members);
        forall i | 0 <= i < |members| ensures WellFormed(x[i].value) { SortKeysWellFormed(members[i].value); }
        RebuiltSorted(x);
        RebuiltElements(x);
        OwnSortedIsDistinct(Rebuilt(x));
        RebuiltWellFormed(x, Rebuilt(x));
      case _ =>
    }
  }

  lemma RebuiltWellFormed(x: seq<Member>, r: seq<Member>)
    requires SameElements(r, x) && forall i :: 0 <= i < |x| ==> WellFormed(x[i].value)
    ensures forall i :: 0 <= i < |r| ==> WellFormed(r[i].value)
  {
    forall i | 0 <= i < |r| ensures WellFormed(r[i].value) {
      assert r[i] in x;
      var t :| 0 <= t < |x| && x[t] == r[i];
    }
  }

  /** Canonical texts decide equality: they are the same exactly for values that are equal
      up to the order of object keys. */
  lemma {:induction false} CanonicalDecidesEquality(a: Json, b: Json)
    requires WellFormed(a) && WellFormed(b)
    ensures Canonical(a) == Canonical(b) <==> Same(a, b)
  {
    SortKeysWellFormed(a);
    SortKeysWellFormed(b);
    PrintInjective(SortKeys(a), SortKeys(b));
    SortKeysDecides(a, b);
  }

  // ----- what the canonical text says ------------------------------------------------------------------

  /** Every object lists its keys in order: indices ascending, then the others by code units. */
  ghost predicate Ordered(v: Json) {
    match v
    case Arr(items) => forall i :: 0 <= i < |items| ==> Ordered(items[i])
    case Obj(members) => SortedBy(OwnOrder, members) && forall i :: 0 <= i < |members| ==> Ordered(members[i].value)
    case _ => true
  }

  /** The rebuilt members carry the same keys, and each the value rebuilt for it. */
  lemma RebuiltSame(members: seq<Member>, x: seq<Member>)
    requires |x| == |members| && DistinctKeys(members)
    requires forall i :: 0 <= i < |x| ==>
        x[i].key == members[i].key && Same(x[i].value, members[i].value) && Ordered(x[i].value)
    ensures Same(Obj(Rebuilt(x)), Obj(members)) && forall i :: 0 <= i < |Rebuilt(x)| ==> Ordered(Rebuilt(x)[i].value)
  {
    var r := Rebuilt(x);
    RebuiltElements(x);
    hide Rebuilt;
    forall k ensures HasKey(r, k) <==> HasKey(members, k) {
      if HasKey(r, k) {
        var i :| 0 <= i < |r| && r[i].key == k;
        assert r[i] in x;
        var t :| 0 <= t < |x| && x[t] == r[i];
        assert members[t].key == k;
      }
      if HasKey(members, k) {
        var t :| 0 <= t < |members| && members[t].key == k;
        assert x[t] in r;
        var i :| 0 <= i < |r| && r[i] == x[t];
        assert r[i].key == k;
      }
    }
    forall i | 0 <= i < |r|
      ensures Ordered(r[i].value)
      ensures forall j :: 0 <= j < |members| && members[j].key == r[i].key ==> Same(r[i].value, members[j].value)
    {
      assert r[i] in x;
      var t :| 0 <= t < |x| && x[t] == r[i];
    }
  }

  /** Rebuilding only reorders: the value is the same up to key order, and in order. */
  lemma {:induction false} SortKeysKeeps(v: Json)
    requires WellFormed(v)
    ensures Same(SortKeys(v), v) && Ordered(SortKeys(v))
  {
    match v {
      case Arr(items) =>
        forall i | 0 <= i < |items| ensures Same(SortKeys(items[i]), items[i]) && Ordered(SortKeys(items[i])) {
          SortKeysKeeps(items[i]);
        }
      case Obj(members) =>
        var x := SortedValues(v, members);
        forall i | 0 <= i < |members| ensures Same(x[i].value, members[i].value) && Ordered(x[i].value) {
          SortKeysKeeps(members[i].value);
        }
        RebuiltSorted(x);
        RebuiltSame(members, x);
      case _ =>
    }
  }

  /** Read as JSON, the canonical text of a value is that value, its keys in order. */
  lemma CanonicalReadsBack(v: Json)
    requires WellFormed(v)
    ensures ReadValue(Canonical(v)).Got? && ReadValue(Canonical(v)).rest == []
    ensures var w := ReadValue(Canonical(v)).value; Same(w, v) && Ordered(w)
  {
    SortKeysWellFormed(v);
    SortKeysKeeps(v);
    PrintReadsBack(SortKeys(v));
    hide ReadValue;
    hide Same;
    hide Ordered;
  }

  // ----- the pass registry ------------------------------------------------------------------------------

  datatype Submission = Submission(toolName: JsString, payload: Json)

  const TOOL_NAME := Units("tool_name")
  const PAYLOAD := Units("payload")

  function AsJson(s: Submission): Json {
    Obj([Member(TOOL_NAME, Str(s.toolName)), Member(PAYLOAD, s.payload)])
  }

  lemma SubmissionWellFormed(s: Submission)
    requires WellFormed(s.payload)
    ensures WellFormed(AsJson(s))
  {
    var ms := AsJson(s).members;
    assert TOOL_NAME[0] == 't' as int && PAYLOAD[0] == 'p' as int;
    forall i | 0 <= i < |ms| ensures WellFormed(ms[i].value) {
      assert ms[0].value == Str(s.toolName) && ms[1].value == s.payload;
      assert WellFormed(Str(s.toolName));
    }
  }

  lemma SubmissionText(a: Submission, b: Submission)
    requires WellFormed(a.payload) && WellFormed(b.payload)
    ensures Canonical(AsJson(a)) == Canonical(AsJson(b)) <==> a.toolName == b.toolName && Same(a.payload, b.payload)
  {
    SubmissionWellFormed(a);
    SubmissionWellFormed(b);
    hide WellFormed;
    var x, y := AsJson(a), AsJson(b);
    assert TOOL_NAME[0] != PAYLOAD[0];
    CanonicalDecidesEquality(x, y);
    assert x.members[0].key == y.members[0].key && x.members[1].key == y.members[1].key;
    forall k ensures HasKey(x.members, k) <==> HasKey(y.members, k) {
      KeysOfSubmission(a, k);
      KeysOfSubmission(b, k);
    }
    assert Same(Str(a.toolName), Str(b.toolName)) <==> a.toolName == b.toolName;
    hide Canonical;
  }

  lemma KeysOfSubmission(s: Submission, k: JsString)
    ensures HasKey(AsJson(s).members, k) <==> k == TOOL_NAME || k == PAYLOAD
  {
    var ms := AsJson(s).members;
    assert ms[0].key == TOOL_NAME && ms[1].key == PAYLOAD;
  }

  datatype Pass = Pass(runId: string, submission: Submission)

  /** An equal submission passed for this run. */
  ghost predicate Passed(recorded: seq<Pass>, runId: string, s: Submission) {
    exists i :: 0 <= i < |recorded| && recorded[i].runId == runId &&
      recorded[i].submission.toolName == s.toolName && Same(recorded[i].submission.payload, s.payload)
  }

  ghost predicate TextKept(recorded: seq<Pass>, runId: string, text: JsString) {
    exists i :: 0 <= i < |recorded| && recorded[i].runId == runId && Canonical(AsJson(recorded[i].submission)) == text
  }

  lemma TextKeptGrows(recorded: seq<Pass>, p: Pass, runId: string, text: JsString)
    ensures TextKept(recorded + [p], runId, text) <==>
            TextKept(recorded, runId, text) || (p.runId == runId && Canonical(AsJson(p.submission)) == text)
  {
    hide Canonical;
    var more := recorded + [p];
    assert more[|recorded|] == p;
    if TextKept(recorded, runId, text) {
      var i :| 0 <= i < |recorded| && recorded[i].runId == runId && Canonical(AsJson(recorded[i].submission)) == text;
      assert more[i] == recorded[i];
    }
  }

  lemma TextKeptMeansPassed(recorded: seq<Pass>, runId: string, s: Submission)
    requires WellFormed(s.payload) && forall i :: 0 <= i < |recorded| ==> WellFormed(recorded[i].submission.payload)
    ensures TextKept(recorded, runId, Canonical(AsJson(s))) <==> Passed(recorded, runId, s)
  {
    forall i | 0 <= i < |recorded|
      ensures Canonical(AsJson(recorded[i].submission)) == Canonical(AsJson(s)) <==>
              recorded[i].submission.toolName == s.toolName && Same(recorded[i].submission.payload, s.payload)
    {
      SubmissionText(recorded[i].submission, s);
    }
    hide Canonical;
    hide Same;
    hide AsJson;
  }

  class AdvisorPassRegistry {
    var passes: map<string, set<JsString>>
    ghost var recorded: seq<Pass>

    /** The texts kept for a run are those of its recorded submissions. */
    ghost predicate Valid()
      reads this
    {
      && (forall i :: 0 <= i < |recorded| ==> WellFormed(recorded[i].submission.payload))
      && (forall runId, text :: runId in passes && text in passes[runId] <==> TextKept(recorded, runId, text))
    }

    constructor ()
      ensures Valid() && recorded == []
    {
      passes, recorded := map[], [];
    }

    method RecordPass(runId: string, submission: Submission)
      requires Valid() && WellFormed(submission.payload)
      modifies this
      ensures Valid() && recorded == old(recorded) + [Pass(runId, submission)]
    {
      hide WellFormed;
      hide Canonical;
      hide TextKept;
      var key := Canonical(AsJson(submission));
      var existing := if runId in passes then passes[runId] else {};
      passes := passes[runId := existing + {key}];
      recorded := recorded + [Pass(runId, submission)];
      forall r, text ensures r in passes && text in passes[r] <==> TextKept(recorded, r, text) {
        TextKeptGrows(old(recorded), Pass(runId, submission), r, text);
      }
    }

    /** True exactly when an equal submission was recorded for the run. */
    method HasPass(runId: string, submission: Submission) returns (has: bool)
      requires Valid() && WellFormed(submission.payload)
      ensures has <==> Passed(recorded, runId, submission)
    {
      var key := Canonical(AsJson(submission));
      has := runId in passes && key in passes[runId];
      TextKeptMeansPassed(recorded, runId, submission);
    }
  }
}
