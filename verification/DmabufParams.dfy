/** Assembling a dmabuf from its planes, and the choice between its two encodings. */
module DmabufParams {
  import opened Wrappers

  /** A plane owns its file descriptor, so no two planes have the same `fd`. */
  datatype Plane = Plane(fd: nat, offset: nat, stride: nat)

  datatype Error = MissingObject | DifferingModifiers | UnknownFormat | NoModifier | NoPlanes

  // ---------------------------------------------------------------------------------------------
  // Modifiers travel in two halves
  // ---------------------------------------------------------------------------------------------

  function Join(hi: bv32, lo: bv32): bv64 {
    ((hi as bv64) << 32) | (lo as bv64)
  }

  function Hi(m: bv64): bv32 {
    ((m >> 32) & 0xFFFF_FFFF) as bv32
  }

  function Lo(m: bv64): bv32 {
    (m & 0xFFFF_FFFF) as bv32
  }

  lemma ModifierRoundTrip(m: bv64)
    ensures Join(Hi(m), Lo(m)) == m
  {
  }

  lemma HalvesRoundTrip(hi: bv32, lo: bv32)
    ensures Hi(Join(hi, lo)) == hi && Lo(Join(hi, lo)) == lo
  {
  }

  // ---------------------------------------------------------------------------------------------
  // Adding planes
  // ---------------------------------------------------------------------------------------------

  datatype Params = Params(planes: map<nat, Plane>, modifier: Option<bv64>)

  datatype Addition = Addition(index: nat, plane: Plane, modifier: bv64)

  const EMPTY := Params(map[], None)

  function Added(p: Params, a: Addition): (Params, Result<(), Error>) {
    var stored := if p.modifier.Some? then p.modifier.value else a.modifier;
    if a.index in p.planes then (p, Err(MissingObject))
    else if a.modifier != stored then (p, Err(DifferingModifiers))
    else (Params(p.planes[a.index := a.plane], Some(stored)), Ok(()))
  }

  function AddedAll(p: Params, adds: seq<Addition>): Params {
    if adds == [] then p else Added(AddedAll(p, adds[..|adds| - 1]), adds[|adds| - 1]).0
  }

  ghost predicate Increasing(ks: seq<nat>) {
    forall i, j | 0 <= i < j < |ks| :: ks[i] < ks[j]
  }

  /** `list` is the planes of `m` in the order of their indices. */
  ghost predicate IndexSorted(list: seq<Plane>, m: map<nat, Plane>) {
    exists ks :: SortedBy(ks, list, m)
  }

  ghost predicate SortedBy(ks: seq<nat>, list: seq<Plane>, m: map<nat, Plane>) {
    && Increasing(ks) && (forall k :: k in ks <==> k in m)
    && |list| == |ks| && forall i | 0 <= i < |ks| :: list[i] == m[ks[i]]
  }

  lemma TailIncreases(ks: seq<nat>)
    requires Increasing(ks) && ks != []
    ensures Increasing(ks[1..])
    ensures forall k :: k in ks[1..] <==> k in ks && k != ks[0]
    ensures forall k | k in ks :: ks[0] <= k
  {
    var t := ks[1..];
    forall i, j | 0 <= i < j < |t| ensures t[i] < t[j] {
      assert ks[i + 1] < ks[j + 1];
    }
    assert ks == [ks[0]] + t;
    assert forall i | 0 <= i < |t| :: t[i] == ks[i + 1] > ks[0];
  }

  lemma NonEmptyHasElement(ks: seq<nat>)
    ensures ks != [] ==> exists k :: k in ks
  {
    assert ks != [] ==> ks[0] in ks;
  }

  /** Sorting does not see the order in which the hash table gave the entries. */
  lemma {:induction false} IncreasingIsUnique(a: seq<nat>, b: seq<nat>)
    requires Increasing(a) && Increasing(b) && forall k :: k in a <==> k in b
    ensures a == b
    decreases |a|
  {
    if a == [] {
      NonEmptyHasElement(b);
    } else {
      assert a[0] in b;
      TailIncreases(a);
      TailIncreases(b);
      assert b[0] in a;
      IncreasingIsUnique(a[1..], b[1..]);
      assert a == [a[0]] + a[1..] && b == [b[0]] + b[1..];
    }
  }

  lemma IndexSortedIsUnique(a: seq<Plane>, b: seq<Plane>, m: map<nat, Plane>)
    requires IndexSorted(a, m) && IndexSorted(b, m)
    ensures a == b
  {
    var ks :| SortedBy(ks, a, m);
    var ls :| SortedBy(ls, b, m);
    IncreasingIsUnique(ks, ls);
  }

  lemma {:induction false} IncreasingCounts(ks: seq<nat>, s: set<nat>)
    requires Increasing(ks) && forall k :: k in ks <==> k in s
    ensures |ks| == |s|
    decreases |ks|
  {
    if ks == [] {
      assert s == {};
    } else {
      TailIncreases(ks);
      assert ks[0] in s;
      IncreasingCounts(ks[1..], s - {ks[0]});
    }
  }

  lemma SortedLength(list: seq<Plane>, m: map<nat, Plane>)
    requires IndexSorted(list, m)
    ensures |list| == |m|
  {
    var ks :| SortedBy(ks, list, m);
    IncreasingCounts(ks, m.Keys);
    assert |m| == |m.Keys|;
  }

  function Inserted(ks: seq<nat>, k: nat): seq<nat> {
    if ks == [] then [k]
    else if k < ks[0] then [k] + ks
    else [ks[0]] + Inserted(ks[1..], k)
  }

  lemma ConsIncreases(k: nat, ks: seq<nat>)
    requires Increasing(ks) && forall x | x in ks :: k < x
    ensures Increasing([k] + ks)
  {
    forall i | 0 <= i < |ks| ensures k < ks[i] {
      assert ks[i] in ks;
    }
  }

  lemma {:induction false} InsertedIncreases(ks: seq<nat>, k: nat)
    requires Increasing(ks) && k !in ks
    ensures Increasing(Inserted(ks, k))
    ensures forall x :: x in Inserted(ks, k) <==> x in ks || x == k
  {
    if ks != [] {
      TailIncreases(ks);
      if k < ks[0] {
        ConsIncreases(k, ks);
      } else {
        InsertedIncreases(ks[1..], k);
        ConsIncreases(ks[0], Inserted(ks[1..], k));
      }
    }
  }

  class BufferParams {
    var planes: map<nat, Plane>
    var modifier: Option<bv64>

    ghost function View(): Params
      reads this
    {
      Params(planes, modifier)
    }

    constructor ()
      ensures View() == EMPTY
    {
      planes, modifier := map[], None;
    }

    method Add(index: nat, plane: Plane, hi: bv32, lo: bv32) returns (r: Result<(), Error>)
      modifies this
      ensures (View(), r) == Added(old(View()), Addition(index, plane, Join(hi, lo)))
    {
      if index in planes {
        return Err(MissingObject);
      }
      var m := Join(hi, lo);
      if modifier.None? {
        modifier := Some(m);
      }
      if m != modifier.value {
        return Err(DifferingModifiers);
      }
      planes := planes[index := plane];
      return Ok(());
    }

    /** Empties the table; the hash table gives the entries in any order, and they are sorted. */
    method TakeSorted() returns (list: seq<Plane>)
      modifies this
      ensures View() == old(View()).(planes := map[])
      ensures IndexSorted(list, old(planes))
    {
      var left := planes.Keys;
      var ks: seq<nat> := [];
      while left != {}
        invariant left <= planes.Keys && planes == old(planes) && modifier == old(modifier)
        invariant Increasing(ks) && forall k :: k in ks <==> k in planes && k !in left
        decreases left
      {
        var k :| k in left;
        InsertedIncreases(ks, k);
        ks := Inserted(ks, k);
        left := left - {k};
      }
      list := seq(|ks|, i requires 0 <= i < |ks| && ks[i] in planes reads this => planes[ks[i]]);
      assert SortedBy(ks, list, planes);
      planes := map[];
    }

    /** `from_params`: the planes are taken before the modifier is looked at. */
    method FromParams(stats: seq<Option<File>>) returns (r: Result<Encoding, Error>)
      requires |stats| == |planes|
      modifies this
      ensures View() == old(View()).(planes := map[])
      ensures old(modifier).None? ==> r == Err(NoModifier)
      ensures old(modifier).Some? ==> exists list | IndexSorted(list, old(planes)) :: r == Encoded(list, stats)
    {
      var list := TakeSorted();
      SortedLength(list, old(planes));
      if modifier.None? {
        return Err(NoModifier);
      }
      r := Encode(list, stats);
    }
  }

  /** Distinct indices and one modifier. */
  ghost predicate Compatible(adds: seq<Addition>) {
    && (forall i, j | 0 <= i < j < |adds| :: adds[i].index != adds[j].index)
    && (forall i, j | 0 <= i < j < |adds| :: adds[i].modifier == adds[j].modifier)
  }

  predicate Stored(p: Params, a: Addition) {
    a.index in p.planes && p.planes[a.index] == a.plane && p.modifier == Some(a.modifier)
  }

  ghost predicate Named(adds: seq<Addition>, k: nat) {
    exists i | 0 <= i < |adds| :: adds[i].index == k
  }

  lemma {:induction false} NothingElseIsStored(adds: seq<Addition>, k: nat)
    requires k in AddedAll(EMPTY, adds).planes
    ensures Named(adds, k)
    decreases |adds|
  {
    if adds != [] {
      var before := adds[..|adds| - 1];
      if k in AddedAll(EMPTY, before).planes {
        NothingElseIsStored(before, k);
        var i :| 0 <= i < |before| && before[i].index == k;
        assert adds[i].index == k;
      }
    }
  }

  /** Compatible additions are all accepted. */
  lemma {:induction false} CompatibleAreStored(adds: seq<Addition>)
    requires Compatible(adds)
    ensures forall i | 0 <= i < |adds| :: Stored(AddedAll(EMPTY, adds), adds[i])
    decreases |adds|
  {
    if adds != [] {
      var n := |adds| - 1;
      var before := adds[..n];
      assert forall i | 0 <= i < n :: before[i] == adds[i];
      CompatibleAreStored(before);
      var p := AddedAll(EMPTY, before);
      if adds[n].index in p.planes {
        NothingElseIsStored(before, adds[n].index);
        assert false;
      }
      if n > 0 {
        assert Stored(p, before[0]);
      } else {
        assert p == EMPTY;
      }
      forall i | 0 <= i < |adds| ensures Stored(AddedAll(EMPTY, adds), adds[i]) {
        if i < n {
          assert Stored(p, before[i]) && adds[i].index != adds[n].index;
        }
      }
    }
  }

  /** Any two orders of the same compatible additions give the same table and modifier, hence the same
      list of planes. */
  lemma AnyOrder(adds: seq<Addition>, others: seq<Addition>)
    requires Compatible(adds) && Compatible(others) && multiset(adds) == multiset(others)
    ensures AddedAll(EMPTY, adds) == AddedAll(EMPTY, others)
  {
    var (p, q) := (AddedAll(EMPTY, adds), AddedAll(EMPTY, others));
    forall k | k in p.planes ensures k in q.planes && q.planes[k] == p.planes[k] {
      SameAddition(adds, others, k);
    }
    forall k | k in q.planes ensures k in p.planes {
      SameAddition(others, adds, k);
    }
    assert p.planes == q.planes;
    assert |adds| == |multiset(adds)| == |others|;
    if adds == [] {
      assert others == [];
    } else {
      CompatibleAreStored(adds);
      assert Stored(p, adds[0]);
      SameAddition(adds, others, adds[0].index);
    }
  }

  lemma SameAddition(adds: seq<Addition>, others: seq<Addition>, k: nat)
    requires Compatible(adds) && Compatible(others) && multiset(adds) == multiset(others)
    requires k in AddedAll(EMPTY, adds).planes
    ensures k in AddedAll(EMPTY, others).planes
    ensures AddedAll(EMPTY, others).planes[k] == AddedAll(EMPTY, adds).planes[k]
    ensures AddedAll(EMPTY, others).modifier == AddedAll(EMPTY, adds).modifier
  {
    CompatibleAreStored(adds);
    CompatibleAreStored(others);
    NothingElseIsStored(adds, k);
    var i :| 0 <= i < |adds| && adds[i].index == k;
    assert adds[i] in multiset(adds) && adds[i] in multiset(others);
    var j :| 0 <= j < |others| && others[j] == adds[i];
    assert Stored(AddedAll(EMPTY, adds), adds[i]) && Stored(AddedAll(EMPTY, others), others[j]);
  }

  predicate Accepted(adds: seq<Addition>, i: nat)
    requires i < |adds|
  {
    Added(AddedAll(EMPTY, adds[..i]), adds[i]).1.Ok?
  }

  lemma CompatibleIsAccepted(adds: seq<Addition>, i: nat)
    requires Compatible(adds) && i < |adds|
    ensures Accepted(adds, i)
  {
    var before := adds[..i];
    assert forall j | 0 <= j < i :: before[j] == adds[j];
    var p := AddedAll(EMPTY, before);
    CompatibleAreStored(before);
    if adds[i].index in p.planes {
      NothingElseIsStored(before, adds[i].index);
      assert false;
    }
    if i > 0 {
      assert Stored(p, before[0]);
    } else {
      assert p == EMPTY;
    }
  }

  lemma {:induction false} AcceptedIsCompatible(adds: seq<Addition>)
    requires forall i | 0 <= i < |adds| :: Accepted(adds, i)
    ensures Compatible(adds)
    decreases |adds|
  {
    if adds != [] {
      var n := |adds| - 1;
      var before := adds[..n];
      forall i | 0 <= i < n ensures Accepted(before, i) {
        assert Accepted(adds, i) && before[..i] == adds[..i];
      }
      AcceptedIsCompatible(before);
      CompatibleAreStored(before);
      assert Accepted(adds, n);
      forall i | 0 <= i < n ensures adds[i].index != adds[n].index && adds[i].modifier == adds[n].modifier {
        assert Stored(AddedAll(EMPTY, before), before[i]);
      }
      forall i, j | 0 <= i < j < |adds| ensures adds[i].index != adds[j].index && adds[i].modifier == adds[j].modifier {
        assert j < n ==> before[i].index != before[j].index && before[i].modifier == before[j].modifier;
      }
    }
  }

  /** A sequence of additions is accepted as a whole exactly when it is compatible. */
  lemma AllAcceptedIff(adds: seq<Addition>)
    ensures (forall i | 0 <= i < |adds| :: Accepted(adds, i)) <==> Compatible(adds)
  {
    if Compatible(adds) {
      forall i | 0 <= i < |adds| ensures Accepted(adds, i) {
        CompatibleIsAccepted(adds, i);
      }
    }
    if forall i | 0 <= i < |adds| :: Accepted(adds, i) {
      AcceptedIsCompatible(adds);
    }
  }

  // ---------------------------------------------------------------------------------------------
  // Each plane reaches at most one import
  // ---------------------------------------------------------------------------------------------

  /** `taken` are the planes that creations took out of the table, in order; a creation imports what it
      took at most once, and drops it if anything fails on the way. `accepted` and `used` are histories. */
  datatype World = World(params: Params, taken: seq<Plane>, accepted: set<Plane>, used: set<nat>)

  /** `Create` is `create` or `create_immed`; an unknown format returns before the planes are taken. */
  datatype Step = Add(a: Addition) | Create(known: bool, list: seq<Plane>)

  const START := World(EMPTY, [], {}, {})

  ghost predicate Enabled(w: World, s: Step) {
    match s
    case Add(a) => a.plane.fd !in w.used
    case Create(known, list) => known ==> IndexSorted(list, w.params.planes)
  }

  function Next(w: World, s: Step): World {
    match s
    case Add(a) =>
      var (p, r) := Added(w.params, a);
      w.(params := p, used := w.used + {a.plane.fd}, accepted := if r.Ok? then w.accepted + {a.plane} else w.accepted)
    case Create(known, list) =>
      if !known then w else w.(params := w.params.(planes := map[]), taken := w.taken + list)
  }

  ghost predicate Reachable(w: World, steps: seq<Step>)
    decreases |steps|
  {
    if steps == [] then w == START
    else
      var last := |steps| - 1;
      exists v :: Reachable(v, steps[..last]) && Enabled(v, steps[last]) && w == Next(v, steps[last])
  }

  ghost predicate NoRepeats(list: seq<Plane>) {
    forall i, j | 0 <= i < j < |list| :: list[i] != list[j]
  }

  ghost predicate Holds(m: map<nat, Plane>, p: Plane) {
    exists k :: k in m && m[k] == p
  }

  ghost predicate Inv(w: World) {
    && (forall p | p in w.accepted :: p.fd in w.used)
    && (forall p, q | p in w.accepted && q in w.accepted && p.fd == q.fd :: p == q)
    && (forall k | k in w.params.planes :: w.params.planes[k] in w.accepted && w.params.planes[k] !in w.taken)
    && (forall k, l | k in w.params.planes && l in w.params.planes && w.params.planes[k] == w.params.planes[l] :: k == l)
    && (forall p | p in w.taken :: p in w.accepted)
    && NoRepeats(w.taken)
    && (forall p | p in w.accepted :: p in w.taken || Holds(w.params.planes, p))
    && (w.params.planes != map[] ==> w.params.modifier.Some?)
  }

  lemma AddedHolds(m: map<nat, Plane>, k: nat, q: Plane)
    requires k !in m
    ensures Holds(m[k := q], q)
    ensures forall p | Holds(m, p) :: Holds(m[k := q], p)
  {
    assert m[k := q][k] == q;
    forall p | Holds(m, p) ensures Holds(m[k := q], p) {
      var j :| j in m && m[j] == p;
      assert m[k := q][j] == p;
    }
  }

  lemma AddKeepsInv(w: World, a: Addition)
    requires Inv(w) && Enabled(w, Add(a))
    ensures Inv(Next(w, Add(a)))
  {
    assert a.plane !in w.accepted;
    if Added(w.params, a).1.Ok? {
      AddedHolds(w.params.planes, a.index, a.plane);
    }
  }

  lemma ListHasTheTable(list: seq<Plane>, m: map<nat, Plane>)
    requires IndexSorted(list, m)
    ensures forall p | p in list :: Holds(m, p)
    ensures forall k | k in m :: m[k] in list
  {
    var ks :| SortedBy(ks, list, m);
    forall p | p in list ensures Holds(m, p) {
      var i :| 0 <= i < |list| && list[i] == p;
      assert ks[i] in ks && m[ks[i]] == p;
    }
    forall k | k in m ensures m[k] in list {
      var i :| 0 <= i < |ks| && ks[i] == k;
      assert list[i] == m[k];
    }
  }

  lemma ListHasNoRepeats(list: seq<Plane>, m: map<nat, Plane>)
    requires IndexSorted(list, m) && forall k, l | k in m && l in m && m[k] == m[l] :: k == l
    ensures NoRepeats(list)
  {
    var ks :| SortedBy(ks, list, m);
    forall i, j | 0 <= i < j < |list| ensures list[i] != list[j] {
      assert ks[i] in ks && ks[j] in ks && ks[i] < ks[j];
    }
  }

  lemma JoinedHasNoRepeats(a: seq<Plane>, b: seq<Plane>)
    requires NoRepeats(a) && NoRepeats(b) && forall p | p in b :: p !in a
    ensures NoRepeats(a + b)
  {
    forall i, j | 0 <= i < j < |a + b| ensures (a + b)[i] != (a + b)[j] {
      if i < |a| <= j {
        assert b[j - |a|] in b && a[i] in a;
      }
    }
  }

  lemma CreateKeepsInv(w: World, list: seq<Plane>)
    requires Inv(w) && IndexSorted(list, w.params.planes)
    ensures Inv(Next(w, Create(true, list)))
  {
    var m := w.params.planes;
    ListHasTheTable(list, m);
    ListHasNoRepeats(list, m);
    JoinedHasNoRepeats(w.taken, list);
  }

  /** In every run of additions and creations, each accepted plane is still in the table or was taken by
      exactly one creation, at one place, so it reaches at most one import. A creation that finds planes
      finds their modifier too. */
  lemma {:induction false} EachPlaneIsImportedAtMostOnce(w: World, steps: seq<Step>)
    requires Reachable(w, steps)
    ensures Inv(w)
    decreases |steps|
  {
    if steps != [] {
      var last := |steps| - 1;
      var v :| Reachable(v, steps[..last]) && Enabled(v, steps[last]) && w == Next(v, steps[last]);
      EachPlaneIsImportedAtMostOnce(v, steps[..last]);
      match steps[last]
      case Add(a) => AddKeepsInv(v, a);
      case Create(known, list) => if known { CreateKeepsInv(v, list); }
    }
  }

  // ---------------------------------------------------------------------------------------------
  // One descriptor or one for each plane
  // ---------------------------------------------------------------------------------------------

  datatype File = File(dev: nat, ino: nat)

  datatype Layout = Layout(offset: nat, stride: nat)

  datatype Encoding = Simple(layouts: seq<Layout>, fd: nat) | Disjoint(planes: seq<Plane>)

  /** Two planes whose `fstat` worked are in different files. */
  ghost predicate SeenApart(stats: seq<Option<File>>) {
    exists i, j | 0 <= i < j < |stats| :: stats[i].Some? && stats[j].Some? && stats[i] != stats[j]
  }

  function LayoutsOf(planes: seq<Plane>): seq<Layout> {
    seq(|planes|, i requires 0 <= i < |planes| => Layout(planes[i].offset, planes[i].stride))
  }

  ghost function Encoded(planes: seq<Plane>, stats: seq<Option<File>>): Result<Encoding, Error> {
    if SeenApart(stats) then Ok(Disjoint(planes))
    else if planes == [] then Err(NoPlanes)
    else Ok(Simple(LayoutsOf(planes), planes[0].fd))
  }

  method IsDisjoint(stats: seq<Option<File>>) returns (disjoint: bool)
    ensures disjoint <==> SeenApart(stats)
  {
    var last: Option<File> := None;
    disjoint := false;
    var i := 0;
    while i < |stats|
      invariant 0 <= i <= |stats| && !disjoint
      invariant last.None? ==> forall j | 0 <= j < i :: stats[j].None?
      invariant last.Some? ==> exists j | 0 <= j < i :: stats[j] == last
      invariant forall j | 0 <= j < i && stats[j].Some? :: stats[j] == last
    {
      if stats[i].Some? {
        if last.Some? && last != stats[i] {
          disjoint := true;
          break;
        }
        last := stats[i];
      }
      i := i + 1;
    }
  }

  method Encode(planes: seq<Plane>, stats: seq<Option<File>>) returns (r: Result<Encoding, Error>)
    requires |stats| == |planes|
    ensures r == Encoded(planes, stats)
  {
    var disjoint := IsDisjoint(stats);
    if disjoint {
      return Ok(Disjoint(planes));
    }
    var layouts: seq<Layout> := [];
    for i := 0 to |planes|
      invariant layouts == LayoutsOf(planes[..i])
    {
      assert planes[..i + 1] == planes[..i] + [planes[i]];
      layouts := layouts + [Layout(planes[i].offset, planes[i].stride)];
    }
    assert planes[..|planes|] == planes;
    if planes == [] {
      return Err(NoPlanes);
    }
    r := Ok(Simple(layouts, planes[0].fd));
  }

  /** Where a plane's bytes are. `file` says which file a descriptor is open on. */
  datatype Memory = Memory(file: File, layout: Layout)

  function Meant(planes: seq<Plane>, file: nat -> File): seq<Memory> {
    seq(|planes|, i requires 0 <= i < |planes| => Memory(file(planes[i].fd), Layout(planes[i].offset, planes[i].stride)))
  }

  function Meaning(e: Encoding, file: nat -> File): seq<Memory> {
    match e
    case Simple(layouts, fd) => seq(|layouts|, i requires 0 <= i < |layouts| => Memory(file(fd), layouts[i]))
    case Disjoint(planes) => Meant(planes, file)
  }

  ghost predicate OneFile(planes: seq<Plane>, file: nat -> File) {
    forall i | 0 <= i < |planes| :: file(planes[i].fd) == file(planes[0].fd)
  }

  /** Each `fstat` that works tells the truth. */
  ghost predicate Honest(planes: seq<Plane>, stats: seq<Option<File>>, file: nat -> File) {
    |stats| == |planes| && forall i | 0 <= i < |stats| && stats[i].Some? :: stats[i].value == file(planes[i].fd)
  }

  /** The encoding names the same memory for every plane exactly when the planes were seen to be in
      different files, or really are in one. */
  lemma MeaningIsKeptIff(planes: seq<Plane>, stats: seq<Option<File>>, file: nat -> File)
    requires planes != [] && Honest(planes, stats, file)
    ensures Encoded(planes, stats).Ok?
    ensures Meaning(Encoded(planes, stats).value, file) == Meant(planes, file) <==>
              SeenApart(stats) || OneFile(planes, file)
  {
    var e := Encoded(planes, stats).value;
    if !SeenApart(stats) {
      if Meaning(e, file) == Meant(planes, file) {
        forall i | 0 <= i < |planes| ensures file(planes[i].fd) == file(planes[0].fd) {
          assert Meaning(e, file)[i].file == Meant(planes, file)[i].file;
        }
      }
    }
  }

  /** When every `fstat` works, `Simple` is chosen exactly for planes of one file, and the meaning is
      always kept. */
  lemma SimpleIffOneFile(planes: seq<Plane>, stats: seq<Option<File>>, file: nat -> File)
    requires planes != [] && Honest(planes, stats, file) && forall s | s in stats :: s.Some?
    ensures Encoded(planes, stats).Ok?
    ensures Encoded(planes, stats).value.Simple? <==> OneFile(planes, file)
    ensures Meaning(Encoded(planes, stats).value, file) == Meant(planes, file)
  {
    MeaningIsKeptIff(planes, stats, file);
    assert forall i | 0 <= i < |stats| :: stats[i] in stats;
    if !OneFile(planes, file) {
      var i :| 0 <= i < |planes| && file(planes[i].fd) != file(planes[0].fd);
      assert stats[0].Some? && stats[i].Some? && stats[0] != stats[i];
    }
  }

  /** With one `fstat` failing, the second plane is taken to be in the first one's file. */
  lemma AFailedStatCanChangeTheMeaning()
    ensures var planes := [Plane(3, 0, 256), Plane(4, 0, 128)];
            var file := (fd: nat) => File(0, fd);
            var stats := [Some(File(0, 3)), None];
            && Honest(planes, stats, file) && Encoded(planes, stats).Ok?
            && Meaning(Encoded(planes, stats).value, file) != Meant(planes, file)
  {
    var planes := [Plane(3, 0, 256), Plane(4, 0, 128)];
    var file := (fd: nat) => File(0, fd);
    var stats := [Some(File(0, 3)), None];
    MeaningIsKeptIff(planes, stats, file);
    assert file(planes[1].fd) != file(planes[0].fd);
  }
}
