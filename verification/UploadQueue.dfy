/** The upload thread: every upload taken from the queue is resolved, on every error path. */
module UploadQueue {
  import opened Wrappers

  /** `id` is the upload's identity; two uploads may wait on the same point of different textures. */
  datatype Upload = Upload(id: nat, acquire: nat)

  /** Semaphores are numbered in the order in which they are created. */
  type Semaphore = nat

  // ---------------------------------------------------------------------------------------------
  // One batch
  // ---------------------------------------------------------------------------------------------

  /** `Iterator::zip`: pairs up what both sides have, and drops the rest of the longer one. */
  function Zip(uploads: seq<Upload>, semaphores: seq<Semaphore>): seq<(Upload, Semaphore)> {
    var n := if |uploads| < |semaphores| then |uploads| else |semaphores|;
    seq(n, i requires 0 <= i < n => (uploads[i], semaphores[i]))
  }

  function Firsts(pairs: seq<(Upload, Semaphore)>): seq<Upload> {
    seq(|pairs|, i requires 0 <= i < |pairs| => pairs[i].0)
  }

  /** The zip keeps every upload exactly when there is a semaphore for each. */
  lemma ZipDropsNothingIff(uploads: seq<Upload>, semaphores: seq<Semaphore>)
    ensures Firsts(Zip(uploads, semaphores)) == uploads <==> |semaphores| >= |uploads|
  {
    assert |semaphores| >= |uploads| ==> Firsts(Zip(uploads, semaphores)) == uploads;
    assert |Firsts(Zip(uploads, semaphores))| == |Zip(uploads, semaphores)|;
  }

  /** How many semaphores a submission of `n` uploads creates when `working` of its calls succeed. */
  function CreatedBy(n: nat, working: nat): nat {
    if working == 0 then 0 else if (working - 1) / 2 < n then (working - 1) / 2 else n
  }

  /** The Vulkan calls of one submission: create the builder, record a copy and create a semaphore for
      each upload, build, submit. `working` is how many of them succeed before one fails, `next` the number
      of the first semaphore to be created. The `i`th one given back is the one made for the `i`th upload,
      and no two are the same. */
  method SubmitUploads(uploads: seq<Upload>, working: nat, next: Semaphore)
    returns (r: Result<seq<Semaphore>, ()>, after: Semaphore)
    ensures r.Ok? <==> working >= 2 * |uploads| + 3
    ensures r.Ok? ==> |r.value| == |uploads| && forall i | 0 <= i < |r.value| :: r.value[i] == next + i
    ensures r.Ok? ==> forall i, j | 0 <= i < j < |r.value| :: r.value[i] != r.value[j]
    ensures after == next + CreatedBy(|uploads|, working)
  {
    var left := working;
    after := next;
    if left == 0 {
      return Err(()), after;
    }
    left := left - 1;
    var semaphores: seq<Semaphore> := [];
    var i := 0;
    while i < |uploads|
      invariant 0 <= i <= |uploads| && left == working - 1 - 2 * i >= 0 && after == next + i
      invariant |semaphores| == i && forall j | 0 <= j < i :: semaphores[j] == next + j
    {
      if left < 2 {
        return Err(()), after;
      }
      semaphores := semaphores + [after];
      after := after + 1;
      left := left - 2;
      i := i + 1;
    }
    if left < 2 {
      return Err(()), after;
    }
    r := Ok(semaphores);
  }

  /** No two uploads have the same semaphore, and all of them were created. */
  ghost predicate OneEach(pairs: seq<(Upload, Semaphore)>, created: Semaphore) {
    && (forall i | 0 <= i < |pairs| :: pairs[i].1 < created)
    && (forall i, j | 0 <= i < j < |pairs| :: pairs[i].1 != pairs[j].1)
  }

  /** A failed batch starts no task; one that was submitted starts a task for each of its uploads, in
      order, with the semaphore made for it. */
  ghost predicate BatchHandled(before: seq<(Upload, Semaphore)>, batch: seq<Upload>, created: Semaphore,
                               now: seq<(Upload, Semaphore)>, working: nat) {
    if working < 2 * |batch| + 3 then now == before
    else
      && |now| == |before| + |batch| && now[..|before|] == before
      && forall i | 0 <= i < |batch| :: now[|before| + i] == (batch[i], created + i)
  }

  /** New semaphores are none of the old ones. */
  lemma OneEachGrows(pairs: seq<(Upload, Semaphore)>, created: Semaphore, uploads: seq<Upload>, made: seq<Semaphore>)
    requires |made| == |uploads| && forall i | 0 <= i < |made| :: made[i] == created + i
    ensures OneEach(pairs, created) ==> OneEach(pairs + Zip(uploads, made), created + |made|)
  {
  }

  class UploadThread {
    var uploads: seq<Upload>                  // the batch vector
    var created: Semaphore                    // how many semaphores were created
    var spawned: seq<(Upload, Semaphore)>     // tasks started for submitted uploads
    var signalled: seq<Upload>                // acquire points signalled directly
    var attached: seq<(Upload, Semaphore)>    // acquire points a semaphore's sync file was imported at

    constructor ()
      ensures uploads == [] && created == 0 && spawned == [] && signalled == [] && attached == []
    {
      uploads, created, spawned, signalled, attached := [], 0, [], [], [];
    }

    /** One turn of the loop on what the channel gave. The batch vector is empty again at the end, and
        every upload of the batch was signalled or has a task of its own, with the semaphore made for it. */
    method HandleBatch(received: seq<Upload>, working: nat)
      requires uploads == [] && 0 < |received| <= 16
      modifies this
      ensures uploads == [] && attached == old(attached) && created == old(created) + CreatedBy(|received|, working)
      ensures signalled == old(signalled) + if working < 2 * |received| + 3 then received else []
      ensures BatchHandled(old(spawned), received, old(created), spawned, working)
      ensures old(OneEach(spawned, created)) ==> OneEach(spawned, created)
    {
      uploads := uploads + received;
      assert uploads == received;
      var r;
      r, created := SubmitUploads(uploads, working, created);
      if r.Err? {
        SignalAll();
        return;
      }
      OneEachGrows(spawned, old(created), uploads, r.value);
      spawned := spawned + Zip(uploads, r.value);
      uploads := [];
    }

    method SignalAll()
      modifies this`uploads, this`signalled
      ensures uploads == [] && signalled == old(signalled) + old(uploads)
    {
      while uploads != []
        invariant signalled + uploads == old(signalled) + old(uploads)
        decreases |uploads|
      {
        signalled := signalled + [uploads[0]];
        uploads := uploads[1..];
      }
    }

    /** A spawned task: whether exporting the semaphore and importing the sync file work or not, the
        acquire point is attached to its own semaphore, or signalled, once. */
    method RunTask(at: nat, exported: bool, imported: bool)
      requires at < |spawned|
      modifies this
      ensures uploads == old(uploads) && created == old(created)
      ensures spawned == old(spawned)[..at] + old(spawned)[at + 1..]
      ensures exported && imported ==> attached == old(attached) + [old(spawned)[at]] && signalled == old(signalled)
      ensures !(exported && imported) ==> signalled == old(signalled) + [old(spawned)[at].0] && attached == old(attached)
    {
      var (upload, semaphore) := spawned[at];
      spawned := spawned[..at] + spawned[at + 1..];
      if !exported {
        signalled := signalled + [upload];
        return;
      }
      if !imported {
        signalled := signalled + [upload];
        return;
      }
      attached := attached + [(upload, semaphore)];
    }
  }

  // ---------------------------------------------------------------------------------------------
  // The thread, its tasks and the senders, interleaved
  // ---------------------------------------------------------------------------------------------

  /** `sent` is a history. `draining` says the batch failed and is being signalled one by one. */
  datatype World = World(
    queue: seq<Upload>,
    batch: seq<Upload>,
    draining: bool,
    created: Semaphore,
    spawned: seq<(Upload, Semaphore)>,
    signalled: multiset<Upload>,
    attached: seq<(Upload, Semaphore)>,
    sent: multiset<Upload>)

  datatype Step =
    | SendUpload(upload: Upload)
    | Receive(n: nat)
    | SubmitFailed(created: nat)      // some semaphores may have been created by then
    | SignalNext
    | Submitted
    | TaskDone(at: nat, exported: bool, imported: bool)

  const START := World([], [], false, 0, [], multiset{}, [], multiset{})

  predicate Enabled(w: World, a: Step) {
    match a
    case SendUpload(u) => u !in w.sent
    case Receive(n) => w.batch == [] && 0 < n <= 16 && n <= |w.queue|
    case SubmitFailed(created) => w.batch != [] && !w.draining && created <= |w.batch|
    case SignalNext => w.batch != [] && w.draining
    case Submitted => w.batch != [] && !w.draining
    case TaskDone(at, _, _) => at < |w.spawned|
  }

  /** The next `n` semaphores. */
  function Numbered(from: Semaphore, n: nat): seq<Semaphore> {
    seq(n, i requires 0 <= i < n => from + i)
  }

  function Without(pairs: seq<(Upload, Semaphore)>, at: nat): seq<(Upload, Semaphore)>
    requires at < |pairs|
  {
    pairs[..at] + pairs[at + 1..]
  }

  function Next(w: World, a: Step): World
    requires Enabled(w, a)
  {
    match a
    case SendUpload(u) => w.(queue := w.queue + [u], sent := w.sent + multiset{u})
    case Receive(n) => w.(queue := w.queue[n..], batch := w.queue[..n], draining := false)
    case SubmitFailed(created) => w.(draining := true, created := w.created + created)
    case SignalNext => w.(batch := w.batch[1..], signalled := w.signalled + multiset{w.batch[0]})
    case Submitted =>
      w.(batch := [], created := w.created + |w.batch|,
         spawned := w.spawned + Zip(w.batch, Numbered(w.created, |w.batch|)))
    case TaskDone(at, exported, imported) =>
      var v := w.(spawned := Without(w.spawned, at));
      if exported && imported then v.(attached := w.attached + [w.spawned[at]])
      else v.(signalled := w.signalled + multiset{w.spawned[at].0})
  }

  ghost predicate Reachable(w: World, steps: seq<Step>)
    decreases |steps|
  {
    if steps == [] then w == START
    else
      var last := |steps| - 1;
      exists v :: Reachable(v, steps[..last]) && Enabled(v, steps[last]) && w == Next(v, steps[last])
  }

  function Placed(w: World): multiset<Upload> {
    multiset(w.queue) + multiset(w.batch) + multiset(Firsts(w.spawned)) + w.signalled + multiset(Firsts(w.attached))
  }

  /** Every upload sent is in exactly one place, once. */
  ghost predicate Conserved(w: World) {
    && Placed(w) == w.sent
    && forall u :: w.sent[u] <= 1
  }

  lemma ReceiveConserves(w: World, n: nat)
    requires Enabled(w, Receive(n))
    ensures Placed(Next(w, Receive(n))) == Placed(w)
  {
    assert w.queue == w.queue[..n] + w.queue[n..];
    assert multiset(w.queue[..n]) + multiset(w.queue[n..]) == multiset(w.queue);
    assert multiset(w.batch) == multiset{};
  }

  lemma FirstsAppend(a: seq<(Upload, Semaphore)>, b: seq<(Upload, Semaphore)>)
    ensures Firsts(a + b) == Firsts(a) + Firsts(b)
  {
  }

  lemma FirstsWithout(pairs: seq<(Upload, Semaphore)>, at: nat)
    requires at < |pairs|
    ensures multiset(Firsts(Without(pairs, at))) + multiset{pairs[at].0} == multiset(Firsts(pairs))
  {
    assert Firsts(pairs) == Firsts(pairs[..at]) + [pairs[at].0] + Firsts(pairs[at + 1..]);
    assert Firsts(Without(pairs, at)) == Firsts(pairs[..at]) + Firsts(pairs[at + 1..]);
  }

  lemma SubmittedConserves(w: World)
    requires Enabled(w, Submitted)
    ensures Placed(Next(w, Submitted)) == Placed(w)
  {
    var semaphores := Numbered(w.created, |w.batch|);
    ZipDropsNothingIff(w.batch, semaphores);
    FirstsAppend(w.spawned, Zip(w.batch, semaphores));
  }

  lemma SignalConserves(w: World)
    requires Enabled(w, SignalNext)
    ensures Placed(Next(w, SignalNext)) == Placed(w)
  {
    assert w.batch == [w.batch[0]] + w.batch[1..];
    assert multiset(w.batch) == multiset{w.batch[0]} + multiset(w.batch[1..]);
  }

  lemma TaskConserves(w: World, at: nat, exported: bool, imported: bool)
    requires Enabled(w, TaskDone(at, exported, imported))
    ensures Placed(Next(w, TaskDone(at, exported, imported))) == Placed(w)
  {
    FirstsWithout(w.spawned, at);
    FirstsAppend(w.attached, [w.spawned[at]]);
    assert Firsts([w.spawned[at]]) == [w.spawned[at].0];
  }

  lemma StepConserves(w: World, a: Step)
    requires Conserved(w) && Enabled(w, a)
    ensures Conserved(Next(w, a))
  {
    match a
    case SendUpload(u) => assert multiset(w.queue + [u]) == multiset(w.queue) + multiset{u};
    case Receive(n) => ReceiveConserves(w, n);
    case SubmitFailed(_) =>
    case SignalNext => SignalConserves(w);
    case Submitted => SubmittedConserves(w);
    case TaskDone(at, exported, imported) => TaskConserves(w, at, exported, imported);
  }

  /** In every interleaving and whatever fails, each upload is in one place: still queued, in the batch,
      with its task, signalled, or attached. */
  lemma {:induction false} EveryUploadIsInOnePlace(w: World, steps: seq<Step>)
    requires Reachable(w, steps)
    ensures Conserved(w)
    decreases |steps|
  {
    if steps != [] {
      var last := |steps| - 1;
      var v :| Reachable(v, steps[..last]) && Enabled(v, steps[last]) && w == Next(v, steps[last]);
      EveryUploadIsInOnePlace(v, steps[..last]);
      StepConserves(v, steps[last]);
    }
  }

  /** Once nothing is left to do, each upload was resolved exactly once, and in one way. */
  lemma EveryUploadIsResolvedOnce(w: World, steps: seq<Step>, u: Upload)
    requires Reachable(w, steps) && w.queue == [] && w.batch == [] && w.spawned == [] && u in w.sent
    ensures w.signalled[u] + multiset(Firsts(w.attached))[u] == 1
  {
    EveryUploadIsInOnePlace(w, steps);
    assert w.sent[u] == w.signalled[u] + multiset(Firsts(w.attached))[u];
  }

  // ---------------------------------------------------------------------------------------------
  // Every upload waits on its own semaphore
  // ---------------------------------------------------------------------------------------------

  function SentOrder(steps: seq<Step>): seq<Upload> {
    if steps == [] then []
    else
      var before, a := steps[..|steps| - 1], steps[|steps| - 1];
      SentOrder(before) + if a.SendUpload? then [a.upload] else []
  }

  /** How many uploads the thread has received. */
  function Taken(steps: seq<Step>): nat {
    if steps == [] then 0
    else Taken(steps[..|steps| - 1]) + if steps[|steps| - 1].Receive? then steps[|steps| - 1].n else 0
  }

  function LastTaken(steps: seq<Step>): nat {
    if steps == [] then 0
    else if steps[|steps| - 1].Receive? then steps[|steps| - 1].n
    else LastTaken(steps[..|steps| - 1])
  }

  /** How many semaphores were created: one for each upload last received, or fewer if that failed. */
  function CreatedIn(steps: seq<Step>): Semaphore {
    if steps == [] then 0
    else
      var before, a := steps[..|steps| - 1], steps[|steps| - 1];
      CreatedIn(before) + if a.Submitted? then LastTaken(before) else if a.SubmitFailed? then a.created else 0
  }

  /** The uploads last received, in the order in which they were sent. */
  function LastBatch(steps: seq<Step>): seq<Upload> {
    if LastTaken(steps) <= Taken(steps) <= |SentOrder(steps)| then
      SentOrder(steps)[Taken(steps) - LastTaken(steps)..Taken(steps)]
    else []
  }

  /** The upload that semaphore `s` was made for, if it was submitted: the first of a submission's
      semaphores for the first of its uploads, and so on. */
  function MadeFor(steps: seq<Step>, s: Semaphore): Option<Upload> {
    if steps == [] then None
    else
      var before, a := steps[..|steps| - 1], steps[|steps| - 1];
      if a.Submitted? && 0 <= s - CreatedIn(before) < |LastBatch(before)| then
        Some(LastBatch(before)[s - CreatedIn(before)])
      else MadeFor(before, s)
  }

  ghost predicate AsMade(steps: seq<Step>, pairs: seq<(Upload, Semaphore)>) {
    forall i | 0 <= i < |pairs| :: MadeFor(steps, pairs[i].1) == Some(pairs[i].0)
  }

  /** The queue and the batch hold what was sent, in order, and the semaphores are those created. */
  ghost predicate InOrder(w: World, steps: seq<Step>) {
    && w.created == CreatedIn(steps)
    && Taken(steps) <= |SentOrder(steps)| && w.queue == SentOrder(steps)[Taken(steps)..]
    && (w.batch != [] && !w.draining ==> LastTaken(steps) <= Taken(steps) && w.batch == LastBatch(steps))
  }

  lemma InOrderAfterSend(w: World, steps: seq<Step>, u: Upload)
    requires InOrder(w, steps) && Enabled(w, SendUpload(u))
    ensures InOrder(Next(w, SendUpload(u)), steps + [SendUpload(u)])
  {
    assert (steps + [SendUpload(u)])[..|steps|] == steps;
    var sent, n := SentOrder(steps), Taken(steps);
    assert (sent + [u])[n..] == sent[n..] + [u];
    assert LastTaken(steps) <= n ==> (sent + [u])[n - LastTaken(steps)..n] == sent[n - LastTaken(steps)..n];
  }

  lemma InOrderAfterReceive(w: World, steps: seq<Step>, n: nat)
    requires InOrder(w, steps) && Enabled(w, Receive(n))
    ensures InOrder(Next(w, Receive(n)), steps + [Receive(n)])
  {
    assert (steps + [Receive(n)])[..|steps|] == steps;
    var sent := SentOrder(steps);
    assert SentOrder(steps + [Receive(n)]) == sent + [] == sent;
  }

  lemma InOrderAfter(w: World, steps: seq<Step>, a: Step)
    requires InOrder(w, steps) && Enabled(w, a)
    ensures InOrder(Next(w, a), steps + [a])
  {
    match a
    case SendUpload(u) => InOrderAfterSend(w, steps, u);
    case Receive(n) => InOrderAfterReceive(w, steps, n);
    case _ =>
      assert (steps + [a])[..|steps|] == steps;
      assert SentOrder(steps + [a]) == SentOrder(steps) + [] == SentOrder(steps);
  }

  /** Each task and each attached upload has its own semaphore. */
  ghost predicate OwnSemaphores(w: World, steps: seq<Step>) {
    && AsMade(steps, w.spawned) && AsMade(steps, w.attached)
    && OneEach(w.spawned + w.attached, w.created)
  }

  /** What was made stays made, as later semaphores are new. */
  lemma AsMadeStays(steps: seq<Step>, a: Step, pairs: seq<(Upload, Semaphore)>)
    requires AsMade(steps, pairs) && forall i | 0 <= i < |pairs| :: pairs[i].1 < CreatedIn(steps)
    ensures AsMade(steps + [a], pairs)
  {
    assert (steps + [a])[..|steps|] == steps;
  }

  lemma NewAreAsMade(steps: seq<Step>, batch: seq<Upload>, created: Semaphore)
    requires batch == LastBatch(steps) && created == CreatedIn(steps)
    ensures AsMade(steps + [Submitted], Zip(batch, Numbered(created, |batch|)))
  {
    assert (steps + [Submitted])[..|steps|] == steps;
  }

  lemma OneEachOfBoth(a: seq<(Upload, Semaphore)>, b: seq<(Upload, Semaphore)>, created: Semaphore)
    requires OneEach(a + b, created)
    ensures forall i | 0 <= i < |a| :: a[i].1 < created
    ensures forall i | 0 <= i < |b| :: b[i].1 < created
  {
    forall i | 0 <= i < |a| ensures a[i].1 < created {
      assert (a + b)[i] == a[i];
    }
    forall i | 0 <= i < |b| ensures b[i].1 < created {
      assert (a + b)[|a| + i] == b[i];
    }
  }

  lemma OneEachInAnyOrder(a: seq<(Upload, Semaphore)>, b: seq<(Upload, Semaphore)>, more: seq<(Upload, Semaphore)>,
                          created: Semaphore)
    requires OneEach(a + b + more, created)
    ensures OneEach(a + more + b, created)
  {
    var all, now := a + b + more, a + more + b;
    forall i | 0 <= i < |now| ensures now[i].1 < created {
      assert now[i] == all[if i < |a| then i else if i < |a| + |more| then i + |b| else i - |more|];
    }
    forall i, j | 0 <= i < j < |now| ensures now[i].1 != now[j].1 {
      assert now[i] == all[if i < |a| then i else if i < |a| + |more| then i + |b| else i - |more|];
      assert now[j] == all[if j < |a| then j else if j < |a| + |more| then j + |b| else j - |more|];
    }
  }

  lemma OneEachAfterSubmit(w: World)
    requires OneEach(w.spawned + w.attached, w.created)
    ensures OneEach(w.spawned + Zip(w.batch, Numbered(w.created, |w.batch|)) + w.attached, w.created + |w.batch|)
  {
    OneEachGrows(w.spawned + w.attached, w.created, w.batch, Numbered(w.created, |w.batch|));
    OneEachInAnyOrder(w.spawned, w.attached, Zip(w.batch, Numbered(w.created, |w.batch|)), w.created + |w.batch|);
  }

  lemma OneEachAfterTask(w: World, at: nat)
    requires OneEach(w.spawned + w.attached, w.created) && at < |w.spawned|
    ensures OneEach(Without(w.spawned, at) + w.attached, w.created)
    ensures OneEach(Without(w.spawned, at) + (w.attached + [w.spawned[at]]), w.created)
  {
    var was := w.spawned + w.attached;
    var now := Without(w.spawned, at) + (w.attached + [w.spawned[at]]);
    forall i | 0 <= i < |now|
      ensures now[i] == was[if i < at then i else if i + 1 < |was| then i + 1 else at]
    {
    }
    var fewer := Without(w.spawned, at) + w.attached;
    assert fewer == now[..|fewer|];
  }

  lemma OwnAfterSubmit(w: World, steps: seq<Step>)
    requires InOrder(w, steps) && OwnSemaphores(w, steps) && Enabled(w, Submitted)
    ensures OwnSemaphores(Next(w, Submitted), steps + [Submitted])
  {
    OneEachOfBoth(w.spawned, w.attached, w.created);
    AsMadeStays(steps, Submitted, w.spawned);
    AsMadeStays(steps, Submitted, w.attached);
    NewAreAsMade(steps, w.batch, w.created);
    OneEachAfterSubmit(w);
  }

  lemma OwnAfterTask(w: World, steps: seq<Step>, at: nat, exported: bool, imported: bool)
    requires InOrder(w, steps) && OwnSemaphores(w, steps) && Enabled(w, TaskDone(at, exported, imported))
    ensures OwnSemaphores(Next(w, TaskDone(at, exported, imported)), steps + [TaskDone(at, exported, imported)])
  {
    OneEachOfBoth(w.spawned, w.attached, w.created);
    AsMadeStays(steps, TaskDone(at, exported, imported), w.spawned);
    AsMadeStays(steps, TaskDone(at, exported, imported), w.attached);
    OneEachAfterTask(w, at);
  }

  lemma OwnAfterStep(w: World, steps: seq<Step>, a: Step)
    requires InOrder(w, steps) && OwnSemaphores(w, steps) && Enabled(w, a)
    ensures OwnSemaphores(Next(w, a), steps + [a])
  {
    match a
    case Submitted => OwnAfterSubmit(w, steps);
    case TaskDone(at, exported, imported) => OwnAfterTask(w, steps, at, exported, imported);
    case _ =>
      OneEachOfBoth(w.spawned, w.attached, w.created);
      AsMadeStays(steps, a, w.spawned);
      AsMadeStays(steps, a, w.attached);
  }

  lemma {:induction false} EveryRunKeepsOwn(w: World, steps: seq<Step>)
    requires Reachable(w, steps)
    ensures InOrder(w, steps) && OwnSemaphores(w, steps)
    decreases |steps|
  {
    if steps != [] {
      var last := |steps| - 1;
      var v :| Reachable(v, steps[..last]) && Enabled(v, steps[last]) && w == Next(v, steps[last]);
      EveryRunKeepsOwn(v, steps[..last]);
      InOrderAfter(v, steps[..last], steps[last]);
      OwnAfterStep(v, steps[..last], steps[last]);
      assert steps[..last] + [steps[last]] == steps;
    }
  }

  /** In every run each upload that has a task or was attached has the semaphore made for it, and no two
      uploads have the same one. */
  lemma EachToItsOwnSemaphore(w: World, steps: seq<Step>)
    requires Reachable(w, steps)
    ensures forall i | 0 <= i < |w.attached| :: MadeFor(steps, w.attached[i].1) == Some(w.attached[i].0)
    ensures forall i | 0 <= i < |w.spawned| :: MadeFor(steps, w.spawned[i].1) == Some(w.spawned[i].0)
    ensures var all := w.spawned + w.attached; forall i, j | 0 <= i < j < |all| :: all[i].1 != all[j].1
  {
    EveryRunKeepsOwn(w, steps);
  }

  // ---------------------------------------------------------------------------------------------
  // Every upload is resolved in the end
  // ---------------------------------------------------------------------------------------------

  /** What is left to do. */
  function Measure(w: World): nat {
    4 * |w.queue| + 2 * |w.batch| + |w.spawned| + if w.batch != [] && !w.draining then 1 else 0
  }

  /** Whatever succeeds or fails, every step of the thread or of a task leaves less to do. */
  lemma StepDecreases(w: World, a: Step)
    requires Enabled(w, a) && !a.SendUpload?
    ensures Measure(Next(w, a)) < Measure(w)
  {
  }

  ghost predicate RunsTo(w: World, steps: seq<Step>, v: World)
    decreases |steps|
  {
    if steps == [] then v == w
    else Enabled(w, steps[0]) && RunsTo(Next(w, steps[0]), steps[1..], v)
  }

  predicate Quiet(steps: seq<Step>) {
    forall i | 0 <= i < |steps| :: !steps[i].SendUpload?
  }

  /** Without new uploads, no run is longer than what there is to do. */
  lemma {:induction false} QuietRunsAreShort(w: World, steps: seq<Step>, v: World)
    requires RunsTo(w, steps, v) && Quiet(steps)
    ensures Measure(v) + |steps| <= Measure(w) && v.sent == w.sent
    decreases |steps|
  {
    if steps != [] {
      StepDecreases(w, steps[0]);
      assert forall i | 0 <= i < |steps[1..]| :: steps[1..][i] == steps[i + 1];
      QuietRunsAreShort(Next(w, steps[0]), steps[1..], v);
    }
  }

  /** And a run can only end where nothing is left to do. */
  lemma NeverStuck(w: World)
    requires Measure(w) > 0
    ensures exists a: Step :: !a.SendUpload? && Enabled(w, a)
  {
    if w.batch != [] {
      assert Enabled(w, if w.draining then SignalNext else SubmitFailed(0));
    } else if w.queue != [] {
      assert Enabled(w, Receive(1));
    } else {
      assert Enabled(w, TaskDone(0, true, true));
    }
  }

  lemma Extend(w: World, steps: seq<Step>, a: Step) returns (v: World, more: seq<Step>)
    requires Reachable(w, steps) && Enabled(w, a)
    ensures v == Next(w, a) && more == steps + [a] && Reachable(v, more)
  {
    v, more := Next(w, a), steps + [a];
    assert more[..|steps|] == steps;
  }

  lemma {:induction false} RunsOn(w: World, steps: seq<Step>, more: seq<Step>, v: World) returns (all: seq<Step>)
    requires Reachable(w, steps) && RunsTo(w, more, v)
    ensures Reachable(v, all)
    decreases |more|
  {
    all := steps;
    if more != [] {
      var u, first := Extend(w, steps, more[0]);
      all := RunsOn(u, first, more[1..], v);
    }
  }

  /** From every reachable world, a run of the thread and its tasks that cannot go on has resolved every
      upload ever sent, each exactly once; and every such run comes to an end. */
  lemma EveryQuietRunResolvesAll(w: World, steps: seq<Step>, more: seq<Step>, v: World)
    requires Reachable(w, steps) && RunsTo(w, more, v) && Quiet(more)
    requires forall a: Step | Enabled(v, a) :: a.SendUpload?
    ensures |more| <= Measure(w)
    ensures v.queue == [] && v.batch == [] && v.spawned == [] && v.sent == w.sent
    ensures forall u | u in w.sent :: v.signalled[u] + multiset(Firsts(v.attached))[u] == 1
  {
    QuietRunsAreShort(w, more, v);
    if Measure(v) > 0 {
      NeverStuck(v);
    }
    var all := RunsOn(w, steps, more, v);
    forall u | u in w.sent ensures v.signalled[u] + multiset(Firsts(v.attached))[u] == 1 {
      EveryUploadIsResolvedOnce(v, all, u);
    }
  }

  // ---------------------------------------------------------------------------------------------
  // The thread's loop and its tasks, as a run of the interleaved model
  // ---------------------------------------------------------------------------------------------

  /** What happens from outside: an upload is sent, the thread finds `n` uploads waiting, a task runs. */
  datatype Event =
    | Sent(upload: Upload)
    | Found(n: nat, working: nat)
    | Task(at: nat, exported: bool, imported: bool)

  function SentIn(events: seq<Event>): multiset<Upload> {
    if events == [] then multiset{}
    else
      var last := events[|events| - 1];
      SentIn(events[..|events| - 1]) + if last.Sent? then multiset{last.upload} else multiset{}
  }

  lemma {:induction false} SentInHas(events: seq<Event>, u: Upload)
    requires u in SentIn(events)
    ensures exists i :: 0 <= i < |events| && events[i] == Sent(u)
    decreases |events|
  {
    var last := |events| - 1;
    if events[last] != Sent(u) {
      SentInHas(events[..last], u);
      var i :| 0 <= i < |events[..last]| && events[..last][i] == Sent(u);
      assert events[i] == Sent(u);
    }
  }

  /** The thread is at its loop head, and it, its queue and its tasks are as in `w`. */
  ghost predicate Matches(t: UploadThread, queue: seq<Upload>, w: World)
    reads t
  {
    && t.uploads == [] && w.batch == [] && w.queue == queue && w.created == t.created
    && w.spawned == t.spawned && w.signalled == multiset(t.signalled) && w.attached == t.attached
  }

  lemma HeadFirst(m: multiset<Upload>, batch: seq<Upload>)
    requires batch != []
    ensures m + multiset{batch[0]} + multiset(batch[1..]) == m + multiset(batch)
  {
    assert batch == [batch[0]] + batch[1..];
  }

  lemma {:induction false} Drain(w: World, steps: seq<Step>) returns (v: World, more: seq<Step>)
    requires Reachable(w, steps) && w.draining
    ensures Reachable(v, more) && v == w.(batch := [], signalled := w.signalled + multiset(w.batch))
    decreases |w.batch|
  {
    v, more := w, steps;
    if w.batch != [] {
      HeadFirst(w.signalled, w.batch);
      v, more := Extend(w, steps, SignalNext);
      v, more := Drain(v, more);
    }
  }

  /** One uninterrupted turn of the loop: the steps it takes, and where they lead. */
  lemma Turn(w: World, steps: seq<Step>, n: nat, working: nat) returns (v: World, more: seq<Step>)
    requires Reachable(w, steps) && Enabled(w, Receive(n))
    ensures Reachable(v, more) && v.queue == w.queue[n..] && v.batch == [] && v.attached == w.attached && v.sent == w.sent
    ensures v.created == w.created + CreatedBy(n, working)
    ensures var ok := working >= 2 * n + 3;
            && v.signalled == w.signalled + (if ok then multiset{} else multiset(w.queue[..n]))
            && v.spawned == w.spawned + if ok then Zip(w.queue[..n], Numbered(w.created, n)) else []
  {
    v, more := Extend(w, steps, Receive(n));
    if working >= 2 * n + 3 {
      v, more := Extend(v, more, Submitted);
    } else {
      v, more := Extend(v, more, SubmitFailed(CreatedBy(n, working)));
      v, more := Drain(v, more);
    }
  }

  /** One event, in the thread and in the model. What is not possible does not happen. */
  method HandleEvent(thread: UploadThread, queue: seq<Upload>, event: Event, ghost w: World, ghost steps: seq<Step>)
    returns (rest: seq<Upload>, ghost v: World, ghost more: seq<Step>)
    requires Reachable(w, steps) && Matches(thread, queue, w)
    requires event.Sent? ==> event.upload !in w.sent
    modifies thread
    ensures Reachable(v, more) && Matches(thread, rest, v)
    ensures v.sent == w.sent + if event.Sent? then multiset{event.upload} else multiset{}
  {
    rest, v, more := queue, w, steps;
    match event {
      case Sent(u) =>
        v, more := Extend(w, steps, SendUpload(u));
        rest := queue + [u];
      case Found(n, working) =>
        if 0 < n <= 16 && n <= |queue| {
          rest, v, more := TakeTurn(thread, queue, n, working, w, steps);
        }
      case Task(at, exported, imported) =>
        if at < |thread.spawned| {
          v, more := FinishTask(thread, queue, at, exported, imported, w, steps);
        }
    }
  }

  /** The thread's loop and its tasks over any events: every turn starts and ends with the batch vector
      empty, the whole is a run of the interleaved model, and every upload sent is where that says. */
  method Serve(events: seq<Event>)
    returns (queue: seq<Upload>, spawned: seq<(Upload, Semaphore)>, signalled: seq<Upload>,
             attached: seq<(Upload, Semaphore)>, ghost w: World, ghost steps: seq<Step>)
    requires forall i, j | 0 <= i < j < |events| && events[i].Sent? && events[j].Sent? :: events[i] != events[j]
    ensures multiset(queue) + multiset(Firsts(spawned)) + multiset(signalled) + multiset(Firsts(attached)) == SentIn(events)
    ensures Reachable(w, steps) && w.queue == queue && w.batch == [] && w.spawned == spawned
    ensures w.signalled == multiset(signalled) && w.attached == attached
  {
    var thread := new UploadThread();
    queue, w, steps := [], START, [];
    var i := 0;
    while i < |events|
      invariant 0 <= i <= |events| && fresh(thread)
      invariant Reachable(w, steps) && Matches(thread, queue, w) && w.sent == SentIn(events[..i])
    {
      assert events[..i + 1][..i] == events[..i];
      if events[i].Sent? {
        NewIsNew(events, i);
      }
      queue, w, steps := HandleEvent(thread, queue, events[i], w, steps);
      i := i + 1;
    }
    assert events[..i] == events;
    AtLoopHead(w, steps);
    spawned, signalled, attached := thread.spawned, thread.signalled, thread.attached;
  }

  lemma AtLoopHead(w: World, steps: seq<Step>)
    requires Reachable(w, steps) && w.batch == []
    ensures multiset(w.queue) + multiset(Firsts(w.spawned)) + w.signalled + multiset(Firsts(w.attached)) == w.sent
  {
    EveryUploadIsInOnePlace(w, steps);
    assert multiset(w.batch) == multiset{};
  }

  lemma NewIsNew(events: seq<Event>, i: nat)
    requires i < |events| && events[i].Sent?
    requires forall i, j | 0 <= i < j < |events| && events[i].Sent? && events[j].Sent? :: events[i] != events[j]
    ensures events[i].upload !in SentIn(events[..i])
  {
    if events[i].upload in SentIn(events[..i]) {
      SentInHas(events[..i], events[i].upload);
    }
  }

  method TakeTurn(thread: UploadThread, queue: seq<Upload>, n: nat, working: nat, ghost w: World, ghost steps: seq<Step>)
    returns (rest: seq<Upload>, ghost v: World, ghost more: seq<Step>)
    requires Reachable(w, steps) && Matches(thread, queue, w) && 0 < n <= 16 && n <= |queue|
    modifies thread
    ensures rest == queue[n..] && Reachable(v, more) && Matches(thread, rest, v) && v.sent == w.sent
  {
    ghost var before, signalled := thread.spawned, thread.signalled;
    var batch := queue[..n];
    rest := queue[n..];
    thread.HandleBatch(batch, working);
    v, more := TurnIs(w, steps, n, working, thread.spawned, signalled, thread.signalled);
  }

  lemma TurnIs(w: World, steps: seq<Step>, n: nat, working: nat, spawned: seq<(Upload, Semaphore)>,
               before: seq<Upload>, signalled: seq<Upload>)
    returns (v: World, more: seq<Step>)
    requires Reachable(w, steps) && Enabled(w, Receive(n))
    requires BatchHandled(w.spawned, w.queue[..n], w.created, spawned, working)
    requires w.signalled == multiset(before)
    requires signalled == before + if working < 2 * n + 3 then w.queue[..n] else []
    ensures Reachable(v, more) && v.queue == w.queue[n..] && v.batch == [] && v.attached == w.attached && v.sent == w.sent
    ensures v.created == w.created + CreatedBy(n, working)
    ensures v.spawned == spawned && v.signalled == multiset(signalled)
  {
    TasksAre(w.spawned, w.queue[..n], w.created, spawned, working);
    SignalsAre(before, w.queue[..n], signalled, working);
    v, more := Turn(w, steps, n, working);
  }

  lemma TasksAre(before: seq<(Upload, Semaphore)>, batch: seq<Upload>, created: Semaphore,
                 now: seq<(Upload, Semaphore)>, working: nat)
    requires BatchHandled(before, batch, created, now, working)
    ensures now == before + if working >= 2 * |batch| + 3 then Zip(batch, Numbered(created, |batch|)) else []
  {
    if working >= 2 * |batch| + 3 {
      assert now == now[..|before|] + now[|before|..];
      assert now[|before|..] == Zip(batch, Numbered(created, |batch|));
    }
  }

  lemma SignalsAre(before: seq<Upload>, batch: seq<Upload>, now: seq<Upload>, working: nat)
    requires now == before + if working < 2 * |batch| + 3 then batch else []
    ensures multiset(now) == multiset(before) + if working >= 2 * |batch| + 3 then multiset{} else multiset(batch)
  {
  }

  method FinishTask(thread: UploadThread, queue: seq<Upload>, at: nat, exported: bool, imported: bool,
                    ghost w: World, ghost steps: seq<Step>)
    returns (ghost v: World, ghost more: seq<Step>)
    requires Reachable(w, steps) && Matches(thread, queue, w) && at < |thread.spawned|
    modifies thread
    ensures Reachable(v, more) && Matches(thread, queue, v) && v.sent == w.sent
  {
    ghost var signalled := thread.signalled;
    thread.RunTask(at, exported, imported);
    v, more := Extend(w, steps, TaskDone(at, exported, imported));
    OneMoreSignal(signalled, w.spawned[at].0);
  }

  lemma OneMoreSignal(signalled: seq<Upload>, upload: Upload)
    ensures multiset(signalled + [upload]) == multiset(signalled) + multiset{upload}
  {
  }
}
