/** Crash safety of the store: over any run of operations, each finished or cut short by a crash
    anywhere, and followed by a restart. */
module StoreTheorems {
  import opened Wrappers
  import opened Store
  import V = Validation

  datatype World = World(data: Data, image: Image)

  /** A finished operation, or one that stops after its first `k` images. */
  datatype Event =
    | Done(op: Op, torn: string)
    | Crash(op: Op, torn: string, k: nat)

  function Last(now: Image, images: seq<Image>, k: nat): Image {
    if k == 0 || images == [] then now
    else if k <= |images| then images[k - 1]
    else images[|images| - 1]
  }

  /** What a restart reads: the state file, whatever else is on the disk. */
  function Loaded(image: Image): Data {
    if image.state.Some? then image.state.value else EMPTY
  }

  function Step(w: World, e: Event, lib: Lib): World {
    var images := Images(w.image, w.data, e.op, lib, e.torn);
    match e
    case Done(op, torn) => World(Applied(w.data, op, lib), Last(w.image, images, |images|))
    case Crash(op, torn, k) =>
      var image := Last(w.image, images, k);
      World(Loaded(image), image)
  }

  const START := World(EMPTY, Image(Some(EMPTY), map[]))

  function Run(events: seq<Event>, lib: Lib): World {
    if events == [] then START
    else var n := |events| - 1; Step(Run(events[..n], lib), events[n], lib)
  }

  // ---- What is observed of a state ------------------------------------------------------------------------

  /** The state without blank wizard drafts: what pages, saves and submits read of it. The fixture's
      summary of the wizard does list blank drafts. */
  function View(d: Data): Data {
    d.(wizards := map email | email in d.wizards && d.wizards[email] != BLANK :: d.wizards[email])
  }

  lemma SameViewSameDrafts(a: Data, b: Data, email: string)
    requires View(a) == View(b)
    ensures DraftOf(a, email) == DraftOf(b, email)
  {
    var m := View(a).wizards;
    assert email in m <==> (email in a.wizards && a.wizards[email] != BLANK);
    assert email in m <==> (email in b.wizards && b.wizards[email] != BLANK) by { assert m == View(b).wizards; }
    if email in m { assert m[email] == View(b).wizards[email]; }
  }

  // ---- What every run keeps -----------------------------------------------------------------------------------

  /** A recorded upload's file holds bytes of the recorded size and digest. */
  predicate FileMatches(image: Image, d: Data, id: V.Meta, lib: Lib)
    requires id in d.uploads
  {
    && id in image.files
    && |image.files[id]| == d.uploads[id].size
    && lib.digest(image.files[id]) == d.uploads[id].digest
  }

  predicate UploadsMatch(image: Image, d: Data, lib: Lib) {
    forall id :: id in d.uploads ==> id <= d.counters.upload && FileMatches(image, d, id, lib)
  }

  /** What is on disk and what is in memory differ in nothing but wizard drafts, and those in blank ones. */
  predicate InStep(a: Data, b: Data) {
    && View(a) == View(b)
    && a.(wizards := map[]) == b.(wizards := map[])
    && forall email :: email in a.wizards ==> email in b.wizards
  }

  predicate Safe(w: World, lib: Lib) {
    && w.image.state.Some?
    && InStep(w.image.state.value, w.data)
    && UploadsMatch(w.image, w.image.state.value, lib)
  }

  lemma MutationKeepsUploads(d: Data, op: Op, lib: Lib)
    requires Saves(d, op)
    ensures if op.StoreUpload? then Mutated(d, op, lib) == WithUpload(d, op.upload, lib)
            else Mutated(d, op, lib).uploads == d.uploads && Mutated(d, op, lib).counters.upload == d.counters.upload
  {
  }

  /** Every image an operation goes through holds the state before it or the state after it. */
  predicate BeforeOrAfter(image: Image, before: Data, after: Data, lib: Lib) {
    && image.state.Some?
    && (InStep(image.state.value, before) || image.state.value == after)
    && UploadsMatch(image, image.state.value, lib)
  }

  lemma EveryImageIsSafe(w: World, op: Op, lib: Lib, torn: string, k: nat)
    requires Safe(w, lib) && Saves(w.data, op) && k < |Images(w.image, w.data, op, lib, torn)|
    ensures BeforeOrAfter(Images(w.image, w.data, op, lib, torn)[k], w.data, Mutated(w.data, op, lib), lib)
  {
  }

  lemma OpeningStaysInStep(a: Data, d: Data, email: string, lib: Lib)
    requires InStep(a, d)
    ensures InStep(a, Applied(d, WdOpen(email), lib))
  {
  }

  lemma SameIsInStep(a: Data)
    ensures InStep(a, a)
  {
  }

  lemma CrashKeepsSafe(w: World, op: Op, torn: string, k: nat, lib: Lib)
    requires Safe(w, lib)
    ensures Safe(Step(w, Crash(op, torn, k), lib), lib)
  {
    var images := Images(w.image, w.data, op, lib, torn);
    var image := Last(w.image, images, k);
    if k > 0 && images != [] { EveryImageIsSafe(w, op, lib, torn, if k <= |images| then k - 1 else |images| - 1); }
    SameIsInStep(Loaded(image));
  }

  lemma DoneKeepsSafe(w: World, op: Op, torn: string, lib: Lib)
    requires Safe(w, lib)
    ensures Safe(Step(w, Done(op, torn), lib), lib)
  {
    var images := Images(w.image, w.data, op, lib, torn);
    if Saves(w.data, op) {
      EveryImageIsSafe(w, op, lib, torn, |images| - 1);
      assert images[|images| - 1].state == Some(Mutated(w.data, op, lib));
      SameIsInStep(Mutated(w.data, op, lib));
    } else if op.WdOpen? {
      OpeningStaysInStep(w.image.state.value, w.data, op.email, lib);
    }
  }

  lemma {:induction false} EveryRunIsSafe(events: seq<Event>, lib: Lib)
    ensures Safe(Run(events, lib), lib)
  {
    if events == [] {
      SameIsInStep(EMPTY);
    } else {
      var n := |events| - 1;
      EveryRunIsSafe(events[..n], lib);
      match events[n]
      case Done(op, torn) => DoneKeepsSafe(Run(events[..n], lib), op, torn, lib);
      case Crash(op, torn, k) => CrashKeepsSafe(Run(events[..n], lib), op, torn, k, lib);
    }
  }

  // ---- Theorems ---------------------------------------------------------------------------------------------------

  /** After a crash anywhere in an operation and a restart, the store is exactly as after the
      operation, or as last saved: up to blank wizard drafts, as before the operation. */
  lemma {:induction false} CrashIsAtomic(events: seq<Event>, op: Op, torn: string, k: nat, lib: Lib)
    ensures var w := Run(events, lib);
            var restarted := Step(w, Crash(op, torn, k), lib).data;
            || (View(restarted) == View(w.data) && restarted == Loaded(w.image))
            || restarted == Applied(w.data, op, lib)
  {
    EveryRunIsSafe(events, lib);
    var w := Run(events, lib);
    var images := Images(w.image, w.data, op, lib, torn);
    if k > 0 && images != [] { ImageHolds(w.image, w.data, op, lib, torn, if k <= |images| then k - 1 else |images| - 1); }
  }

  lemma ImageHolds(now: Image, d: Data, op: Op, lib: Lib, torn: string, k: nat)
    requires Saves(d, op) && k < |Images(now, d, op, lib, torn)|
    ensures var image := Images(now, d, op, lib, torn)[k];
            image.state == now.state || image.state == Some(Mutated(d, op, lib))
  {
  }

  /** In every run, each recorded upload's file is there with the recorded size and digest. */
  lemma {:induction false} RecordedFilesHold(events: seq<Event>, lib: Lib, id: V.Meta)
    ensures var w := Run(events, lib);
            id in w.data.uploads ==> FileMatches(w.image, w.data, id, lib)
  {
    EveryRunIsSafe(events, lib);
    var w := Run(events, lib);
    if id in w.data.uploads {
      assert w.data.uploads == w.image.state.value.uploads;
      assert FileMatches(w.image, w.image.state.value, id, lib);
    }
  }

  lemma NumbersAreBelow(w: World, lib: Lib)
    requires Safe(w, lib)
    ensures Loaded(w.image).uploads == w.data.uploads
    ensures forall id :: id in w.data.uploads ==> id <= w.data.counters.upload && id in w.image.files
  {
  }

  lemma ImagesKeepFile(now: Image, d: Data, op: Op, lib: Lib, torn: string, k: nat, id: V.Meta)
    requires id in now.files && id <= d.counters.upload
    ensures var image := Last(now, Images(now, d, op, lib, torn), k);
            id in image.files && image.files[id] == now.files[id]
  {
  }

  lemma ImagesKeepRecord(now: Image, d: Data, op: Op, lib: Lib, torn: string, k: nat, id: V.Meta)
    requires id in d.uploads && id <= d.counters.upload && now.state.Some? && now.state.value.uploads == d.uploads
    ensures var disk := Loaded(Last(now, Images(now, d, op, lib, torn), k));
            id in disk.uploads && disk.uploads[id] == d.uploads[id]
  {
  }

  /** A recorded upload keeps its record, and its file its bytes. */
  predicate Keeps(a: World, b: World, id: V.Meta) {
    && id in a.data.uploads && id in b.data.uploads && b.data.uploads[id] == a.data.uploads[id]
    && id in a.image.files && id in b.image.files && b.image.files[id] == a.image.files[id]
  }

  lemma {:induction false} UploadSurvives(w: World, e: Event, lib: Lib, id: V.Meta)
    requires Safe(w, lib) && id in w.data.uploads
    ensures Keeps(w, Step(w, e, lib), id)
  {
    NumbersAreBelow(w, lib);
    var k := if e.Crash? then e.k else |Images(w.image, w.data, e.op, lib, e.torn)|;
    ImagesKeepFile(w.image, w.data, e.op, lib, e.torn, k, id);
    ImagesKeepRecord(w.image, w.data, e.op, lib, e.torn, k, id);
    if e.Done? && Saves(w.data, e.op) { MutationKeepsUploads(w.data, e.op, lib); }
  }

  lemma RunOn(events: seq<Event>, e: Event, lib: Lib)
    ensures Run(events + [e], lib) == Step(Run(events, lib), e, lib)
  {
    assert (events + [e])[..|events|] == events;
  }

  lemma KeepsOn(a: World, b: World, c: World, id: V.Meta)
    requires Keeps(a, b, id) && Keeps(b, c, id)
    ensures Keeps(a, c, id)
  {
  }

  lemma {:induction false} LaterSurvives(events: seq<Event>, e: Event, lib: Lib, id: V.Meta)
    requires id in Run(events, lib).data.uploads
    ensures Keeps(Run(events, lib), Run(events + [e], lib), id)
  {
    EveryRunIsSafe(events, lib);
    UploadSurvives(Run(events, lib), e, lib, id);
    RunOn(events, e, lib);
  }

  /** However the run goes on, finished or cut short, a recorded upload keeps its record and its file
      keeps its bytes: what a later upload overwrites is at most a file no state ever recorded. */
  lemma {:induction false} UploadsAreForever(events: seq<Event>, more: seq<Event>, lib: Lib, id: V.Meta)
    requires id in Run(events, lib).data.uploads
    ensures Keeps(Run(events, lib), Run(events + more, lib), id)
  {
    if more == [] {
      EveryRunIsSafe(events, lib);
      NumbersAreBelow(Run(events, lib), lib);
      assert events + more == events;
    } else {
      var n := |more| - 1;
      var before := events + more[..n];
      assert events + more == before + [more[n]];
      UploadsAreForever(events, more[..n], lib, id);
      LaterSurvives(before, more[n], lib, id);
      KeepsOn(Run(events, lib), Run(before, lib), Run(events + more, lib), id);
    }
  }

  lemma {:induction false} UploadIsRecorded(events: seq<Event>, u: V.Upload, torn: string, lib: Lib)
    ensures var w := Run(events, lib);
            var next, id := Step(w, Done(Op.StoreUpload(u), torn), lib), w.data.counters.upload + 1;
            && id !in w.data.uploads
            && id in next.data.uploads && id in next.image.files && next.image.files[id] == u.data
  {
    EveryRunIsSafe(events, lib);
    NumbersAreBelow(Run(events, lib), lib);
  }

  /** A finished upload is recorded under a new number, and from then on its file holds exactly the
      bytes sent, whatever is done, cut short or restarted later. */
  lemma {:induction false} UploadIsStored(events: seq<Event>, u: V.Upload, torn: string, more: seq<Event>, lib: Lib)
    ensures var w, later := Run(events, lib), Run(events + [Done(Op.StoreUpload(u), torn)] + more, lib);
            var id := w.data.counters.upload + 1;
            id !in w.data.uploads && id in later.data.uploads && id in later.image.files && later.image.files[id] == u.data
  {
    UploadIsRecorded(events, u, torn, lib);
    RunOn(events, Done(Op.StoreUpload(u), torn), lib);
    UploadsAreForever(events + [Done(Op.StoreUpload(u), torn)], more, lib, Run(events, lib).data.counters.upload + 1);
  }

  // ---- When a restart changes nothing at all ------------------------------------------------------------------

  /** What an event does to the agreement of memory and disk: it opens a wizard draft for an address
      that has none, it saves or restarts, or neither. */
  datatype Effect = Opening | Syncing | Quiet

  function EffectOf(w: World, e: Event): Effect {
    if e.Crash? || Saves(w.data, e.op) then Syncing
    else if e.op.WdOpen? && e.op.email !in w.data.wizards then Opening
    else Quiet
  }

  function Effects(events: seq<Event>, lib: Lib): (r: seq<Effect>)
    ensures |r| == |events|
  {
    if events == [] then []
    else var n := |events| - 1; Effects(events[..n], lib) + [EffectOf(Run(events[..n], lib), events[n])]
  }

  /** Some wizard draft was opened anew and nothing has been saved or restarted since. */
  predicate OpenedSince(effects: seq<Effect>) {
    exists i :: 0 <= i < |effects| && effects[i].Opening? && forall j :: i < j < |effects| ==> !effects[j].Syncing?
  }

  lemma OpenedSinceLast(effects: seq<Effect>, last: Effect)
    ensures OpenedSince(effects + [last]) <==> last.Opening? || (!last.Syncing? && OpenedSince(effects))
  {
    var n, all := |effects|, effects + [last];
    assert forall i :: 0 <= i < n ==> all[i] == effects[i];
    assert all[n] == last;
    if OpenedSince(all) && !last.Opening? {
      var i :| 0 <= i <= n && all[i].Opening? && forall j :: i < j <= n ==> !all[j].Syncing?;
      assert effects[i].Opening?;
      forall j | i < j < n ensures !effects[j].Syncing? { assert all[j] == effects[j]; }
    }
    if !last.Syncing? && OpenedSince(effects) {
      var i :| 0 <= i < n && effects[i].Opening? && forall j :: i < j < n ==> !effects[j].Syncing?;
      assert all[i].Opening?;
    }
  }

  lemma SyncedIsExact(w: World, e: Event, lib: Lib)
    requires w.image.state.Some? && EffectOf(w, e).Syncing?
    ensures Loaded(Step(w, e, lib).image) == Step(w, e, lib).data
  {
  }

  lemma UnsyncedKeepsDisk(w: World, e: Event, lib: Lib)
    requires !EffectOf(w, e).Syncing?
    ensures Step(w, e, lib).image == w.image
    ensures EffectOf(w, e).Quiet? ==> Step(w, e, lib).data == w.data
  {
    if e.op.WdOpen? && e.op.email in w.data.wizards {
      assert w.data.wizards[e.op.email := w.data.wizards[e.op.email]] == w.data.wizards;
    }
  }

  lemma OpenedIsNotSaved(w: World, e: Event, lib: Lib)
    requires Safe(w, lib) && EffectOf(w, e).Opening?
    ensures Loaded(Step(w, e, lib).image) != Step(w, e, lib).data
  {
    assert e.op.email !in Loaded(w.image).wizards;
    assert e.op.email in Step(w, e, lib).data.wizards;
  }

  /** At any point of any run a restart changes nothing at all exactly if no wizard draft was opened
      anew since the last save or restart. */
  lemma {:induction false} RestartIsExact(events: seq<Event>, lib: Lib)
    ensures Loaded(Run(events, lib).image) == Run(events, lib).data <==> !OpenedSince(Effects(events, lib))
  {
    if events != [] {
      var n := |events| - 1;
      var w, e := Run(events[..n], lib), events[n];
      RestartIsExact(events[..n], lib);
      EveryRunIsSafe(events[..n], lib);
      OpenedSinceLast(Effects(events[..n], lib), EffectOf(w, e));
      match EffectOf(w, e)
      case Syncing => SyncedIsExact(w, e, lib);
      case Opening => OpenedIsNotSaved(w, e, lib);
      case Quiet => UnsyncedKeepsDisk(w, e, lib);
    }
  }

  /** A crash at any point of any operation leaves exactly the state before or exactly the state after
      it, exactly if no wizard draft was opened anew since the last save or restart. */
  lemma {:induction false} CrashIsExact(events: seq<Event>, lib: Lib)
    ensures var w := Run(events, lib);
            (forall op, torn, k :: Step(w, Crash(op, torn, k), lib).data == w.data
                                   || Step(w, Crash(op, torn, k), lib).data == Applied(w.data, op, lib))
            <==> !OpenedSince(Effects(events, lib))
  {
    var w := Run(events, lib);
    RestartIsExact(events, lib);
    if OpenedSince(Effects(events, lib)) {
      EveryRunIsSafe(events, lib);
      var restarted := Step(w, Crash(CountLoad(""), "", 0), lib).data;
      assert restarted == Loaded(w.image) && restarted.loads == w.data.loads;
      assert Applied(w.data, CountLoad(""), lib).loads[""] != (if "" in w.data.loads then w.data.loads[""] else 0);
      assert restarted != Applied(w.data, CountLoad(""), lib);
    } else {
      forall op, torn, k
        ensures Step(w, Crash(op, torn, k), lib).data == w.data || Step(w, Crash(op, torn, k), lib).data == Applied(w.data, op, lib)
      {
        CrashIsAtomic(events, op, torn, k, lib);
      }
    }
  }

  /** The wizard's summary lists every draft, the blank ones too. */
  function Listed(d: Data): set<string> { d.wizards.Keys }

  /** Opening a draft and crashing: the summary listed the draft and no longer does. */
  lemma OpenedDraftIsLost(email: string, torn: string, lib: Lib)
    ensures var w := Run([Done(WdOpen(email), torn)], lib);
            email in Listed(w.data) && email !in Listed(Loaded(w.image))
  {
  }
}
