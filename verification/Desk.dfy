/** The desk's restore race (`apps/web/components/ApplicationDesk.tsx`, `apps/web/lib/restore.ts`):
    each `await` ends an atomic segment, and segments of different calls interleave. */
module Desk {
  import opened Wrappers

  datatype View = View(id: string, body: string)

  /** What asking for an application's status comes to. */
  datatype Status = Found(view: View) | NotFound | Failed(code: string)

  datatype RestoreOutcome = Nothing | Restored(id: string, view: View) | Gone(id: string) | Unread(id: string, code: string)

  /** A `loadCandidate` under way: waiting for the candidate, for a status, or to apply its outcome. */
  datatype Load = Asking | Awaiting(id: string) | Resolved(outcome: RestoreOutcome)

  /** `loads` are the calls under way, each known by the generation it began. */
  datatype State = State(
    generation: nat,
    view: Option<View>,
    stored: Option<string>,
    problem: Option<RestoreOutcome>,
    loads: map<nat, Load>)

  // ---- Segments ----------------------------------------------------------------------------------------

  function BegunLoad(s: State): State {
    s.(generation := s.generation + 1, loads := s.loads[s.generation + 1 := Asking])
  }

  /** The candidate arrived: a live desk starts to restore what the storage names. */
  function Looked(s: State, g: nat, live: bool): State {
    if !live then s.(loads := s.loads - {g})
    else if s.stored.None? || s.stored.value == "" then s.(loads := s.loads[g := Resolved(Nothing)])
    else s.(loads := s.loads[g := Awaiting(s.stored.value)])
  }

  /** The candidate could not be read: what the storage names stays followed. */
  function LookFailed(s: State, g: nat, live: bool, code: string): State {
    var t := s.(loads := s.loads - {g});
    if live && s.stored.Some? && s.stored.value != "" && g == s.generation
    then t.(problem := Some(Unread(s.stored.value, code))) else t
  }

  /** A status arrived: a missing application is forgotten if the storage still names it. */
  function Arrived(s: State, g: nat, id: string, status: Status): State {
    match status
    case Found(view) => s.(loads := s.loads[g := Resolved(Restored(id, view))])
    case NotFound => s.(stored := if s.stored == Some(id) then None else s.stored, loads := s.loads[g := Resolved(Gone(id))])
    case Failed(code) => s.(loads := s.loads[g := Resolved(Unread(id, code))])
  }

  predicate Superseded(s: State, outcome: RestoreOutcome) {
    (outcome.Restored? || outcome.Unread?) && s.stored != Some(outcome.id)
  }

  function Applied(s: State, g: nat, outcome: RestoreOutcome): State {
    var t := s.(loads := s.loads - {g});
    if g != s.generation || Superseded(s, outcome) then t
    else
      match outcome
      case Restored(_, view) => t.(view := Some(view), problem := None)
      case Nothing => t.(problem := None)
      case _ => t.(problem := Some(outcome))
  }

  function Stopped(s: State): State {
    s.(generation := s.generation + 1, stored := None, problem := None)
  }

  function Adopted(s: State, next: View, live: bool): State {
    s.(generation := s.generation + 1, view := Some(next), problem := None, stored := if live then Some(next.id) else s.stored)
  }

  function ReviewOpened(s: State): State {
    s.(generation := s.generation + 1)
  }

  function StartedAnother(s: State, live: bool): State {
    s.(generation := s.generation + 1, view := None, stored := if live then None else s.stored)
  }

  class ApplicationDesk {
    const live: bool
    var generation: nat
    var view: Option<View>
    var stored: Option<string>
    var problem: Option<RestoreOutcome>
    var loads: map<nat, Load>

    ghost function Contents(): State
      reads this
    {
      State(generation, view, stored, problem, loads)
    }

    constructor (live: bool, stored: Option<string>)
      ensures this.live == live && Contents() == State(0, None, stored, None, map[])
    {
      this.live, this.stored := live, stored;
      generation, view, problem, loads := 0, None, None, map[];
    }

    method BeginLoad() returns (g: nat)
      modifies this
      ensures Contents() == BegunLoad(old(Contents())) && g == generation
    {
      generation := generation + 1;
      g := generation;
      loads := loads[g := Asking];
    }

    method CandidateArrived(g: nat)
      requires g in loads && loads[g].Asking?
      modifies this
      ensures Contents() == Looked(old(Contents()), g, live)
    {
      if !live {
        loads := loads - {g};
        return;
      }
      var id := stored;
      if id.None? || id.value == "" {
        loads := loads[g := Resolved(Nothing)];
      } else {
        loads := loads[g := Awaiting(id.value)];
      }
    }

    method CandidateFailed(g: nat, code: string)
      requires g in loads && loads[g].Asking?
      modifies this
      ensures Contents() == LookFailed(old(Contents()), g, live, code)
    {
      loads := loads - {g};
      var activeId := if live then stored else None;
      if activeId.Some? && activeId.value != "" && g == generation {
        problem := Some(Unread(activeId.value, code));
      }
    }

    method StatusArrived(g: nat, status: Status)
      requires g in loads && loads[g].Awaiting?
      modifies this
      ensures Contents() == Arrived(old(Contents()), g, old(loads)[g].id, status)
    {
      var id := loads[g].id;
      match status {
        case Found(view) => loads := loads[g := Resolved(Restored(id, view))];
        case NotFound =>
          if stored == Some(id) { stored := None; }
          loads := loads[g := Resolved(Gone(id))];
        case Failed(code) => loads := loads[g := Resolved(Unread(id, code))];
      }
    }

    method ApplyOutcome(g: nat)
      requires g in loads && loads[g].Resolved?
      modifies this
      ensures Contents() == Applied(old(Contents()), g, old(loads)[g].outcome)
    {
      var outcome := loads[g].outcome;
      loads := loads - {g};
      var superseded := (outcome.Restored? || outcome.Unread?) && stored != Some(outcome.id);
      if g != generation || superseded { return; }
      if outcome.Restored? {
        view, problem := Some(outcome.view), None;
      } else if outcome.Nothing? {
        problem := None;
      } else {
        problem := Some(outcome);
      }
    }

    method StopFollowing()
      modifies this
      ensures Contents() == Stopped(old(Contents()))
    {
      generation := generation + 1;
      stored, problem := None, None;
    }

    method Adopt(next: View)
      modifies this
      ensures Contents() == Adopted(old(Contents()), next, live)
    {
      generation := generation + 1;
      view, problem := Some(next), None;
      if live { stored := Some(next.id); }
    }

    method OpenForReview()
      modifies this
      ensures Contents() == ReviewOpened(old(Contents()))
    {
      generation := generation + 1;
    }

    method StartAnother()
      modifies this
      ensures Contents() == StartedAnother(old(Contents()), live)
    {
      generation := generation + 1;
      if live { stored := None; }
      view := None;
    }
  }

  // ---- Runs ---------------------------------------------------------------------------------------------

  datatype Event =
    | LoadBegins
    | CandidateComes(g: nat)
    | CandidateFails(g: nat, code: string)
    | StatusComes(g: nat, status: Status)
    | OutcomeApplies(g: nat)
    | StopFollows
    | Adopts(next: View)
    | ReviewOpens
    | AnotherStarts

  /** A segment that is not due does nothing. */
  function Next(s: State, e: Event, live: bool): State {
    match e
    case LoadBegins => BegunLoad(s)
    case CandidateComes(g) => if g in s.loads && s.loads[g].Asking? then Looked(s, g, live) else s
    case CandidateFails(g, code) => if g in s.loads && s.loads[g].Asking? then LookFailed(s, g, live, code) else s
    case StatusComes(g, status) => if g in s.loads && s.loads[g].Awaiting? then Arrived(s, g, s.loads[g].id, status) else s
    case OutcomeApplies(g) => if g in s.loads && s.loads[g].Resolved? then Applied(s, g, s.loads[g].outcome) else s
    case StopFollows => Stopped(s)
    case Adopts(next) => Adopted(s, next, live)
    case ReviewOpens => ReviewOpened(s)
    case AnotherStarts => StartedAnother(s, live)
  }

  function Run(stored: Option<string>, events: seq<Event>, live: bool): State {
    if events == [] then State(0, None, stored, None, map[])
    else var n := |events| - 1; Next(Run(stored, events[..n], live), events[n], live)
  }

  /** A choice of the user, or a newer load: what a restore must not undo. */
  predicate Choice(e: Event) {
    e.LoadBegins? || e.StopFollows? || e.Adopts? || e.ReviewOpens? || e.AnotherStarts?
  }

  function Choices(events: seq<Event>): nat {
    if events == [] then 0
    else var n := |events| - 1; Choices(events[..n]) + (if Choice(events[n]) then 1 else 0)
  }

  lemma {:induction false} GenerationCountsChoices(stored: Option<string>, events: seq<Event>, live: bool)
    ensures Run(stored, events, live).generation == Choices(events)
  {
    if events != [] {
      GenerationCountsChoices(stored, events[..|events| - 1], live);
    }
  }

  /** The event that began the load of generation `g`. */
  predicate BeganAt(events: seq<Event>, g: nat, b: nat) {
    b < |events| && events[b].LoadBegins? && Choices(events[..b]) + 1 == g
  }

  lemma {:induction false} LoadsBegan(stored: Option<string>, events: seq<Event>, live: bool, g: nat)
    requires g in Run(stored, events, live).loads
    ensures exists b :: BeganAt(events, g, b)
  {
    var n := |events| - 1;
    var s := Run(stored, events[..n], live);
    if g in s.loads {
      LoadsBegan(stored, events[..n], live, g);
      var b: nat :| BeganAt(events[..n], g, b);
      assert events[..n][..b] == events[..b];
      assert BeganAt(events, g, b);
    } else {
      GenerationCountsChoices(stored, events[..n], live);
      assert BeganAt(events, g, n);
    }
  }

  predicate NoChoiceSince(events: seq<Event>, b: nat) {
    forall k :: b < k < |events| ==> !Choice(events[k])
  }

  lemma {:induction false} SameCountNoChoice(events: seq<Event>, b: nat)
    requires b < |events|
    ensures Choices(events) >= Choices(events[..b + 1])
    ensures Choices(events) == Choices(events[..b + 1]) <==> NoChoiceSince(events, b)
  {
    var n := |events| - 1;
    if b == n {
      assert events[..b + 1] == events;
    } else {
      SameCountNoChoice(events[..n], b);
      assert events[..n][..b + 1] == events[..b + 1];
      assert forall k :: b < k < n ==> events[..n][k] == events[k];
    }
  }

  lemma CurrentExactly(stored: Option<string>, events: seq<Event>, live: bool, g: nat, b: nat)
    requires BeganAt(events, g, b)
    ensures g == Run(stored, events, live).generation <==> NoChoiceSince(events, b)
  {
    GenerationCountsChoices(stored, events, live);
    SameCountNoChoice(events, b);
    assert events[..b + 1][..b] == events[..b];
  }

  // ---- Theorems -------------------------------------------------------------------------------------------

  /** A resolved restore is shown exactly if nothing was chosen and no load begun since its load
      began, and the storage still names its application. Otherwise the view stays. */
  lemma RestoredExactly(stored: Option<string>, events: seq<Event>, live: bool, g: nat, id: string, view: View)
    requires var s := Run(stored, events, live); g in s.loads && s.loads[g] == Resolved(Restored(id, view))
    ensures exists b :: BeganAt(events, g, b)
    ensures forall b :: BeganAt(events, g, b) ==>
              var s := Run(stored, events, live);
              Next(s, OutcomeApplies(g), live).view
              == if NoChoiceSince(events, b) && s.stored == Some(id) then Some(view) else s.view
  {
    LoadsBegan(stored, events, live, g);
    forall b | BeganAt(events, g, b) ensures g == Run(stored, events, live).generation <==> NoChoiceSince(events, b) {
      CurrentExactly(stored, events, live, g, b);
    }
  }

  /** Only adopting, starting another and a restore change the view. */
  lemma ViewChangesOnlyBy(s: State, e: Event, live: bool)
    requires Next(s, e, live).view != s.view
    ensures e.Adopts? || e.AnotherStarts? || (e.OutcomeApplies? && e.g in s.loads && s.loads[e.g].Resolved? && s.loads[e.g].outcome.Restored?)
  {
  }

  /** The user's choice, or the service definitely having no such application. */
  predicate Drops(s: State, e: Event, id: string) {
    || e.StopFollows? || e.AnotherStarts? || (e.Adopts? && e.next.id != id)
    || (e.StatusComes? && e.status.NotFound? && e.g in s.loads && s.loads[e.g] == Awaiting(id))
  }

  lemma KeptUnlessDropped(s: State, e: Event, live: bool, id: string)
    requires s.stored == Some(id) && !Drops(s, e, id)
    ensures Next(s, e, live).stored == Some(id)
  {
  }

  lemma RunOn(stored: Option<string>, events: seq<Event>, e: Event, live: bool)
    ensures Run(stored, events + [e], live) == Next(Run(stored, events, live), e, live)
  {
  }

  lemma SamePrefix(events: seq<Event>, n: nat, k: nat)
    requires k < n <= |events|
    ensures events[..n][..k] == events[..k] && events[..n][k] == events[k]
  {
  }

  predicate NeverDropped(stored: Option<string>, before: seq<Event>, after: seq<Event>, live: bool, id: string) {
    forall k :: 0 <= k < |after| ==> !Drops(Run(stored, before + after[..k], live), after[k], id)
  }

  lemma {:induction false} NeverDroppedBefore(stored: Option<string>, before: seq<Event>, after: seq<Event>, live: bool, id: string)
    requires after != [] && NeverDropped(stored, before, after, live, id)
    ensures NeverDropped(stored, before, after[..|after| - 1], live, id)
  {
    var n := |after| - 1;
    forall k | 0 <= k < n ensures !Drops(Run(stored, before + after[..n][..k], live), after[..n][k], id) {
      SamePrefix(after, n, k);
    }
  }

  /** An id followed at some point is followed until such an event, however the run goes on. */
  lemma {:induction false} DroppedOnlyBy(stored: Option<string>, before: seq<Event>, after: seq<Event>, live: bool, id: string)
    requires Run(stored, before, live).stored == Some(id)
    requires NeverDropped(stored, before, after, live, id)
    ensures Run(stored, before + after, live).stored == Some(id)
  {
    if after == [] {
      assert before + after == before;
    } else {
      var n := |after| - 1;
      NeverDroppedBefore(stored, before, after, live, id);
      DroppedOnlyBy(stored, before, after[..n], live, id);
      RunOn(stored, before + after[..n], after[n], live);
      KeptUnlessDropped(Run(stored, before + after[..n], live), after[n], live, id);
      assert before + after == before + after[..n] + [after[n]];
    }
  }

  /** A failed read keeps the id, and says so only while nothing newer was chosen. */
  lemma UnreadKeepsFollowing(stored: Option<string>, events: seq<Event>, live: bool, g: nat, id: string, code: string)
    requires var s := Run(stored, events, live); g in s.loads && s.loads[g] == Resolved(Unread(id, code))
    ensures forall b :: BeganAt(events, g, b) ==>
              var s := Run(stored, events, live);
              var t := Next(s, OutcomeApplies(g), live);
              && t.stored == s.stored && t.view == s.view
              && t.problem == if NoChoiceSince(events, b) && s.stored == Some(id) then Some(Unread(id, code)) else s.problem
  {
    forall b | BeganAt(events, g, b) ensures g == Run(stored, events, live).generation <==> NoChoiceSince(events, b) {
      CurrentExactly(stored, events, live, g, b);
    }
  }

  // ---- A restore that nothing disturbs ------------------------------------------------------------------

  function From(s: State, events: seq<Event>, live: bool): State {
    if events == [] then s else var n := |events| - 1; Next(From(s, events[..n], live), events[n], live)
  }

  predicate OfLoad(e: Event, g: nat) {
    (e.CandidateComes? || e.CandidateFails? || e.StatusComes? || e.OutcomeApplies?) && e.g == g
  }

  /** Nobody chooses anything, loads anew or makes the storage forget the id; other loads go on. */
  predicate Undisturbed(s: State, events: seq<Event>, live: bool, g: nat, kept: Option<string>) {
    forall k :: 0 <= k < |events| ==>
      && !Choice(events[k]) && !OfLoad(events[k], g)
      && (kept.Some? ==> !Drops(From(s, events[..k], live), events[k], kept.value))
  }

  /** The load is the current one, it stands here, and the storage names this id, if any. */
  predicate Stands(s: State, g: nat, load: Load, kept: Option<string>) {
    s.generation == g && g in s.loads && s.loads[g] == load && s.stored == kept
  }

  lemma {:induction false} StepStands(s: State, e: Event, live: bool, g: nat, load: Load, kept: Option<string>)
    requires Stands(s, g, load, kept) && !Choice(e) && !OfLoad(e, g) && (kept.Some? ==> !Drops(s, e, kept.value))
    ensures var t := Next(s, e, live); Stands(t, g, load, kept) && t.view == s.view && t.problem == s.problem
  {
  }

  lemma {:induction false} StillStands(s: State, events: seq<Event>, live: bool, g: nat, load: Load, kept: Option<string>)
    requires Stands(s, g, load, kept) && Undisturbed(s, events, live, g, kept)
    ensures var t := From(s, events, live); Stands(t, g, load, kept) && t.view == s.view && t.problem == s.problem
  {
    if events != [] {
      var n := |events| - 1;
      forall k | 0 <= k < n
        ensures !Choice(events[..n][k]) && !OfLoad(events[..n][k], g)
                && (kept.Some? ==> !Drops(From(s, events[..n][..k], live), events[..n][k], kept.value))
      {
        SamePrefix(events, n, k);
      }
      StillStands(s, events[..n], live, g, load, kept);
      StepStands(From(s, events[..n], live), events[n], live, g, load, kept);
    }
  }

  /** A load that nothing disturbs comes to its end: a live desk that follows an application shows it if it
      is found, forgets it and says so if there is none, and keeps following it and says so if it cannot
      be read. Events of other loads may come in between. */
  lemma {:induction false} RestoreCompletes(s: State, a: seq<Event>, b: seq<Event>, c: seq<Event>, id: string, status: Status)
    requires s.stored == Some(id) && id != ""
    requires var g := s.generation + 1;
             var s1 := Next(s, LoadBegins, true);
             var s2 := Next(From(s1, a, true), CandidateComes(g), true);
             var s3 := Next(From(s2, b, true), StatusComes(g, status), true);
             && Undisturbed(s1, a, true, g, Some(id)) && Undisturbed(s2, b, true, g, Some(id))
             && Undisturbed(s3, c, true, g, if status.NotFound? then None else Some(id))
    ensures var g := s.generation + 1;
            var s2 := Next(From(Next(s, LoadBegins, true), a, true), CandidateComes(g), true);
            var s3 := Next(From(s2, b, true), StatusComes(g, status), true);
            var t := Next(From(s3, c, true), OutcomeApplies(g), true);
            match status
            case Found(view) => t.view == Some(view) && t.stored == Some(id) && t.problem == None
            case NotFound => t.view == s.view && t.stored == None && t.problem == Some(Gone(id))
            case Failed(code) => t.view == s.view && t.stored == Some(id) && t.problem == Some(Unread(id, code))
  {
    var g := s.generation + 1;
    var s1 := Next(s, LoadBegins, true);
    StillStands(s1, a, true, g, Asking, Some(id));
    var s2 := Next(From(s1, a, true), CandidateComes(g), true);
    StillStands(s2, b, true, g, Awaiting(id), Some(id));
    var s3 := Next(From(s2, b, true), StatusComes(g, status), true);
    StillStands(s3, c, true, g, s3.loads[g], if status.NotFound? then None else Some(id));
  }

  /** A desk that follows nothing asks for no status: such a load only clears the problem. */
  lemma {:induction false} NothingToRestore(s: State, a: seq<Event>, c: seq<Event>)
    requires s.stored == None || s.stored == Some("")
    requires var g := s.generation + 1;
             var s1 := Next(s, LoadBegins, true);
             Undisturbed(s1, a, true, g, s.stored) && Undisturbed(Next(From(s1, a, true), CandidateComes(g), true), c, true, g, s.stored)
    ensures var g := s.generation + 1;
            var s2 := Next(From(Next(s, LoadBegins, true), a, true), CandidateComes(g), true);
            var t := Next(From(s2, c, true), OutcomeApplies(g), true);
            t.view == s.view && t.stored == s.stored && t.problem == None
  {
    var g := s.generation + 1;
    var s1 := Next(s, LoadBegins, true);
    StillStands(s1, a, true, g, Asking, s.stored);
    StillStands(Next(From(s1, a, true), CandidateComes(g), true), c, true, g, Resolved(Nothing), s.stored);
  }

  /** What each choice does at once: adopting shows the application and follows it, stopping forgets the
      followed one and the problem, starting another clears the view, opening for review only outdates
      the loads under way. All of them do that, and leave the loads themselves alone. */
  lemma {:induction false} ChoicesAre(s: State, e: Event, live: bool)
    requires Choice(e) && !e.LoadBegins?
    ensures var t := Next(s, e, live);
            && t.generation == s.generation + 1 && t.loads == s.loads
            && t.view == (if e.Adopts? then Some(e.next) else if e.AnotherStarts? then None else s.view)
            && t.problem == (if e.Adopts? || e.StopFollows? then None else s.problem)
            && t.stored == if e.StopFollows? || (e.AnotherStarts? && live) then None
                           else if e.Adopts? && live then Some(e.next.id) else s.stored
  {
  }

  /** A candidate that cannot be read keeps the followed id and the view, and says so exactly if the desk
      is live and follows one, and nothing was chosen since its load began. */
  lemma {:induction false} LookFailsKeeps(stored: Option<string>, events: seq<Event>, live: bool, g: nat, code: string, b: nat)
    requires var s := Run(stored, events, live); g in s.loads && s.loads[g].Asking?
    requires BeganAt(events, g, b)
    ensures var s := Run(stored, events, live);
            var t := Next(s, CandidateFails(g, code), live);
            && t.stored == s.stored && t.view == s.view
            && t.problem == if live && s.stored.Some? && s.stored.value != "" && NoChoiceSince(events, b)
                            then Some(Unread(s.stored.value, code)) else s.problem
  {
    CurrentExactly(stored, events, live, g, b);
  }
}
