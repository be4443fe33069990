/** What every run of the recording lifecycle keeps, and what a cancelled session can never do again. */
module RecordingSafety {
  import opened Options
  import opened RecordingSession

  ghost predicate Known(h: History, client: nat, target: Option<nat>) {
    client in h.seen && (target.Some? ==> client in h.targets && h.targets[client] == target.value)
  }

  // A waiting loop holds the very command it was made for, and no two commands have one number.
  ghost predicate LoopsInv(s: State) {
    && (forall id | id in s.tasks.loops ::
          var start := s.tasks.loops[id];
          Known(s.history, start.client, start.target) && start.command.Some? && start.command.value < s.tasks.next)
    && (forall id, other | id in s.tasks.loops && other in s.tasks.loops ::
          s.tasks.loops[id].command == s.tasks.loops[other].command ==> s.tasks.loops[id] == s.tasks.loops[other])
    && (s.deferred.Some? ==>
          && Known(s.history, s.deferred.value.client, s.deferred.value.target)
          && s.deferred.value.command.Some? && s.deferred.value.command.value < s.tasks.next
          && (forall id | id in s.tasks.loops ::
                s.tasks.loops[id].command == s.deferred.value.command ==> s.tasks.loops[id] == s.deferred.value))
  }

  ghost predicate ActiveInv(s: State) {
    s.active.Some? ==>
      && s.deferred.None?
      && Known(s.history, s.active.value.client, s.active.value.target)
      && (s.screen.preview.Some? ==> s.screen.preview == PreviewOf(s.active.value))
  }

  // Texts go to the one input field their session was asked for with.
  ghost predicate OffersInv(s: State) {
    && (forall c | c in s.history.targets :: c in s.history.seen)
    && (forall i | 0 <= i < |s.history.offers| ::
          s.history.offers[i].session in s.history.targets
          && s.history.targets[s.history.offers[i].session] == s.history.offers[i].target)
  }

  // The session `id` can hand over nothing any more; with `onlyConfirmed`, no confirmed preview any more.
  ghost predicate Over(s: State, id: nat, onlyConfirmed: bool) {
    && id in s.history.seen
    && (s.deferred.Some? ==> s.deferred.value.client != id || s.deferred.value.target.None?)
    && (s.active.Some? ==>
          || s.active.value.client != id || s.active.value.target.None? || s.active.value.cancelled
          || (onlyConfirmed && s.active.value.generated.Some?))
  }

  ghost predicate ConfirmedInv(s: State) {
    && (forall i | 0 <= i < |s.history.offers| && s.history.offers[i].route == Confirmed ::
          Over(s, s.history.offers[i].session, true))
    && (forall i, j | 0 <= i < j < |s.history.offers|
          && s.history.offers[i].route == Confirmed && s.history.offers[j].route == Confirmed ::
          s.history.offers[i].session != s.history.offers[j].session)
  }

  ghost predicate Inv(s: State) {
    LoopsInv(s) && ActiveInv(s) && OffersInv(s) && ConfirmedInv(s)
  }

  // ---- steps within a session ----

  lemma MovesKeepOver(s: State, t: State, id: nat, onlyConfirmed: bool)
    requires Moves(s, t) && Over(s, id, onlyConfirmed)
    ensures Over(t, id, onlyConfirmed)
  {}

  lemma MovesKeepShape(s: State, t: State)
    requires Moves(s, t) && LoopsInv(s) && ActiveInv(s)
    ensures LoopsInv(t) && ActiveInv(t)
  {}

  lemma MovesKeepOffers(s: State, t: State)
    requires Moves(s, t) && ActiveInv(s) && OffersInv(s)
    ensures OffersInv(t)
  {}

  lemma MovesKeepConfirmed(s: State, t: State)
    requires Moves(s, t) && ActiveInv(s) && OffersInv(s) && ConfirmedInv(s)
    ensures ConfirmedInv(t)
  {
    forall i | 0 <= i < |t.history.offers| && t.history.offers[i].route == Confirmed
      ensures Over(t, t.history.offers[i].session, true)
    {
      if i < |s.history.offers| { MovesKeepOver(s, t, s.history.offers[i].session, true); }
    }
  }

  lemma MovesKeepInv(s: State, t: State)
    requires Moves(s, t) && Inv(s)
    ensures Inv(t)
  {
    hide Moves, LoopsInv, ActiveInv, OffersInv, ConfirmedInv;
    MovesKeepShape(s, t);
    MovesKeepOffers(s, t);
    MovesKeepConfirmed(s, t);
  }

  lemma MovesOfferNothing(s: State, t: State, id: nat)
    requires Moves(s, t) && Inv(s) && Over(s, id, false)
    ensures NothingNew(s, t, id)
  {}

  // Every text handed over between the two states is of another session.
  ghost predicate NothingNew(s: State, t: State, id: nat) {
    && |s.history.offers| <= |t.history.offers| && s.history.offers == t.history.offers[..|s.history.offers|]
    && forall i | |s.history.offers| <= i < |t.history.offers| :: t.history.offers[i].session != id
  }

  // ---- beginning ----

  // A start that may open: its session is known, and its command is the one every loop with it holds.
  ghost predicate Fits(s: State, start: Start) {
    && Known(s.history, start.client, start.target)
    && (start.command.Some? ==>
          && start.command.value < s.tasks.next
          && (forall id | id in s.tasks.loops :: s.tasks.loops[id].command == start.command ==> s.tasks.loops[id] == start))
  }

  lemma DeferKeepsShape(s: State, start: Start)
    requires LoopsInv(s) && ActiveInv(s) && s.active.None? && Fits(s, start)
    ensures LoopsInv(Defer(s, start)) && ActiveInv(Defer(s, start))
  {}

  lemma BeginKeepsShape(s: State, start: Start, w: World)
    requires LoopsInv(s) && ActiveInv(s) && Fits(s, start)
    ensures LoopsInv(Begin(s, start, w)) && ActiveInv(Begin(s, start, w)) && Begin(s, start, w).history == s.history
  {
    if s.active.None? { DeferKeepsShape(s, start); }
  }

  lemma BeginKeepsOver(s: State, start: Start, w: World, id: nat, onlyConfirmed: bool)
    requires Over(s, id, onlyConfirmed) && (start.client != id || start.target.None?)
    ensures Over(Begin(s, start, w), id, onlyConfirmed)
  {}

  lemma BeginKeepsInv(s: State, start: Start, w: World)
    requires Inv(s) && Fits(s, start)
    requires forall i | 0 <= i < |s.history.offers| && s.history.offers[i].route == Confirmed ::
               s.history.offers[i].session != start.client || start.target.None?
    ensures Inv(Begin(s, start, w))
  {
    hide LoopsInv, ActiveInv, Fits, Over, Begin;
    BeginKeepsShape(s, start, w);
    forall i | 0 <= i < |s.history.offers| && s.history.offers[i].route == Confirmed
      ensures Over(Begin(s, start, w), s.history.offers[i].session, true)
    {
      BeginKeepsOver(s, start, w, s.history.offers[i].session, true);
    }
  }

  lemma AskedKeepsInv(s: State, start: Start)
    requires Inv(s) && Possible(s, StartAsked(start))
    ensures Inv(Asked(s, start)) && Fits(Asked(s, start), start)
    ensures start.target.Some? ==> forall i | 0 <= i < |s.history.offers| :: s.history.offers[i].session != start.client
  {}

  lemma StartKeepsInv(s: State, start: Start, w: World)
    requires Inv(s) && Possible(s, StartAsked(start))
    ensures Inv(Begin(Asked(s, start), start, w))
  {
    AskedKeepsInv(s, start);
    hide Inv, Fits;
    BeginKeepsInv(Asked(s, start), start, w);
  }

  // A loop that begins does so with the command that was deferred.
  ghost predicate Begins(s: State, id: nat, expired: bool, w: World) {
    && id in s.tasks.loops && s.deferred.Some? && s.deferred.value.command == s.tasks.loops[id].command
    && !expired && s.active.None? && w.idle && !w.preparing && w.prepared && !w.controlsPending
  }

  function Cleared(s: State, id: nat): State {
    s.(tasks := s.tasks.(loops := s.tasks.loops - {id}), deferred := None)
  }

  lemma ClearedKeepsInv(s: State, id: nat)
    requires Inv(s) && id in s.tasks.loops && s.deferred.Some? && s.deferred.value.command == s.tasks.loops[id].command
    ensures Moves(s, Cleared(s, id)) && Fits(Cleared(s, id), s.tasks.loops[id]) && s.deferred.value == s.tasks.loops[id]
  {}

  lemma IdleTurnMoves(s: State, id: nat, expired: bool, w: World)
    requires id in s.tasks.loops && !Begins(s, id, expired, w)
    ensures Moves(s, DeferredTurn(s, id, expired, w))
  {}

  lemma TurnKeepsInv(s: State, id: nat, expired: bool, w: World)
    requires Inv(s) && id in s.tasks.loops
    ensures Inv(DeferredTurn(s, id, expired, w))
  {
    hide Moves, Inv, Fits, LoopsInv, ActiveInv, OffersInv, Begin, CancelDeferred;
    if Begins(s, id, expired, w) {
      ClearedKeepsInv(s, id);
      MovesKeepInv(s, Cleared(s, id));
      DeferredIsOver(s);
      BeginKeepsInv(Cleared(s, id), s.tasks.loops[id], w);
    } else {
      IdleTurnMoves(s, id, expired, w);
      MovesKeepInv(s, DeferredTurn(s, id, expired, w));
    }
  }

  lemma DeferredIsOver(s: State)
    requires Inv(s) && s.deferred.Some?
    ensures forall i | 0 <= i < |s.history.offers| && s.history.offers[i].route == Confirmed ::
              s.history.offers[i].session != s.deferred.value.client || s.deferred.value.target.None?
  {}

  // ---- every event ----

  lemma StepMoves(s: State, e: Event, w: World)
    requires Possible(s, e) && !e.StartAsked? && !e.LoopWoke?
    ensures Moves(s, Step(s, e, w))
  {
    hide Cancel, Stop, Fail, CancelDeferred, Completed, CompleteSpace, NativeRan, ConfirmPreview, SpaceWorkCame, Level,
      Ended, CancelCommand, StopCommand, FinishTranslation, Receipt, DetachPrevious, AbortNative, Started, Arrive;
  }

  lemma StepKeepsInv(s: State, e: Event, w: World)
    requires Inv(s) && Possible(s, e)
    ensures Inv(Step(s, e, w))
  {
    hide Inv, Moves, Possible;
    match e
    case StartAsked(start) => StartKeepsInv(s, start, w); StepStarts(s, start, w);
    case LoopWoke(id, expired) => LoopPossible(s, id, expired); TurnKeepsInv(s, id, expired, w);
    case _ => StepMoves(s, e, w); MovesKeepInv(s, Step(s, e, w));
  }

  lemma StepStarts(s: State, start: Start, w: World)
    requires Possible(s, StartAsked(start))
    ensures Step(s, StartAsked(start), w) == Begin(Asked(s, start), start, w)
  {}

  lemma LoopPossible(s: State, id: nat, expired: bool)
    requires Possible(s, LoopWoke(id, expired))
    ensures id in s.tasks.loops
  {}

  lemma TurnKeepsOver(s: State, id: nat, expired: bool, w: World, session: nat)
    requires Inv(s) && id in s.tasks.loops && Over(s, session, false)
    ensures Over(DeferredTurn(s, id, expired, w), session, false)
    ensures DeferredTurn(s, id, expired, w).history == s.history
  {
    hide Inv, Moves, Fits, Begin;
    if Begins(s, id, expired, w) {
      ClearedKeepsInv(s, id);
      BeginKeepsOver(Cleared(s, id), s.tasks.loops[id], w, session, false);
      BeginKeepsHistory(Cleared(s, id), s.tasks.loops[id], w);
    } else {
      IdleTurnMoves(s, id, expired, w);
      MovesKeepOver(s, DeferredTurn(s, id, expired, w), session, false);
    }
  }

  lemma BeginKeepsHistory(s: State, start: Start, w: World)
    ensures Begin(s, start, w).history == s.history
  {}

  lemma StartKeepsOver(s: State, start: Start, w: World, session: nat)
    requires Over(s, session, false) && Possible(s, StartAsked(start))
    ensures Over(Begin(Asked(s, start), start, w), session, false)
    ensures Begin(Asked(s, start), start, w).history.offers == s.history.offers
  {
    hide Begin;
    BeginKeepsOver(Asked(s, start), start, w, session, false);
    BeginKeepsHistory(Asked(s, start), start, w);
  }

  lemma StepKeepsOver(s: State, e: Event, w: World, session: nat)
    requires Inv(s) && Possible(s, e) && Over(s, session, false)
    ensures Over(Step(s, e, w), session, false) && NothingNew(s, Step(s, e, w), session)
  {
    hide Inv, Moves, Possible, Over;
    match e
    case StartAsked(start) => StartKeepsOver(s, start, w, session); StepStarts(s, start, w);
    case LoopWoke(id, expired) => LoopPossible(s, id, expired); TurnKeepsOver(s, id, expired, w, session);
    case _ =>
      StepMoves(s, e, w);
      MovesKeepOver(s, Step(s, e, w), session, false);
      MovesOfferNothing(s, Step(s, e, w), session);
  }

  // ---- runs ----

  datatype Moment = Moment(event: Event, world: World)

  ghost predicate Admissible(s: State, es: seq<Moment>)
    decreases |es|
  {
    es == [] || (Possible(s, es[0].event) && Admissible(Step(s, es[0].event, es[0].world), es[1..]))
  }

  ghost function Run(s: State, es: seq<Moment>): State
    requires Admissible(s, es)
    decreases |es|
  {
    if es == [] then s else Run(Step(s, es[0].event, es[0].world), es[1..])
  }

  lemma RunKeepsInv(s: State, es: seq<Moment>)
    requires Inv(s) && Admissible(s, es)
    ensures Inv(Run(s, es))
    decreases |es|
  {
    hide Step, Inv, Possible;
    if es != [] {
      StepKeepsInv(s, es[0].event, es[0].world);
      RunKeepsInv(Step(s, es[0].event, es[0].world), es[1..]);
    }
  }

  lemma RunKeepsOver(s: State, es: seq<Moment>, session: nat)
    requires Inv(s) && Admissible(s, es) && Over(s, session, false)
    ensures Over(Run(s, es), session, false) && NothingNew(s, Run(s, es), session)
    decreases |es|
  {
    hide Step, Inv, Possible, Over;
    if es != [] {
      StepKeepsInv(s, es[0].event, es[0].world);
      StepKeepsOver(s, es[0].event, es[0].world, session);
      RunKeepsOver(Step(s, es[0].event, es[0].world), es[1..], session);
    }
  }

  /** A session in progress and a deferred start never exist at once, so whatever is cancelled or stopped
      is the one thing there is; and a preview on screen belongs to the session in progress. */
  lemma OneSessionAtATime(es: seq<Moment>)
    requires Admissible(Quiet, es)
    ensures var s := Run(Quiet, es);
            && !(s.active.Some? && s.deferred.Some?)
            && (s.active.Some? && s.screen.preview.Some? ==> s.screen.preview == PreviewOf(s.active.value))
  {
    RunKeepsInv(Quiet, es);
  }

  ghost predicate InProgress(s: State, session: nat) {
    (s.active.Some? && s.active.value.client == session) || (s.deferred.Some? && s.deferred.value.client == session)
  }

  // The session may still hand over text: it is deferred, or begun and not cancelled.
  ghost predicate Holds(s: State, session: nat) {
    || (s.active.Some? && s.active.value.client == session && !s.active.value.cancelled)
    || (s.deferred.Some? && s.deferred.value.client == session)
  }

  // Each way to cancel or drop what is in progress: the callers of `cancel` and of
  // `cancelDeferredKeyboardStart`, and the other places that end a session.
  predicate Cancels(s: State, e: Event, w: World, session: nat) {
    match e
    case CancelCalled => true
    case FailCalled => true
    case ExpiryCame(client) => SameClient(s, client)
    case StopCalled => s.deferred.Some? || StopCancels(s)
    case DeferredDropped(_) => s.deferred.Some?
    case CancelAsked(asked, target) => asked == Some(session) && (IsDeferred(s, asked, target) || IsActive(s, asked, target))
    case StopAsked(asked, target, noLanguage) =>
      && asked == Some(session)
      && (IsDeferred(s, asked, target)
          || (IsActive(s, asked, target) && noLanguage && (s.active.value.space ==> w.accepted)))
    case TakenOver => s.active.Some? && s.active.value.target.Some? && s.active.value.coreFinished
    case LoopWoke(id, expired) => GivesUp(s, id, expired, w)
    case CoreLevel(core, limitReached) =>
      && s.active.Some? && !s.active.value.stopping && core == s.active.value.coreID && limitReached
      && s.active.value.space && !s.active.value.decided
    case CoreCompleted(finished, _) => finished == ClientOf(s) && (UnusableSpaceText(s, w) || EndsOtherwise(s))
    case CoreEnded(finished) => s.active.Some? && finished == ClientOf(s)
    case SpaceCame(id) => id in s.tasks.spaces && SpaceWorkFails(s, id, w)
    case ConfirmAsked => ConfirmFails(s, w)
    case _ => false
  }

  // `stop` cancels when a release was never chosen or nothing has been heard yet.
  predicate StopCancels(s: State) {
    && s.active.Some? && !s.active.value.stopping
    && ((s.active.value.space && !s.active.value.decided) || (s.screen.phase == Starting && !s.screen.captureReady))
  }

  predicate GivesUp(s: State, id: nat, expired: bool, w: World) {
    && id in s.tasks.loops && s.deferred.Some? && s.deferred.value.command == s.tasks.loops[id].command
    && (expired || !w.idle || (!w.preparing && !w.prepared))
  }

  predicate UnusableSpaceText(s: State, w: World) {
    && s.active.Some? && s.active.value.space && !s.active.value.coreFinished && s.active.value.target.Some?
    && s.tasks.spaceTask.None? && w.ready && w.empty
  }

  // A recognition without a space gesture, an activation or a composed text ends its session.
  predicate EndsOtherwise(s: State) {
    s.active.Some? && !s.active.value.space && s.active.value.activation.None? && !s.active.value.help
  }

  predicate SpaceWorkFails(s: State, id: nat, w: World)
    requires id in s.tasks.spaces
  {
    && SameClient(s, s.tasks.spaces[id].client)
    && (s.tasks.spaces[id].cancelled || !w.accepted || w.empty || w.throws)
  }

  predicate ConfirmFails(s: State, w: World) {
    && s.active.Some? && s.active.value.coreFinished && s.active.value.generated.None? && s.screen.preview.Some?
    && w.accepted && w.throws
  }

  lemma CancelTakesHold(s: State, e: Event, w: World, session: nat)
    requires Inv(s) && Possible(s, e) && InProgress(s, session) && Cancels(s, e, w, session)
    ensures !Holds(Step(s, e, w), session)
  {
    hide LoopsInv, OffersInv, ConfirmedInv, Moves, Calm, Begin;
  }

  lemma CancelEndsBoth(s: State)
    requires Inv(s)
    ensures Cancel(s).deferred.None? && (Cancel(s).active.Some? ==> Cancel(s).active.value.cancelled)
    ensures Fail(s).deferred.None? && (Fail(s).active.Some? ==> Fail(s).active.value.cancelled)
    ensures Stop(s).deferred.None?
    ensures Stop(s).active.Some? ==> Stop(s).active.value.cancelled || Stop(s).active.value.stopping
  {
    hide LoopsInv, OffersInv, ConfirmedInv, Moves, Calm;
  }

  // However it came about that a session no longer holds, it is over.
  lemma LosingHoldIsOver(s: State, e: Event, w: World, session: nat)
    requires Inv(s) && Possible(s, e) && InProgress(s, session) && !Holds(Step(s, e, w), session)
    ensures Over(Step(s, e, w), session, false)
  {
    hide Step, Moves;
    StepSeesMore(s, e, w);
  }

  lemma StepSeesMore(s: State, e: Event, w: World)
    requires Possible(s, e)
    ensures s.history.seen <= Step(s, e, w).history.seen
    ensures !e.ConfirmAsked? && !e.SpaceCame? && !e.NativeStarted? ==> Step(s, e, w).history.offers == s.history.offers
  {
    match e
    case StartAsked(start) => BeginKeepsHistory(Asked(s, start), start, w);
    case LoopWoke(id, expired) => TurnKeepsHistory(s, id, expired, w);
    case _ =>
      StepMoves(s, e, w);
      hide Moves, Begin, DeferredTurn, CompleteSpace, Cancel, Stop, Fail, NativeRan, ConfirmPreview, SpaceWorkCame, InsertText;
      StepIsCalm(s, e, w);
  }

  lemma TurnKeepsHistory(s: State, id: nat, expired: bool, w: World)
    requires id in s.tasks.loops
    ensures DeferredTurn(s, id, expired, w).history == s.history
  {
    hide Begin;
    BeginKeepsHistory(Cleared(s, id), s.tasks.loops[id], w);
  }

  lemma StepIsCalm(s: State, e: Event, w: World)
    requires Possible(s, e) && !e.StartAsked? && !e.LoopWoke?
    ensures s.history.seen <= Step(s, e, w).history.seen
    ensures !e.ConfirmAsked? && !e.SpaceCame? && !e.NativeStarted? ==> Step(s, e, w).history == s.history
  {
    hide Cancel, Stop, Fail, CancelDeferred, Completed, CompleteSpace, NativeRan, ConfirmPreview, SpaceWorkCame, Level,
      Ended, CancelCommand, StopCommand, FinishTranslation, Receipt, DetachPrevious, AbortNative, Started, Arrive;
  }

  /** Once a session in progress has lost its hold, by whichever event, no text is handed to a keyboard for it
      ever again, whatever events of the Core, native requests, confirmations, space work or new starts follow
      in whatever order; and the event itself hands nothing over unless it is a hand-over that failed. */
  lemma CancelledSessionsStaySilent(before: seq<Moment>, last: Moment, after: seq<Moment>, session: nat)
    requires Admissible(Quiet, before) && InProgress(Run(Quiet, before), session)
    requires Possible(Run(Quiet, before), last.event)
    requires !Holds(Step(Run(Quiet, before), last.event, last.world), session)
    requires Admissible(Step(Run(Quiet, before), last.event, last.world), after)
    ensures var s := Run(Quiet, before);
            var t := Step(s, last.event, last.world);
            && NothingNew(t, Run(t, after), session)
            && (!last.event.ConfirmAsked? && !last.event.SpaceCame? && !last.event.NativeStarted? ==>
                  NothingNew(s, Run(t, after), session))
  {
    RunKeepsInv(Quiet, before);
    hide Inv, Step, Over, Possible, Holds;
    var s := Run(Quiet, before);
    var t := Step(s, last.event, last.world);
    LosingHoldIsOver(s, last.event, last.world, session);
    StepKeepsInv(s, last.event, last.world);
    RunKeepsOver(t, after, session);
    StepSeesMore(s, last.event, last.world);
  }

  /** A session that the Core has ended is as silent as a cancelled one. */
  lemma EndedSessionsStaySilent(s: State, session: nat, es: seq<Moment>)
    requires Inv(s) && s.active.Some? && s.active.value.client == session && Admissible(Ended(s, Some(session)), es)
    ensures NothingNew(s, Run(Ended(s, Some(session)), es), session)
  {
    var t := Ended(s, Some(session));
    assert Over(t, session, false);
    hide Inv, Step, Over;
    MovesKeepInv(s, t);
    RunKeepsOver(t, es, session);
  }

  /** Every text goes to the input field its session was asked for with, and no session hands over more
      than one confirmed preview. */
  lemma TextsGoWhereTheyWereAsked(es: seq<Moment>)
    requires Admissible(Quiet, es)
    ensures var h := Run(Quiet, es).history;
            && (forall o | o in h.offers :: o.session in h.targets && h.targets[o.session] == o.target)
            && (forall i, j | 0 <= i < j < |h.offers| && h.offers[i].route == Confirmed && h.offers[j].route == Confirmed ::
                  h.offers[i].session != h.offers[j].session)
  {
    RunKeepsInv(Quiet, es);
  }

  // ---- whose text it is ----

  // `owner` says which session each Core session really belongs to. The session in progress is bound to a
  // Core session of its own.
  ghost predicate BoundToOwn(s: State, owner: nat -> nat) {
    s.active.Some? && s.active.value.coreID.Some? ==> owner(s.active.value.coreID.value) == s.active.value.client
  }

  // The Core tells the truth when it announces a session.
  predicate Truthful(e: Event, owner: nat -> nat) {
    e.CoreStarted? && e.core.Some? ==> owner(e.core.value) == e.client
  }

  // A native start request of another Core session runs while a session is in progress and binds it.
  predicate Rebinds(s: State, e: Event, owner: nat -> nat) {
    && e.NativeStarted? && e.id in s.tasks.native
    && (s.tasks.native[e.id].operation.CaptureStart? || s.tasks.native[e.id].operation.SpeechStart?)
    && !s.tasks.native[e.id].cancelled && s.active.Some? && !s.active.value.cancelled
    && owner(s.tasks.native[e.id].coreID) != s.active.value.client
  }

  lemma StartBindsNothing(s: State, start: Start, w: World, owner: nat -> nat)
    requires BoundToOwn(s, owner)
    ensures BoundToOwn(Begin(s, start, w), owner)
  {}

  lemma StepKeepsCore(s: State, e: Event, w: World)
    requires Possible(s, e) && !e.StartAsked? && !e.LoopWoke? && !e.CoreStarted? && !e.NativeStarted?
    ensures KeepsCore(s, Step(s, e, w))
  {
    hide Cancel, Stop, Fail, CancelDeferred, Completed, CompleteSpace, NativeRan, ConfirmPreview, SpaceWorkCame, Level,
      Ended, CancelCommand, StopCommand, FinishTranslation, Receipt, DetachPrevious, AbortNative, Started, Arrive;
  }

  /** A session stays bound to a Core session of its own exactly until a queued start request of another
      one runs: AppController.swift:1032 binds whatever asks. */
  lemma BindingBreaksIff(s: State, e: Event, w: World, owner: nat -> nat)
    requires BoundToOwn(s, owner) && Possible(s, e) && Truthful(e, owner)
    ensures BoundToOwn(Step(s, e, w), owner) <==> !Rebinds(s, e, owner)
  {
    hide Begin, InsertText, Moves, Calm;
    match e
    case StartAsked(start) => StartBindsNothing(Asked(s, start), start, w, owner);
    case LoopWoke(id, expired) => StartBindsNothing(Cleared(s, id), s.tasks.loops[id], w, owner);
    case CoreStarted(_, _) =>
    case NativeStarted(_) =>
    case _ => hide Step; StepKeepsCore(s, e, w);
  }

  // A text that a Core session brought left under the session it belongs to.
  ghost predicate OwnTexts(h: History, owner: nat -> nat) {
    forall i | 0 <= i < |h.offers| && h.offers[i].route == Requested ::
      h.offers[i].core.Some? && owner(h.offers[i].core.value) == h.offers[i].session
  }

  lemma SameOffers(h: History, g: History, owner: nat -> nat)
    requires g.offers == h.offers && OwnTexts(h, owner)
    ensures OwnTexts(g, owner)
  {}

  ghost predicate Faithful(s: State, es: seq<Moment>, owner: nat -> nat)
    requires Admissible(s, es)
    decreases |es|
  {
    es == []
    || (Truthful(es[0].event, owner) && !Rebinds(s, es[0].event, owner)
        && Faithful(Step(s, es[0].event, es[0].world), es[1..], owner))
  }

  lemma {:induction false} FaithfulRuns(s: State, es: seq<Moment>, owner: nat -> nat)
    requires Admissible(s, es) && Faithful(s, es, owner) && BoundToOwn(s, owner) && OwnTexts(s.history, owner)
    ensures BoundToOwn(Run(s, es), owner) && OwnTexts(Run(s, es).history, owner)
    decreases |es|
  {
    hide Step, BoundToOwn, OwnTexts, Possible, Truthful, Rebinds, StraysNow;
    if es != [] {
      BindingBreaksIff(s, es[0].event, es[0].world, owner);
      TextStraysIff(s, es[0].event, es[0].world, owner);
      BoundNeverStrays(s, es[0].event, es[0].world, owner);
      FaithfulRuns(Step(s, es[0].event, es[0].world), es[1..], owner);
    }
  }

  // An `insert` request that is honoured, for a session that is bound to another one's Core session.
  predicate StraysNow(s: State, e: Event, w: World, owner: nat -> nat) {
    && e.NativeStarted? && e.id in s.tasks.native && s.tasks.native[e.id] == Native(Insert, s.tasks.native[e.id].coreID, false)
    && s.active.Some? && !s.active.value.space && !s.active.value.cancelled && s.active.value.target.Some? && !w.empty
    && s.active.value.coreID == Some(s.tasks.native[e.id].coreID)
    && owner(s.tasks.native[e.id].coreID) != s.active.value.client
  }

  /** A step hands a text over under a session it does not belong to exactly when it honours such a request. */
  lemma TextStraysIff(s: State, e: Event, w: World, owner: nat -> nat)
    requires OwnTexts(s.history, owner) && Possible(s, e)
    ensures !OwnTexts(Step(s, e, w).history, owner) <==> StraysNow(s, e, w, owner)
  {
    if StraysNow(s, e, w, owner) {
      var h := Step(s, e, w).history;
      assert h.offers[|s.history.offers|].route == Requested;
    } else if e.NativeStarted? {
      NativeKeepsOwnTexts(s, e.id, w, owner);
    } else {
      hide OwnTexts, BoundToOwn;
      OtherStepsKeepOwnTexts(s, e, w, owner);
    }
  }

  lemma NativeKeepsOwnTexts(s: State, id: nat, w: World, owner: nat -> nat)
    requires OwnTexts(s.history, owner) && id in s.tasks.native && !StraysNow(s, NativeStarted(id), w, owner)
    ensures OwnTexts(NativeRan(s, id, w).history, owner)
  {}

  lemma OtherStepsKeepOwnTexts(s: State, e: Event, w: World, owner: nat -> nat)
    requires OwnTexts(s.history, owner) && Possible(s, e) && !e.NativeStarted?
    ensures OwnTexts(Step(s, e, w).history, owner)
  {
    hide OwnTexts, Begin, Calm, Moves, DeferredTurn, Cancel, Stop, Fail, CancelDeferred, Completed, CompleteSpace, Level, Ended,
      CancelCommand, StopCommand, FinishTranslation, Receipt, DetachPrevious, AbortNative, Started, Arrive;
    match e
    case StartAsked(start) => BeginKeepsHistory(Asked(s, start), start, w); SameOffers(s.history, Asked(s, start).history, owner);
    case LoopWoke(id, expired) => TurnKeepsHistory(s, id, expired, w);
    case ConfirmAsked => UnboundOffer(s.history, ConfirmPreview(s, w).history, owner);
    case SpaceCame(id) => SpaceOffers(s, id, w); UnboundOffer(s.history, SpaceWorkCame(s, id, w).history, owner);
    case _ => StepIsCalm(s, e, w);
  }

  lemma SpaceOffers(s: State, id: nat, w: World)
    requires id in s.tasks.spaces
    ensures var g := SpaceWorkCame(s, id, w).history;
            g.offers == s.history.offers || exists o :: g.offers == s.history.offers + [o] && o.route != Requested
  {
    hide Fail;
    var work := s.tasks.spaces[id];
    var o := Offer(work.client, work.target, Spoken, None);
    assert SpaceWorkCame(s, id, w).history.offers in {s.history.offers, s.history.offers + [o]};
  }

  lemma BoundNeverStrays(s: State, e: Event, w: World, owner: nat -> nat)
    requires BoundToOwn(s, owner)
    ensures !StraysNow(s, e, w, owner)
  {}

  lemma UnboundOffer(h: History, g: History, owner: nat -> nat)
    requires OwnTexts(h, owner)
    requires g.offers == h.offers || exists o :: g.offers == h.offers + [o] && o.route != Requested
    ensures OwnTexts(g, owner)
  {}

  /** As long as no session is bound by a start request of another one, every text that a Core session brings
      leaves under its own session; so none of a cancelled session leaves at all. */
  lemma TextsLeaveUnderTheirSession(es: seq<Moment>, owner: nat -> nat)
    requires Admissible(Quiet, es) && Faithful(Quiet, es, owner)
    ensures OwnTexts(Run(Quiet, es).history, owner)
  {
    FaithfulRuns(Quiet, es, owner);
  }

  lemma {:induction false} RunLast(s: State, es: seq<Moment>, m: Moment)
    requires Admissible(s, es) && Possible(Run(s, es), m.event)
    ensures Admissible(s, es + [m]) && Run(s, es + [m]) == Step(Run(s, es), m.event, m.world)
    decreases |es|
  {
    hide Step, Possible;
    if es == [] {
      assert es + [m] == [m] && [m][1..] == [];
    } else {
      RunLast(Step(s, es[0].event, es[0].world), es[1..], m);
      assert (es + [m])[1..] == es[1..] + [m];
    }
  }

  // Reached by a run in which the Core told the truth.
  ghost predicate Reached(s: State, owner: nat -> nat) {
    exists es: seq<Moment> ::
      Admissible(Quiet, es) && Run(Quiet, es) == s && forall m: Moment | m in es :: Truthful(m.event, owner)
  }

  lemma QuietIsReached(owner: nat -> nat)
    ensures Reached(Quiet, owner)
  {
    var es: seq<Moment> := [];
    assert Admissible(Quiet, es) && Run(Quiet, es) == Quiet;
  }

  lemma NextReached(s: State, e: Event, w: World, owner: nat -> nat) returns (t: State)
    requires Reached(s, owner) && Possible(s, e) && Truthful(e, owner)
    ensures t == Step(s, e, w) && Reached(t, owner)
  {
    hide Step, Possible;
    var es: seq<Moment> :|
      Admissible(Quiet, es) && Run(Quiet, es) == s && forall m: Moment | m in es :: Truthful(m.event, owner);
    RunLast(Quiet, es, Moment(e, w));
    assert forall m | m in es + [Moment(e, w)] :: Truthful(m.event, owner);
    t := Step(s, e, w);
  }

  const Willing := World(true, true, false, false, true, true, true, true, true, false, false, false)

  // Session 1 is cancelled while a start request of its Core session 7 is on its way.
  lemma CancelledWhileStarting(owner: nat -> nat) returns (s: State)
    requires owner(7) == 1
    ensures Reached(s, owner) && s.deferred.None? && s.screen.phase == Cancelled && s.history == History({1}, map[1 := 10], [])
    ensures s.active == Some(Opened(Start(1, Some(10), Some(0), None, false, false)).(coreID := Some(7), cancelled := true))
    ensures s.tasks == Tasks(map[1 := Native(CaptureStart, 7, false)], map[], map[], None, 2)
  {
    hide Reached, Calm, Moves, KeepsCore;
    QuietIsReached(owner);
    s := NextReached(Quiet, StartAsked(Start(1, Some(10), Some(0), None, false, false)), Willing, owner);
    s := NextReached(s, CoreStarted(1, Some(7)), Willing, owner);
    s := NextReached(s, CancelCalled, Willing, owner);
    assert s.tasks == Tasks(map[], map[], map[], None, 1);
    s := NextReached(s, NativeArrived(CaptureStart, 7), Willing, owner);
  }

  // Session 2 begins, and the old request binds it.
  lemma BoundToAnother(owner: nat -> nat) returns (s: State)
    requires owner(7) == 1
    ensures Reached(s, owner) && s.history.offers == [] && s.tasks == Tasks(map[], map[], map[], None, 3)
    ensures s.active == Some(Opened(Start(2, Some(20), Some(2), None, false, false)).(coreID := Some(7)))
  {
    hide Reached, Calm, Moves, KeepsCore;
    s := CancelledWhileStarting(owner);
    s := NextReached(s, CoreEnded(Some(1)), Willing, owner);
    s := NextReached(s, StartAsked(Start(2, Some(20), Some(2), None, false, false)), Willing, owner);
    s := NextReached(s, NativeStarted(1), Willing, owner);
    assert s.tasks.native == map[];
  }

  /** Otherwise it can: a queued start request of a cancelled session binds the next session to the old Core
      session, whose text then goes to the new session's input field. */
  lemma CancelledTextMayLeave()
    ensures exists s, owner :: Reached(s, owner) && !OwnTexts(s.history, owner)
  {
    hide Reached, Calm, Moves, KeepsCore;
    var owner := (k: nat) => 1;
    var s := BoundToAnother(owner);
    s := NextReached(s, NativeArrived(Insert, 7), Willing, owner);
    s := NextReached(s, NativeStarted(3), Willing, owner);
    assert s.history.offers[0] == Offer(2, 20, Requested, Some(7)) && owner(7) != 2;
  }
}
