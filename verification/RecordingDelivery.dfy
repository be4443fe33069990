/** When a text is handed to the keyboard, and which; when a session begins and what stopping does. Everything
    is read off the fields of ios/App/AppController.swift. */
module RecordingDelivery {
  import opened Options
  import opened RecordingSession
  import opened RecordingSafety

  // ---- the three hand-overs ----

  // A finished session with a preview on screen that nothing has confirmed yet, and the confirmation fits.
  predicate MayConfirm(s: State, w: World) {
    && s.active.Some? && s.active.value.coreFinished && !s.active.value.cancelled && s.active.value.generated.None?
    && s.screen.preview.Some? && w.accepted
  }

  // An `insert` request of the Core session that the active session is bound to, with a usable text.
  predicate MayInsert(s: State, native: Native, w: World) {
    && s.active.Some? && !s.active.value.space && s.active.value.coreID == Some(native.coreID)
    && !s.active.value.cancelled && !native.cancelled && s.active.value.target.Some? && !w.empty
  }

  // Finished space work of the active session and its input field, with a usable text.
  predicate MaySpeak(s: State, work: SpaceWork, w: World) {
    && !work.cancelled && s.active.Some? && s.active.value.client == work.client && !s.active.value.cancelled
    && s.active.value.target == Some(work.target) && w.accepted && !w.empty
  }

  // The text that one event hands over, if it does.
  function Delivery(s: State, e: Event, w: World): Option<Offer> {
    match e
    case ConfirmAsked =>
      if MayConfirm(s, w) then Some(Offer(s.active.value.client, s.screen.preview.value.target, Confirmed, None)) else None
    case NativeStarted(id) =>
      if id in s.tasks.native && s.tasks.native[id].operation == Insert && MayInsert(s, s.tasks.native[id], w)
      then Some(Offer(s.active.value.client, s.active.value.target.value, Requested, Some(s.tasks.native[id].coreID)))
      else None
    case SpaceCame(id) =>
      if id in s.tasks.spaces && MaySpeak(s, s.tasks.spaces[id], w)
      then Some(Offer(s.tasks.spaces[id].client, s.tasks.spaces[id].target, Spoken, None)) else None
    case _ => None
  }

  function Listed(o: Option<Offer>): seq<Offer> {
    if o.Some? then [o.value] else []
  }

  /** A confirmation hands the preview over exactly under its guard. When the mailbox stores it, the text is
      shown as the insertion to the preview's field, the preview is gone and the session is marked and goes
      on; when it does not, the session ends without either. Otherwise nothing at all changes. */
  lemma ConfirmationDeliversIff(s: State, w: World)
    ensures var t := Step(s, ConfirmAsked, w);
            if MayConfirm(s, w) then
              var text := Text(s.active.value.client, s.screen.preview.value.target);
              && t.history.offers == s.history.offers + [Offer(text.session, text.target, Confirmed, None)]
              && t.screen.preview.None?
              && (if w.throws then t.active.None? && t.screen.insertion.None? && t.screen.phase == Error
                  else
                    && t.active == Some(s.active.value.(generated := t.active.value.generated))
                    && t.active.value.generated.Some?
                    && t.screen.insertion == Some(text) && t.screen.phase == AwaitingInsertion)
            else t == s
  {
    hide Moves, KeepsCore;
  }

  /** An `insert` request hands its text over exactly under its guard, to the field the session was started
      for; while no receipt has come yet the text is shown as the insertion. The session itself stays. */
  lemma InsertionDeliversIff(s: State, id: nat, w: World)
    requires id in s.tasks.native && s.tasks.native[id].operation == Insert
    ensures var t := Step(s, NativeStarted(id), w);
            && t.active == s.active && t.tasks == s.tasks.(native := s.tasks.native - {id})
            && (if MayInsert(s, s.tasks.native[id], w) then
                  var text := Text(s.active.value.client, s.active.value.target.value);
                  && t.history.offers
                     == s.history.offers + [Offer(text.session, text.target, Requested, Some(s.tasks.native[id].coreID))]
                  && t.screen == (if w.throws || w.accepted then s.screen
                                  else s.screen.(insertion := Some(text), phase := AwaitingInsertion))
                else t.history == s.history && t.screen == s.screen)
  {
    hide Moves, KeepsCore;
  }

  /** Finished space work hands its text over exactly under its guard. When the mailbox stores it, the text is
      shown as the insertion and the session is marked and goes on; a failure cancels the work's session, and
      work of another session changes nothing else. */
  lemma SpaceWorkDeliversIff(s: State, id: nat, w: World)
    requires id in s.tasks.spaces
    ensures var t := Step(s, SpaceCame(id), w);
            var work := s.tasks.spaces[id];
            && t.history.offers
               == s.history.offers
                  + (if MaySpeak(s, work, w) then [Offer(work.client, work.target, Spoken, None)] else [])
            && (MaySpeak(s, work, w) && !w.throws ==>
                  && t.active == Some(s.active.value.(generated := t.active.value.generated))
                  && t.active.value.generated.Some? && t.tasks.spaceTask.None?
                  && t.screen.insertion == Some(Text(work.client, work.target)) && t.screen.phase == AwaitingInsertion)
            && (s.deferred.None? && s.active.Some? && s.active.value.client == work.client
                && (!MaySpeak(s, work, w) || w.throws) ==>
                  t.screen.phase == Error && t.tasks.spaceTask.None? && (t.active.Some? ==> t.active.value.cancelled))
            && (s.active.None? || s.active.value.client != work.client ==>
                  t == s.(tasks := s.tasks.(spaces := s.tasks.spaces - {id})))
  {
    hide Moves, KeepsCore, Calm;
  }

  lemma StepDelivers(s: State, e: Event, w: World)
    requires Possible(s, e)
    ensures Step(s, e, w).history.offers == s.history.offers + Listed(Delivery(s, e, w))
  {
    assert s.history.offers + [] == s.history.offers;
    if e.ConfirmAsked? {
      ConfirmationDeliversIff(s, w);
    } else if e.SpaceCame? {
      SpaceWorkDeliversIff(s, e.id, w);
    } else if e.NativeStarted? {
      if s.tasks.native[e.id].operation == Insert { InsertionDeliversIff(s, e.id, w); }
      else { OtherRequestsDeliverNothing(s, e.id, w); }
    } else {
      hide Step, Delivery;
      StepSeesMore(s, e, w);
      NothingElseDelivers(s, e, w);
    }
  }

  lemma OtherRequestsDeliverNothing(s: State, id: nat, w: World)
    requires id in s.tasks.native && s.tasks.native[id].operation != Insert
    ensures NativeRan(s, id, w).history == s.history
  {
    hide Moves;
  }

  lemma NothingElseDelivers(s: State, e: Event, w: World)
    requires !e.ConfirmAsked? && !e.SpaceCame? && !e.NativeStarted?
    ensures Delivery(s, e, w).None?
  {}

  ghost function Deliveries(s: State, es: seq<Moment>): seq<Offer>
    requires Admissible(s, es)
    decreases |es|
  {
    if es == [] then []
    else Listed(Delivery(s, es[0].event, es[0].world)) + Deliveries(Step(s, es[0].event, es[0].world), es[1..])
  }

  /** On every run the texts handed over are exactly those that the guards of the three hand-overs call for,
      in order: none is left out, doubled or sent elsewhere. */
  lemma {:induction false} OffersAreDeliveries(s: State, es: seq<Moment>)
    requires Admissible(s, es)
    ensures Run(s, es).history.offers == s.history.offers + Deliveries(s, es)
    decreases |es|
  {
    if es == [] {
      assert s.history.offers + [] == s.history.offers;
    } else {
      StepDelivers(s, es[0].event, es[0].world);
      hide Step, Delivery, Possible, Listed;
      var t := Step(s, es[0].event, es[0].world);
      OffersAreDeliveries(t, es[1..]);
      Associates(s.history.offers, Listed(Delivery(s, es[0].event, es[0].world)), Deliveries(t, es[1..]));
    }
  }

  lemma Associates(a: seq<Offer>, b: seq<Offer>, c: seq<Offer>)
    ensures (a + b) + c == a + (b + c)
  {}

  // ---- beginning ----

  // Everything the start needs is there, apart from controls that Core still works on.
  predicate Eligible(start: Start, w: World) {
    && (start.command.Some? ==> w.intentValid) && w.placeAllowed
    && (start.space ==> start.command.Some? && start.target.Some? && start.activation.None? && !start.help && w.spaceSupported)
  }

  /** A start opens a fresh session of its own exactly when none is in progress or deferred, everything is
      ready and Core takes the command. A keyboard's command is deferred exactly when only the preparation or
      Core's pending controls are in the way. */
  lemma StartBeginsIff(s: State, start: Start, w: World)
    requires Inv(s) && Possible(s, StartAsked(start))
    ensures var t := Step(s, StartAsked(start), w);
            var free := s.active.None? && s.deferred.None? && w.idle;
            && t.active == (if free && w.prepared && !w.controlsPending && Eligible(start, w) && w.commandSent
                            then Some(Session(start.client, start.target, start.help, start.activation, start.space,
                                              false, false, None, None, false, false))
                            else s.active)
            && t.deferred == (if free && start.command.Some? && (if w.prepared then w.controlsPending else w.preparing)
                              then Some(start) else s.deferred)
  {
    hide Inv;
  }

  /** A waiting loop whose command is still deferred waits while the preparation or Core's controls go on,
      begins under the guards of a start once they are over, and otherwise drops the command; any other loop
      only returns. */
  lemma LoopBeginsIff(s: State, id: nat, expired: bool, w: World)
    requires Inv(s) && id in s.tasks.loops
    ensures var t := Step(s, LoopWoke(id, expired), w);
            var start := s.tasks.loops[id];
            var mine := s.deferred.Some? && s.deferred.value.command == start.command;
            var waits := mine && !expired && w.idle && (w.preparing || (w.prepared && w.controlsPending));
            var begins := mine && !expired && w.idle && !w.preparing && w.prepared && !w.controlsPending;
            && (waits ==> t == s)
            && (!waits ==> id !in t.tasks.loops && t.deferred == if mine then None else s.deferred)
            && t.active == (if begins && Eligible(start, w) && w.commandSent
                            then Some(Session(start.client, start.target, start.help, start.activation, start.space,
                                              false, false, None, None, false, false))
                            else s.active)
  {
    if s.deferred.Some? { DeferredAlone(s); }
    hide Inv, Calm, KeepsCore;
  }

  lemma DeferredAlone(s: State)
    requires Inv(s) && s.deferred.Some?
    ensures s.active.None?
  {}

  // ---- stopping ----

  /** Stopping drops a deferred start. A session that is recorded goes on to be processed; one whose release
      was never chosen, or that has heard nothing yet, is cancelled, or ended if Core is done with it. */
  lemma StopStopsIff(s: State, w: World)
    requires Inv(s)
    ensures var t := Step(s, StopCalled, w);
            && t.deferred.None?
            && (s.active.Some? && !s.active.value.stopping && !s.active.value.cancelled ==>
                  if (s.active.value.space && !s.active.value.decided) || (s.screen.phase == Starting && !s.screen.captureReady)
                  then t.screen.phase == Cancelled
                       && t.active == if s.active.value.coreFinished then None else Some(s.active.value.(cancelled := true))
                  else t.active == Some(s.active.value.(stopping := true)) && t.screen.phase == Processing
                       && !t.screen.captureReady && t.screen.insertion == s.screen.insertion)
            && (s.active.Some? && (s.active.value.stopping || s.active.value.cancelled) ==> t == s)
  {
    if s.deferred.Some? { DeferredAlone(s); }
    hide Inv, Calm, KeepsCore;
  }

  /** Cancelling ends a session that Core is done with, marks any other for good, cancels every native request
      of it, and leaves no preview and no insertion on screen. */
  lemma CancelCancelsIff(s: State, w: World)
    requires Inv(s)
    ensures var t := Step(s, CancelCalled, w);
            && t.deferred.None?
            && (s.active.Some? && !s.active.value.cancelled ==>
                  && t.active == (if s.active.value.coreFinished then None else Some(s.active.value.(cancelled := true)))
                  && t.screen.preview.None? && t.screen.insertion.None? && t.screen.phase == Cancelled
                  && (!s.active.value.coreFinished ==> forall id | id in t.tasks.native :: t.tasks.native[id].cancelled))
            && (s.active.Some? && s.active.value.cancelled ==> t.active == s.active && t.screen == s.screen)
            && t.tasks.spaceTask.None?
  {
    if s.deferred.Some? { DeferredAlone(s); }
    hide Inv, Calm, KeepsCore;
  }

  predicate NamesDeferred(s: State, session: Option<nat>, target: Option<nat>) {
    s.deferred.Some? && session == Some(s.deferred.value.client) && target == s.deferred.value.target
  }

  // By its id and its input field, or by its id alone for an activation.
  predicate NamesActive(s: State, session: Option<nat>, target: Option<nat>) {
    && s.active.Some? && session == Some(s.active.value.client)
    && (target == s.active.value.target || s.active.value.activation == session)
  }

  /** A keyboard's cancel drops the deferred start it names, or cancels the session it names, as `cancel` would,
      and does nothing for any other. */
  lemma KeyboardCancelsIff(s: State, session: Option<nat>, target: Option<nat>, w: World)
    ensures Step(s, CancelAsked(session, target), w)
            == if NamesDeferred(s, session, target) then Step(s, DeferredDropped(false), w)
               else if NamesActive(s, session, target) then Step(s, CancelCalled, w)
               else s
  {
    hide Calm, KeepsCore;
  }

  /** A keyboard's stop drops the deferred start it names. Of the session it names it records the choice first,
      when there is one to make and it fits, cancels it when the language to translate to is missing, and
      otherwise stops it as `stop` would, short of space work that is ready. */
  lemma KeyboardStopsIff(s: State, session: Option<nat>, target: Option<nat>, noLanguage: bool, w: World)
    ensures var t := Step(s, StopAsked(session, target, noLanguage), w);
            if NamesDeferred(s, session, target) then t == Step(s, DeferredDropped(false), w)
            else if !NamesActive(s, session, target) || (s.active.value.space && !w.accepted) then t == s
            else
              var a := s.active.value;
              var u := s.(active := Some(a.(decided := a.decided || a.space)));
              && (noLanguage ==> t == Step(u, CancelCalled, w))
              && (!noLanguage && (!a.space || !w.ready) ==> t == Step(u, StopCalled, w))
  {
    hide Calm, KeepsCore;
  }

  // ---- what Core reports ----

  /** A preview appears exactly for the composition that the active session asked for, in its own input field,
      and only then is the session kept for a confirmation. */
  lemma PreviewShownIff(s: State, finished: Option<nat>, coreID: nat, w: World)
    requires Inv(s) && s.active.Some? && !s.active.value.coreFinished
    ensures var a := s.active.value;
            var t := Step(s, CoreCompleted(finished, Preview(coreID)), w);
            var shows := finished == Some(a.client) && !a.cancelled && !a.space && a.activation.None? && a.help
                         && a.target.Some? && a.coreID == Some(coreID) && w.accepted && !w.throws;
            && (shows ==> t.active == Some(a.(coreFinished := true))
                          && t.screen.preview == Some(Text(a.client, a.target.value)) && t.screen.phase == AwaitingInsertion)
            && (finished != Some(a.client) ==> t == s)
            && (finished == Some(a.client) && !a.space && a.activation.None? && !shows ==> t.active.None?)
  {
    hide Inv, Calm, KeepsCore, CompleteSpace, FinishActivation;
  }

  // Core and the keyboard are done, nothing works on the text yet, and there is one.
  predicate MayWork(a: Session, spaceTask: Option<nat>, w: World) {
    a.coreFinished && !a.cancelled && spaceTask.None? && a.target.Some? && a.space && w.ready && !w.empty
  }

  ghost predicate StartsWork(s: State, t: State) {
    t.tasks.spaceTask.Some? && t.tasks.spaceTask != s.tasks.spaceTask
  }

  lemma CompletingStartsIff(s: State, w: World)
    ensures StartsWork(s, CompleteSpace(s, w)) <==> s.active.Some? && MayWork(s.active.value, s.tasks.spaceTask, w)
    ensures StartsWork(s, CompleteSpace(s, w)) ==>
              && CompleteSpace(s, w).tasks.spaces
                 == s.tasks.spaces[s.tasks.next := SpaceWork(s.active.value.client, s.active.value.target.value, false)]
              && CompleteSpace(s, w).tasks.spaceTask == Some(s.tasks.next)
  {
    hide Calm, KeepsCore;
  }

  /** The space work of a session starts once, when Core has finished and the release has been chosen,
      whichever of the two comes last: here the choice of a translation. */
  lemma ChoiceStartsWorkIff(s: State, session: Option<nat>, target: Option<nat>, w: World)
    ensures StartsWork(s, Step(s, TranslationAsked(session, target), w)) <==>
            && s.active.Some? && session == Some(s.active.value.client) && target == s.active.value.target
            && w.accepted && MayWork(s.active.value, s.tasks.spaceTask, w)
  {
    hide Calm, KeepsCore, CompleteSpace;
    if s.active.Some? { CompletingStartsIff(s.(active := Some(s.active.value.(decided := true))), w); }
  }

  /** And here Core's completion, which is counted once. */
  lemma CompletionStartsWorkIff(s: State, finished: Option<nat>, disposition: Disposition, w: World)
    ensures StartsWork(s, Step(s, CoreCompleted(finished, disposition), w)) <==>
            && s.active.Some? && finished == Some(s.active.value.client) && !s.active.value.coreFinished
            && MayWork(s.active.value.(coreFinished := true), s.tasks.spaceTask, w)
  {
    hide Calm, KeepsCore, CompleteSpace, ReceivePreview, FinishActivation;
    if s.active.Some? {
      CompletingStartsIff(s.(active := Some(s.active.value.(coreFinished := true)),
                             screen := s.screen.(captureReady := false, phase := Processing)), w);
    }
    OthersStartNothing(s, disposition, w);
  }

  lemma OthersStartNothing(s: State, disposition: Disposition, w: World)
    ensures FinishActivation(s, w).tasks == s.tasks
    ensures disposition.Preview? ==> ReceivePreview(s, disposition.coreID, w).tasks == s.tasks
  {
    hide Calm, KeepsCore;
  }

  /** A receipt ends exactly the finished session whose marked insertion, field and id it names. */
  lemma ReceiptEndsIff(s: State, session: nat, target: nat, insertion: nat, w: World)
    ensures var t := Step(s, ReceiptCame(session, target, insertion), w);
            var ends := s.active.Some? && s.active.value.coreFinished && s.active.value.generated == Some(insertion)
                        && s.active.value.client == session && s.active.value.target == Some(target) && w.accepted;
            if ends then t.active.None? && t.screen.insertion.None? && t.screen.preview.None?
                         && t.screen.phase == (if w.throws then Error else Done)
            else t == s
  {
    hide Calm, KeepsCore;
  }
}
