/** The recording fields of ios/App/AppController.swift and the methods that rewrite them. A delayed task
    is a method that is called when the task resumes. */
module AppControllerClass {
  import opened Options
  import R = RecordingSession
  import opened RecordingSafety
  import D = RecordingDelivery

  class AppController {
    var active: Option<R.Session>
    var deferredKeyboardCommand: Option<R.Start>
    var snapshot: R.Screen
    var nativeTasks: map<nat, R.Native>
    var spaceProcessingTask: Option<nat>
    // Tasks that are waiting: deferred starts and space work; and the next fresh number.
    var loops: map<nat, R.Start>
    var spaces: map<nat, R.SpaceWork>
    var next: nat
    ghost var history: R.History

    ghost function View(): R.State
      reads this
    {
      R.State(active, deferredKeyboardCommand, snapshot, R.Tasks(nativeTasks, loops, spaces, spaceProcessingTask, next), history)
    }

    ghost predicate Valid()
      reads this
    {
      Inv(View())
    }

    constructor ()
      ensures Valid() && View() == R.Quiet
    {
      active, deferredKeyboardCommand, spaceProcessingTask := None, None, None;
      snapshot := R.Screen(R.Inactive, false, None, None);
      nativeTasks, loops, spaces, next := map[], map[], map[], 0;
      history := R.History({}, map[], []);
    }

    lemma Keeps(e: R.Event, w: R.World)
      requires Valid() && R.Possible(View(), e)
      ensures Inv(R.Step(View(), e, w))
    {
      StepKeepsInv(View(), e, w);
    }

    // ---- begin and defer ----

    method DeferKeyboardStart(start: R.Start)
      modifies this
      ensures View() == R.Defer(old(View()), start)
    {
      if deferredKeyboardCommand.Some? || start.command.None? { return; }
      deferredKeyboardCommand := Some(start);
      snapshot := snapshot.(phase := R.Starting, captureReady := false);
      loops := loops[next := start];
      next := next + 1;
    }

    method Begin(start: R.Start, w: R.World)
      modifies this
      ensures View() == R.Begin(old(View()), start, w)
    {
      hide R.Defer;
      if active.Some? || deferredKeyboardCommand.Some? || !w.idle { return; }
      if !w.prepared {
        if w.preparing { DeferKeyboardStart(start); }
        return;
      }
      if w.controlsPending {
        if start.command.Some? { DeferKeyboardStart(start); } else { snapshot := snapshot.(phase := R.Error); }
        return;
      }
      if start.command.Some? && !w.intentValid { snapshot := snapshot.(phase := R.Error); return; }
      if !w.placeAllowed { snapshot := snapshot.(phase := R.Inactive); return; }
      if start.space
         && (start.command.None? || start.target.None? || start.activation.Some? || start.help || !w.spaceSupported)
      { return; }
      active := Some(R.Opened(start));
      snapshot := R.Screen(R.Starting, false, None, None);
      if !w.commandSent {
        active := None;
        snapshot := snapshot.(phase := R.Error);
      }
    }

    method StartAsked(start: R.Start, w: R.World)
      requires Valid() && R.Possible(View(), R.StartAsked(start))
      modifies this
      ensures Valid() && View() == R.Step(old(View()), R.StartAsked(start), w)
      ensures !(active.Some? && deferredKeyboardCommand.Some?)
    {
      hide Inv, R.Begin;
      Keeps(R.StartAsked(start), w);
      history := history.(seen := history.seen + {start.client},
                          targets := if start.target.Some? then history.targets[start.client := start.target.value]
                                     else history.targets);
      next := next + 1;
      Begin(start, w);
      NeverBoth(View());
    }

    lemma NeverBoth(s: R.State)
      requires Inv(s)
      ensures !(s.active.Some? && s.deferred.Some?)
    {}

    method DeferredTurn(id: nat, expired: bool, w: R.World)
      requires Valid() && id in loops
      modifies this
      ensures Valid() && View() == R.Step(old(View()), R.LoopWoke(id, expired), w)
      ensures history.offers == old(history.offers)
    {
      hide Inv, R.Begin, R.Calm;
      Keeps(R.LoopWoke(id, expired), w);
      TurnKeepsHistory(View(), id, expired, w);
      var start := loops[id];
      if deferredKeyboardCommand.None? || deferredKeyboardCommand.value.command != start.command {
        loops := loops - {id};
      } else if expired || active.Some? || !w.idle {
        loops := loops - {id};
        DropDeferred(true);
      } else if w.preparing {
      } else if !w.prepared {
        loops := loops - {id};
        DropDeferred(true);
      } else if !w.controlsPending {
        loops := loops - {id};
        deferredKeyboardCommand := None;
        Begin(start, w);
      }
    }

    method DropDeferred(failed: bool)
      modifies this
      ensures View() == R.CancelDeferred(old(View()), failed)
    {
      if deferredKeyboardCommand.None? { return; }
      deferredKeyboardCommand := None;
      snapshot := snapshot.(captureReady := false, phase := if failed then R.Error else R.Cancelled);
    }

    method CancelDeferredKeyboardStart(failed: bool, w: R.World)
      requires Valid()
      modifies this
      ensures Valid() && View() == R.Step(old(View()), R.DeferredDropped(failed), w)
      ensures deferredKeyboardCommand.None?
    {
      hide Inv, R.CancelDeferred;
      Keeps(R.DeferredDropped(failed), w);
      DropDeferred(failed);
    }

    // ---- cancel, fail, stop ----

    method CancelSpaceTask()
      modifies this`spaces, this`spaceProcessingTask
      ensures View() == old(View()).(tasks := R.CancelSpaceTask(old(View().tasks)))
    {
      if spaceProcessingTask.Some? && spaceProcessingTask.value in spaces {
        spaces := spaces[spaceProcessingTask.value := spaces[spaceProcessingTask.value].(cancelled := true)];
      }
      spaceProcessingTask := None;
    }

    method CancelNow()
      modifies this
      ensures View() == R.Cancel(old(View()))
    {
      hide R.CancelSpaceTask, R.CancelDeferred, R.Calm;
      CancelSpaceTask();
      if deferredKeyboardCommand.Some? {
        DropDeferred(false);
      } else if active.Some? && !active.value.cancelled {
        snapshot := snapshot.(insertion := None, preview := None);
        if active.value.coreFinished {
          active := None;
          snapshot := snapshot.(phase := R.Cancelled);
        } else {
          active := Some(active.value.(cancelled := true));
          nativeTasks := map id | id in nativeTasks :: nativeTasks[id].(cancelled := true);
          snapshot := snapshot.(captureReady := false, phase := R.Cancelled);
        }
      }
    }

    method FailNow()
      modifies this
      ensures View() == R.Fail(old(View()))
    {
      hide R.Cancel, R.Calm;
      CancelNow();
      snapshot := snapshot.(phase := R.Error);
    }

    method StopNow()
      modifies this
      ensures View() == R.Stop(old(View()))
    {
      hide R.Cancel, R.CancelDeferred, R.Calm;
      if deferredKeyboardCommand.Some? { DropDeferred(false); return; }
      if active.None? || active.value.stopping || active.value.cancelled { return; }
      if active.value.space && !active.value.decided { CancelNow(); return; }
      if snapshot.phase == R.Starting && !snapshot.captureReady { CancelNow(); return; }
      active := Some(active.value.(stopping := true));
      snapshot := snapshot.(captureReady := false, phase := R.Processing);
    }

    method Cancel(w: R.World)
      requires Valid()
      modifies this
      ensures Valid() && View() == R.Step(old(View()), R.CancelCalled, w)
      ensures deferredKeyboardCommand.None? && (active.Some? ==> active.value.cancelled)
    {
      hide Inv, R.Cancel;
      CancelEndsBoth(View());
      Keeps(R.CancelCalled, w);
      CancelNow();
    }

    method Fail(w: R.World)
      requires Valid()
      modifies this
      ensures Valid() && View() == R.Step(old(View()), R.FailCalled, w)
      ensures deferredKeyboardCommand.None? && (active.Some? ==> active.value.cancelled)
    {
      hide Inv, R.Fail;
      CancelEndsBoth(View());
      Keeps(R.FailCalled, w);
      FailNow();
    }

    method Stop(w: R.World)
      requires Valid()
      modifies this
      ensures Valid() && View() == R.Step(old(View()), R.StopCalled, w)
      ensures deferredKeyboardCommand.None? && (active.Some? ==> active.value.cancelled || active.value.stopping)
    {
      hide Inv, R.Stop;
      CancelEndsBoth(View());
      Keeps(R.StopCalled, w);
      StopNow();
    }

    // A preview or a recognised text has waited three minutes.
    method PreviewExpired(client: nat, w: R.World)
      requires Valid()
      modifies this
      ensures Valid() && View() == R.Step(old(View()), R.ExpiryCame(client), w)
      ensures active.Some? && active.value.client == client ==> active.value.cancelled
    {
      hide Inv, R.Cancel;
      Keeps(R.ExpiryCame(client), w);
      CancelEndsBoth(View());
      if active.Some? && active.value.client == client { CancelNow(); }
    }

    // ---- events of the Core ----

    method NativeArrived(operation: R.Operation, coreID: nat, w: R.World)
      requires Valid()
      modifies this
      ensures Valid() && View() == R.Step(old(View()), R.NativeArrived(operation, coreID), w)
      ensures active == old(active) && history == old(history)
    {
      hide Inv;
      Keeps(R.NativeArrived(operation, coreID), w);
      nativeTasks := nativeTasks[next := R.Native(operation, coreID, false)];
      next := next + 1;
    }

    method InsertText(native: R.Native, w: R.World)
      modifies this`history, this`snapshot
      ensures View() == R.InsertText(old(View()), native, w)
    {
      hide R.Moves;
      if active.None? || active.value.space || active.value.coreID != Some(native.coreID) || active.value.cancelled
         || native.cancelled || active.value.target.None? || w.empty { return; }
      history := history.(offers := history.offers + [R.Offer(active.value.client, active.value.target.value, R.Requested,
                                                             Some(native.coreID))]);
      if !w.throws && !w.accepted {
        snapshot := snapshot.(insertion := Some(R.Text(active.value.client, active.value.target.value)),
                              phase := R.AwaitingInsertion);
      }
    }

    method NativeRequest(id: nat, w: R.World)
      requires Valid() && id in nativeTasks
      modifies this
      ensures Valid() && View() == R.Step(old(View()), R.NativeStarted(id), w)
      ensures history.offers == old(history.offers + D.Listed(D.Delivery(View(), R.NativeStarted(id), w)))
      ensures id !in nativeTasks && spaces == old(spaces)
    {
      hide Inv, R.InsertText, R.Moves;
      Keeps(R.NativeStarted(id), w);
      D.StepDelivers(View(), R.NativeStarted(id), w);
      hide D.Delivery;
      var native := nativeTasks[id];
      nativeTasks := nativeTasks - {id};
      if native.operation.CaptureStart? || native.operation.SpeechStart? {
        if active.Some? && !active.value.cancelled && !native.cancelled {
          active := Some(active.value.(coreID := Some(native.coreID)));
        }
      } else if native.operation.Insert? {
        InsertText(native, w);
      }
    }

    method AbortNative(core: Option<nat>, id: nat, w: R.World)
      requires Valid()
      modifies this
      ensures Valid() && View() == R.Step(old(View()), R.NativeAborted(core, id), w)
      ensures active == old(active) && history == old(history)
    {
      hide Inv;
      Keeps(R.NativeAborted(core, id), w);
      if core == (if active.Some? then active.value.coreID else None) && id in nativeTasks {
        nativeTasks := nativeTasks[id := nativeTasks[id].(cancelled := true)];
      }
    }

    method Started(client: nat, core: Option<nat>, w: R.World)
      requires Valid()
      modifies this
      ensures Valid() && View() == R.Step(old(View()), R.CoreStarted(client, core), w)
      ensures active.Some? && active.value.client == client ==> active.value.coreID == core
    {
      hide Inv;
      Keeps(R.CoreStarted(client, core), w);
      if active.Some? && active.value.client == client { active := Some(active.value.(coreID := core)); }
    }

    method Level(core: Option<nat>, limitReached: bool, w: R.World)
      requires Valid()
      modifies this
      ensures Valid() && View() == R.Step(old(View()), R.CoreLevel(core, limitReached), w)
      ensures history.offers == old(history.offers)
    {
      hide Inv, R.Stop, R.Calm;
      Keeps(R.CoreLevel(core, limitReached), w);
      StepSeesMore(View(), R.CoreLevel(core, limitReached), w);
      if active.None? || active.value.cancelled || active.value.stopping || core != active.value.coreID { return; }
      snapshot := snapshot.(captureReady := true, phase := R.Recording);
      if limitReached { StopNow(); }
    }

    method ReceiveGeneratedPreview(coreID: nat, w: R.World)
      modifies this
      ensures View() == R.ReceivePreview(old(View()), coreID, w)
    {
      hide R.Calm;
      if active.None? || active.value.cancelled || !active.value.help || active.value.target.None?
         || active.value.coreID != Some(coreID) || !w.accepted {
        active := None;
        snapshot := snapshot.(phase := R.Error);
        return;
      }
      active := Some(active.value.(coreFinished := true));
      snapshot := R.Screen(R.AwaitingInsertion, false, None, Some(R.Text(active.value.client, active.value.target.value)));
      if w.throws {
        active := None;
        snapshot := snapshot.(preview := None, phase := R.Error);
      }
    }

    method FinishHostActivation(w: R.World)
      modifies this
      ensures View() == R.FinishActivation(old(View()), w)
    {
      hide R.Calm;
      if active.None? || !w.accepted { return; }
      if active.value.help && w.throws {
        snapshot := snapshot.(phase := R.Error);
      } else {
        snapshot := snapshot.(captureReady := false, phase := if w.empty then R.Error else R.Done);
      }
      active := None;
    }

    method Completed(client: Option<nat>, disposition: R.Disposition, w: R.World)
      requires Valid()
      modifies this
      ensures Valid() && View() == R.Step(old(View()), R.CoreCompleted(client, disposition), w)
      ensures history.offers == old(history.offers)
    {
      hide Inv, R.CompleteSpace, R.FinishActivation, R.ReceivePreview, R.Calm;
      Keeps(R.CoreCompleted(client, disposition), w);
      StepSeesMore(View(), R.CoreCompleted(client, disposition), w);
      if client != (if active.Some? then Some(active.value.client) else None) { return; }
      if active.Some? && active.value.space && active.value.coreFinished { return; }
      if active.None? || active.value.cancelled {
        active := None;
        snapshot := R.Screen(R.Cancelled, false, None, None);
      } else if active.value.space {
        active := Some(active.value.(coreFinished := true));
        snapshot := snapshot.(captureReady := false, phase := R.Processing);
        CompleteSpaceVoiceIfReady(w);
      } else if active.value.activation.Some? {
        FinishHostActivation(w);
      } else if disposition.Preview? {
        ReceiveGeneratedPreview(disposition.coreID, w);
      } else if active.value.help {
        active := None;
        snapshot := snapshot.(phase := R.Error);
      } else {
        active := None;
        snapshot := snapshot.(captureReady := false, phase := R.Done);
      }
    }

    method Ended(client: Option<nat>, w: R.World)
      requires Valid()
      modifies this
      ensures Valid() && View() == R.Step(old(View()), R.CoreEnded(client), w)
      ensures client.Some? && old(active).Some? && client.value == old(active).value.client ==> active.None?
    {
      hide Inv, R.Calm;
      Keeps(R.CoreEnded(client), w);
      if client != (if active.Some? then Some(active.value.client) else None) { return; }
      var wasCancelled := active.Some? && active.value.cancelled;
      active := None;
      snapshot := snapshot.(preview := None, captureReady := false, phase := if wasCancelled then R.Cancelled else R.Error);
    }

    // ---- space voice ----

    method CompleteSpaceVoiceIfReady(w: R.World)
      modifies this
      ensures View() == R.CompleteSpace(old(View()), w)
    {
      hide R.Cancel, R.Calm;
      if active.None? || !active.value.coreFinished || active.value.cancelled || spaceProcessingTask.Some?
         || active.value.target.None? || !active.value.space || !w.ready { return; }
      if w.empty { CancelNow(); return; }
      spaceProcessingTask := Some(next);
      spaces := spaces[next := R.SpaceWork(active.value.client, active.value.target.value, false)];
      next := next + 1;
    }

    method HandOver(work: R.SpaceWork, w: R.World)
      requires active.Some? && active.value.client == work.client
      modifies this
      ensures old(active).Some?
      ensures var u := R.Offered(old(View()), work.client, work.target, R.Spoken, None);
              View() == if w.throws then R.Fail(u)
                        else u.(active := Some(u.active.value.(generated := Some(u.tasks.next))),
                                tasks := u.tasks.(next := u.tasks.next + 1),
                                screen := u.screen.(insertion := Some(R.Text(work.client, work.target)),
                                                   phase := R.AwaitingInsertion))
    {
      hide R.Fail, R.Calm;
      history := history.(offers := history.offers + [R.Offer(work.client, work.target, R.Spoken, None)]);
      if w.throws { FailNow(); return; }
      active := Some(active.value.(generated := Some(next)));
      next := next + 1;
      snapshot := snapshot.(insertion := Some(R.Text(work.client, work.target)), phase := R.AwaitingInsertion);
    }

    method FinishSpaceTask(client: nat)
      modifies this`spaceProcessingTask
      ensures View() == R.FinishSpaceTask(old(View()), client)
    {
      if active.Some? && active.value.client == client { spaceProcessingTask := None; }
    }

    method SpaceWorkCame(id: nat, w: R.World)
      requires Valid() && id in spaces
      modifies this
      ensures Valid() && View() == R.Step(old(View()), R.SpaceCame(id), w)
      ensures history.offers == old(history.offers + D.Listed(D.Delivery(View(), R.SpaceCame(id), w)))
      ensures active.Some? && active.value.client == old(spaces[id].client) ==> spaceProcessingTask.None?
    {
      hide Inv, R.Fail, R.Calm, R.Moves;
      Keeps(R.SpaceCame(id), w);
      D.StepDelivers(View(), R.SpaceCame(id), w);
      hide D.Delivery;
      var work := spaces[id];
      spaces := spaces - {id};
      if work.cancelled || active.None? || active.value.client != work.client || active.value.cancelled
         || active.value.target != Some(work.target) || !w.accepted || w.empty {
        if active.Some? && active.value.client == work.client { FailNow(); }
      } else {
        HandOver(work, w);
      }
      FinishSpaceTask(work.client);
    }

    // ---- commands of the keyboard ----

    predicate IsDeferred(session: Option<nat>, target: Option<nat>)
      reads this
      ensures IsDeferred(session, target) <==> R.IsDeferred(View(), session, target)
    {
      && session == (if deferredKeyboardCommand.Some? then Some(deferredKeyboardCommand.value.client) else None)
      && target == (if deferredKeyboardCommand.Some? then deferredKeyboardCommand.value.target else None)
    }

    predicate IsActive(session: Option<nat>, target: Option<nat>)
      reads this
      ensures IsActive(session, target) <==> R.IsActive(View(), session, target)
    {
      && active.Some? && session == Some(active.value.client)
      && (active.value.target == target || active.value.activation == session)
    }

    method CancelCommand(session: Option<nat>, target: Option<nat>, w: R.World)
      requires Valid()
      modifies this
      ensures Valid() && View() == R.Step(old(View()), R.CancelAsked(session, target), w)
      ensures old(R.IsActive(View(), session, target) && !R.IsDeferred(View(), session, target)) ==>
                active.None? || active.value.cancelled
    {
      hide Inv, R.Cancel, R.CancelDeferred, R.IsActive, R.IsDeferred, R.Calm;
      Keeps(R.CancelAsked(session, target), w);
      CancelEndsBoth(View());
      if IsDeferred(session, target) { DropDeferred(false); }
      else if IsActive(session, target) { CancelNow(); }
    }

    method StopCommand(session: Option<nat>, target: Option<nat>, noLanguage: bool, w: R.World)
      requires Valid()
      modifies this
      ensures Valid() && View() == R.Step(old(View()), R.StopAsked(session, target, noLanguage), w)
      ensures history.offers == old(history.offers)
    {
      hide Inv, R.Cancel, R.Stop, R.CancelDeferred, R.CompleteSpace, R.IsDeferred, R.Calm;
      Keeps(R.StopAsked(session, target, noLanguage), w);
      StepSeesMore(View(), R.StopAsked(session, target, noLanguage), w);
      if IsDeferred(session, target) { DropDeferred(false); return; }
      if !IsActive(session, target) { return; }
      if active.value.space {
        if !w.accepted { return; }
        active := Some(active.value.(decided := true));
      }
      if noLanguage { CancelNow(); return; }
      StopNow();
      CompleteSpaceVoiceIfReady(w);
    }

    method FinishSpaceTranslation(session: Option<nat>, target: Option<nat>, w: R.World)
      requires Valid()
      modifies this
      ensures Valid() && View() == R.Step(old(View()), R.TranslationAsked(session, target), w)
      ensures history.offers == old(history.offers)
    {
      hide Inv, R.CompleteSpace, R.Calm;
      Keeps(R.TranslationAsked(session, target), w);
      StepSeesMore(View(), R.TranslationAsked(session, target), w);
      if active.None? || session != Some(active.value.client) || active.value.target != target
         || !active.value.space || !w.accepted { return; }
      active := Some(active.value.(decided := true));
      CompleteSpaceVoiceIfReady(w);
    }

    method ConfirmGeneratedPreview(w: R.World)
      requires Valid()
      modifies this
      ensures Valid() && View() == R.Step(old(View()), R.ConfirmAsked, w)
      ensures history.offers == old(history.offers + D.Listed(D.Delivery(View(), R.ConfirmAsked, w)))
      ensures history.offers == old(history.offers) || snapshot.preview.None?
    {
      hide Inv, R.Moves;
      Keeps(R.ConfirmAsked, w);
      D.StepDelivers(View(), R.ConfirmAsked, w);
      hide D.Delivery;
      if active.None? || !active.value.coreFinished || active.value.cancelled || active.value.generated.Some?
         || snapshot.preview.None? || !w.accepted { return; }
      var text := R.Text(active.value.client, snapshot.preview.value.target);
      history := history.(offers := history.offers + [R.Offer(text.session, text.target, R.Confirmed, None)]);
      if w.throws {
        active := None;
        snapshot := snapshot.(preview := None, insertion := None, phase := R.Error);
      } else {
        active := Some(active.value.(generated := Some(next)));
        next := next + 1;
        snapshot := snapshot.(preview := None, insertion := Some(text), phase := R.AwaitingInsertion);
      }
    }

    method InsertionReceipt(client: nat, field: nat, insertion: nat, w: R.World)
      requires Valid()
      modifies this
      ensures Valid() && View() == R.Step(old(View()), R.ReceiptCame(client, field, insertion), w)
      ensures history == old(history) && (active == old(active) || active.None?)
    {
      hide Inv, R.Calm;
      Keeps(R.ReceiptCame(client, field, insertion), w);
      if active.None? || !active.value.coreFinished || active.value.generated != Some(insertion)
         || active.value.client != client || active.value.target != Some(field) || !w.accepted { return; }
      active := None;
      snapshot := snapshot.(insertion := None, preview := None, phase := if w.throws then R.Error else R.Done);
    }

    method DetachPreviousKeyboardDelivery(w: R.World)
      requires Valid()
      modifies this
      ensures Valid() && View() == R.Step(old(View()), R.TakenOver, w)
      ensures active.Some? && active.value.target.Some? && active.value.coreFinished ==> active.value.cancelled
    {
      hide Inv, R.Cancel, R.Calm;
      Keeps(R.TakenOver, w);
      CancelEndsBoth(View());
      if active.None? || active.value.target.None? { return; }
      if active.value.coreFinished { CancelNow(); return; }
      if snapshot.insertion.Some? && snapshot.insertion.value.session == active.value.client {
        snapshot := snapshot.(insertion := None);
      }
    }
  }
}
