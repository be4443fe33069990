/** The class of ios/App/AccountSettings.swift. Each public method is one entry point run up to its
    first suspension; `Settle` resumes a suspended call with its answer. */
module AccountClient {
  import opened Options
  import opened AccountAnswers
  import opened F = AccountFlow
  import opened AccountSafety
  import opened AccountEffects

  class AccountSettings {
    var status: Option<AccountStatus>
    var operation: Option<Operation>
    var userCode: Option<string>
    var secondsRemaining: int
    var pollingInterval: int
    var activityBusy: bool
    var notice: Option<Notice>
    var error: Option<Failure>
    var cancelRequested: bool
    var signOutRequested: bool
    var flow: Option<Flow>
    var ready: bool
    var connection: nat
    var visible: bool
    var foreground: bool
    var pollFailed: bool
    // The latest reading of the clock, the suspended calls, and what went over the wire.
    var clock: real
    var requests: map<nat, Request>
    var log: seq<Entry>

    ghost function Fields(): Settings
      reads this
    {
      Settings(status, operation, userCode, secondsRemaining, pollingInterval, activityBusy, notice, error,
               cancelRequested, signOutRequested, flow, ready, connection, visible, foreground, pollFailed, clock)
    }

    ghost function View(): State
      reads this
    {
      State(Fields(), requests, log)
    }

    ghost predicate Valid()
      reads this
    {
      Inv(View())
    }

    // The state the event finds is valid and the clock has not gone back.
    ghost predicate Accepts(now: real)
      reads this
    {
      Valid() && clock <= now
    }

    constructor (ready: bool, now: real)
      ensures Valid() && View() == F.Initial(ready, now)
    {
      status, operation, userCode, secondsRemaining, pollingInterval := None, None, None, 0, 0;
      activityBusy, notice, error, cancelRequested, signOutRequested := false, None, None, false, false;
      flow, this.ready, connection, visible, foreground, pollFailed := None, ready, 0, false, false, false;
      clock, requests, log := now, map[], [];
    }

    predicate Blocked()
      reads this
    {
      !ready || activityBusy || operation.Some? || cancelRequested || signOutRequested
    }

    method ReplaceConnection(ready: bool, now: real)
      requires Accepts(now)
      modifies this
      ensures Valid() && View() == F.Step(old(View()), Timed(ConnectionReplaced(ready), now))
      ensures status.None? && operation.None? && flow.None? && !cancelRequested && !signOutRequested
    {
      hide Inv, F.Load, F.BeginSignIn, F.Tick, F.RetryPolling, F.CancelSignIn, F.ConfirmSignOut, F.Settle, F.Drain;
      StepKeepsInv(View(), Timed(ConnectionReplaced(ready), now));
      clock := now;
      Reconnect(ready);
      ClearFlow();
      ClearIntents();
    }

    method Reconnect(ready: bool)
      modifies this`connection, this`ready, this`status, this`operation
      ensures View() == old(View()).(a := old(Fields()).(connection := old(connection) + 1, ready := ready,
                                                         status := None, operation := None))
    {
      connection := connection + 1;
      this.ready := ready;
      status, operation := None, None;
    }

    method ClearIntents()
      modifies this`cancelRequested, this`signOutRequested, this`notice, this`error
      ensures View() == old(View()).(a := old(Fields()).(cancelRequested := false, signOutRequested := false,
                                                         notice := None, error := None))
    {
      cancelRequested, signOutRequested, notice, error := false, false, None, None;
    }

    // Hides the code and any old error behind the notice of a pending intent.
    method Announce(pending: Notice)
      modifies this`userCode, this`error, this`notice
      ensures View() == old(View()).(a := old(Fields()).(userCode := None, error := None, notice := Some(pending)))
    {
      userCode, error, notice := None, None, Some(pending);
    }

    method SetActivityBusy(value: bool, now: real)
      requires Accepts(now)
      modifies this
      ensures Valid() && View() == F.Step(old(View()), Timed(ActivityBusy(value), now))
      ensures activityBusy == value && flow == old(flow) && requests == old(requests)
    {
      hide Inv, F.Replace, F.Load, F.BeginSignIn, F.Tick, F.RetryPolling, F.CancelSignIn, F.ConfirmSignOut, F.Settle,
        F.Drain;
      StepKeepsInv(View(), Timed(ActivityBusy(value), now));
      clock := now;
      activityBusy := value;
    }

    method SetLifecycle(visible: bool, foreground: bool, now: real)
      requires Accepts(now)
      modifies this
      ensures Valid() && View() == F.Step(old(View()), Timed(Lifecycle(visible, foreground), now))
      ensures requests == old(requests) && (flow == old(flow) || flow.None?)
    {
      hide Inv, F.Replace, F.Load, F.BeginSignIn, F.Tick, F.RetryPolling, F.CancelSignIn, F.ConfirmSignOut, F.Settle,
        F.Drain;
      StepKeepsInv(View(), Timed(Lifecycle(visible, foreground), now));
      clock := now;
      this.visible := visible;
      this.foreground := foreground;
      UpdateExpiry();
    }

    method UpdateExpiry()
      modifies this`flow, this`userCode, this`secondsRemaining, this`pollingInterval, this`pollFailed, this`notice
      ensures View() == F.UpdateExpiry(old(View()))
    {
      if flow.None? { return; }
      secondsRemaining := CeilOrZero(flow.value.expiresAt - clock);
      if secondsRemaining == 0 { userCode := None; }
      if secondsRemaining == 0 && operation.None? && !cancelRequested && !signOutRequested {
        EndExpired();
      }
    }

    method EndExpired()
      modifies this`flow, this`userCode, this`secondsRemaining, this`pollingInterval, this`pollFailed, this`notice
      ensures View() == old(View()).(a := old(Fields()).ClearFlow().(notice := Some(CodeExpired)))
    {
      ClearFlow();
      notice := Some(CodeExpired);
    }

    method ClearFlow()
      modifies this`flow, this`userCode, this`secondsRemaining, this`pollingInterval, this`pollFailed
      ensures View() == old(View()).(a := old(Fields()).ClearFlow())
    {
      flow, userCode, secondsRemaining, pollingInterval, pollFailed := None, None, 0, 0, false;
    }

    // Suspends in a call: what is left is in `requests` until the answer arrives.
    method Send(kind: Operation, captured: Option<Flow>, resume: Resume)
      modifies this`operation, this`requests, this`log
      ensures View() == F.Send(old(View()), kind, captured, resume)
    {
      var request := Request(kind, connection, captured, resume);
      operation := Some(kind);
      requests := requests[|log| := request];
      log := log + [Sent(request, clock)];
    }

    method Load(now: real)
      requires Accepts(now)
      modifies this
      ensures Valid() && View() == F.Step(old(View()), Timed(LoadAsked, now))
      ensures operation != old(operation) ==> operation == Some(Loading) && old(operation).None?
      ensures flow == old(flow) && status == old(status)
    {
      hide Inv, F.Replace, F.BeginSignIn, F.Tick, F.RetryPolling, F.CancelSignIn, F.ConfirmSignOut, F.Settle, F.Drain;
      StepKeepsInv(View(), Timed(LoadAsked, now));
      clock := now;
      if Blocked() { return; }
      error := None;
      Send(Loading, None, Return);
    }

    method BeginSignIn(now: real)
      requires Accepts(now)
      modifies this
      ensures Valid() && View() == F.Step(old(View()), Timed(SignInAsked, now))
      ensures operation != old(operation) ==> operation == Some(Starting) && old(operation).None? && flow.None?
    {
      hide Inv, F.Replace, F.Load, F.Tick, F.RetryPolling, F.CancelSignIn, F.ConfirmSignOut, F.Settle, F.Drain;
      StepKeepsInv(View(), Timed(SignInAsked, now));
      clock := now;
      if Blocked() || flow.Some? || operation == Some(Starting) || !visible || !foreground { return; }
      error, notice := None, None;
      Send(Starting, None, Return);
    }

    method Tick(now: real)
      requires Accepts(now)
      modifies this
      ensures Valid() && View() == F.Step(old(View()), Timed(Ticked, now))
      ensures status == old(status) && (flow == old(flow) || flow.None?)
    {
      hide Inv, F.Replace, F.Load, F.BeginSignIn, F.RetryPolling, F.CancelSignIn, F.ConfirmSignOut, F.Settle, F.Drain;
      StepKeepsInv(View(), Timed(Ticked, now));
      clock := now;
      UpdateExpiry();
      DrainIntent(RestOfTick);
    }

    method RetryPolling(now: real)
      requires Accepts(now)
      modifies this
      ensures Valid() && View() == F.Step(old(View()), Timed(RetryAsked, now))
      ensures old(flow).Some? ==> flow.Some? && old(flow).value.nextPollAt <= flow.value.nextPollAt
    {
      hide Inv, F.Replace, F.Load, F.BeginSignIn, F.Tick, F.CancelSignIn, F.ConfirmSignOut, F.Settle, F.Drain, F.Expire;
      StepKeepsInv(View(), Timed(RetryAsked, now));
      clock := now;
      if Blocked() || flow.None? { return; }
      Resume();
      log := log + [Retried(connection, now)];
    }

    method Resume()
      requires flow.Some?
      modifies this`pollFailed, this`error, this`userCode, this`flow
      ensures View() == old(View()).(a := F.Resumed(old(Fields())))
    {
      pollFailed, error, userCode := false, None, Some(flow.value.code);
      flow := Some(flow.value.(nextPollAt := Later(flow.value.nextPollAt, clock + flow.value.interval as real)));
    }

    method CancelSignIn(now: real)
      requires Accepts(now)
      modifies this
      ensures Valid() && View() == F.Step(old(View()), Timed(CancelAsked, now))
      ensures cancelRequested && !old(cancelRequested) ==> userCode.None?
    {
      hide Inv, F.Replace, F.Load, F.BeginSignIn, F.Tick, F.RetryPolling, F.ConfirmSignOut, F.Settle, F.Drain, F.Expire;
      StepKeepsInv(View(), Timed(CancelAsked, now));
      clock := now;
      if !(ready && (flow.Some? || operation == Some(Starting)) && !cancelRequested && !signOutRequested) { return; }
      cancelRequested := true;
      Announce(CancelPending);
      DrainIntent(Return);
    }

    method ConfirmSignOut(now: real)
      requires Accepts(now)
      modifies this
      ensures Valid() && View() == F.Step(old(View()), Timed(SignOutConfirmed, now))
      ensures old(ready) ==> signOutRequested
    {
      hide Inv, F.Replace, F.Load, F.BeginSignIn, F.Tick, F.RetryPolling, F.CancelSignIn, F.Settle, F.Drain, F.Expire;
      StepKeepsInv(View(), Timed(SignOutConfirmed, now));
      clock := now;
      if !ready || signOutRequested { return; }
      signOutRequested := true;
      Announce(SignOutPending);
      DrainIntent(Return);
    }

    method DrainIntent(resume: Resume)
      modifies this`operation, this`requests, this`log, this`cancelRequested
      ensures View() == F.Drain(old(View()), resume)
    {
      if ready && !activityBusy && operation.None? {
        if signOutRequested {
          Send(SigningOut, None, resume);
          return;
        } else if cancelRequested {
          if flow.Some? {
            Send(Cancelling, flow, resume);
            return;
          }
          cancelRequested := false;
        }
      }
      ContinueAfterDrain(resume);
    }

    method ContinueAfterDrain(resume: Resume)
      modifies this`operation, this`requests, this`log
      ensures View() == F.Continue(old(View()), resume)
    {
      if resume == Return || Blocked() || !visible || !foreground || pollFailed || flow.None? { return; }
      if clock >= flow.value.nextPollAt { Send(Polling, flow, Return); }
    }

    method Settle(id: nat, answer: Answer, now: real)
      requires Accepts(now) && id in requests
      modifies this
      ensures Valid() && View() == F.Step(old(View()), Timed(Settled(id, answer), now))
      ensures old(requests[id].connection) != connection ==>
                status == old(status) && flow == old(flow) && error == old(error) && userCode == old(userCode)
      ensures old(requests[id].connection) == connection ==>
                var carried := Carried(old(requests[id].operation), answer);
                status == (if carried.Some? then carried else old(status))
    {
      hide F.Settle, Carried;
      if requests[id].connection == connection { SettledStatus(View(), id, answer, now); }
      StepKeepsInv(View(), Timed(Settled(id, answer), now));
      assert requests[id].operation == Polling ==> requests[id].flow.Some?;
      hide Inv;
      clock := now;
      TakeAnswer(id, answer);
    }

    method TakeAnswer(id: nat, answer: Answer)
      requires id in requests && (requests[id].operation == Polling ==> requests[id].flow.Some?)
      modifies this
      ensures View() == F.Settle(old(View()), id, answer)
      ensures old(requests[id].connection) != connection ==>
                status == old(status) && flow == old(flow) && error == old(error) && userCode == old(userCode)
    {
      hide F.Continue, F.Deliver;
      var request := requests[id];
      requests := requests - {id};
      log := log + [Answered(request.operation, request.connection, clock)];
      if request.connection != connection {
        ContinueAfterDrain(request.resume);
      } else {
        Deliver(request, answer);
      }
    }

    method Deliver(request: Request, answer: Answer)
      requires request.operation == Polling ==> request.flow.Some?
      modifies this
      ensures View() == F.Deliver(old(View()), request, answer)
    {
      match request.operation {
        case Loading => ShowStatus(answer);
        case Starting => BeginAnswered(answer);
        case Polling => PollAnswered(request.flow.value, answer);
        case _ =>
          DeliverIntent(request, answer);
          return;
      }
      hide F.LoadAnswered, F.BeginAnswered, F.PollAnswered, F.Finish;
      Finish();
    }

    method ShowStatus(answer: Answer)
      modifies this`status, this`error
      ensures View() == F.LoadAnswered(old(View()), answer)
    {
      if answer.Reply? && answer.status.Some? { status := answer.status; } else { error := Some(LoadFailed); }
    }

    method DeliverIntent(request: Request, answer: Answer)
      requires request.operation == SigningOut || request.operation == Cancelling
      modifies this
      ensures View() == F.Deliver(old(View()), request, answer)
    {
      hide F.Drain, F.Continue, F.SignOutAnswered, F.CancelAnswered;
      if request.operation == SigningOut {
        SignOutAnswered(answer);
        ContinueAfterDrain(request.resume);
      } else {
        CancelAnswered(answer);
        if signOutRequested { DrainIntent(request.resume); } else { ContinueAfterDrain(request.resume); }
      }
    }

    method Finish()
      modifies this`operation, this`requests, this`log, this`cancelRequested
      ensures View() == F.Finish(old(View()))
    {
      operation := None;
      DrainIntent(Return);
    }

    method BeginAnswered(answer: Answer)
      modifies this`flow, this`userCode, this`secondsRemaining, this`pollingInterval, this`pollFailed, this`error
      ensures View() == F.BeginAnswered(old(View()), answer)
    {
      hide AccountAuthorization.Valid;
      if answer.Thrown? || answer.authorization.None? || !answer.authorization.value.Valid() {
        error := Some(StartFailed);
      } else {
        Adopt(answer.authorization.value);
      }
    }

    method Adopt(response: AccountAuthorization)
      modifies this`flow, this`userCode, this`secondsRemaining, this`pollingInterval, this`pollFailed
      ensures View() == old(View()).(a := F.Adopted(old(Fields()), response))
    {
      WaitFor(Flow(response.authorizationSessionID, response.userCode, clock + response.expiresIn as real,
                   response.interval, clock + response.interval as real));
      ShowCode(response.expiresIn, if cancelRequested || signOutRequested then None else Some(response.userCode));
    }

    method WaitFor(next: Flow)
      modifies this`flow, this`pollingInterval
      ensures View() == old(View()).(a := old(Fields()).(flow := Some(next), pollingInterval := next.interval))
    {
      flow, pollingInterval := Some(next), next.interval;
    }

    method ShowCode(seconds: int, code: Option<string>)
      modifies this`secondsRemaining, this`userCode, this`pollFailed
      ensures View() == old(View()).(a := old(Fields()).(secondsRemaining := seconds, userCode := code, pollFailed := false))
    {
      secondsRemaining, userCode, pollFailed := seconds, code, false;
    }

    method PollAnswered(captured: Flow, answer: Answer)
      modifies this`flow, this`userCode, this`secondsRemaining, this`pollingInterval, this`pollFailed, this`status,
        this`notice, this`error
      ensures View() == F.PollAnswered(old(View()), captured, answer)
    {
      hide PollVerdict;
      match PollVerdict(answer) {
        case Pending(slowDown) => PollAgainLater(captured, slowDown);
        case LoggedIn(state) =>
          Conclude(state, SignedIn);
        case Expired => EndExpired();
        case Rejected =>
          pollFailed, error := true, Some(PollFailed);
      }
    }

    method PollAgainLater(captured: Flow, slowDown: bool)
      modifies this`flow, this`pollingInterval
      ensures var interval := Slowed(captured.interval, slowDown);
              View() == old(View()).(a := old(Fields()).(
                flow := Some(captured.(interval := interval, nextPollAt := old(clock) + interval as real)),
                pollingInterval := interval))
    {
      var next := captured;
      if slowDown { next := next.(interval := Min(3600, next.interval + 5)); }
      WaitFor(next.(nextPollAt := clock + next.interval as real));
    }

    // The flow ends with a new account status.
    method Conclude(state: AccountStatus, outcome: Notice)
      modifies this`flow, this`userCode, this`secondsRemaining, this`pollingInterval, this`pollFailed, this`status, this`notice
      ensures View() == old(View()).(a := old(Fields()).(status := Some(state)).ClearFlow().(notice := Some(outcome)))
    {
      status := Some(state);
      ClearFlow();
      notice := Some(outcome);
    }

    // A change that was not confirmed pauses polling.
    method Unconfirmed(failure: Failure)
      modifies this`pollFailed, this`notice, this`error
      ensures View() == old(View()).(a := old(Fields()).(pollFailed := true, notice := None, error := Some(failure)))
    {
      pollFailed, notice, error := true, None, Some(failure);
    }

    method SignOutAnswered(answer: Answer)
      modifies this`flow, this`userCode, this`secondsRemaining, this`pollingInterval, this`pollFailed, this`status,
        this`notice, this`error, this`cancelRequested, this`signOutRequested, this`operation
      ensures View() == F.SignOutAnswered(old(View()), answer)
    {
      hide AccountStatus.Authentication;
      if answer.Reply? && answer.status.Some? && answer.status.value.Authentication() == SignedOut {
        Conclude(answer.status.value, SignOutDone);
        cancelRequested := false;
      } else {
        Unconfirmed(SignOutUnconfirmed);
      }
      signOutRequested, operation := false, None;
    }

    method CancelAnswered(answer: Answer)
      modifies this`flow, this`userCode, this`secondsRemaining, this`pollingInterval, this`pollFailed, this`notice,
        this`error, this`cancelRequested, this`operation
      ensures View() == F.CancelAnswered(old(View()), answer)
    {
      if answer.Reply? && answer.cancelled == Some(true) {
        ClearFlow();
        notice := Some(CancelDone);
      } else {
        Unconfirmed(CancelUnconfirmed);
      }
      cancelRequested, operation := false, None;
    }
  }
}
