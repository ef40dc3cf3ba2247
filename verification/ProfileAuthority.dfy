/** The profile authority as an object over the shared profile state; its handlers change the
    fields in place and leave what the protocol's functions say. */
module ProfileAuthority {
  import opened Types
  import opened Profiles
  import A = Authority

  /** The connection to the user manager, and the switch last begun. */
  datatype Link = Link(initialized: bool, synchronized: bool, owner: string, readyOwner: string)

  datatype Turn = Turn(pending: int, previous: string, next: string, barrierDone: bool, acknowledged: bool,
                       completed: bool)

  class ProfileAuthority {
    const state: ProfileState
    var stopping: bool
    var link: Link
    var turn: Turn
    var active: string
    var calls: multiset<A.Call>
    var barriers: multiset<A.Barrier>
    ghost var phase: A.Phase

    ghost function View(): A.State
      reads this, state
    {
      A.State(state.bindings, state.ready, state.generation, state.active, stopping, link.initialized,
              link.synchronized,
              turn.barrierDone, turn.acknowledged, turn.completed, link.owner, link.readyOwner, active,
              turn.pending, turn.previous, turn.next, calls, barriers, phase)
    }

    ghost predicate Wired()
      reads this, state
    {
      state.Valid() && state.enabled
    }

    ghost predicate Valid()
      reads this, state
    {
      Wired() && A.Inv(View())
    }

    constructor (state: ProfileState)
      requires state.Valid() && state.enabled && !state.ready && state.generation == 1 && state.active == ""
      ensures this.state == state && Valid() && View() == A.Started(state.bindings)
    {
      this.state := state;
      stopping, active := false, "";
      link := Link(false, false, "", "");
      turn := Turn(0, "", "", false, false, false);
      calls, barriers, phase := multiset{}, multiset{}, A.Lost;
    }

    method Send(question: A.Question)
      modifies this`calls
      ensures View() == A.Send(old(View()), question)
    {
      calls := calls + multiset{A.Call(state.generation, link.owner, question)};
    }

    method Begin(work: A.Work)
      modifies this`barriers
      ensures View() == A.Begin(old(View()), work)
    {
      barriers := barriers + multiset{A.Barrier(state.generation, work)};
    }

    method Fence(ghost reason: A.Phase)
      requires Wired()
      modifies this`phase, state`ready, state`generation
      ensures Wired() && View() == A.Fence(old(View()), reason)
    {
      var _ := state.Fence();
      phase := reason;
    }

    method Lose()
      requires Wired()
      modifies this, state
      ensures Wired() && View() == A.Lose(old(View()))
    {
      hide Acceptable, Known;
      if stopping { return; }
      hide A.Begin;
      ghost var v := View();
      Fence(A.Lost);
      link := Link(false, false, "", "");
      turn := turn.(pending := 0, barrierDone := false);
      assert View() == A.Fence(v, A.Lost).(initialized := false, synchronized := false, pending := 0,
                                           barrierDone := false, owner := "", readyOwner := "");
      Begin(A.Recover);
    }

    method Stop()
      requires Wired()
      modifies this, state
      ensures Wired() && View() == A.Stop(old(View()))
    {
      hide Acceptable, Known;
      if stopping { return; }
      stopping := true;
      Fence(A.Lost);
    }

    method Initialize()
      requires Wired()
      modifies this, state
      ensures Wired() && View() == A.Initialize(old(View()))
    {
      hide Acceptable, Known;
      if link.initialized || link.owner == "" || link.readyOwner == "" { return; }
      if link.owner != link.readyOwner {
        Lose();
        return;
      }
      link := link.(initialized := true);
      Fence(A.Starting);
      Send(A.SwitchWait);
    }

    method OnNameAppeared(ready: bool, name: string)
      requires Wired()
      modifies this, state
      ensures Wired() && View() == A.NameAppeared(old(View()), ready, name)
    {
      hide Acceptable, Known;
      if stopping { return; }
      var slot := if ready then link.readyOwner else link.owner;
      if slot != "" && slot != name {
        Lose();
        return;
      }
      link := if ready then link.(readyOwner := name) else link.(owner := name);
      Initialize();
    }

    method OnNameVanished()
      requires Wired()
      modifies this, state
      ensures Wired() && View() == A.NameVanished(old(View()))
    {
      if !stopping && (link.owner != "" || link.readyOwner != "") { Lose(); }
    }

    /** The continuation of a call that was answered in its own generation. */
    method Continue(question: A.Question, user: string)
      requires Wired()
      modifies this, state
      ensures Wired() && View() == A.Continue(old(View()), question, user)
    {
      match question
      case SwitchWait => Send(A.RemoveWait);
      case RemoveWait => Send(A.CurrentUser(true, false));
      case CurrentUser(initial, removal) =>
        if |user| >= 20 || !Known(state.bindings, user)
           || (!initial && !removal && (turn.next != user || !turn.barrierDone)) || (removal && active != user) {
          Lose();
        } else {
          Begin(A.Settle(user));
        }
      case SwitchDone(_) =>
        turn := turn.(acknowledged := true);
        if turn.completed { Send(A.CurrentUser(false, false)); }
      case RemoveDone(_) => Send(A.CurrentUser(false, true));
    }

    method OnMethodFinished(call: A.Call, reply: Option<string>)
      requires Wired()
      modifies this, state
      ensures Wired() && View() == A.Replied(old(View()), call, reply)
    {
      hide Acceptable, Known;
      if call !in calls { return; }
      calls := calls - multiset{call};
      if stopping || call.generation != state.generation || call.owner != link.owner
          || link.owner != link.readyOwner { return; }
      if reply.None? { Lose(); } else { Continue(call.question, reply.value); }
    }

    /** An activation, which takes effect in its own generation only. */
    method Settle(prepared: nat, user: string)
      requires Wired()
      modifies this, state
      ensures Wired()
      ensures View() == if !old(stopping) && prepared == old(state.generation) && Known(old(state.bindings), user)
                        then old(View()).(ready := true, user := user, active := user, synchronized := true,
                                          pending := 0)
                        else old(View())
    {
      hide Acceptable, Known;
      if stopping { return; }
      var effective := state.Activate(prepared, user);
      if effective {
        active := user;
        link := link.(synchronized := true);
        turn := turn.(pending := 0);
      }
    }

    method Follow(barrier: A.Barrier, success: bool)
      requires Wired()
      modifies this, state
      ensures Wired() && View() == A.Follow(old(View()), barrier, success)
    {
      hide Acceptable, Known, A.Lose, A.Send;
      var current := !stopping && barrier.generation == state.generation;
      match barrier.work
      case Recover =>
      case Settle(user) => if success { Settle(barrier.generation, user); }
      case Retire(user) => if success && current { Send(A.RemoveDone(user)); }
      case Switch(id) =>
        if current {
          if !success {
            Lose();
          } else {
            turn := turn.(barrierDone := true);
            Send(A.SwitchDone(id));
          }
        }
    }

    method OnBarrierFinished(barrier: A.Barrier, success: bool)
      requires Wired()
      modifies this, state
      ensures Wired() && View() == A.Passed(old(View()), barrier, success)
    {
      hide A.Follow;
      if barrier !in barriers { return; }
      barriers := barriers - multiset{barrier};
      Follow(barrier, success);
    }

    method OnRemoveStarted(typed: bool, mine: bool, user: string)
      requires Wired()
      modifies this, state
      ensures Wired() && View() == A.RemoveStarted(old(View()), typed, mine, user)
    {
      hide Acceptable, Known;
      if !typed { Lose(); return; }
      if !mine { return; }
      if !link.synchronized || !Known(state.bindings, user) || |user| >= 20 { Lose(); return; }
      Fence(A.Removing(user, active));
      Begin(A.Retire(user));
    }

    method OnSwitch(started: bool, typed: bool, mine: bool, id: int, before: string, after: string)
      requires Wired()
      modifies this, state
      ensures Wired() && View() == A.SwitchSignal(old(View()), started, typed, mine, id, before, after)
    {
      hide Acceptable, Known, A.Lose, A.Send, A.SwitchStarted;
      if !typed { Lose(); return; }
      if !mine { return; }
      if !link.synchronized || id <= 0 || |before| >= 20 || |after| >= 20 || !Known(state.bindings, before)
          || !Known(state.bindings, after) {
        Lose();
        return;
      }
      if !started {
        if turn.pending != id || turn.previous != before || turn.next != after || !turn.barrierDone { Lose(); return; }
        turn := turn.(completed := true);
        if turn.acknowledged { Send(A.CurrentUser(false, false)); }
        return;
      }
      OnSwitchStarted(id, before, after);
    }

    method OnSwitchStarted(id: int, before: string, after: string)
      requires Wired()
      modifies this, state
      ensures Wired() && View() == A.SwitchStarted(old(View()), id, before, after)
    {
      hide Acceptable, Known, A.Lose, A.Begin;
      Fence(A.Switching(id, before, after));
      if turn.pending != 0 || active != before { Lose(); return; }
      turn := Turn(id, before, after, false, false, false);
      Begin(A.Switch(id));
    }

    /** Whatever arrives next, in whatever order. */
    method Handle(e: A.Event)
      requires Valid()
      modifies this, state
      ensures Valid() && View() == A.Step(old(View()), e)
    {
      hide A.Inv;
      A.StepKeeps(View(), e);
      match e
      case Appeared(ready, name) => OnNameAppeared(ready, name);
      case Vanished => OnNameVanished();
      case Closed => Lose();
      case Signalled(sender, signal) =>
        if !stopping && link.owner == sender {
          match signal {
            case Removal(typed, mine, user) => OnRemoveStarted(typed, mine, user);
            case Switched(started, typed, mine, id, before, after) => OnSwitch(started, typed, mine, id, before, after);
          }
        }
      case Answered(call, reply) => OnMethodFinished(call, reply);
      case Finished(barrier, success) => OnBarrierFinished(barrier, success);
      case TimedOut => Lose();
      case Shutdown => Stop();
    }
  }
}
