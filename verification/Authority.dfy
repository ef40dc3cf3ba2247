/** The profile switch protocol: signals of the user manager, replies to calls and completions of
    barriers arrive in any order, and generations fence off the late ones. */
module Authority {
  import opened Types
  import opened Profiles

  // ----- what is in flight -----

  /** What a call to the user manager asks. */
  datatype Question =
    | SwitchWait
    | RemoveWait
    | CurrentUser(initial: bool, removal: bool)
    | SwitchDone(id: int)
    | RemoveDone(user: string)

  datatype Call = Call(generation: nat, owner: string, question: Question)

  /** What a barrier of the repository is followed by. */
  datatype Work = Recover | Settle(user: string) | Retire(user: string) | Switch(id: int)

  datatype Barrier = Barrier(generation: nat, work: Work)

  /** What opened the present generation; `active` is the user active when a removal did. It is kept
      for the proofs; nothing depends on it. */
  datatype Phase =
    | Lost
    | Starting
    | Removing(user: string, active: string)
    | Switching(id: int, previous: string, next: string)

  datatype State = State(
    bindings: seq<Binding>, ready: bool, generation: nat, user: string,
    stopping: bool, initialized: bool, synchronized: bool,
    barrierDone: bool, acknowledged: bool, completed: bool,
    owner: string, readyOwner: string, active: string,
    pending: int, previous: string, next: string,
    calls: multiset<Call>, barriers: multiset<Barrier>, phase: Phase)

  function Started(bindings: seq<Binding>): State {
    State(bindings, false, 1, "", false, false, false, false, false, false, "", "", "", 0, "", "", multiset{},
          multiset{}, Lost)
  }

  // ----- the steps -----

  function Fence(a: State, phase: Phase): State {
    a.(ready := false, generation := a.generation + 1, phase := phase)
  }

  function Send(a: State, q: Question): State {
    a.(calls := a.calls + multiset{Call(a.generation, a.owner, q)})
  }

  function Begin(a: State, w: Work): State {
    a.(barriers := a.barriers + multiset{Barrier(a.generation, w)})
  }

  function Lose(a: State): State {
    if a.stopping then a
    else
      Begin(Fence(a, Lost).(initialized := false, synchronized := false, pending := 0, barrierDone := false,
                            owner := "", readyOwner := ""),
            Recover)
  }

  function Stop(a: State): State {
    if a.stopping then a else Fence(a, Lost).(stopping := true)
  }

  function Initialize(a: State): State {
    if a.initialized || a.owner == "" || a.readyOwner == "" then a
    else if a.owner != a.readyOwner then Lose(a)
    else Send(Fence(a, Starting).(initialized := true), SwitchWait)
  }

  function NameAppeared(a: State, ready: bool, owner: string): State {
    if a.stopping then a
    else
      var slot := if ready then a.readyOwner else a.owner;
      if slot != "" && slot != owner then Lose(a)
      else Initialize(if ready then a.(readyOwner := owner) else a.(owner := owner))
  }

  function NameVanished(a: State): State {
    if !a.stopping && (a.owner != "" || a.readyOwner != "") then Lose(a) else a
  }

  predicate Plausible(a: State, user: string) {
    |user| < 20 && Known(a.bindings, user)
  }

  /** The user read from the manager is the one expected. */
  predicate Expected(a: State, initial: bool, removal: bool, user: string) {
    && Plausible(a, user)
    && (!initial && !removal ==> a.next == user && a.barrierDone)
    && (removal ==> a.active == user)
  }

  function Continue(a: State, q: Question, user: string): State {
    match q
    case SwitchWait => Send(a, RemoveWait)
    case RemoveWait => Send(a, CurrentUser(true, false))
    case CurrentUser(initial, removal) =>
      if Expected(a, initial, removal, user) then Begin(a, Settle(user)) else Lose(a)
    case SwitchDone(_) =>
      var b := a.(acknowledged := true);
      if b.completed then Send(b, CurrentUser(false, false)) else b
    case RemoveDone(_) => Send(a, CurrentUser(false, true))
  }

  /** A reply, or none, to a call; replies of another generation or owner are ignored. */
  function Replied(a: State, c: Call, reply: Option<string>): State {
    if c !in a.calls then a
    else
      var b := a.(calls := a.calls - multiset{c});
      if b.stopping || c.generation != b.generation || c.owner != b.owner || b.owner != b.readyOwner then b
      else if reply.None? then Lose(b)
      else Continue(b, c.question, reply.value)
  }

  predicate Effective(a: State, b: Barrier, success: bool) {
    b in a.barriers && b.work.Settle? && success && !a.stopping && b.generation == a.generation
        && Known(a.bindings, b.work.user)
  }

  /** What follows a barrier of which the outcome is known. */
  function Follow(a: State, b: Barrier, success: bool): State {
    var current := !a.stopping && b.generation == a.generation;
    match b.work
    case Recover => a
    case Settle(user) =>
      if success && current && Known(a.bindings, user)
      then a.(ready := true, user := user, active := user, synchronized := true, pending := 0) else a
    case Retire(user) => if success && current then Send(a, RemoveDone(user)) else a
    case Switch(id) =>
      if !current then a
      else if !success then Lose(a)
      else Send(a.(barrierDone := true), SwitchDone(id))
  }

  function Passed(a: State, b: Barrier, success: bool): State {
    if b !in a.barriers then a else Follow(a.(barriers := a.barriers - multiset{b}), b, success)
  }

  function RemoveStarted(a: State, typed: bool, mine: bool, user: string): State {
    if !typed then Lose(a)
    else if !mine then a
    else if !a.synchronized || !Plausible(a, user) then Lose(a)
    else Begin(Fence(a, Removing(user, a.active)), Retire(user))
  }

  function SwitchStarted(a: State, id: int, previous: string, next: string): State {
    var f := Fence(a, Switching(id, previous, next));
    if f.pending != 0 || f.active != previous then Lose(f)
    else
      Begin(f.(pending := id, previous := previous, next := next, barrierDone := false, acknowledged := false,
               completed := false),
            Switch(id))
  }

  function SwitchCompleted(a: State, id: int, previous: string, next: string): State {
    if a.pending != id || a.previous != previous || a.next != next || !a.barrierDone then Lose(a)
    else
      var b := a.(completed := true);
      if b.acknowledged then Send(b, CurrentUser(false, false)) else b
  }

  function SwitchSignal(a: State, started: bool, typed: bool, mine: bool, id: int, previous: string,
                        next: string): State {
    if !typed then Lose(a)
    else if !mine then a
    else if !a.synchronized || id <= 0 || !Plausible(a, previous) || !Plausible(a, next) then Lose(a)
    else if started then SwitchStarted(a, id, previous, next)
    else SwitchCompleted(a, id, previous, next)
  }

  datatype Signal =
    | Removal(typed: bool, mine: bool, user: string)
    | Switched(started: bool, typed: bool, mine: bool, id: int, previous: string, next: string)

  datatype Event =
    | Appeared(ready: bool, owner: string)
    | Vanished
    | Closed
    | Signalled(sender: string, signal: Signal)
    | Answered(call: Call, reply: Option<string>)
    | Finished(barrier: Barrier, success: bool)
    | TimedOut
    | Shutdown

  function Step(a: State, e: Event): State {
    match e
    case Appeared(ready, owner) => NameAppeared(a, ready, owner)
    case Vanished => NameVanished(a)
    case Closed => Lose(a)
    case Signalled(sender, signal) =>
      if a.stopping || a.owner != sender then a
      else (match signal
            case Removal(typed, mine, user) => RemoveStarted(a, typed, mine, user)
            case Switched(started, typed, mine, id, previous, next) =>
              SwitchSignal(a, started, typed, mine, id, previous, next))
    case Answered(c, reply) => Replied(a, c, reply)
    case Finished(b, success) => Passed(a, b, success)
    case TimedOut => Lose(a)
    case Shutdown => Stop(a)
  }

  function After(bindings: seq<Binding>, run: seq<Event>): State {
    if run == [] then Started(bindings) else Step(After(bindings, run[..|run| - 1]), run[|run| - 1])
  }

  // ----- what every step keeps -----

  /** The switch last begun went through: its barrier succeeded, the manager took note of that,
      and the manager completed it. */
  predicate WentThrough(a: State) {
    a.barrierDone && a.acknowledged && a.completed
  }

  /** The user a removal leaves active: the one active when it began, or the one a switch led to that
      went through meanwhile. */
  predicate Remains(a: State, user: string)
    requires a.phase.Removing?
  {
    user == a.phase.active || (user == a.next && WentThrough(a))
  }

  /** What a call in flight says about the generation it belongs to, while that lasts. */
  ghost predicate CallFits(a: State, c: Call) {
    && c.generation <= a.generation
    && (c.generation == a.generation ==>
          match c.question
          case SwitchWait => a.phase.Starting?
          case RemoveWait => a.phase.Starting?
          case CurrentUser(initial, removal) =>
            if initial then a.phase.Starting?
            else if removal then a.phase.Removing?
            else (a.phase.Switching? || a.phase.Removing?) && WentThrough(a)
          case SwitchDone(id) => a.phase.Switching? && a.phase.id == id && a.barrierDone
          case RemoveDone(user) => a.phase.Removing? && a.phase.user == user)
  }

  /** What a barrier in flight says. */
  ghost predicate BarrierFits(a: State, b: Barrier) {
    && b.generation <= a.generation
    && (b.generation == a.generation ==>
          match b.work
          case Recover => a.phase.Lost?
          case Settle(user) =>
            && !a.phase.Lost? && (a.phase.Switching? ==> user == a.phase.next && WentThrough(a))
            && (a.phase.Removing? ==> Remains(a, user))
          case Retire(user) => a.phase.Removing? && a.phase.user == user
          case Switch(id) => a.phase.Switching? && a.phase.id == id)
  }

  ghost predicate InFlight(a: State) {
    && (forall c :: c in a.calls ==> CallFits(a, c))
    && (forall b :: b in a.barriers ==> BarrierFits(a, b))
  }

  ghost predicate Inv(a: State) {
    && InFlight(a)
    && (a.ready ==> a.user == a.active && Known(a.bindings, a.user))
    && (a.phase.Switching? ==> a.previous == a.phase.previous && a.next == a.phase.next && a.phase.id > 0)
    && (a.phase.Switching? && a.pending != 0 ==> a.pending == a.phase.id)
    && (!a.stopping && a.pending != 0 ==> a.phase.Switching? || a.phase.Removing?)
    && (!a.stopping && !a.initialized ==> a.phase.Lost? && !a.synchronized)
    && (a.phase.Lost? ==> !a.ready)
    && (a.phase.Removing? ==> Remains(a, a.active))
  }

  /** A new generation leaves nothing of the old one to fit. */
  lemma FencedFits(a: State, b: State)
    requires InFlight(a) && b.generation == a.generation + 1 && b.calls == a.calls && b.barriers == a.barriers
    ensures InFlight(b)
  {
    forall c | c in b.calls ensures CallFits(b, c) { assert CallFits(a, c); }
    forall w | w in b.barriers ensures BarrierFits(b, w) { assert BarrierFits(a, w); }
  }

  lemma SendFits(a: State, q: Question)
    requires InFlight(a) && CallFits(a, Call(a.generation, a.owner, q))
    ensures InFlight(Send(a, q))
  {
    var s := Send(a, q);
    forall c | c in s.calls ensures CallFits(s, c) { assert c in a.calls || c == Call(a.generation, a.owner, q); }
    forall w | w in s.barriers ensures BarrierFits(s, w) { assert BarrierFits(a, w); }
  }

  lemma BeginFits(a: State, w: Work)
    requires InFlight(a) && BarrierFits(a, Barrier(a.generation, w))
    ensures InFlight(Begin(a, w))
  {
    var s := Begin(a, w);
    forall c | c in s.calls ensures CallFits(s, c) { assert CallFits(a, c); }
    forall x | x in s.barriers ensures BarrierFits(s, x) { assert x in a.barriers || x == Barrier(a.generation, w); }
  }

  /** Fields no call or barrier speaks of may change, and what they wait for may only come true. */
  lemma MoreTrueFits(a: State, b: State)
    requires InFlight(a) && b.generation == a.generation && b.phase == a.phase && b.calls <= a.calls
             && b.barriers <= a.barriers && b.next == a.next
    requires (a.barrierDone ==> b.barrierDone) && (a.acknowledged ==> b.acknowledged) && (a.completed ==> b.completed)
    ensures InFlight(b)
  {
    forall c | c in b.calls ensures CallFits(b, c) { assert c in a.calls && CallFits(a, c); }
    forall w | w in b.barriers ensures BarrierFits(b, w) { assert w in a.barriers && BarrierFits(a, w); }
  }

  lemma LoseKeeps(a: State)
    requires Inv(a)
    ensures Inv(Lose(a))
  {
    hide InFlight;
    if !a.stopping {
      var b := Fence(a, Lost).(initialized := false, synchronized := false, pending := 0, barrierDone := false,
                               owner := "", readyOwner := "");
      FencedFits(a, b);
      BeginFits(b, Recover);
    }
  }

  lemma StopKeeps(a: State)
    requires Inv(a)
    ensures Inv(Stop(a))
  {
    hide InFlight;
    if !a.stopping { FencedFits(a, Stop(a)); }
  }

  lemma InitializeKeeps(a: State)
    requires Inv(a) && !a.stopping
    ensures Inv(Initialize(a))
  {
    hide InFlight, Lose;
    LoseKeeps(a);
    if !a.initialized {
      var f := Fence(a, Starting).(initialized := true);
      FencedFits(a, f);
      SendFits(f, SwitchWait);
    }
  }

  lemma AppearedKeeps(a: State, ready: bool, owner: string)
    requires Inv(a)
    ensures Inv(NameAppeared(a, ready, owner))
  {
    hide InFlight, Initialize, Lose;
    if !a.stopping {
      var b := if ready then a.(readyOwner := owner) else a.(owner := owner);
      MoreTrueFits(a, b);
      LoseKeeps(a);
      InitializeKeeps(b);
    }
  }

  lemma ReadKeeps(a: State, initial: bool, removal: bool, user: string)
    requires Inv(a) && CallFits(a, Call(a.generation, a.owner, CurrentUser(initial, removal)))
    ensures Inv(Continue(a, CurrentUser(initial, removal), user))
  {
    hide InFlight, Lose, Plausible;
    LoseKeeps(a);
    if Expected(a, initial, removal, user) { BeginFits(a, Settle(user)); }
  }

  lemma AcknowledgedKeeps(a: State, id: int)
    requires Inv(a) && CallFits(a, Call(a.generation, a.owner, SwitchDone(id)))
    ensures Inv(Continue(a, SwitchDone(id), ""))
  {
    hide InFlight, Lose, Expected;
    var b := a.(acknowledged := true);
    MoreTrueFits(a, b);
    if b.completed { SendFits(b, CurrentUser(false, false)); }
  }

  lemma ContinueKeeps(a: State, q: Question, user: string)
    requires Inv(a) && CallFits(a, Call(a.generation, a.owner, q))
    ensures Inv(Continue(a, q, user))
  {
    hide InFlight, Lose, Expected, Plausible;
    match q
    case SwitchWait => SendFits(a, RemoveWait);
    case RemoveWait => SendFits(a, CurrentUser(true, false));
    case CurrentUser(initial, removal) => ReadKeeps(a, initial, removal, user);
    case SwitchDone(id) => AcknowledgedKeeps(a, id);
    case RemoveDone(_) => SendFits(a, CurrentUser(false, true));
  }

  lemma RepliedKeeps(a: State, c: Call, reply: Option<string>)
    requires Inv(a)
    ensures Inv(Replied(a, c, reply))
  {
    hide Continue, Lose;
    if c in a.calls {
      assert CallFits(a, c);
      var b := a.(calls := a.calls - multiset{c});
      MoreTrueFits(a, b);
      LoseKeeps(b);
      if c.generation == b.generation && c.owner == b.owner && reply.Some? {
        ContinueKeeps(b, c.question, reply.value);
      }
    }
  }

  lemma SettledKeeps(a: State, user: string)
    requires Inv(a) && !a.phase.Lost? && Known(a.bindings, user) && (a.phase.Removing? ==> Remains(a, user))
    ensures Inv(a.(ready := true, user := user, active := user, synchronized := true, pending := 0))
  {
    hide InFlight, Known;
    MoreTrueFits(a, a.(ready := true, user := user, active := user, synchronized := true, pending := 0));
  }

  lemma SwitchDoneKeeps(a: State, id: int)
    requires Inv(a) && a.phase.Switching? && a.phase.id == id
    ensures Inv(Send(a.(barrierDone := true), SwitchDone(id)))
  {
    hide InFlight;
    var d := a.(barrierDone := true);
    MoreTrueFits(a, d);
    SendFits(d, SwitchDone(id));
  }

  lemma FollowKeeps(a: State, b: Barrier, success: bool)
    requires Inv(a) && BarrierFits(a, b)
    ensures Inv(Follow(a, b, success))
  {
    hide Lose, InFlight, Send, Known;
    LoseKeeps(a);
    if b.generation == a.generation {
      match b.work
      case Recover =>
      case Settle(user) => if Known(a.bindings, user) { SettledKeeps(a, user); }
      case Retire(user) => RetiredKeeps(a, user);
      case Switch(id) => SwitchDoneKeeps(a, id);
    }
  }

  lemma RetiredKeeps(a: State, user: string)
    requires Inv(a) && a.phase.Removing? && a.phase.user == user
    ensures Inv(Send(a, RemoveDone(user)))
  {
    hide InFlight;
    SendFits(a, RemoveDone(user));
  }

  lemma PassedKeeps(a: State, b: Barrier, success: bool)
    requires Inv(a)
    ensures Inv(Passed(a, b, success))
  {
    hide Follow;
    if b in a.barriers {
      assert BarrierFits(a, b);
      var c := a.(barriers := a.barriers - multiset{b});
      MoreTrueFits(a, c);
      FollowKeeps(c, b, success);
    }
  }

  lemma RemoveKeeps(a: State, typed: bool, mine: bool, user: string)
    requires Inv(a)
    ensures Inv(RemoveStarted(a, typed, mine, user))
  {
    hide InFlight;
    LoseKeeps(a);
    var f := Fence(a, Removing(user, a.active));
    FencedFits(a, f);
    BeginFits(f, Retire(user));
  }

  lemma SwitchKeeps(a: State, started: bool, typed: bool, mine: bool, id: int, previous: string, next: string)
    requires Inv(a) && !a.stopping
    ensures Inv(SwitchSignal(a, started, typed, mine, id, previous, next))
  {
    hide InFlight, Lose;
    LoseKeeps(a);
    if id > 0 && a.synchronized {
      if started {
        SwitchStartedKeeps(a, id, previous, next);
      } else {
        var b := a.(completed := true);
        MoreTrueFits(a, b);
        if a.pending == id && a.barrierDone && b.acknowledged { SendFits(b, CurrentUser(false, false)); }
      }
    }
  }

  lemma SwitchStartedKeeps(a: State, id: int, previous: string, next: string)
    requires Inv(a) && id > 0 && !a.stopping && a.synchronized
    ensures Inv(SwitchStarted(a, id, previous, next))
  {
    hide InFlight;
    var f := Fence(a, Switching(id, previous, next));
    FencedFits(a, f);
    if f.pending != 0 || f.active != previous {
      var b := Fence(f, Lost).(initialized := false, synchronized := false, pending := 0, barrierDone := false,
                               owner := "", readyOwner := "");
      FencedFits(f, b);
      BeginFits(b, Recover);
    } else {
      var g := f.(pending := id, previous := previous, next := next, barrierDone := false, acknowledged := false,
                  completed := false);
      FencedFits(a, g);
      BeginFits(g, Switch(id));
    }
  }

  lemma StepKeeps(a: State, e: Event)
    requires Inv(a)
    ensures Inv(Step(a, e))
  {
    hide Inv, NameAppeared, RemoveStarted, SwitchSignal, Replied, Passed, Lose, Stop;
    LoseKeeps(a);
    match e
    case Appeared(ready, owner) => AppearedKeeps(a, ready, owner);
    case Vanished =>
    case Closed =>
    case Signalled(sender, signal) =>
      if !a.stopping {
        match signal {
          case Removal(typed, mine, user) => RemoveKeeps(a, typed, mine, user);
          case Switched(started, typed, mine, id, previous, next) =>
            SwitchKeeps(a, started, typed, mine, id, previous, next);
        }
      }
    case Answered(c, reply) => RepliedKeeps(a, c, reply);
    case Finished(b, success) => PassedKeeps(a, b, success);
    case TimedOut =>
    case Shutdown => StopKeeps(a);
  }

  // ----- what a step may bring about -----

  /** Generations only grow, a new one is not ready, a barrier begins in the generation that is
      current after the step, and one for a switch begins with the generation of that switch. */
  ghost predicate Moves(a: State, s: State) {
    && s.bindings == a.bindings
    && a.generation <= s.generation
    && (a.generation < s.generation ==> !s.ready)
    && (forall b :: b in s.barriers && s.barriers[b] > a.barriers[b] ==>
          && b.generation == s.generation
          && (b.work.Switch? ==> a.generation < s.generation && s.phase.Switching? && s.phase.id == b.work.id))
  }

  /** Neither an activation nor a `SwitchUserDone` happens. */
  ghost predicate Silent(a: State, s: State) {
    && (s.ready ==> a.ready && s.user == a.user)
    && (forall c :: c in s.calls && s.calls[c] > a.calls[c] ==> !c.question.SwitchDone?)
  }

  /** Nothing new is in flight, and the state is as ready as it was or fenced. */
  lemma QuietMoves(a: State, s: State)
    requires s.bindings == a.bindings && s.calls <= a.calls && s.barriers <= a.barriers
    requires a.generation <= s.generation && (s.ready ==> a.ready && s.user == a.user && s.generation == a.generation)
    ensures Moves(a, s) && Silent(a, s)
  {
  }

  lemma SendMoves(a: State, s: State, q: Question)
    requires Moves(a, s) && Silent(a, s) && !q.SwitchDone?
    ensures Moves(a, Send(s, q)) && Silent(a, Send(s, q))
  {
  }

  lemma BeginMoves(a: State, s: State, w: Work)
    requires Moves(a, s) && Silent(a, s)
    requires w.Switch? ==> a.generation < s.generation && s.phase.Switching? && s.phase.id == w.id
    ensures Moves(a, Begin(s, w)) && Silent(a, Begin(s, w))
  {
  }

  /** Losing the authority, whatever was taken out of flight before. */
  lemma LoseMoves(a: State, b: State)
    requires b.bindings == a.bindings && b.calls <= a.calls && b.barriers <= a.barriers
    requires a.generation <= b.generation && (b.ready ==> a.ready && b.user == a.user && b.generation == a.generation)
    ensures Moves(a, Lose(b)) && Silent(a, Lose(b))
  {
    hide Moves, Silent;
    QuietMoves(a, b);
    if !b.stopping {
      var c := Fence(b, Lost).(initialized := false, synchronized := false, pending := 0, barrierDone := false,
                               owner := "", readyOwner := "");
      QuietMoves(a, c);
      BeginMoves(a, c, Recover);
    }
  }

  lemma InitializeMoves(a: State, b: State)
    requires b == a.(owner := b.owner, readyOwner := b.readyOwner)
    ensures Moves(a, Initialize(b)) && Silent(a, Initialize(b))
  {
    hide Moves, Silent, Lose;
    QuietMoves(a, b);
    LoseMoves(a, b);
    var f := Fence(b, Starting).(initialized := true);
    QuietMoves(a, f);
    SendMoves(a, f, SwitchWait);
  }

  lemma AppearedMoves(a: State, ready: bool, owner: string)
    ensures var s := NameAppeared(a, ready, owner); Moves(a, s) && Silent(a, s)
  {
    hide Moves, Silent, Lose, Initialize;
    QuietMoves(a, a);
    LoseMoves(a, a);
    InitializeMoves(a, if ready then a.(readyOwner := owner) else a.(owner := owner));
  }

  lemma ContinueMoves(a: State, b: State, q: Question, user: string)
    requires b == a.(calls := b.calls) && b.calls <= a.calls
    ensures var s := Continue(b, q, user); Moves(a, s) && Silent(a, s)
  {
    hide Moves, Silent, Lose, Expected;
    LoseMoves(a, b);
    QuietMoves(a, b);
    match q
    case SwitchWait => SendMoves(a, b, RemoveWait);
    case RemoveWait => SendMoves(a, b, CurrentUser(true, false));
    case CurrentUser(_, _) => BeginMoves(a, b, Settle(user));
    case SwitchDone(_) =>
      var c := b.(acknowledged := true);
      QuietMoves(a, c);
      SendMoves(a, c, CurrentUser(false, false));
    case RemoveDone(_) => SendMoves(a, b, CurrentUser(false, true));
  }

  lemma RepliedMoves(a: State, c: Call, reply: Option<string>)
    ensures var s := Replied(a, c, reply); Moves(a, s) && Silent(a, s)
  {
    hide Continue, Lose, Moves, Silent;
    if c in a.calls {
      var b := a.(calls := a.calls - multiset{c});
      QuietMoves(a, b);
      LoseMoves(a, b);
      if reply.Some? { ContinueMoves(a, b, c.question, reply.value); }
    } else {
      QuietMoves(a, a);
    }
  }

  lemma RemoveMoves(a: State, typed: bool, mine: bool, user: string)
    ensures var s := RemoveStarted(a, typed, mine, user); Moves(a, s) && Silent(a, s)
  {
    hide Moves, Silent, Lose, Plausible;
    QuietMoves(a, a);
    LoseMoves(a, a);
    var f := Fence(a, Removing(user, a.active));
    QuietMoves(a, f);
    BeginMoves(a, f, Retire(user));
  }

  lemma SwitchMoves(a: State, started: bool, typed: bool, mine: bool, id: int, previous: string, next: string)
    ensures var s := SwitchSignal(a, started, typed, mine, id, previous, next); Moves(a, s) && Silent(a, s)
  {
    hide Moves, Silent, Lose, Plausible;
    QuietMoves(a, a);
    LoseMoves(a, a);
    var f := Fence(a, Switching(id, previous, next));
    LoseMoves(a, f);
    var g := f.(pending := id, previous := previous, next := next, barrierDone := false, acknowledged := false,
                completed := false);
    QuietMoves(a, g);
    BeginMoves(a, g, Switch(id));
    var b := a.(completed := true);
    QuietMoves(a, b);
    SendMoves(a, b, CurrentUser(false, false));
  }

  /** A step that finishes a barrier for a switch sends only what belongs to it. */
  lemma DoneMoves(a: State, s: State, id: int)
    requires Moves(a, s) && s.calls <= a.calls && (s.ready ==> a.ready && s.user == a.user)
    ensures Moves(a, Send(s, SwitchDone(id)))
    ensures var t := Send(s, SwitchDone(id));
            (t.ready ==> a.ready && t.user == a.user)
            && forall c :: c in t.calls && t.calls[c] > a.calls[c] ==> c == Call(s.generation, s.owner, SwitchDone(id))
  {
  }

  lemma SettledMoves(a: State, s: State, user: string)
    requires Moves(a, s) && s.calls <= a.calls && s.generation == a.generation
    ensures Moves(a, s.(ready := true, user := user, active := user, synchronized := true, pending := 0))
  {
  }

  lemma PassedMoves(a: State, b: Barrier, success: bool)
    ensures Moves(a, Passed(a, b, success))
  {
    hide Lose, Moves, Silent, Known;
    QuietMoves(a, a);
    if b in a.barriers {
      var c := a.(barriers := a.barriers - multiset{b});
      QuietMoves(a, c);
      LoseMoves(a, c);
      match b.work
      case Recover =>
      case Settle(user) => SettledMoves(a, c, user);
      case Retire(user) => SendMoves(a, c, RemoveDone(user));
      case Switch(id) =>
        var d := c.(barrierDone := true);
        QuietMoves(a, d);
        DoneMoves(a, d, id);
    }
  }

  /** A barrier that passes makes the state ready only as an activation. */
  lemma PassedReady(a: State, b: Barrier, success: bool)
    ensures var s := Passed(a, b, success);
            s.ready ==> (a.ready && s.user == a.user) || (Effective(a, b, success) && s.user == b.work.user)
  {
    hide Lose, Known;
    LoseCalls(a.(barriers := a.barriers - multiset{b}));
  }

  /** A barrier that passes sends `SwitchUserDone` only for its own switch. */
  lemma PassedCalls(a: State, b: Barrier, success: bool, c: Call)
    requires c.question.SwitchDone? && a.calls[c] < Passed(a, b, success).calls[c]
    ensures success && b in a.barriers && b == Barrier(a.generation, Switch(c.question.id))
            && c.generation == a.generation
  {
    hide Lose, Known, Send;
    var d := a.(barriers := a.barriers - multiset{b});
    LoseCalls(d);
    match b.work
    case Recover =>
    case Settle(_) =>
    case Retire(user) => SentOne(d, RemoveDone(user), c);
    case Switch(id) => SentOne(d.(barrierDone := true), SwitchDone(id), c);
  }

  lemma SentOne(a: State, q: Question, c: Call)
    ensures Send(a, q).calls[c] == a.calls[c] + if c == Call(a.generation, a.owner, q) then 1 else 0
  {
  }

  lemma LoseCalls(a: State)
    ensures Lose(a).calls == a.calls && (Lose(a).ready ==> a.ready && Lose(a).user == a.user)
  {
  }

  lemma StepMoves(a: State, e: Event)
    ensures Moves(a, Step(a, e))
    ensures !e.Finished? ==> Silent(a, Step(a, e))
  {
    hide Moves, Silent, NameAppeared, RemoveStarted, SwitchSignal, Replied, Passed, Lose;
    LoseMoves(a, a);
    QuietMoves(a, a);
    match e
    case Appeared(ready, owner) => AppearedMoves(a, ready, owner);
    case Vanished =>
    case Closed =>
    case Signalled(sender, signal) =>
      match signal {
        case Removal(typed, mine, user) => RemoveMoves(a, typed, mine, user);
        case Switched(started, typed, mine, id, previous, next) =>
          SwitchMoves(a, started, typed, mine, id, previous, next);
      }
    case Answered(c, reply) => RepliedMoves(a, c, reply);
    case Finished(b, success) => PassedMoves(a, b, success);
    case TimedOut =>
    case Shutdown => StopMoves(a);
  }

  lemma StopMoves(a: State)
    ensures Moves(a, Stop(a)) && Silent(a, Stop(a))
  {
  }

  // ----- runs -----

  function At(bindings: seq<Binding>, run: seq<Event>, j: nat): State
    requires j <= |run|
  {
    After(bindings, run[..j])
  }

  lemma AtStep(bindings: seq<Binding>, run: seq<Event>, j: nat)
    requires j < |run|
    ensures At(bindings, run, j + 1) == Step(At(bindings, run, j), run[j])
  {
    hide Step;
    assert run[..j + 1][..j] == run[..j];
  }

  lemma {:induction false} AtKeeps(bindings: seq<Binding>, run: seq<Event>, j: nat)
    requires j <= |run|
    ensures Inv(At(bindings, run, j))
  {
    hide Step, Inv;
    if j == 0 {
      StartedKeeps(bindings, run);
    } else {
      AtKeeps(bindings, run, j - 1);
      AtStep(bindings, run, j - 1);
      StepKeeps(At(bindings, run, j - 1), run[j - 1]);
    }
  }

  lemma StartedKeeps(bindings: seq<Binding>, run: seq<Event>)
    ensures Inv(At(bindings, run, 0)) && At(bindings, run, 0).barriers == multiset{}
  {
    assert run[..0] == [];
  }

  lemma {:induction false} GenerationsGrow(bindings: seq<Binding>, run: seq<Event>, i: nat, j: nat)
    requires i <= j <= |run|
    ensures At(bindings, run, i).generation <= At(bindings, run, j).generation
    ensures At(bindings, run, i).bindings == At(bindings, run, j).bindings
  {
    hide Step, After;
    if i < j {
      GenerationsGrow(bindings, run, i, j - 1);
      AtStep(bindings, run, j - 1);
      StepMoves(At(bindings, run, j - 1), run[j - 1]);
    }
  }

  /** Step `k` of a run is an activation that takes effect. */
  ghost predicate Activates(bindings: seq<Binding>, run: seq<Event>, k: nat)
    requires k < |run|
  {
    run[k].Finished? && Effective(At(bindings, run, k), run[k].barrier, run[k].success)
  }

  lemma {:induction false} UnreadyUntilActivated(bindings: seq<Binding>, run: seq<Event>, i: nat, j: nat)
    requires i <= j <= |run| && !At(bindings, run, i).ready
    requires forall k :: i <= k < j ==> !Activates(bindings, run, k)
    ensures !At(bindings, run, j).ready
  {
    hide Step, After, Effective;
    if i < j {
      UnreadyUntilActivated(bindings, run, i, j - 1);
      var a := At(bindings, run, j - 1);
      AtStep(bindings, run, j - 1);
      StepMoves(a, run[j - 1]);
      assert !Activates(bindings, run, j - 1);
      if run[j - 1].Finished? { FinishedStep(a, run[j - 1]); }
    }
  }

  lemma FinishedStep(a: State, e: Event)
    requires e.Finished?
    ensures Step(a, e).ready ==> (a.ready && Step(a, e).user == a.user) || Effective(a, e.barrier, e.success)
  {
    PassedReady(a, e.barrier, e.success);
  }

  /** From each fence to the next activation that takes effect no check succeeds, for any profile. */
  lemma NoCheckSucceedsWhileFenced(bindings: seq<Binding>, run: seq<Event>, i: nat, j: nat, subject: string,
                                   profile: string)
    requires i < j <= |run| && At(bindings, run, i).generation < At(bindings, run, i + 1).generation
    requires forall k :: i < k < j ==> !Activates(bindings, run, k)
    ensures var a := At(bindings, run, j); Refusal(true, a.ready, a.user, a.bindings, subject, profile).Some?
  {
    hide Step, After, Activates;
    AtStep(bindings, run, i);
    StepMoves(At(bindings, run, i), run[i]);
    UnreadyUntilActivated(bindings, run, i + 1, j);
  }

  /** An activation prepared in another generation than the present one changes nothing. */
  lemma LateActivationIsIgnored(a: State, b: Barrier, success: bool)
    requires b.work.Settle? && b.generation != a.generation
    ensures Passed(a, b, success) == a.(barriers := a.barriers - multiset{b})
  {
    if b !in a.barriers { assert a.barriers - multiset{b} == a.barriers; }
  }

  /** A barrier in flight was begun at some step, in its own generation. */
  lemma {:induction false} BegunAt(bindings: seq<Binding>, run: seq<Event>, k: nat, b: Barrier) returns (j: nat)
    requires k <= |run| && b in At(bindings, run, k).barriers
    ensures j < k && At(bindings, run, j).barriers[b] < At(bindings, run, j + 1).barriers[b]
    ensures At(bindings, run, j + 1).generation == b.generation
    ensures b.work.Switch? ==> var s := At(bindings, run, j + 1);
                               At(bindings, run, j).generation < s.generation && s.phase.Switching?
                                   && s.phase.id == b.work.id
  {
    hide Step, After;
    if k == 0 {
      StartedKeeps(bindings, run);
      assert false;
    } else {
      var a, s := At(bindings, run, k - 1), At(bindings, run, k);
      AtStep(bindings, run, k - 1);
      StepMoves(a, run[k - 1]);
      if s.barriers[b] > a.barriers[b] {
        j := k - 1;
      } else {
        j := BegunAt(bindings, run, k - 1, b);
      }
    }
  }

  /** Between steps `j` and `k` the generation did not change: no fence fell there. */
  ghost predicate SameGeneration(bindings: seq<Binding>, run: seq<Event>, j: nat, k: nat, generation: nat)
    requires j <= k <= |run|
  {
    forall i :: j <= i <= k ==> At(bindings, run, i).generation == generation
  }

  lemma StaysInGeneration(bindings: seq<Binding>, run: seq<Event>, j: nat, k: nat)
    requires j <= k <= |run| && At(bindings, run, j).generation == At(bindings, run, k).generation
    ensures SameGeneration(bindings, run, j, k, At(bindings, run, k).generation)
  {
    hide After;
    forall i | j <= i <= k ensures At(bindings, run, i).generation == At(bindings, run, k).generation {
      GenerationsGrow(bindings, run, j, i);
      GenerationsGrow(bindings, run, i, k);
    }
  }

  /** Every activation that takes effect ends a barrier begun in the same generation, without a
      fence in between; and in the generation of a switch it activates the user switched to, after
      the barrier of the switch succeeded, was acknowledged, and the switch was completed. In the
      generation of a removal it activates the user active when the removal began, or the one
      switched to by a switch that went through. */
  lemma ActivationFollowsItsBarrier(bindings: seq<Binding>, run: seq<Event>, k: nat) returns (j: nat)
    requires k < |run| && Activates(bindings, run, k)
    ensures j < k && At(bindings, run, j).barriers[run[k].barrier] < At(bindings, run, j + 1).barriers[run[k].barrier]
    ensures SameGeneration(bindings, run, j + 1, k, run[k].barrier.generation)
    ensures var a := At(bindings, run, k);
            && (a.phase.Switching? ==> run[k].barrier.work.user == a.phase.next && WentThrough(a))
            && (a.phase.Removing? ==> Remains(a, run[k].barrier.work.user))
  {
    hide After, SameGeneration;
    var a, b := At(bindings, run, k), run[k].barrier;
    AtKeeps(bindings, run, k);
    assert BarrierFits(a, b);
    j := BegunAt(bindings, run, k, b);
    StaysInGeneration(bindings, run, j + 1, k);
  }

  /** A removal goes on, or has just been opened. */
  predicate Opens(a: State, s: State) {
    s.phase.Removing? ==>
      || (s.phase == a.phase && s.generation == a.generation)
      || (s.phase.active == a.active && s.generation == a.generation + 1)
  }

  lemma LoseOpens(a: State, b: State)
    requires b.phase == a.phase && b.generation == a.generation
    ensures Opens(a, Lose(b)) && (Lose(b).phase.Lost? || Lose(b) == b)
  {
  }

  lemma AddOpens(a: State, b: State, q: Question, w: Work)
    requires b.phase == a.phase && b.generation == a.generation
    ensures Opens(a, Send(b, q)) && Opens(a, Begin(b, w)) && Opens(a, b)
  {
  }

  lemma AppearedOpens(a: State, ready: bool, owner: string)
    ensures Opens(a, NameAppeared(a, ready, owner))
  {
    hide Lose;
    LoseOpens(a, a);
    LoseOpens(a, if ready then a.(readyOwner := owner) else a.(owner := owner));
  }

  lemma ContinueOpens(a: State, b: State, q: Question, user: string)
    requires b.phase == a.phase && b.generation == a.generation
    ensures Opens(a, Continue(b, q, user))
  {
    hide Lose, Expected, Send, Begin, Opens;
    LoseOpens(a, b);
    match q
    case SwitchWait => AddOpens(a, b, RemoveWait, Recover);
    case RemoveWait => AddOpens(a, b, CurrentUser(true, false), Recover);
    case CurrentUser(_, _) => AddOpens(a, b, q, Settle(user));
    case SwitchDone(_) => AddOpens(a, b.(acknowledged := true), CurrentUser(false, false), Recover);
    case RemoveDone(_) => AddOpens(a, b, CurrentUser(false, true), Recover);
  }

  lemma RepliedOpens(a: State, c: Call, reply: Option<string>)
    ensures Opens(a, Replied(a, c, reply))
  {
    hide Lose, Continue;
    var b := a.(calls := a.calls - multiset{c});
    LoseOpens(a, b);
    if reply.Some? { ContinueOpens(a, b, c.question, reply.value); }
  }

  lemma PassedOpens(a: State, b: Barrier, success: bool)
    ensures Opens(a, Passed(a, b, success))
  {
    hide Lose, Known;
    LoseOpens(a, a.(barriers := a.barriers - multiset{b}));
  }

  lemma RemoveOpens(a: State, typed: bool, mine: bool, user: string)
    ensures Opens(a, RemoveStarted(a, typed, mine, user))
  {
    hide Plausible, Lose;
    LoseOpens(a, a);
  }

  lemma StartedOpens(a: State, id: int, previous: string, next: string)
    ensures Opens(a, SwitchStarted(a, id, previous, next))
  {
    hide Lose;
    var f := Fence(a, Switching(id, previous, next));
    LoseOpens(f, f);
  }

  lemma SwitchOpens(a: State, started: bool, typed: bool, mine: bool, id: int, previous: string, next: string)
    ensures Opens(a, SwitchSignal(a, started, typed, mine, id, previous, next))
  {
    hide Plausible, Lose, SwitchStarted;
    LoseOpens(a, a);
    StartedOpens(a, id, previous, next);
  }

  lemma StepOpens(a: State, e: Event)
    ensures Opens(a, Step(a, e))
  {
    hide Lose, NameAppeared, Replied, Passed, SwitchSignal, RemoveStarted;
    LoseOpens(a, a);
    match e
    case Appeared(ready, owner) => AppearedOpens(a, ready, owner);
    case Vanished =>
    case Closed =>
    case Signalled(_, signal) =>
      match signal {
        case Removal(typed, mine, user) => RemoveOpens(a, typed, mine, user);
        case Switched(started, typed, mine, id, previous, next) =>
          SwitchOpens(a, started, typed, mine, id, previous, next);
      }
    case Answered(c, reply) => RepliedOpens(a, c, reply);
    case Finished(b, success) => PassedOpens(a, b, success);
    case TimedOut =>
    case Shutdown =>
  }

  /** The generation of a removal was opened by it, and what it took down is the user active then. */
  lemma {:induction false} RemovalBegunAt(bindings: seq<Binding>, run: seq<Event>, k: nat) returns (j: nat)
    requires k <= |run| && At(bindings, run, k).phase.Removing?
    ensures j < k && At(bindings, run, j).active == At(bindings, run, k).phase.active
    ensures At(bindings, run, j).generation < At(bindings, run, j + 1).generation
    ensures SameGeneration(bindings, run, j + 1, k, At(bindings, run, k).generation)
  {
    hide Step, SameGeneration;
    StartedIsLost(bindings, run);
    if k != 0 {
      AtStep(bindings, run, k - 1);
      StepOpens(At(bindings, run, k - 1), run[k - 1]);
      if At(bindings, run, k).generation == At(bindings, run, k - 1).generation {
        j := RemovalBegunAt(bindings, run, k - 1);
        SameOneMore(bindings, run, j + 1, k - 1);
      } else {
        j := k - 1;
        StaysInGeneration(bindings, run, k, k);
      }
    }
  }

  lemma StartedIsLost(bindings: seq<Binding>, run: seq<Event>)
    ensures At(bindings, run, 0).phase.Lost?
  {
    assert run[..0] == [];
  }

  lemma SameOneMore(bindings: seq<Binding>, run: seq<Event>, j: nat, k: nat)
    requires j <= k < |run| && At(bindings, run, k).generation == At(bindings, run, k + 1).generation
    requires SameGeneration(bindings, run, j, k, At(bindings, run, k).generation)
    ensures SameGeneration(bindings, run, j, k + 1, At(bindings, run, k + 1).generation)
  {
    hide After;
  }

  /** `SwitchUserDone` is sent only when the barrier of that very switch, begun with the switch and
      without a fence since, has just succeeded. */
  lemma SwitchDoneFollowsItsBarrier(bindings: seq<Binding>, run: seq<Event>, k: nat, c: Call) returns (j: nat)
    requires k < |run| && c.question.SwitchDone?
    requires At(bindings, run, k).calls[c] < At(bindings, run, k + 1).calls[c]
    ensures run[k] == Finished(Barrier(c.generation, Switch(c.question.id)), true)
    ensures j < k && At(bindings, run, j).generation < At(bindings, run, j + 1).generation
    ensures var s := At(bindings, run, j + 1); s.phase.Switching? && s.phase.id == c.question.id
    ensures SameGeneration(bindings, run, j + 1, k, c.generation)
  {
    hide After, SameGeneration;
    var a := At(bindings, run, k);
    AtStep(bindings, run, k);
    SentBy(a, run[k], c);
    j := BegunAt(bindings, run, k, run[k].barrier);
    StaysInGeneration(bindings, run, j + 1, k);
  }

  lemma SentBy(a: State, e: Event, c: Call)
    requires c.question.SwitchDone? && a.calls[c] < Step(a, e).calls[c]
    ensures e == Finished(Barrier(a.generation, Switch(c.question.id)), true) && e.barrier in a.barriers
            && c.generation == a.generation
  {
    hide Passed, NameAppeared, RemoveStarted, SwitchSignal, Replied, Lose;
    StepMoves(a, e);
    if e.Finished? { PassedCalls(a, e.barrier, e.success, c); }
  }
}
