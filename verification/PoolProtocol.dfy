/** The pool's threads as a state machine over its critical sections: workers, the sweeper and any
    number of Submit calls share the queue under one lock and one condition variable
    (internal/queue/queue.go). Every interleaving, every choice of thread a Signal wakes and every
    timing of the timers is a run. */
module PoolProtocol {
  import opened Seqs
  import opened Queue
  import opened Bytes

  datatype Thread = Worker(i: nat) | Submitter(t: Task) | Sweeper

  /** Where a thread stands: `Top` and `Loop` are the loops of pop and submitWaitLocked, about to
      take the lock; `Asleep` is inside Wait; `Handle`, `Expire` and `Refuse` are about to call the
      handler on the thread's own task. */
  datatype Place =
    | Top | Handle | Leaving                // a worker
    | Collect | Lock | Loop | Expire | Refuse // a Submit call
    | Idle                                  // the sweeper
    | Asleep | Done

  datatype Outcome = Evaluated(budget: int) | Expired | Shed

  datatype Where = Queued | Held(holder: Thread) | Answered

  /** Per thread: `at`, the expired tasks it took and has not replied to yet (`dead`), the task it
      works on (`own`), and whether its waiting timer has fired. `whereabouts`, `entered`, `popped`,
      `dropped` and `answers` record history; nothing reads them. */
  datatype State = State(
    now: int, q: seq<Task>, stopped: bool, closed: bool,
    at: map<Thread, Place>, dead: map<Thread, seq<Task>>, own: map<Thread, seq<Task>>, timedOut: set<Thread>,
    accepted: nat, shed: nat, expired: nat,
    whereabouts: map<Task, Where>, entered: seq<Task>, popped: seq<Task>, dropped: set<Task>,
    answers: seq<(Task, Outcome)>)

  function Begin(c: Config): State {
    var workers := set i | 0 <= i < c.workers :: Worker(i);
    var threads := workers + {Sweeper};
    State(0, [], false, false,
          map x | x in threads :: if x.Sweeper? then Idle else Top,
          map x | x in threads :: [], map x | x in threads :: [], {},
          0, 0, 0, map[], [], [], {}, [])
  }

  // ---- the pieces steps are made of ----

  function Woken(x: Thread, at: Place): Place {
    if at.Asleep? then if x.Worker? then Top else Loop else at
  }

  function AllWoken(at: map<Thread, Place>): map<Thread, Place> {
    map x | x in at :: Woken(x, at[x])
  }

  function Moved(whereabouts: map<Task, Where>, dead: seq<Task>, x: Thread): map<Task, Where> {
    map t | t in whereabouts :: if t in dead then Held(x) else whereabouts[t]
  }

  function Broadcast(s: State): State {
    s.(at := AllWoken(s.at))
  }

  function Go(s: State, x: Thread, at: Place): State {
    s.(at := s.at[x := at])
  }

  /** takeExpiredLocked: the dead go into the thread's hands; a removal wakes everyone. */
  function Take(c: Config, s: State, x: Thread): State {
    var dead := Dead(c, s.q, s.now);
    if dead == [] then s
    else
      s.(q := Kept(c, s.q, s.now), at := AllWoken(s.at), dead := s.dead[x := dead],
         whereabouts := Moved(s.whereabouts, dead, x), dropped := s.dropped + set t | t in dead)
  }

  /** Which thread a Signal wakes: some sleeper if there is one, else nobody. */
  predicate SignalChoice(s: State, who: Option<Thread>) {
    match who
    case Some(x) => x in s.at && s.at[x].Asleep?
    case None => forall x <- s.at :: !s.at[x].Asleep?
  }

  function Signalled(at: map<Thread, Place>, who: Option<Thread>): map<Thread, Place> {
    if who.Some? && who.value in at then at[who.value := Woken(who.value, at[who.value])] else at
  }

  /** enqueueLocked by the Submit call of task t, which is then over. */
  function Enqueue(s: State, t: Task, who: Option<Thread>): State {
    var x := Submitter(t);
    s.(q := s.q + [t], accepted := s.accepted + 1, entered := s.entered + [t],
       whereabouts := s.whereabouts[t := Queued], own := s.own[x := []],
       at := Signalled(s.at, who)[x := Done])
  }

  /** The handler called on one task, with the counters it moves. */
  function Answer(s: State, t: Task, how: Outcome): State {
    s.(answers := s.answers + [(t, how)], whereabouts := s.whereabouts[t := Answered],
       expired := s.expired + if how == Expired then 1 else 0,
       shed := s.shed + if how == Shed then 1 else 0)
  }

  /** The part of submitWaitLocked under the lock: one turn of its loop, or what follows it. */
  function WaitTurn(c: Config, s: State, t: Task, who: Option<Thread>): State {
    var x := Submitter(t);
    if |s.q| >= c.depth && x !in s.timedOut && !s.closed then
      if Dead(c, s.q, s.now) != [] then Go(Take(c, s, x), x, Loop) else Go(s, x, Asleep)
    else if s.closed then Go(s, x, Expire)
    else if |s.q| < c.depth then Enqueue(s, t, who)
    else Go(s, x, Expire)
  }

  /** Removing the head of a nonempty queue: the worker has it, and everyone is woken. */
  function PopHead(s: State, x: Thread): State
    requires s.q != []
  {
    var t := s.q[0];
    s.(q := s.q[1..], popped := s.popped + [t], whereabouts := s.whereabouts[t := Held(x)],
       own := s.own[x := [t]], at := AllWoken(s.at)[x := Handle])
  }

  /** A Submit call begins, with its task in hand. */
  function Arrive(c: Config, s: State, t: Task): State {
    var x := Submitter(t);
    s.(whereabouts := s.whereabouts[t := Held(x)], dead := s.dead[x := []], own := s.own[x := [t]],
       at := s.at[x := if Late(c, t, s.now) then Expire else Collect])
  }

  function ReplyDead(s: State, x: Thread): State
    requires x in s.dead && s.dead[x] != []
  {
    Answer(s, s.dead[x][0], Expired).(dead := s.dead[x := s.dead[x][1..]])
  }

  /** What the handler is told about the thread's own task. */
  function Verdict(c: Config, s: State, x: Thread): Outcome
    requires x in s.at && x in s.own && s.own[x] != []
  {
    var t := s.own[x][0];
    if s.at[x].Refuse? then Shed
    else if s.at[x].Expire? || Late(c, t, s.now) then Expired
    else Evaluated(Left(c, t, s.now))
  }

  function FinishOwn(c: Config, s: State, x: Thread): State
    requires x in s.at && x in s.own && s.own[x] != []
  {
    Answer(s, s.own[x][0], Verdict(c, s, x)).(
      own := s.own[x := []], at := s.at[x := if s.at[x].Handle? then Top else Done])
  }

  // ---- the steps ----

  datatype Step =
    | Advance(d: nat)                             // the clock
    | Submit(t: Task)                             // a call arrives
    | Sweep(x: Thread)                            // a critical section that only collects the expired
    | Reply(x: Thread)                            // the handler on one dead task
    | Admit(t: Task, who: Option<Thread>)         // Submit's main critical section
    | Turn(t: Task, who: Option<Thread>)          // a turn of the waiting loop
    | Timer(t: Task)                              // the waiting timer fires, at whatever time
    | Finish(x: Thread)                           // the handler on the thread's own task
    | Pop(i: nat)                                 // a turn of pop
    | Leave(x: Thread)                            // a worker or the sweeper returns
    | Stop | Close                                // the two parts of Close before it waits

  /** The thread stands there with no dead task left to reply to. */
  predicate Free(s: State, x: Thread, at: Place) {
    x in s.at && s.at[x] == at && x in s.dead && s.dead[x] == [] && x in s.own
  }

  predicate Enabled(c: Config, s: State, a: Step) {
    match a
    case Advance(_) => true
    case Submit(t) => t.enqueued == s.now && t !in s.whereabouts
    case Sweep(x) => Free(s, x, Collect) || Free(s, x, Idle)
    case Reply(x) => x in s.dead && s.dead[x] != []
    case Admit(t, who) => Free(s, Submitter(t), Lock) && SignalChoice(s, who)
    case Turn(t, who) => Free(s, Submitter(t), Loop) && SignalChoice(s, who)
    case Timer(t) => Submitter(t) in s.at
    case Finish(x) => (Free(s, x, Handle) || Free(s, x, Expire) || Free(s, x, Refuse)) && s.own[x] != []
    case Pop(i) => Free(s, Worker(i), Top)
    case Leave(x) => Free(s, x, Leaving) || (Free(s, x, Idle) && s.stopped)
    case Stop => true
    case Close => s.stopped
  }

  function Next(c: Config, s: State, a: Step): State
    requires Enabled(c, s, a)
  {
    match a
    case Advance(d) => s.(now := s.now + d)
    case Submit(t) => Arrive(c, s, t)
    case Sweep(x) => Go(Take(c, s, x), x, if s.at[x].Collect? then Lock else Idle)
    case Reply(x) => ReplyDead(s, x)
    case Admit(t, who) =>
      var x := Submitter(t);
      if s.closed then Go(s, x, Expire)
      else if |s.q| < c.depth then Enqueue(s, t, who)
      else if !c.waitWhenFull then Go(s, x, Refuse)
      else if Late(c, t, s.now) then Go(s, x, Expire)
      else WaitTurn(c, s, t, who)
    case Turn(t, who) => WaitTurn(c, s, t, who)
    case Timer(t) => s.(timedOut := s.timedOut + {Submitter(t)}, at := AllWoken(s.at))
    case Finish(x) => FinishOwn(c, s, x)
    case Pop(i) =>
      var x := Worker(i);
      var taken := Take(c, s, x);
      if taken.q != [] then PopHead(taken, x)
      else if s.closed then Go(taken, x, Leaving)
      else if Dead(c, s.q, s.now) != [] then taken
      else Go(taken, x, Asleep)
    case Leave(x) => Go(s, x, Done)
    case Stop => s.(stopped := true)
    case Close => s.(closed := true, at := AllWoken(s.at))
  }

  /** The state after a run, if every step was enabled when taken. */
  function After(c: Config, run: seq<Step>): Option<State> {
    if run == [] then Some(Begin(c))
    else
      match After(c, run[..|run| - 1])
      case None => None
      case Some(s) => if Enabled(c, s, run[|run| - 1]) then Some(Next(c, s, run[|run| - 1])) else None
  }

  // ---- the steps that take the lock do what the pool's methods do ----

  lemma PopFollowsPool(c: Config, s: State, i: nat)
    requires Enabled(c, s, Pop(i))
    ensures var r, x, out := Next(c, s, Pop(i)), Worker(i), PopOutcome(c, s.q, s.closed, s.now);
            && r.q == (if out.Took? then Kept(c, s.q, s.now)[1..] else Kept(c, s.q, s.now))
            && r.dead[x] == Dead(c, s.q, s.now)
            && (out.Took? ==> r.own[x] == [out.t])
            && r.at[x] == match out case Took(_) => Handle case Quit => Leaving case Again => Top case Sleep => Asleep
  {
    KeptAndDead(c, s.q, s.now);
    hide Kept, Dead;
  }

  /** A critical section that only collects the expired: the sweeper's, and the one each Submit begins with. */
  lemma SweepFollowsPool(c: Config, s: State, x: Thread)
    requires Enabled(c, s, Sweep(x))
    ensures var r := Next(c, s, Sweep(x));
            && r.q == Kept(c, s.q, s.now) && r.dead[x] == Dead(c, s.q, s.now) && r.own == s.own
            && r.at[x] == if s.at[x].Collect? then Lock else Idle
  {
    KeptAndDead(c, s.q, s.now);
    hide Kept, Dead;
  }

  lemma WaitFollowsPool(c: Config, s: State, t: Task, who: Option<Thread>)
    requires Free(s, Submitter(t), Lock) || Free(s, Submitter(t), Loop)
    ensures var r, x := WaitTurn(c, s, t, who), Submitter(t);
            match WaitOutcome(c, s.q, s.closed, x in s.timedOut, s.now)
            case Entered => r == Enqueue(s, t, who) && r.q == s.q + [t] && r.at[x].Done?
            case Around => r.q == Kept(c, s.q, s.now) && r.dead[x] == Dead(c, s.q, s.now) && r.at[x].Loop?
            case Rests => r == Go(s, x, Asleep)
            case GivesUp => r == Go(s, x, Expire)
  {
    hide Kept, Dead;
  }

  lemma AdmitFollowsPool(c: Config, s: State, t: Task, who: Option<Thread>)
    requires Enabled(c, s, Admit(t, who))
    ensures var r, x := Next(c, s, Admit(t, who)), Submitter(t);
            match AdmitOutcome(c, s.q, s.closed, t, s.now)
            case Enqueued => r == Enqueue(s, t, who) && r.q == s.q + [t] && r.at[x].Done?
            case Expires => r == Go(s, x, Expire)
            case Sheds => r == Go(s, x, Refuse)
            case Waits => r == WaitTurn(c, s, t, who)
  {
    hide Kept, Dead, WaitTurn;
  }

  /** Every step that changes the queue is one of the pool's methods at the same queue, clock and flags;
      all other steps leave the queue alone. */
  lemma StepsFollowPool(c: Config, s: State, a: Step)
    requires Enabled(c, s, a)
    ensures Next(c, s, a).q ==
            match a
            case Pop(_) =>
              var kept := Kept(c, s.q, s.now);
              if PopOutcome(c, s.q, s.closed, s.now).Took? then kept[1..] else kept
            case Sweep(_) => Kept(c, s.q, s.now)
            case Admit(t, _) =>
              (match AdmitOutcome(c, s.q, s.closed, t, s.now)
               case Enqueued => s.q + [t]
               case Waits => AfterWait(c, s, t)
               case _ => s.q)
            case Turn(t, _) => AfterWait(c, s, t)
            case _ => s.q
  {
    hide Kept, Dead, PopOutcome, AdmitOutcome, WaitOutcome, WaitTurn, Take, Enqueue, PopHead, FinishOwn, ReplyDead,
      Verdict;
    match a {
      case Pop(i) => PopFollowsPool(c, s, i);
      case Sweep(x) => SweepFollowsPool(c, s, x);
      case Admit(t, who) =>
        AdmitFollowsPool(c, s, t, who);
        WaitFollowsPool(c, s, t, who);
      case Turn(t, who) => WaitFollowsPool(c, s, t, who);
      case Finish(x) => AnswerLeavesQueue(c, s, x);
      case Reply(x) => AnswerLeavesQueue(c, s, x);
      case _ =>
    }
  }

  /** What a turn of the waiting loop leaves of the queue. */
  function AfterWait(c: Config, s: State, t: Task): seq<Task> {
    match WaitOutcome(c, s.q, s.closed, Submitter(t) in s.timedOut, s.now)
    case Entered => s.q + [t]
    case Around => Kept(c, s.q, s.now)
    case _ => s.q
  }

  lemma AnswerLeavesQueue(c: Config, s: State, x: Thread)
    ensures x in s.at && x in s.own && s.own[x] != [] ==> FinishOwn(c, s, x).q == s.q
    ensures x in s.dead && s.dead[x] != [] ==> ReplyDead(s, x).q == s.q
  {
    hide Verdict;
  }

  // ---- what every reachable state satisfies ----

  predicate PlaceFits(x: Thread, at: Place) {
    match x
    case Worker(_) => at.Top? || at.Handle? || at.Leaving? || at.Asleep? || at.Done?
    case Submitter(_) => at.Collect? || at.Lock? || at.Loop? || at.Expire? || at.Refuse? || at.Asleep? || at.Done?
    case Sweeper => at.Idle? || at.Done?
  }

  /** A thread's hands fit its place; in particular nobody sleeps, or is done, holding a dead task. */
  ghost predicate HandsFit(x: Thread, at: Place, dead: seq<Task>, own: seq<Task>) {
    && PlaceFits(x, at)
    && (at.Asleep? || at.Done? ==> dead == [])
    && (match x
        case Worker(_) => |own| == if at.Handle? then 1 else 0
        case Submitter(t) => own == if at.Done? then [] else [t]
        case Sweeper => own == [])
  }

  ghost predicate Shape(c: Config, s: State) {
    && s.at.Keys == s.dead.Keys == s.own.Keys
    && Sweeper in s.at
    && (forall i: nat :: Worker(i) in s.at <==> i < c.workers)
    && (forall t :: Submitter(t) in s.at <==> t in s.whereabouts)
    && (forall x <- s.at :: HandsFit(x, s.at[x], s.dead[x], s.own[x]))
  }

  /** The thread has the task in its hands. */
  predicate Holds(s: State, x: Thread, t: Task) {
    (x in s.dead && t in s.dead[x]) || (x in s.own && t in s.own[x])
  }

  /** Every submitted task is in one place: queued, in one thread's hands, or answered. */
  ghost predicate OnePlace(s: State) {
    && NoRepeat(s.q)
    && (forall x <- s.dead :: NoRepeat(s.dead[x]))
    && (forall x <- s.dead, t <- s.dead[x] :: x in s.own ==> t !in s.own[x])
    && (forall t :: t in s.q <==> t in s.whereabouts && s.whereabouts[t] == Queued)
    && (forall x, t :: Holds(s, x, t) <==> t in s.whereabouts && s.whereabouts[t] == Held(x))
    && NoRepeat(Tasks(s.answers))
    && (forall t :: t in Tasks(s.answers) <==> t in s.whereabouts && s.whereabouts[t] == Answered)
  }

  function Tasks(answers: seq<(Task, Outcome)>): (r: seq<Task>) {
    if answers == [] then [] else Tasks(answers[..|answers| - 1]) + [answers[|answers| - 1].0]
  }

  predicate Quitting(at: Place) {
    at.Leaving? || at.Done?
  }

  /** A worker that is neither asleep nor on its way out. */
  predicate Active(s: State, i: nat) {
    Worker(i) in s.at && !s.at[Worker(i)].Asleep? && !Quitting(s.at[Worker(i)])
  }

  /** No wake-up is lost. */
  ghost predicate Awake(c: Config, s: State) {
    && |s.q| <= c.depth
    && (forall x <- s.at | s.at[x].Asleep? :: !s.closed)
    && (forall x <- s.at | s.at[x].Asleep? && x.Submitter? :: |s.q| == c.depth && x !in s.timedOut)
    && (s.q != [] ==> exists i :: Active(s, i))
    && (forall x <- s.at | x.Worker? && Quitting(s.at[x]) :: s.closed && s.q == [])
    && (s.closed ==> s.stopped)
    && (Sweeper in s.at && s.at[Sweeper].Done? ==> s.stopped)
  }

  /** How many answers were of a kind. */
  function Counted(answers: seq<(Task, Outcome)>, how: Outcome): nat {
    if answers == [] then 0
    else Counted(answers[..|answers| - 1], how) + if answers[|answers| - 1].1 == how then 1 else 0
  }

  ghost predicate Counters(s: State) {
    s.accepted == |s.entered| && s.expired == Counted(s.answers, Expired) && s.shed == Counted(s.answers, Shed)
  }

  function Outside(dropped: set<Task>): Task -> bool {
    t => t !in dropped
  }

  /** What was popped, followed by the queue, is the order of arrival less the dropped. */
  ghost predicate InOrder(s: State) {
    && NoRepeat(s.entered)
    && (forall t <- s.entered :: Submitter(t) in s.at && s.at[Submitter(t)].Done?)
    && (forall t <- s.dropped :: t in s.entered)
    && s.popped + s.q == Filter(s.entered, Outside(s.dropped))
  }

  /** A task evaluated for real had its budget, and a dropped one has run out of time. */
  ghost predicate Budgeted(c: Config, s: State) {
    && (forall a <- s.answers | a.1.Evaluated? :: c.minBudget <= a.1.budget <= a.0.deadline - c.reserve)
    && (forall t <- s.whereabouts :: t.enqueued <= s.now)
    && (forall t <- s.dropped :: Late(c, t, s.now))
  }

  /** Why a task may be told that its time is up. */
  predicate Overdue(c: Config, s: State, t: Task) {
    t.deadline - (s.now - t.enqueued) - c.reserve < c.minBudget || s.closed || Submitter(t) in s.timedOut
  }

  /** Nobody is told that time is up, or that there is no room, without reason; and whoever was evaluated
      had at least the budget it would have now. */
  ghost predicate Explained(c: Config, s: State) {
    && (forall a <- s.answers | a.1.Expired? :: Overdue(c, s, a.0))
    && (forall a <- s.answers | a.1.Shed? :: !c.waitWhenFull)
    && (forall a <- s.answers | a.1.Evaluated? :: a.1.budget >= a.0.deadline - (s.now - a.0.enqueued) - c.reserve)
    && (forall x <- s.dead, t <- s.dead[x] :: Overdue(c, s, t))
    && (forall t :: Submitter(t) in s.at && s.at[Submitter(t)].Expire? ==> Overdue(c, s, t))
    && (forall t :: Submitter(t) in s.at && s.at[Submitter(t)].Refuse? ==> !c.waitWhenFull)
  }

  ghost predicate Inv(c: Config, s: State) {
    Shape(c, s) && OnePlace(s) && Awake(c, s) && Counters(s) && InOrder(s) && Budgeted(c, s)
  }

  // ---- each piece keeps the invariant ----

  /** Where threads stand does not enter these. */
  lemma SameHands(c: Config, s: State, r: State)
    requires OnePlace(s) && Counters(s) && Budgeted(c, s)
    requires s.(at := r.at, timedOut := r.timedOut, stopped := r.stopped, closed := r.closed) == r
    ensures OnePlace(r) && Counters(r) && Budgeted(c, r)
  {
    hide NoRepeat, Tasks, Counted;
    forall x, t
      ensures Holds(r, x, t) <==> t in r.whereabouts && r.whereabouts[t] == Held(x)
    {
      assert Holds(r, x, t) == Holds(s, x, t);
    }
  }

  lemma WokenShape(c: Config, s: State)
    requires Shape(c, s)
    ensures Shape(c, Broadcast(s)) && Broadcast(s).at.Keys == s.at.Keys
    ensures forall x <- s.at :: !Broadcast(s).at[x].Asleep?
  {
    var r := Broadcast(s);
    assert r.at.Keys == s.at.Keys;
    forall x <- r.at ensures HandsFit(x, r.at[x], r.dead[x], r.own[x]) {
      assert HandsFit(x, s.at[x], s.dead[x], s.own[x]);
    }
  }

  lemma WokenActive(s: State, r: State)
    requires r.at == AllWoken(s.at) && exists i :: Active(s, i)
    ensures exists i :: Active(r, i)
  {
    var i :| Active(s, i);
    assert Active(r, i);
  }

  lemma BroadcastAwake(c: Config, s: State, timedOut: set<Thread>, closed: bool)
    requires Awake(c, s) && (s.closed ==> closed) && (closed ==> s.stopped)
    ensures Awake(c, s.(timedOut := timedOut, closed := closed, at := AllWoken(s.at)))
  {
    var r := s.(timedOut := timedOut, closed := closed, at := AllWoken(s.at));
    assert forall x <- r.at :: !r.at[x].Asleep?;
    if s.q != [] {
      WokenActive(s, r);
    }
  }

  /** Waking everyone is harmless at any time, also when a timer fires or the pool closes. */
  lemma BroadcastKeeps(c: Config, s: State, timedOut: set<Thread>, closed: bool)
    requires Inv(c, s) && (s.closed ==> closed) && (closed ==> s.stopped)
    ensures Inv(c, s.(timedOut := timedOut, closed := closed, at := AllWoken(s.at)))
  {
    hide NoRepeat, Filter, Outside, HandsFit, OnePlace, Counters, Budgeted, Awake;
    var r := s.(timedOut := timedOut, closed := closed, at := AllWoken(s.at));
    SameHands(c, s, r);
    WokenShape(c, s);
    BroadcastAwake(c, s, timedOut, closed);
    assert Shape(c, r);
  }

  lemma PlaceOf(c: Config, s: State, x: Thread)
    requires Shape(c, s) && x in s.at
    ensures PlaceFits(x, s.at[x])
  {
    assert HandsFit(x, s.at[x], s.dead[x], s.own[x]);
  }

  lemma GoShape(c: Config, s: State, x: Thread, at: Place)
    requires Shape(c, s) && x in s.at && HandsFit(x, at, s.dead[x], s.own[x])
    ensures Shape(c, Go(s, x, at)) && Go(s, x, at).at.Keys == s.at.Keys
  {
    hide HandsFit;
    assert Go(s, x, at).at.Keys == s.at.Keys;
  }

  /** A thread moves on with its hands as they were. */
  lemma GoKeeps(c: Config, s: State, x: Thread, at: Place)
    requires Inv(c, s) && x in s.at && HandsFit(x, at, s.dead[x], s.own[x])
    requires at.Asleep? ==> !s.closed && (x.Submitter? ==> |s.q| == c.depth && x !in s.timedOut)
    requires x.Worker? && at.Asleep? ==> s.q == []
    requires x.Worker? && Quitting(at) ==> s.closed && s.q == []
    requires x.Sweeper? && at.Done? ==> s.stopped
    requires s.at[x].Done? ==> at.Done?
    ensures Inv(c, Go(s, x, at)) && Go(s, x, at).at.Keys == s.at.Keys
  {
    hide NoRepeat, Filter, Outside, HandsFit, Shape, OnePlace, Counters, Budgeted;
    var r := Go(s, x, at);
    GoShape(c, s, x, at);
    SameHands(c, s, r);
    if s.q != [] {
      var i :| Active(s, i);
      assert Active(r, i);
    }
  }

  lemma TakePlaces(c: Config, s: State, x: Thread)
    requires OnePlace(s) && x in s.dead && s.dead[x] == [] && x in s.own
    ensures OnePlace(Take(c, s, x))
  {
    hide NoRepeat, Tasks;
    var r, dead := Take(c, s, x), Dead(c, s.q, s.now);
    KeptAndDead(c, s.q, s.now);
    if dead != [] {
      hide Kept, Dead;
      assert r.whereabouts.Keys == s.whereabouts.Keys;
      forall y, t
        ensures Holds(r, y, t) <==> t in r.whereabouts && r.whereabouts[t] == Held(y)
      {
        assert Holds(s, y, t) <==> t in s.whereabouts && s.whereabouts[t] == Held(y);
        assert Holds(r, y, t) <==> Holds(s, y, t) || (y == x && t in dead);
      }
      forall t <- dead ensures t !in s.own[x] {
        assert !Holds(s, x, t);
      }
    }
  }

  lemma TakeShape(c: Config, s: State, x: Thread)
    requires Shape(c, s) && x in s.at && s.dead[x] == [] && !s.at[x].Asleep? && !s.at[x].Done?
    ensures Shape(c, Take(c, s, x))
    ensures var r := Take(c, s, x); r.at.Keys == s.at.Keys && r.at[x] == s.at[x]
  {
    hide Dead, Kept, HandsFit;
    var r, dead := Take(c, s, x), Dead(c, s.q, s.now);
    if dead != [] {
      WokenShape(c, s);
      assert r.whereabouts.Keys == s.whereabouts.Keys;
      HandsTake(x, s.at[x], dead, s.own[x]);
    }
  }

  /** A thread that is up and about may have any dead tasks in its hands. */
  lemma HandsTake(x: Thread, at: Place, dead: seq<Task>, own: seq<Task>)
    requires HandsFit(x, at, [], own) && !at.Asleep? && !at.Done?
    ensures HandsFit(x, at, dead, own)
  {
  }

  lemma TakeAwake(c: Config, s: State, x: Thread)
    requires Shape(c, s) && Awake(c, s)
    ensures Awake(c, Take(c, s, x))
  {
    hide HandsFit;
    var r := Take(c, s, x);
    if Dead(c, s.q, s.now) != [] {
      WokenShape(c, s);
      if s.q != [] {
        WokenActive(s, r);
      }
      hide Dead, Kept;
      assert |r.q| <= |s.q| by { KeptShorter(c, s.q, s.now); }
    }
  }

  lemma PoppedOnce(s: State)
    requires InOrder(s)
    ensures NoRepeat(s.popped + s.q) && forall t <- s.popped :: t !in s.q
  {
    FilterNoRepeat(s.entered, Outside(s.dropped));
    var all := s.popped + s.q;
    forall t <- s.popped ensures t !in s.q {
      var i :| 0 <= i < |s.popped| && s.popped[i] == t;
      assert all[i] == t;
      assert forall j | 0 <= j < |s.q| :: all[|s.popped| + j] == s.q[j];
    }
  }

  lemma QueueEntered(s: State)
    requires InOrder(s)
    ensures forall t <- s.popped + s.q :: t in s.entered && t !in s.dropped
  {
    FilterMembers(s.entered, Outside(s.dropped));
  }

  /** Dropping some of the queue drops them from the order of arrival. */
  lemma DropOrder(entered: seq<Task>, popped: seq<Task>, q: seq<Task>, dropped: set<Task>, gone: set<Task>)
    requires popped + q == Filter(entered, Outside(dropped)) && forall t <- popped :: t !in gone
    ensures popped + Filter(q, Outside(gone)) == Filter(entered, Outside(dropped + gone))
  {
    hide Filter;
    var f, g := Outside(dropped), Outside(gone);
    FilterTwice(entered, f, g);
    FilterSame(entered, Both(f, g), Outside(dropped + gone));
    FilterConcat(popped, q, g);
    FilterAll(popped, g);
  }

  lemma TakeOrder(c: Config, s: State, x: Thread)
    requires InOrder(s)
    ensures InOrder(Take(c, s, x))
  {
    hide NoRepeat, Filter, Kept, Dead;
    var r, dead := Take(c, s, x), Dead(c, s.q, s.now);
    if dead != [] {
      KeptAndDead(c, s.q, s.now);
      PoppedOnce(s);
      var gone := set t | t in dead;
      QueueEntered(s);
      DropOrder(s.entered, s.popped, s.q, s.dropped, gone);
      KeptByName(c, s.q, s.now, gone);
    }
  }

  lemma KeptByName(c: Config, q: seq<Task>, now: int, gone: set<Task>)
    requires forall t <- q :: t in gone <==> Late(c, t, now)
    ensures Filter(q, Outside(gone)) == Kept(c, q, now)
  {
    FilterSame(q, Outside(gone), InTimeAt(c, now));
  }

  /** A thread that collects the expired, wherever it does it. */
  lemma TakeKeeps(c: Config, s: State, x: Thread)
    requires Inv(c, s) && x in s.at && s.dead[x] == []
    requires !s.at[x].Asleep? && !s.at[x].Done?
    ensures Inv(c, Take(c, s, x))
    ensures var r := Take(c, s, x); r.at.Keys == s.at.Keys && r.at[x] == s.at[x]
  {
    hide NoRepeat, Filter, Outside, HandsFit, OnePlace, Awake, InOrder, Kept, Dead;
    KeptAndDead(c, s.q, s.now);
    TakePlaces(c, s, x);
    TakeShape(c, s, x);
    TakeAwake(c, s, x);
    TakeOrder(c, s, x);
    assert Take(c, s, x).whereabouts.Keys == s.whereabouts.Keys;
  }

  lemma ClockKeeps(c: Config, s: State, d: nat)
    requires Inv(c, s)
    ensures Inv(c, s.(now := s.now + d))
  {
    hide NoRepeat, Filter, Outside, HandsFit;
    var r := s.(now := s.now + d);
    assert OnePlace(r) by { PlacesDependOn(s, r); }
    if i :| Active(s, i) {
      assert Active(r, i);
    }
  }

  /** What the placement of tasks depends on. */
  lemma PlacesDependOn(s: State, r: State)
    requires OnePlace(s) && r.q == s.q && r.dead == s.dead && r.own == s.own
    requires r.whereabouts == s.whereabouts && r.answers == s.answers
    ensures OnePlace(r)
  {
    hide NoRepeat, Tasks;
    forall x, t
      ensures Holds(r, x, t) <==> t in r.whereabouts && r.whereabouts[t] == Held(x)
    {
      assert Holds(r, x, t) == Holds(s, x, t);
    }
  }

  // ---- a call arrives ----

  lemma ArriveShape(c: Config, s: State, t: Task)
    requires Shape(c, s) && t !in s.whereabouts
    ensures Shape(c, Arrive(c, s, t)) && Submitter(t) !in s.at && s.at.Keys == s.dead.Keys == s.own.Keys
  {
    var r, x := Arrive(c, s, t), Submitter(t);
    assert x !in s.at;
    assert r.at.Keys == s.at.Keys + {x} && r.dead.Keys == s.dead.Keys + {x} && r.own.Keys == s.own.Keys + {x};
    forall y <- r.at ensures HandsFit(y, r.at[y], r.dead[y], r.own[y]) {
      assert y != x ==> HandsFit(y, s.at[y], s.dead[y], s.own[y]);
    }
  }

  lemma ArriveAwake(c: Config, s: State, t: Task)
    requires Awake(c, s) && Submitter(t) !in s.at
    ensures Awake(c, Arrive(c, s, t))
  {
    var r := Arrive(c, s, t);
    assert r.at.Keys == s.at.Keys + {Submitter(t)};
    if i :| Active(s, i) {
      assert Active(r, i);
    }
  }

  lemma ArriveRest(c: Config, s: State, t: Task)
    requires Counters(s) && InOrder(s) && Budgeted(c, s) && Submitter(t) !in s.at && t.enqueued == s.now
    ensures var r := Arrive(c, s, t); Counters(r) && InOrder(r) && Budgeted(c, r)
  {
    hide NoRepeat, Filter, Outside, Counted;
  }

  lemma ArriveKeeps(c: Config, s: State, t: Task)
    requires Inv(c, s) && t !in s.whereabouts && t.enqueued == s.now
    ensures Inv(c, Arrive(c, s, t))
  {
    hide Shape, OnePlace, Awake, Counters, InOrder, Budgeted, Arrive;
    ArriveShape(c, s, t);
    ArrivePlaces(c, s, t);
    ArriveAwake(c, s, t);
    ArriveRest(c, s, t);
  }

  lemma ArrivePlaces(c: Config, s: State, t: Task)
    requires OnePlace(s) && t !in s.whereabouts && Submitter(t) !in s.dead && Submitter(t) !in s.own
    ensures OnePlace(Arrive(c, s, t))
  {
    hide Tasks;
    var r, x := Arrive(c, s, t), Submitter(t);
    forall y, u
      ensures Holds(r, y, u) <==> u in r.whereabouts && r.whereabouts[u] == Held(y)
    {
      assert Holds(s, y, u) <==> u in s.whereabouts && s.whereabouts[u] == Held(y);
      assert Holds(r, y, u) <==> Holds(s, y, u) || (y == x && u == t);
    }
  }

  // ---- a task is answered ----

  lemma TasksAppend(answers: seq<(Task, Outcome)>, t: Task, how: Outcome)
    ensures Tasks(answers + [(t, how)]) == Tasks(answers) + [t]
  {
    assert (answers + [(t, how)])[..|answers|] == answers;
  }

  lemma AnswerCounts(s: State, t: Task, how: Outcome)
    requires Counters(s)
    ensures Counters(Answer(s, t, how))
  {
    assert (s.answers + [(t, how)])[..|s.answers|] == s.answers;
  }

  /** One task leaves a thread's hands for good; the rest of its hands stay. */
  lemma AnswerPlaces(s: State, r: State, x: Thread, t: Task, how: Outcome)
    requires OnePlace(s) && Holds(s, x, t) && x in s.dead && x in s.own && x in r.dead && x in r.own
    requires r.q == s.q && r.answers == s.answers + [(t, how)] && r.whereabouts == s.whereabouts[t := Answered]
    requires r.dead == s.dead[x := r.dead[x]] && r.own == s.own[x := r.own[x]]
    requires forall u :: Holds(r, x, u) <==> Holds(s, x, u) && u != t
    requires NoRepeat(r.dead[x]) && forall u <- r.dead[x] :: u !in r.own[x]
    ensures OnePlace(r)
  {
    TasksAppend(s.answers, t, how);
    hide Tasks;
    forall y, u
      ensures Holds(r, y, u) <==> u in r.whereabouts && r.whereabouts[u] == Held(y)
    {
      assert Holds(s, y, u) <==> u in s.whereabouts && s.whereabouts[u] == Held(y);
      assert y != x ==> Holds(r, y, u) == Holds(s, y, u);
      assert Holds(s, x, t) <==> t in s.whereabouts && s.whereabouts[t] == Held(x);
    }
  }

  lemma ReplyPlaces(s: State, x: Thread)
    requires OnePlace(s) && x in s.dead && s.dead[x] != [] && x in s.own
    ensures OnePlace(ReplyDead(s, x))
  {
    hide Tasks;
    var r, dead := ReplyDead(s, x), s.dead[x];
    var t := dead[0];
    assert dead == [t] + dead[1..];
    assert Holds(s, x, t);
    assert forall u <- dead :: u !in s.own[x];
    AnswerPlaces(s, r, x, t, Expired);
  }

  lemma ReplyShape(c: Config, s: State, x: Thread)
    requires Shape(c, s) && x in s.dead && s.dead[x] != [] && s.dead[x][0] in s.whereabouts
    ensures Shape(c, ReplyDead(s, x))
  {
    var r := ReplyDead(s, x);
    assert r.dead.Keys == s.dead.Keys && r.whereabouts.Keys == s.whereabouts.Keys;
    forall y <- r.at ensures HandsFit(y, r.at[y], r.dead[y], r.own[y]) {
      assert HandsFit(y, s.at[y], s.dead[y], s.own[y]);
    }
  }

  lemma ReplyRest(c: Config, s: State, x: Thread)
    requires Awake(c, s) && Counters(s) && InOrder(s)
    requires x in s.dead && s.dead[x] != []
    ensures var r := ReplyDead(s, x); Awake(c, r) && Counters(r) && InOrder(r)
  {
    hide NoRepeat, Filter, Outside, Counted;
    AnswerCounts(s, s.dead[x][0], Expired);
    if i :| Active(s, i) {
      assert Active(ReplyDead(s, x), i);
    }
  }

  lemma ReplyBudgeted(c: Config, s: State, x: Thread)
    requires Budgeted(c, s) && x in s.dead && s.dead[x] != [] && s.dead[x][0] in s.whereabouts
    ensures Budgeted(c, ReplyDead(s, x))
  {
  }

  lemma ReplyKeeps(c: Config, s: State, x: Thread)
    requires Inv(c, s) && x in s.dead && s.dead[x] != [] && x in s.own
    ensures Inv(c, ReplyDead(s, x))
  {
    hide Shape, OnePlace, Awake, Counters, InOrder, Budgeted, ReplyDead;
    DeadKnown(s, x);
    assert s.dead[x][0] in s.dead[x];
    ReplyShape(c, s, x);
    ReplyPlaces(s, x);
    ReplyRest(c, s, x);
    ReplyBudgeted(c, s, x);
  }

  lemma DeadKnown(s: State, x: Thread)
    requires OnePlace(s)
    ensures forall t :: Holds(s, x, t) ==> t in s.whereabouts
    ensures x in s.dead ==> forall t <- s.dead[x] :: t in s.whereabouts
  {
    assert forall t :: Holds(s, x, t) ==> t in s.whereabouts;
    assert x in s.dead ==> forall t <- s.dead[x] :: Holds(s, x, t);
  }

  lemma FinishShape(c: Config, s: State, x: Thread, t: Task)
    requires Shape(c, s) && x in s.at && s.own[x] == [t] && s.dead[x] == [] && t in s.whereabouts
    requires s.at[x].Handle? || s.at[x].Expire? || s.at[x].Refuse?
    ensures Shape(c, FinishOwn(c, s, x))
  {
    var r := FinishOwn(c, s, x);
    assert r.own.Keys == s.own.Keys && r.at.Keys == s.at.Keys && r.whereabouts.Keys == s.whereabouts.Keys;
    forall y <- r.at ensures HandsFit(y, r.at[y], r.dead[y], r.own[y]) {
      assert HandsFit(y, s.at[y], s.dead[y], s.own[y]);
    }
  }

  lemma FinishAwake(c: Config, s: State, x: Thread)
    requires Shape(c, s) && Awake(c, s) && x in s.at && x in s.own && s.own[x] != []
    requires s.at[x].Handle? || s.at[x].Expire? || s.at[x].Refuse?
    ensures Awake(c, FinishOwn(c, s, x))
  {
    hide Shape, Verdict;
    PlaceOf(c, s, x);
    var r := FinishOwn(c, s, x);
    assert r.at.Keys == s.at.Keys;
    if i :| Active(s, i) {
      assert Active(r, i);
    }
  }

  lemma FinishRest(c: Config, s: State, x: Thread)
    requires Counters(s) && InOrder(s) && Budgeted(c, s)
    requires x in s.at && x in s.own && s.own[x] != [] && s.own[x][0] in s.whereabouts
    requires s.at[x].Handle? || s.at[x].Expire? || s.at[x].Refuse?
    ensures var r := FinishOwn(c, s, x); Counters(r) && InOrder(r) && Budgeted(c, r)
  {
    hide NoRepeat, Filter, Outside, Counted;
    AnswerCounts(s, s.own[x][0], Verdict(c, s, x));
  }

  lemma OwnIsOne(c: Config, s: State, x: Thread)
    requires Shape(c, s) && x in s.at && s.own[x] != []
    ensures s.own[x] == [s.own[x][0]]
  {
    assert HandsFit(x, s.at[x], s.dead[x], s.own[x]);
  }

  lemma FinishKeeps(c: Config, s: State, x: Thread)
    requires Inv(c, s) && x in s.at && x in s.own && s.own[x] != [] && x in s.dead && s.dead[x] == []
    requires s.at[x].Handle? || s.at[x].Expire? || s.at[x].Refuse?
    ensures Inv(c, FinishOwn(c, s, x))
  {
    hide Shape, OnePlace, Awake, Counters, InOrder, Budgeted, FinishOwn;
    OwnIsOne(c, s, x);
    var t := s.own[x][0];
    DeadKnown(s, x);
    assert Holds(s, x, t);
    FinishShape(c, s, x, t);
    FinishPlaces(c, s, x, t);
    FinishAwake(c, s, x);
    FinishRest(c, s, x);
  }

  lemma FinishPlaces(c: Config, s: State, x: Thread, t: Task)
    requires OnePlace(s) && x in s.at && x in s.dead && s.dead[x] == [] && x in s.own && s.own[x] == [t]
    ensures OnePlace(FinishOwn(c, s, x))
  {
    hide Tasks;
    assert Holds(s, x, t);
    AnswerPlaces(s, FinishOwn(c, s, x), x, t, Verdict(c, s, x));
  }

  // ---- a worker takes the head ----

  lemma PopPlaces(s: State, x: Thread)
    requires OnePlace(s) && s.q != [] && x in s.dead && x in s.own && s.own[x] == []
    ensures OnePlace(PopHead(s, x))
  {
    hide Tasks;
    var r, t := PopHead(s, x), s.q[0];
    assert s.q == [t] + s.q[1..];
    forall y, u
      ensures Holds(r, y, u) <==> u in r.whereabouts && r.whereabouts[u] == Held(y)
    {
      assert Holds(s, y, u) <==> u in s.whereabouts && s.whereabouts[u] == Held(y);
      assert Holds(r, y, u) <==> Holds(s, y, u) || (y == x && u == t);
    }
    assert !Holds(s, x, t);
  }

  lemma QueuedKnown(s: State)
    requires OnePlace(s)
    ensures forall t <- s.q :: t in s.whereabouts
  {
  }

  lemma PopShape(c: Config, s: State, x: Thread)
    requires Shape(c, s) && x.Worker? && x in s.at && s.at[x].Top? && s.q != [] && s.q[0] in s.whereabouts
    ensures Shape(c, PopHead(s, x)) && s.own[x] == []
  {
    var r := PopHead(s, x);
    assert HandsFit(x, s.at[x], s.dead[x], s.own[x]);
    WokenShape(c, s);
    assert r.at.Keys == s.at.Keys && r.own.Keys == s.own.Keys && r.whereabouts.Keys == s.whereabouts.Keys;
    forall y <- r.at ensures HandsFit(y, r.at[y], r.dead[y], r.own[y]) {
      assert HandsFit(y, s.at[y], s.dead[y], s.own[y]);
    }
  }

  lemma PopAwake(c: Config, s: State, x: Thread)
    requires Awake(c, s) && x.Worker? && x in s.at && s.q != []
    ensures Awake(c, PopHead(s, x))
  {
    var r := PopHead(s, x);
    assert r.at.Keys == s.at.Keys;
    assert Active(r, x.i);
  }

  lemma PopRest(c: Config, s: State, x: Thread)
    requires Counters(s) && InOrder(s) && Budgeted(c, s)
    requires x in s.at && x.Worker? && s.q != [] && s.q[0] in s.whereabouts
    ensures var r := PopHead(s, x); Counters(r) && InOrder(r) && Budgeted(c, r)
  {
    hide NoRepeat, Filter, Outside, Counted;
    var r := PopHead(s, x);
    assert s.q == [s.q[0]] + s.q[1..];
    assert r.popped + r.q == s.popped + s.q;
  }

  lemma PopKeeps(c: Config, s: State, x: Thread)
    requires Inv(c, s) && x.Worker? && x in s.at && x in s.dead && x in s.own && s.at[x].Top? && s.q != []
    ensures Inv(c, PopHead(s, x))
  {
    hide Shape, OnePlace, Awake, Counters, InOrder, Budgeted, PopHead;
    QueuedKnown(s);
    assert s.q[0] in s.q;
    PopShape(c, s, x);
    PopPlaces(s, x);
    PopAwake(c, s, x);
    PopRest(c, s, x);
  }

  // ---- a Submit call hands its task over ----

  lemma EnqueuePlaces(s: State, t: Task, who: Option<Thread>)
    requires OnePlace(s)
    requires var x := Submitter(t); x in s.dead && s.dead[x] == [] && x in s.own && s.own[x] == [t]
    ensures OnePlace(Enqueue(s, t, who))
  {
    hide Tasks;
    var r, x := Enqueue(s, t, who), Submitter(t);
    assert Holds(s, x, t);
    forall y, u
      ensures Holds(r, y, u) <==> u in r.whereabouts && r.whereabouts[u] == Held(y)
    {
      assert Holds(s, y, u) <==> u in s.whereabouts && s.whereabouts[u] == Held(y);
      assert Holds(r, y, u) <==> Holds(s, y, u) && !(y == x && u == t);
    }
  }

  lemma EnqueuedFresh(s: State, t: Task)
    requires InOrder(s) && Submitter(t) in s.at && !s.at[Submitter(t)].Done?
    ensures t !in s.entered && t !in s.dropped
  {
    hide NoRepeat, Filter, Outside;
  }

  /** One more at the end of the order of arrival. */
  lemma OrderGrows(entered: seq<Task>, dropped: set<Task>, served: seq<Task>, t: Task)
    requires NoRepeat(entered) && t !in entered && t !in dropped && served == Filter(entered, Outside(dropped))
    ensures NoRepeat(entered + [t]) && served + [t] == Filter(entered + [t], Outside(dropped))
  {
    hide NoRepeat;
    FreshAtEnd(entered, t);
    assert (entered + [t])[..|entered|] == entered;
  }

  lemma FreshAtEnd(entered: seq<Task>, t: Task)
    requires NoRepeat(entered) && t !in entered
    ensures NoRepeat(entered + [t])
  {
  }

  /** Whoever entered has returned, before and after the call of t does. */
  lemma EnqueueDone(s: State, t: Task, who: Option<Thread>)
    requires forall u <- s.entered :: Submitter(u) in s.at && s.at[Submitter(u)].Done?
    requires Submitter(t) in s.at && (who.Some? ==> who.value in s.at && s.at[who.value].Asleep?)
    ensures var r := Enqueue(s, t, who);
            forall u <- r.entered :: Submitter(u) in r.at && r.at[Submitter(u)].Done?
  {
    var r := Enqueue(s, t, who);
    forall u <- r.entered ensures Submitter(u) in r.at && r.at[Submitter(u)].Done? {
      assert u in s.entered || u == t;
    }
  }

  lemma EnqueueOrder(s: State, t: Task, who: Option<Thread>)
    requires InOrder(s) && Submitter(t) in s.at && !s.at[Submitter(t)].Done?
    requires who.Some? ==> who.value in s.at && s.at[who.value].Asleep?
    ensures InOrder(Enqueue(s, t, who))
  {
    hide NoRepeat, Filter, Outside, Signalled;
    EnqueuedFresh(s, t);
    OrderGrows(s.entered, s.dropped, s.popped + s.q, t);
    EnqueueDone(s, t, who);
    assert s.popped + (s.q + [t]) == s.popped + s.q + [t];
  }

  /** With nobody waiting for room, a Signal cannot be spent on a Submit call: it wakes a worker. */
  lemma EnqueueActive(c: Config, s: State, t: Task, who: Option<Thread>)
    requires Shape(c, s) && Awake(c, s) && c.workers > 0 && !s.closed && |s.q| < c.depth
    requires Submitter(t) in s.at && SignalChoice(s, who)
    ensures who.Some? ==> who.value.Worker?
    ensures exists i :: Active(Enqueue(s, t, who), i)
  {
    var r := Enqueue(s, t, who);
    match who {
      case Some(w) =>
        PlaceOf(c, s, w);
        assert Active(r, w.i);
      case None =>
        assert Worker(0) in s.at;
        assert Active(r, 0);
    }
  }

  lemma EnqueueAwake(c: Config, s: State, t: Task, who: Option<Thread>)
    requires Shape(c, s) && Awake(c, s) && c.workers > 0 && !s.closed && |s.q| < c.depth
    requires Submitter(t) in s.at && SignalChoice(s, who)
    ensures Awake(c, Enqueue(s, t, who))
  {
    hide Shape, Active;
    EnqueueActive(c, s, t, who);
  }

  lemma EnqueueShape(c: Config, s: State, t: Task, who: Option<Thread>)
    requires Shape(c, s) && SignalChoice(s, who) && t in s.whereabouts
    requires var x := Submitter(t); x in s.at && s.dead[x] == []
    ensures Shape(c, Enqueue(s, t, who))
  {
    var r, x := Enqueue(s, t, who), Submitter(t);
    assert r.at.Keys == s.at.Keys && r.own.Keys == s.own.Keys && r.whereabouts.Keys == s.whereabouts.Keys;
    forall y <- r.at ensures HandsFit(y, r.at[y], r.dead[y], r.own[y]) {
      assert HandsFit(y, s.at[y], s.dead[y], s.own[y]);
    }
  }

  lemma OwnInHand(c: Config, s: State, t: Task)
    requires Shape(c, s) && Submitter(t) in s.at && !s.at[Submitter(t)].Done?
    ensures Submitter(t) in s.own && s.own[Submitter(t)] == [t] && t in s.whereabouts
  {
    var x := Submitter(t);
    assert HandsFit(x, s.at[x], s.dead[x], s.own[x]);
  }

  lemma EnqueueKeeps(c: Config, s: State, t: Task, who: Option<Thread>)
    requires Inv(c, s) && c.workers > 0 && !s.closed && |s.q| < c.depth && SignalChoice(s, who)
    requires var x := Submitter(t); x in s.at && x in s.dead && s.dead[x] == [] && (s.at[x].Lock? || s.at[x].Loop?)
    ensures Inv(c, Enqueue(s, t, who))
  {
    hide Shape, OnePlace, Awake, InOrder;
    OwnInHand(c, s, t);
    EnqueueShape(c, s, t, who);
    EnqueuePlaces(s, t, who);
    EnqueueOrder(s, t, who);
    EnqueueAwake(c, s, t, who);
  }

  // ---- every step ----

  lemma HandsOf(c: Config, s: State, x: Thread)
    requires Shape(c, s) && x in s.at
    ensures x in s.dead && x in s.own && HandsFit(x, s.at[x], s.dead[x], s.own[x])
  {
  }

  lemma TurnKeeps(c: Config, s: State, t: Task, who: Option<Thread>)
    requires Inv(c, s) && c.workers > 0 && SignalChoice(s, who) && |s.q| <= c.depth
    requires var x := Submitter(t); x in s.at && x in s.dead && s.dead[x] == [] && (s.at[x].Lock? || s.at[x].Loop?)
    ensures Inv(c, WaitTurn(c, s, t, who))
  {
    hide Shape, OnePlace, Awake, Counters, InOrder, Budgeted, Take, Enqueue, Dead;
    var x := Submitter(t);
    HandsOf(c, s, x);
    if |s.q| >= c.depth && x !in s.timedOut && !s.closed {
      if Dead(c, s.q, s.now) != [] {
        TakeKeeps(c, s, x);
        var taken := Take(c, s, x);
        HandsOf(c, taken, x);
        GoKeeps(c, taken, x, Loop);
      } else {
        GoKeeps(c, s, x, Asleep);
      }
    } else if !s.closed && |s.q| < c.depth {
      EnqueueKeeps(c, s, t, who);
    } else {
      GoKeeps(c, s, x, Expire);
    }
  }

  lemma WithinDepth(c: Config, s: State)
    requires Awake(c, s)
    ensures |s.q| <= c.depth && (s.closed ==> s.stopped)
  {
  }

  lemma AdmitKeeps(c: Config, s: State, t: Task, who: Option<Thread>)
    requires Inv(c, s) && c.workers > 0 && Enabled(c, s, Admit(t, who))
    ensures Inv(c, Next(c, s, Admit(t, who)))
  {
    hide Shape, OnePlace, Awake, Counters, InOrder, Budgeted, Take, WaitTurn, Enqueue;
    var x := Submitter(t);
    HandsOf(c, s, x);
    WithinDepth(c, s);
    if s.closed {
      GoKeeps(c, s, x, Expire);
    } else if |s.q| < c.depth {
      EnqueueKeeps(c, s, t, who);
    } else if !c.waitWhenFull {
      GoKeeps(c, s, x, Refuse);
    } else if Late(c, t, s.now) {
      GoKeeps(c, s, x, Expire);
    } else {
      TurnKeeps(c, s, t, who);
    }
  }

  lemma PopStepKeeps(c: Config, s: State, i: nat)
    requires Inv(c, s) && Enabled(c, s, Pop(i))
    ensures Inv(c, Next(c, s, Pop(i)))
  {
    hide Shape, OnePlace, Awake, Counters, InOrder, Budgeted, PopHead, Dead, Kept;
    var x := Worker(i);
    TakeKeeps(c, s, x);
    var taken := Take(c, s, x);
    HandsOf(c, taken, x);
    if taken.q != [] {
      PopKeeps(c, taken, x);
    } else if s.closed {
      GoKeeps(c, taken, x, Leaving);
    } else if Dead(c, s.q, s.now) == [] {
      GoKeeps(c, taken, x, Asleep);
    }
  }

  lemma SweepKeeps(c: Config, s: State, x: Thread)
    requires Inv(c, s) && Enabled(c, s, Sweep(x))
    ensures Inv(c, Next(c, s, Sweep(x)))
  {
    hide Shape, OnePlace, Awake, Counters, InOrder, Budgeted, Take;
    HandsOf(c, s, x);
    TakeKeeps(c, s, x);
    var taken := Take(c, s, x);
    HandsOf(c, taken, x);
    GoKeeps(c, taken, x, if s.at[x].Collect? then Lock else Idle);
  }

  lemma LeaveKeeps(c: Config, s: State, x: Thread)
    requires Inv(c, s) && Enabled(c, s, Leave(x))
    ensures Inv(c, Go(s, x, Done))
  {
    hide Shape, OnePlace, Counters, InOrder, Budgeted;
    HandsOf(c, s, x);
    GoKeeps(c, s, x, Done);
  }

  lemma StepKeeps(c: Config, s: State, a: Step)
    requires Inv(c, s) && c.workers > 0 && Enabled(c, s, a)
    ensures Inv(c, Next(c, s, a))
  {
    hide Shape, OnePlace, Awake, Counters, InOrder, Budgeted, Take, WaitTurn, Enqueue, PopHead, Dead, Kept;
    WithinDepth(c, s);
    match a {
      case Advance(d) => ClockKeeps(c, s, d);
      case Submit(t) => ArriveKeeps(c, s, t);
      case Sweep(x) => SweepKeeps(c, s, x);
      case Reply(x) => ReplyStepKeeps(c, s, x);
      case Admit(t, who) => AdmitKeeps(c, s, t, who);
      case Turn(t, who) => TurnKeeps(c, s, t, who);
      case Timer(t) => BroadcastKeeps(c, s, s.timedOut + {Submitter(t)}, s.closed);
      case Finish(x) => FinishKeeps(c, s, x);
      case Pop(i) => PopStepKeeps(c, s, i);
      case Leave(x) => LeaveKeeps(c, s, x);
      case Stop => StopKeeps(c, s);
      case Close => BroadcastKeeps(c, s, s.timedOut, true);
    }
  }

  lemma ReplyStepKeeps(c: Config, s: State, x: Thread)
    requires Inv(c, s) && x in s.dead && s.dead[x] != []
    ensures Inv(c, ReplyDead(s, x))
  {
    hide OnePlace, Awake, Counters, InOrder, Budgeted, ReplyDead;
    ReplyKeeps(c, s, x);
  }

  lemma StopKeeps(c: Config, s: State)
    requires Inv(c, s)
    ensures Inv(c, s.(stopped := true))
  {
    hide NoRepeat, Filter, Outside, HandsFit, OnePlace, Counters, Budgeted;
    var r := s.(stopped := true);
    SameHands(c, s, r);
    if i :| Active(s, i) {
      assert Active(r, i);
    }
  }

  lemma BeginShape(c: Config)
    requires c.workers > 0
    ensures Shape(c, Begin(c)) && Awake(c, Begin(c))
  {
    var s := Begin(c);
    assert forall i: nat :: Worker(i) in s.at <==> i < c.workers;
  }

  lemma BeginEmpty(c: Config)
    ensures var s := Begin(c); OnePlace(s) && Counters(s) && InOrder(s) && Budgeted(c, s)
  {
    assert forall x, t :: !Holds(Begin(c), x, t);
  }

  lemma BeginKeeps(c: Config)
    requires c.workers > 0
    ensures Inv(c, Begin(c))
  {
    hide Begin, Shape, OnePlace, Awake, Counters, InOrder, Budgeted;
    BeginShape(c);
    BeginEmpty(c);
  }

  // ---- nobody is turned away without reason ----

  /** Reasons do not go away as time passes, a timer fires or the pool closes. */
  lemma OverdueLater(c: Config, s: State, r: State, t: Task)
    requires Overdue(c, s, t) && s.now <= r.now && (s.closed ==> r.closed) && s.timedOut <= r.timedOut
    ensures Overdue(c, r, t)
  {
  }

  lemma LateIsOverdue(c: Config, s: State)
    ensures forall t :: Late(c, t, s.now) ==> Overdue(c, s, t)
  {
  }

  lemma LaterExplains(c: Config, s: State, now: int, timedOut: set<Thread>, closed: bool)
    requires Explained(c, s) && s.now <= now && (s.closed ==> closed) && s.timedOut <= timedOut
    ensures Explained(c, s.(now := now, timedOut := timedOut, closed := closed))
  {
    hide Overdue;
    var r := s.(now := now, timedOut := timedOut, closed := closed);
    forall t | Overdue(c, s, t) ensures Overdue(c, r, t) {
      OverdueLater(c, s, r, t);
    }
  }

  lemma WokenExplains(c: Config, s: State)
    requires Explained(c, s)
    ensures Explained(c, Broadcast(s))
  {
    hide Overdue;
    SameReasons(c, s, Broadcast(s));
  }

  lemma GoExplains(c: Config, s: State, x: Thread, at: Place)
    requires Explained(c, s)
    requires x.Submitter? && at.Expire? ==> Overdue(c, s, x.t)
    requires x.Submitter? && at.Refuse? ==> !c.waitWhenFull
    ensures Explained(c, Go(s, x, at))
  {
    hide Overdue;
    SameReasons(c, s, Go(s, x, at));
  }

  lemma SameReasons(c: Config, s: State, r: State)
    requires r.now == s.now && r.closed == s.closed && r.timedOut == s.timedOut
    ensures forall t :: Overdue(c, r, t) == Overdue(c, s, t)
  {
  }

  lemma TakeExplains(c: Config, s: State, x: Thread)
    requires Explained(c, s)
    ensures Explained(c, Take(c, s, x))
  {
    hide Overdue, Dead, Kept, Late, Moved;
    KeptAndDead(c, s.q, s.now);
    var dead := Dead(c, s.q, s.now);
    LateIsOverdue(c, s);
    var r := Take(c, s, x);
    SameReasons(c, s, r);
  }

  lemma EnqueueExplains(c: Config, s: State, t: Task, who: Option<Thread>)
    requires Explained(c, s)
    ensures Explained(c, Enqueue(s, t, who))
  {
    hide Overdue;
    SameReasons(c, s, Enqueue(s, t, who));
  }

  lemma PopExplains(c: Config, s: State, x: Thread)
    requires Explained(c, s) && s.q != [] && x.Worker?
    ensures Explained(c, PopHead(s, x))
  {
    hide Overdue;
    SameReasons(c, s, PopHead(s, x));
  }

  lemma ReplyExplains(c: Config, s: State, x: Thread)
    requires Explained(c, s) && x in s.dead && s.dead[x] != []
    ensures Explained(c, ReplyDead(s, x))
  {
    hide Overdue;
    var r := ReplyDead(s, x);
    SameReasons(c, s, r);
    assert s.dead[x][0] in s.dead[x];
    assert forall t <- r.dead[x] :: t in s.dead[x];
  }

  /** The verdict on a thread's own task has its reason. */
  lemma VerdictExplained(c: Config, s: State, x: Thread)
    requires Explained(c, s) && x in s.at && x in s.own && s.own[x] != [] && HandsFit(x, s.at[x], [], s.own[x])
    requires s.at[x].Handle? || s.at[x].Expire? || s.at[x].Refuse?
    ensures var (t, how) := (s.own[x][0], Verdict(c, s, x));
            && (how.Expired? ==> Overdue(c, s, t)) && (how.Shed? ==> !c.waitWhenFull)
            && (how.Evaluated? ==> how.budget >= t.deadline - (s.now - t.enqueued) - c.reserve)
  {
  }

  lemma FinishExplains(c: Config, s: State, x: Thread)
    requires Explained(c, s) && x in s.at && x in s.own && s.own[x] != [] && HandsFit(x, s.at[x], [], s.own[x])
    requires s.at[x].Handle? || s.at[x].Expire? || s.at[x].Refuse?
    ensures Explained(c, FinishOwn(c, s, x))
  {
    hide Overdue, Verdict, HandsFit;
    VerdictExplained(c, s, x);
    SameReasons(c, s, FinishOwn(c, s, x));
  }

  lemma ArriveExplains(c: Config, s: State, t: Task)
    requires Explained(c, s)
    ensures Explained(c, Arrive(c, s, t))
  {
    hide Overdue, Late;
    SameReasons(c, s, Arrive(c, s, t));
    LateIsOverdue(c, s);
  }

  lemma TurnExplains(c: Config, s: State, t: Task, who: Option<Thread>)
    requires Explained(c, s)
    ensures Explained(c, WaitTurn(c, s, t, who))
  {
    hide Explained, Take, Enqueue, Dead, Go;
    var x := Submitter(t);
    TakeExplains(c, s, x);
    EnqueueExplains(c, s, t, who);
    GoExplains(c, s, x, Asleep);
    GoExplains(c, Take(c, s, x), x, Loop);
    if s.closed || (|s.q| >= c.depth && x in s.timedOut) {
      GoExplains(c, s, x, Expire);
    }
  }

  lemma AdmitExplains(c: Config, s: State, t: Task, who: Option<Thread>)
    requires Explained(c, s) && Enabled(c, s, Admit(t, who))
    ensures Explained(c, Next(c, s, Admit(t, who)))
  {
    hide Explained, WaitTurn, Enqueue, Go;
    TurnExplains(c, s, t, who);
    EnqueueExplains(c, s, t, who);
    if s.closed || Late(c, t, s.now) {
      GoExplains(c, s, Submitter(t), Expire);
    }
    if !c.waitWhenFull {
      GoExplains(c, s, Submitter(t), Refuse);
    }
  }

  lemma PopStepExplains(c: Config, s: State, i: nat)
    requires Explained(c, s) && Enabled(c, s, Pop(i))
    ensures Explained(c, Next(c, s, Pop(i)))
  {
    hide Explained, Take, PopHead, Dead, Go;
    var x := Worker(i);
    TakeExplains(c, s, x);
    var taken := Take(c, s, x);
    if taken.q != [] {
      PopExplains(c, taken, x);
    }
    GoExplains(c, taken, x, Leaving);
    GoExplains(c, taken, x, Asleep);
  }

  lemma StepExplains(c: Config, s: State, a: Step)
    requires Shape(c, s) && Explained(c, s) && Enabled(c, s, a)
    ensures Explained(c, Next(c, s, a))
  {
    hide Shape, Explained, Take, WaitTurn, Enqueue, PopHead, FinishOwn, ReplyDead, Arrive, Dead, HandsFit, Go;
    match a {
      case Advance(d) => LaterExplains(c, s, s.now + d, s.timedOut, s.closed);
      case Submit(t) => ArriveExplains(c, s, t);
      case Sweep(x) =>
        TakeExplains(c, s, x);
        GoExplains(c, Take(c, s, x), x, if s.at[x].Collect? then Lock else Idle);
      case Reply(x) => ReplyExplains(c, s, x);
      case Admit(t, who) => AdmitExplains(c, s, t, who);
      case Turn(t, who) => TurnExplains(c, s, t, who);
      case Timer(t) =>
        WokenExplains(c, s);
        LaterExplains(c, Broadcast(s), s.now, s.timedOut + {Submitter(t)}, s.closed);
      case Finish(x) =>
        HandsOf(c, s, x);
        FinishExplains(c, s, x);
      case Pop(i) => PopStepExplains(c, s, i);
      case Leave(x) => GoExplains(c, s, x, Done);
      case Stop => StoppedExplains(c, s);
      case Close =>
        WokenExplains(c, s);
        LaterExplains(c, Broadcast(s), s.now, s.timedOut, true);
    }
  }

  lemma StoppedExplains(c: Config, s: State)
    requires Explained(c, s)
    ensures Explained(c, s.(stopped := true))
  {
    hide Overdue;
    SameReasons(c, s, s.(stopped := true));
  }

  lemma {:induction false} RunExplained(c: Config, run: seq<Step>)
    requires c.workers > 0 && After(c, run).Some?
    ensures Explained(c, After(c, run).value)
  {
    hide Inv, Explained, Next, Enabled;
    if run == [] {
      BeginExplains(c);
    } else {
      var before := run[..|run| - 1];
      RunExplained(c, before);
      RunKeeps(c, before);
      InvShape(c, After(c, before).value);
      StepExplains(c, After(c, before).value, run[|run| - 1]);
    }
  }

  lemma BeginExplains(c: Config)
    ensures Explained(c, Begin(c))
  {
  }

  lemma InvShape(c: Config, s: State)
    requires Inv(c, s)
    ensures Shape(c, s)
  {
  }

  /** A task that a worker has taken and that still has the minimum budget is evaluated, with all that is left
      of its deadline after the reserve. */
  lemma TakenIsEvaluated(c: Config, s: State, i: nat)
    requires Enabled(c, s, Finish(Worker(i))) && s.at[Worker(i)].Handle?
    ensures var t := s.own[Worker(i)][0];
            var left := t.deadline - (s.now - t.enqueued) - c.reserve;
            var r := Next(c, s, Finish(Worker(i)));
            && (left >= c.minBudget ==> r.answers == s.answers + [(t, Evaluated(left))])
            && (left < c.minBudget ==> r.answers == s.answers + [(t, Expired)])
  {
  }

  // ---- over whole runs ----

  lemma {:induction false} RunKeeps(c: Config, run: seq<Step>)
    requires c.workers > 0 && After(c, run).Some?
    ensures Inv(c, After(c, run).value)
  {
    hide Inv, Next, Enabled;
    if run == [] {
      BeginKeeps(c);
    } else {
      var before := run[..|run| - 1];
      RunKeeps(c, before);
      StepKeeps(c, After(c, before).value, run[|run| - 1]);
    }
  }

  /** In every interleaving, though submitters and workers share one condition variable and an
      enqueue only signals: a sleeping Submit call means a full queue, a task in the queue means
      an awake worker, and nobody sleeps once the pool is closed. */
  lemma NoLostWakeUp(c: Config, run: seq<Step>, s: State)
    requires c.workers > 0 && After(c, run) == Some(s)
    ensures && |s.q| <= c.depth
            && (forall t :: Submitter(t) in s.at && s.at[Submitter(t)].Asleep? ==> |s.q| == c.depth)
            && (s.q != [] ==> exists i :: Active(s, i))
            && (forall x :: x in s.at && s.at[x].Asleep? ==> !s.closed && x in s.dead && s.dead[x] == [])
  {
    hide After;
    RunKeeps(c, run);
    forall x | x in s.at && s.at[x].Asleep? ensures x in s.dead && s.dead[x] == [] {
      HandsOf(c, s, x);
    }
  }

  /** An awake worker can always take its next step, so a nonempty queue is never stuck. */
  lemma QueueNeverStuck(c: Config, run: seq<Step>, s: State)
    requires c.workers > 0 && After(c, run) == Some(s) && s.q != []
    ensures exists i :: Enabled(c, s, Pop(i)) || Enabled(c, s, Finish(Worker(i))) || Enabled(c, s, Reply(Worker(i)))
  {
    hide After, Shape, OnePlace, Counters, InOrder, Budgeted, Enabled;
    RunKeeps(c, run);
    var i :| Active(s, i);
    ActiveCanStep(c, s, i);
  }

  lemma ActiveCanStep(c: Config, s: State, i: nat)
    requires Shape(c, s) && Active(s, i)
    ensures Enabled(c, s, Pop(i)) || Enabled(c, s, Finish(Worker(i))) || Enabled(c, s, Reply(Worker(i)))
  {
    hide Shape;
    HandsOf(c, s, Worker(i));
  }

  ghost function HeldTasks(s: State): set<Task> {
    set t | t in s.whereabouts && s.whereabouts[t].Held?
  }

  function EvaluatedCount(answers: seq<(Task, Outcome)>): nat {
    if answers == [] then 0
    else EvaluatedCount(answers[..|answers| - 1]) + if answers[|answers| - 1].1.Evaluated? then 1 else 0
  }

  lemma {:induction false} AnswersByKind(answers: seq<(Task, Outcome)>)
    ensures |answers| == EvaluatedCount(answers) + Counted(answers, Shed) + Counted(answers, Expired)
    ensures |Tasks(answers)| == |answers|
  {
    if answers != [] {
      AnswersByKind(answers[..|answers| - 1]);
    }
  }

  /** Every submitted task is queued, in the hands of exactly one thread, or answered once; and the
      counters add up. */
  lemma NothingLostOrDoubled(c: Config, run: seq<Step>, s: State)
    requires c.workers > 0 && After(c, run) == Some(s)
    ensures && NoRepeat(s.q) && NoRepeat(Tasks(s.answers))
            && (forall t :: t in s.q ==> t !in Tasks(s.answers) && forall x :: !Holds(s, x, t))
            && (forall t, x, y :: Holds(s, x, t) && Holds(s, y, t) ==> x == y && t !in Tasks(s.answers))
            && |s.whereabouts| == |s.q| + |HeldTasks(s)| + EvaluatedCount(s.answers) + s.shed + s.expired
  {
    hide After, Tasks, Counted;
    RunKeeps(c, run);
    hide Shape, Awake, InOrder, Budgeted;
    PlacesDistinct(s);
    PartitionSize(s);
    hide OnePlace;
    AnswersByKind(s.answers);
  }

  lemma PlacesDistinct(s: State)
    requires OnePlace(s)
    ensures NoRepeat(s.q) && NoRepeat(Tasks(s.answers))
    ensures forall t :: t in s.q ==> t !in Tasks(s.answers) && forall x :: !Holds(s, x, t)
    ensures forall t, x, y :: Holds(s, x, t) && Holds(s, y, t) ==> x == y && t !in Tasks(s.answers)
  {
    hide Tasks;
  }

  ghost function QueuedIn(m: map<Task, Where>): set<Task> {
    set t | t in m && m[t].Queued?
  }

  ghost function AnsweredIn(m: map<Task, Where>): set<Task> {
    set t | t in m && m[t].Answered?
  }

  lemma WhereSize(m: map<Task, Where>)
    ensures |m| == |QueuedIn(m)| + |set t | t in m && m[t].Held?| + |AnsweredIn(m)|
  {
    var held := set t | t in m && m[t].Held?;
    assert m.Keys == QueuedIn(m) + held + AnsweredIn(m);
    ThreeParts(QueuedIn(m), held, AnsweredIn(m));
  }

  /** A sequence without repeats has as many elements as the set it fills. */
  lemma FillsSet(s: seq<Task>, filled: set<Task>)
    requires NoRepeat(s) && forall t :: t in s <==> t in filled
    ensures |filled| == |s|
  {
    hide NoRepeat;
    NoRepeatSize(s);
    assert filled == set t | t in s;
  }

  lemma PartitionSize(s: State)
    requires OnePlace(s)
    ensures |s.whereabouts| == |s.q| + |HeldTasks(s)| + |Tasks(s.answers)|
  {
    hide Tasks, NoRepeat, Holds;
    WhereSize(s.whereabouts);
    FillsSet(s.q, QueuedIn(s.whereabouts));
    FillsSet(Tasks(s.answers), AnsweredIn(s.whereabouts));
  }

  lemma ThreeParts(a: set<Task>, b: set<Task>, d: set<Task>)
    requires a !! b && a !! d && b !! d
    ensures |a + b + d| == |a| + |b| + |d|
  {
    assert |a + b| == |a| + |b|;
  }

  lemma PiecesAnswerNothing(c: Config, s: State, x: Thread, t: Task, who: Option<Thread>)
    ensures Take(c, s, x).answers == s.answers && Enqueue(s, t, who).answers == s.answers
    ensures WaitTurn(c, s, t, who).answers == s.answers && Arrive(c, s, t).answers == s.answers
  {
    hide Kept, Dead, Late, Moved, AllWoken, Signalled;
  }

  /** What was answered stays answered, in the order it was; and only calls of the handler answer: a thread's
      expired tasks one by one, a call out of time or room, and a worker's task. */
  lemma AnswersOnlyGrow(c: Config, s: State, a: Step)
    requires Enabled(c, s, a)
    ensures s.answers <= Next(c, s, a).answers
    ensures Next(c, s, a).answers ==
            match a
            case Reply(x) => s.answers + [(s.dead[x][0], Expired)]
            case Finish(x) =>
              var t := s.own[x][0];
              if s.at[x].Expire? then s.answers + [(t, Expired)]
              else if s.at[x].Refuse? then s.answers + [(t, Shed)]
              else if Short(c, t, s.now) then s.answers + [(t, Expired)]
              else s.answers + [(t, Evaluated(t.deadline - (s.now - t.enqueued) - c.reserve))]
            case _ => s.answers
  {
    hide Take, Enqueue, WaitTurn, Arrive, Dead, AllWoken;
    match a {
      case Submit(t) => PiecesAnswerNothing(c, s, Sweeper, t, None);
      case Sweep(x) => PiecesAnswerNothing(c, s, x, Task(0, 0, 0), None);
      case Admit(t, who) => PiecesAnswerNothing(c, s, Sweeper, t, who);
      case Turn(t, who) => PiecesAnswerNothing(c, s, Sweeper, t, who);
      case Pop(i) => PiecesAnswerNothing(c, s, Worker(i), Task(0, 0, 0), None);
      case _ =>
    }
  }

  /** A call that comes with too little time is answered without a look at the queue; any other goes on to
      collect the expired and ask for room. */
  lemma ArriveDecides(c: Config, s: State, t: Task)
    requires Enabled(c, s, Submit(t))
    ensures var r, x := Next(c, s, Submit(t)), Submitter(t);
            && r.q == s.q && r.own[x] == [t] && r.dead[x] == [] && r.answers == s.answers
            && r.at[x] == if Short(c, t, s.now) then Expire else Collect
  {
  }

  /** When Close returns (it waits for every worker and the sweeper) the queue is empty, and a task
      still unanswered is in the hands of a Submit call that has not returned. */
  lemma AfterClose(c: Config, run: seq<Step>, s: State)
    requires c.workers > 0 && After(c, run) == Some(s)
    requires forall x <- s.at :: !x.Submitter? ==> s.at[x].Done?
    ensures && s.q == []
            && forall t <- s.whereabouts :: t !in Tasks(s.answers) ==>
                 exists u :: Holds(s, Submitter(u), t) && Submitter(u) in s.at && !s.at[Submitter(u)].Done?
  {
    hide After, Tasks;
    RunKeeps(c, run);
    assert Worker(0) in s.at;
    forall t <- s.whereabouts | t !in Tasks(s.answers)
      ensures exists u :: Holds(s, Submitter(u), t) && Submitter(u) in s.at && !s.at[Submitter(u)].Done?
    {
      var x := s.whereabouts[t].holder;
      assert Holds(s, x, t);
      HandsOf(c, s, x);
      assert x.Submitter?;
      assert Holds(s, Submitter(x.t), t);
    }
  }

  /** Workers are given the tasks in order of arrival, less some that entered the queue and whose time is
      up. A task evaluated for real had a budget of at least the minimum, at most its deadline less the
      reserve, and no less than it would have now; one that was not was turned away for want of room where
      nobody waits, or because its time is up, its wait is over or the pool is closed. */
  lemma ServedInOrder(c: Config, run: seq<Step>, s: State)
    requires c.workers > 0 && After(c, run) == Some(s)
    ensures && NoRepeat(s.entered) && s.accepted == |s.entered|
            && s.popped + s.q == Filter(s.entered, Outside(s.dropped))
            && (forall t <- s.dropped :: t in s.entered && Late(c, t, s.now))
            && (forall a <- s.answers | a.1.Evaluated? ::
                  && c.minBudget <= a.1.budget <= a.0.deadline - c.reserve
                  && a.1.budget >= a.0.deadline - (s.now - a.0.enqueued) - c.reserve)
            && (forall a <- s.answers | a.1.Expired? ::
                  || a.0.deadline - (s.now - a.0.enqueued) - c.reserve < c.minBudget
                  || s.closed || Submitter(a.0) in s.timedOut)
            && forall a <- s.answers | a.1.Shed? :: !c.waitWhenFull
  {
    hide After, Shape, OnePlace, Awake;
    RunKeeps(c, run);
    RunExplained(c, run);
  }
}
