/** The deadline queue's slice, kept in place (internal/queue/queue.go). Durations and clock
    readings are numbers on one scale. */
module Queue {
  import opened Seqs

  datatype Task = Task(id: nat, deadline: int, enqueued: int)

  datatype Config = Config(workers: nat, depth: nat, reserve: int, minBudget: int, waitWhenFull: bool)

  /** What is left of the task's deadline after the reserve. */
  function Left(c: Config, t: Task, now: int): int {
    t.deadline - (now - t.enqueued) - c.reserve
  }

  predicate Late(c: Config, t: Task, now: int) {
    Left(c, t, now) < c.minBudget
  }

  function LateAt(c: Config, now: int): Task -> bool {
    t => Late(c, t, now)
  }

  function InTimeAt(c: Config, now: int): Task -> bool {
    t => !Late(c, t, now)
  }

  /** What takeExpiredLocked keeps, and what it takes out. */
  function Kept(c: Config, q: seq<Task>, now: int): seq<Task> {
    Filter(q, InTimeAt(c, now))
  }

  function Dead(c: Config, q: seq<Task>, now: int): seq<Task> {
    Filter(q, LateAt(c, now))
  }

  lemma KeptAndDead(c: Config, q: seq<Task>, now: int)
    ensures forall t :: t in Kept(c, q, now) <==> t in q && !Late(c, t, now)
    ensures forall t :: t in Dead(c, q, now) <==> t in q && Late(c, t, now)
    ensures NoRepeat(q) ==> NoRepeat(Kept(c, q, now)) && NoRepeat(Dead(c, q, now))
    ensures Dead(c, q, now) == [] ==> Kept(c, q, now) == q
  {
    FilterMembers(q, InTimeAt(c, now));
    FilterMembers(q, LateAt(c, now));
    if NoRepeat(q) {
      FilterNoRepeat(q, InTimeAt(c, now));
      FilterNoRepeat(q, LateAt(c, now));
    }
    if Dead(c, q, now) == [] {
      assert forall t <- q :: Late(c, t, now) ==> t in Dead(c, q, now);
      FilterAll(q, InTimeAt(c, now));
    }
  }

  /** How a turn of pop ends, and a Submit call's main critical section. */
  datatype PopTurn = Took(t: Task) | Quit | Again | Sleep
  datatype Admission = Enqueued | Expires | Sheds | Waits

  /** How a turn of the loop of a Submit call that waits ends. */
  datatype WaitEnd = Entered | GivesUp | Around | Rests

  function PopOutcome(c: Config, q: seq<Task>, closed: bool, now: int): PopTurn {
    var kept := Kept(c, q, now);
    if kept != [] then Took(kept[0]) else if closed then Quit else if Dead(c, q, now) != [] then Again else Sleep
  }

  function AdmitOutcome(c: Config, q: seq<Task>, closed: bool, t: Task, now: int): Admission {
    if closed then Expires
    else if |q| < c.depth then Enqueued
    else if !c.waitWhenFull then Sheds
    else if Late(c, t, now) then Expires
    else Waits
  }

  function WaitOutcome(c: Config, q: seq<Task>, closed: bool, timedOut: bool, now: int): WaitEnd {
    if |q| >= c.depth && !timedOut && !closed then if Dead(c, q, now) != [] then Around else Rests
    else if closed then GivesUp
    else if |q| < c.depth then Entered
    else GivesUp
  }

  // ---- what the outcomes mean ----

  /** The time left a task is its deadline less what has passed since it was enqueued and less the reserve. */
  predicate Short(c: Config, t: Task, now: int) {
    t.deadline - (now - t.enqueued) - c.reserve < c.minBudget
  }

  /** A worker gets the first task with time left; it quits only from a closed pool, goes round once it has
      expired tasks in hand, and sleeps on an empty queue. */
  lemma PopDecides(c: Config, q: seq<Task>, closed: bool, now: int)
    ensures var out := PopOutcome(c, q, closed, now);
            match out
            case Took(t) =>
              exists i :: 0 <= i < |q| && q[i] == t && !Short(c, t, now) && forall j | 0 <= j < i :: Short(c, q[j], now)
            case Quit => closed && forall j | 0 <= j < |q| :: Short(c, q[j], now)
            case Again => !closed && q != [] && forall j | 0 <= j < |q| :: Short(c, q[j], now)
            case Sleep => !closed && q == []
  {
    hide Kept, Dead;
    KeptAndDead(c, q, now);
    if Kept(c, q, now) != [] {
      FirstKept(c, q, now);
    }
    assert forall j | 0 <= j < |q| :: q[j] in q;
    if Kept(c, q, now) == [] && q != [] {
      assert q[0] in q && q[0] !in Kept(c, q, now);
    }
    if Dead(c, q, now) != [] {
      assert Dead(c, q, now)[0] in Dead(c, q, now);
    }
  }

  lemma {:induction false} FirstKept(c: Config, q: seq<Task>, now: int)
    requires Kept(c, q, now) != []
    ensures exists i :: 0 <= i < |q| && q[i] == Kept(c, q, now)[0] && !Short(c, q[i], now) &&
              forall j | 0 <= j < i :: Short(c, q[j], now)
  {
    var n := |q| - 1;
    KeptStep(c, q, n, now);
    assert q[..n + 1] == q;
    hide Kept, Dead;
    if Kept(c, q[..n], now) != [] {
      FirstKept(c, q[..n], now);
      var i :| 0 <= i < n && q[..n][i] == Kept(c, q[..n], now)[0] && !Short(c, q[..n][i], now) &&
               forall j | 0 <= j < i :: Short(c, q[..n][j], now);
      assert forall j | 0 <= j < i :: q[..n][j] == q[j];
      assert q[i] == Kept(c, q, now)[0];
    } else {
      KeptAndDead(c, q[..n], now);
      forall j | 0 <= j < n ensures Short(c, q[j], now) {
        assert q[..n][j] in q[..n] && q[..n][j] !in Kept(c, q[..n], now);
      }
    }
  }

  /** Room is given, while the pool is open, to whoever comes. For want of it a call is turned away, or waits
      if it is to and has the time. */
  lemma AdmitDecides(c: Config, q: seq<Task>, closed: bool, t: Task, now: int)
    ensures match AdmitOutcome(c, q, closed, t, now)
            case Enqueued => !closed && |q| < c.depth
            case Sheds => !closed && |q| >= c.depth && !c.waitWhenFull
            case Waits => !closed && |q| >= c.depth && c.waitWhenFull && !Short(c, t, now)
            case Expires => closed || (|q| >= c.depth && c.waitWhenFull && Short(c, t, now))
  {
  }

  /** A waiting call enters when there is room in an open pool, even past its time; gives up when the pool
      closes or its time is up with no room; and otherwise takes out what has expired, or sleeps. */
  lemma WaitDecides(c: Config, q: seq<Task>, closed: bool, timedOut: bool, now: int)
    ensures match WaitOutcome(c, q, closed, timedOut, now)
            case Entered => !closed && |q| < c.depth
            case GivesUp => closed || (|q| >= c.depth && timedOut)
            case Around => !closed && |q| >= c.depth && !timedOut && exists t :: t in q && Short(c, t, now)
            case Rests => !closed && |q| >= c.depth && !timedOut && forall t | t in q :: !Short(c, t, now)
  {
    hide Kept, Dead;
    KeptAndDead(c, q, now);
    if Dead(c, q, now) != [] {
      assert Dead(c, q, now)[0] in Dead(c, q, now);
    }
  }

  lemma KeptShorter(c: Config, q: seq<Task>, now: int)
    ensures |Kept(c, q, now)| <= |q|
  {
  }

  /** The first i tasks are parted into those in time and the others. */
  ghost predicate Sorted(c: Config, q: seq<Task>, i: nat, now: int, front: seq<Task>, dead: seq<Task>)
    requires i <= |q|
  {
    front == Kept(c, q[..i], now) && dead == Dead(c, q[..i], now)
  }

  lemma NothingSorted(c: Config, q: seq<Task>, now: int)
    ensures Sorted(c, q, 0, now, [], [])
  {
  }

  lemma OneMoreSorted(c: Config, q: seq<Task>, i: nat, now: int, front: seq<Task>, dead: seq<Task>)
    requires i < |q| && Sorted(c, q, i, now, front, dead)
    ensures if Late(c, q[i], now) then Sorted(c, q, i + 1, now, front, dead + [q[i]])
            else Sorted(c, q, i + 1, now, front + [q[i]], dead)
  {
    hide Kept, Dead, Late;
    KeptStep(c, q, i, now);
  }

  lemma AllSorted(c: Config, q: seq<Task>, now: int, front: seq<Task>, dead: seq<Task>)
    requires Sorted(c, q, |q|, now, front, dead)
    ensures front == Kept(c, q, now) && dead == Dead(c, q, now)
  {
    assert q[..|q|] == q;
  }

  lemma KeptStep(c: Config, q: seq<Task>, i: nat, now: int)
    requires i < |q|
    ensures Kept(c, q[..i + 1], now) == Kept(c, q[..i], now) + if Late(c, q[i], now) then [] else [q[i]]
    ensures Dead(c, q[..i + 1], now) == Dead(c, q[..i], now) + if Late(c, q[i], now) then [q[i]] else []
  {
    assert q[..i + 1][..i] == q[..i];
  }

  /** The pool's shared part. The queue is a window of a backing array: head removal moves the
      window, compaction rewrites it from its own start, and appending past the array's end moves
      to a larger one. */
  class Pool {
    const c: Config
    var buf: array<Task>
    var off: nat
    var len: nat
    var closed: bool
    var accepted: nat

    ghost predicate Valid()
      reads this
    {
      off + len <= buf.Length
    }

    ghost function Contents(): seq<Task>
      reads this, buf
      requires Valid()
    {
      buf[off..off + len]
    }

    constructor (c: Config)
      ensures Valid() && Contents() == [] && this.c == c && !closed && accepted == 0 && fresh(buf)
    {
      this.c := c;
      buf := new Task[c.depth](i => Task(0, 0, 0));
      off, len, closed, accepted := 0, 0, false, 0;
    }

    method Append(t: Task)
      requires Valid()
      modifies this`buf, this`off, this`len, buf
      ensures Valid() && Contents() == old(Contents()) + [t]
      ensures buf == old(buf) || fresh(buf)
    {
      if off + len == buf.Length {
        var was := buf[off..off + len];
        var bigger := new Task[2 * len + 1](i => if 0 <= i < |was| then was[i] else t);
        assert bigger[..len] == was;
        buf, off := bigger, 0;
      }
      buf[off + len] := t;
      len := len + 1;
    }

    method PopHead() returns (t: Task)
      requires Valid() && Contents() != []
      modifies this`off, this`len
      ensures Valid() && t == old(Contents()[0]) && Contents() == old(Contents()[1..])
    {
      t := buf[off];
      off, len := off + 1, len - 1;
    }

    /** Compacts the unexpired tasks to the front of the window and hands out the others. */
    method TakeExpired(now: int) returns (dead: seq<Task>)
      requires Valid()
      modifies this`len, buf
      ensures Valid() && Contents() == Kept(c, old(Contents()), now)
      ensures dead == Dead(c, old(Contents()), now)
    {
      hide Kept, Dead, Late, Left, Sorted;
      ghost var q := Contents();
      var b, o, n := buf, off, len;
      ghost var front: seq<Task> := [];
      var kept := 0;
      dead := [];
      NothingSorted(c, q, now);
      for i := 0 to n
        invariant kept == |front| <= i
        invariant Sorted(c, q, i, now, front, dead)
        invariant forall j | o <= j < o + kept :: b[j] == front[j - o]
        invariant forall j | o + i <= j < o + n :: b[j] == q[j - o]
      {
        var t := b[o + i];
        OneMoreSorted(c, q, i, now, front, dead);
        if Late(c, t, now) {
          dead := dead + [t];
        } else {
          b[o + kept] := t;
          kept := kept + 1;
          front := front + [t];
        }
      }
      AllSorted(c, q, now, front, dead);
      len := kept;
      assert b[o..o + kept] == front;
    }

    /** One turn of pop under the lock: the expired go first, then the head, if any. */
    method Pop(now: int) returns (r: PopTurn, dead: seq<Task>)
      requires Valid()
      modifies this`off, this`len, buf
      ensures Valid() && r == PopOutcome(c, old(Contents()), closed, now)
      ensures dead == Dead(c, old(Contents()), now)
      ensures Contents() == var kept := Kept(c, old(Contents()), now); if r.Took? then kept[1..] else kept
    {
      hide Kept, Dead;
      dead := TakeExpired(now);
      if len > 0 {
        var t := PopHead();
        return Took(t), dead;
      }
      if closed { return Quit, dead; }
      if |dead| > 0 { return Again, dead; }
      return Sleep, dead;
    }

    /** Submit's critical section, up to the point where it waits. */
    method Admit(t: Task, now: int) returns (r: Admission)
      requires Valid()
      modifies this`buf, this`off, this`len, this`accepted, buf
      ensures Valid() && r == AdmitOutcome(c, old(Contents()), closed, t, now)
      ensures Contents() == old(Contents()) + if r.Enqueued? then [t] else []
      ensures accepted == old(accepted) + if r.Enqueued? then 1 else 0
      ensures old(|Contents()|) <= c.depth ==> |Contents()| <= c.depth
    {
      if closed { return Expires; }
      if len < c.depth {
        Append(t);
        accepted := accepted + 1;
        return Enqueued;
      }
      if !c.waitWhenFull { return Sheds; }
      return if Late(c, t, now) then Expires else Waits;
    }

    /** One turn of the loop of submitWaitLocked, or what follows the loop. */
    method Wait(t: Task, timedOut: bool, now: int) returns (r: WaitEnd, dead: seq<Task>)
      requires Valid()
      modifies this`buf, this`off, this`len, this`accepted, buf
      ensures Valid() && r == WaitOutcome(c, old(Contents()), closed, timedOut, now)
      ensures dead == if r.Around? then Dead(c, old(Contents()), now) else []
      ensures Contents() == match r
                            case Entered => old(Contents()) + [t]
                            case Around => Kept(c, old(Contents()), now)
                            case _ => old(Contents())
      ensures accepted == old(accepted) + if r.Entered? then 1 else 0
      ensures old(|Contents()|) <= c.depth ==> |Contents()| <= c.depth
    {
      hide Kept, Dead;
      dead := [];
      if len >= c.depth && !timedOut && !closed {
        ghost var q := Contents();
        KeptAndDead(c, q, now);
        KeptShorter(c, q, now);
        dead := TakeExpired(now);
        return if |dead| > 0 then Around else Rests, dead;
      }
      if closed { return GivesUp, dead; }
      if len < c.depth {
        Append(t);
        accepted := accepted + 1;
        return Entered, dead;
      }
      return GivesUp, dead;
    }
  }
}
