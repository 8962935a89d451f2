/** The per-player status controller: the status flags and the queue of
    effects waiting for a later turn. */
module Scheduler {

  /** Every delayed effect the cards schedule. Each acts on the controller
      whose queue holds it. */
  datatype Effect =
    | ClearGuard
    | SetStun | ClearStun
    | SetFixed | ClearFixed
    | EnableCombi | DisableCombi

  /** A queued effect: the turn it fires at and its sequence number. */
  datatype Entry = Entry(turn: int, order: int, effect: Effect)

  /** The order entries leave the queue in: by turn, then by sequence number. */
  predicate Before(a: Entry, b: Entry)
  {
    a.turn < b.turn || (a.turn == b.turn && a.order < b.order)
  }

  ghost predicate Sorted(q: seq<Entry>)
  {
    forall i, j :: 0 <= i < j < |q| ==> Before(q[i], q[j])
  }

  /** Every sequence number in the queue has already been handed out. */
  ghost predicate OrdersAtMost(q: seq<Entry>, n: int)
  {
    forall e :: e in q ==> e.order <= n
  }

  /** The armed Counter card, if any, with its one-shot flag. */
  datatype CounterOn = Off | On(triggered: bool)

  /** The four status flags the queued effects switch on and off. */
  datatype Flags = Flags(guarded: bool, stunned: bool, fixed: bool, combiBuff: bool)

  datatype Control = Control(flags: Flags, counterOn: CounterOn, queue: seq<Entry>)

  /** A fresh controller: no status, no Counter, nothing queued. */
  const Idle: Control := Control(Flags(false, false, false, false), Off, [])

  function ApplyEffect(f: Flags, e: Effect): (f': Flags)
    ensures f'.guarded == (f.guarded && e != ClearGuard)
    ensures f'.stunned == (e == SetStun || (f.stunned && e != ClearStun))
    ensures f'.fixed == (e == SetFixed || (f.fixed && e != ClearFixed))
    ensures f'.combiBuff == (e == EnableCombi || (f.combiBuff && e != DisableCombi))
  {
    match e
    case ClearGuard => f.(guarded := false)
    case SetStun => f.(stunned := true)
    case ClearStun => f.(stunned := false)
    case SetFixed => f.(fixed := true)
    case ClearFixed => f.(fixed := false)
    case EnableCombi => f.(combiBuff := true)
    case DisableCombi => f.(combiBuff := false)
  }

  /** Runs the effects of `es` one after the other. */
  function ApplyEffects(f: Flags, es: seq<Entry>): Flags
    decreases |es|
  {
    if es == [] then f else ApplyEffects(ApplyEffect(f, es[0].effect), es[1..])
  }

  /** The entries an update at turn `now` pops: the longest prefix of the
      queue whose trigger turns are at most `now`. */
  function Due(q: seq<Entry>, now: int): (d: seq<Entry>)
    ensures |d| <= |q| && d == q[..|d|]
    ensures forall i :: 0 <= i < |d| ==> d[i].turn <= now
    ensures |d| < |q| ==> q[|d|].turn > now
  {
    if q == [] || q[0].turn > now then [] else [q[0]] + Due(q[1..], now)
  }

  /** The entries that stay queued after an update at turn `now`. */
  function Pending(q: seq<Entry>, now: int): seq<Entry>
  {
    q[|Due(q, now)|..]
  }

  /** The controller after `update(now)`: while the front entry is due, pop
      it and run its effect. */
  function Updated(c: Control, now: int): Control
    decreases |c.queue|
  {
    if c.queue == [] || c.queue[0].turn > now then c
    else Updated(c.(flags := ApplyEffect(c.flags, c.queue[0].effect), queue := c.queue[1..]), now)
  }

  /** After an update nothing due is left at the front, only a suffix of the
      queue remains, and the Counter is untouched. */
  lemma {:induction false} UpdatedLeavesNothingDue(c: Control, now: int)
    ensures Updated(c, now).counterOn == c.counterOn
    ensures var q' := Updated(c, now).queue;
      |q'| <= |c.queue| && q' == c.queue[|c.queue| - |q'|..]
    ensures var q' := Updated(c, now).queue;
      q' == [] || q'[0].turn > now
    decreases |c.queue|
  {
    if c.queue != [] && c.queue[0].turn <= now {
      var c1 := c.(flags := ApplyEffect(c.flags, c.queue[0].effect), queue := c.queue[1..]);
      UpdatedLeavesNothingDue(c1, now);
      var q' := Updated(c1, now).queue;
      assert c.queue[|c.queue| - |q'|..] == c.queue[1..][|c.queue[1..]| - |q'|..];
    }
  }

  /** The queue after pushing `e`: it goes in front of the first entry that
      leaves the queue after it. */
  function Insert(q: seq<Entry>, e: Entry): (r: seq<Entry>)
    ensures |r| == |q| + 1
  {
    if q == [] || Before(e, q[0]) then [e] + q else [q[0]] + Insert(q[1..], e)
  }

  /** Pushing adds exactly the new entry and loses nothing. */
  lemma {:induction false} InsertContents(q: seq<Entry>, e: Entry)
    ensures multiset(Insert(q, e)) == multiset(q) + multiset{e}
    ensures forall x :: x in Insert(q, e) <==> x in q || x == e
  {
    if q != [] && !Before(e, q[0]) {
      InsertContents(q[1..], e);
      assert q == [q[0]] + q[1..];
    }
  }

  /** The controller after `schedule(turn, effect)` draws sequence number `order`. */
  function Scheduled(c: Control, turn: int, effect: Effect, order: int): Control
  {
    c.(queue := Insert(c.queue, Entry(turn, order, effect)))
  }

  /** In a sorted queue every entry behind the due prefix is for a later turn. */
  lemma LaterThanDue(q: seq<Entry>, now: int)
    requires Sorted(q)
    ensures forall j :: |Due(q, now)| <= j < |q| ==> q[j].turn > now
  {
    var k := |Due(q, now)|;
    forall j | k <= j < |q|
      ensures q[j].turn > now
    {
      if j > k {
        assert Before(q[k], q[j]);
      }
    }
  }

  lemma DueMember(q: seq<Entry>, now: int, e: Entry)
    requires Sorted(q) && e in q
    requires forall j :: |Due(q, now)| <= j < |q| ==> q[j].turn > now
    ensures e in Due(q, now) <==> e.turn <= now
    ensures e in Pending(q, now) <==> e.turn > now
  {
    var d, p := Due(q, now), Pending(q, now);
    var k := |d|;
    var j :| 0 <= j < |q| && q[j] == e;
    if j < k {
      assert d[j] == e;
      assert e !in p by {
        forall i | 0 <= i < |p| ensures p[i] != e {
          assert p[i] == q[k + i];
        }
      }
    } else {
      assert p[j - k] == e;
      assert e !in d by {
        forall i | 0 <= i < |d| ensures d[i] != e {
          assert d[i] == q[i];
        }
      }
    }
  }

  /** An update splits a sorted queue exactly by trigger turn: it pops every
      entry due by `now` and nothing else, in queue order, and keeps the
      rest in queue order. */
  lemma DueSplitsQueue(q: seq<Entry>, now: int)
    requires Sorted(q)
    ensures Due(q, now) + Pending(q, now) == q
    ensures forall e :: e in q ==> (e in Due(q, now) <==> e.turn <= now)
    ensures forall e :: e in q ==> (e in Pending(q, now) <==> e.turn > now)
    ensures Sorted(Due(q, now)) && Sorted(Pending(q, now))
  {
    LaterThanDue(q, now);
    forall e | e in q
      ensures e in Due(q, now) <==> e.turn <= now
      ensures e in Pending(q, now) <==> e.turn > now
    {
      DueMember(q, now, e);
    }
  }

  /** An update leaves exactly the entries that are not yet due and runs
      exactly the due ones, front first. */
  lemma {:induction false} UpdatedRunsDue(c: Control, now: int)
    ensures Updated(c, now)
         == c.(flags := ApplyEffects(c.flags, Due(c.queue, now)), queue := Pending(c.queue, now))
    decreases |c.queue|
  {
    var q := c.queue;
    if q != [] && q[0].turn <= now {
      var d := Due(q[1..], now);
      UpdatedRunsDue(c.(flags := ApplyEffect(c.flags, q[0].effect), queue := q[1..]), now);
      assert Due(q, now) == [q[0]] + d;
      assert Pending(q, now) == Pending(q[1..], now);
      assert ([q[0]] + d)[1..] == d;
    }
  }

  /** Entries of a sorted queue are pairwise distinct, so a popped entry
      is never popped again. */
  lemma {:induction false} SortedHasNoRepeats(q: seq<Entry>, e: Entry)
    requires Sorted(q) && e in q
    ensures multiset(q)[e] == 1
    ensures forall i, j :: 0 <= i < j < |q| ==> q[i] != q[j]
  {
    if q[0] == e {
      assert e !in q[1..];
      assert q == [q[0]] + q[1..];
    } else {
      SortedHasNoRepeats(q[1..], e);
      assert q == [q[0]] + q[1..];
    }
  }

  /** With a fresh sequence number, a pushed entry lands after every entry
      due by its own turn and before the rest: FIFO within a turn. */
  lemma {:induction false} InsertSplits(q: seq<Entry>, e: Entry)
    requires Sorted(q)
    requires forall x :: x in q ==> x.order < e.order
    ensures Insert(q, e) == Due(q, e.turn) + [e] + Pending(q, e.turn)
  {
    if q == [] {
    } else if Before(e, q[0]) {
      assert q[0] in q;
      assert Due(q, e.turn) == [];
    } else {
      assert forall x :: x in q[1..] ==> x in q;
      InsertSplits(q[1..], e);
      assert Due(q, e.turn) == [q[0]] + Due(q[1..], e.turn);
      assert Pending(q, e.turn) == Pending(q[1..], e.turn);
    }
  }

  /** With a fresh sequence number, a push keeps the queue sorted. */
  lemma {:induction false} InsertKeepsSorted(q: seq<Entry>, e: Entry)
    requires Sorted(q)
    requires forall x :: x in q ==> x.order < e.order
    ensures Sorted(Insert(q, e))
  {
    if q != [] && !Before(e, q[0]) {
      var rest := Insert(q[1..], e);
      assert forall x :: x in q[1..] ==> x in q;
      InsertKeepsSorted(q[1..], e);
      InsertContents(q[1..], e);
      assert q[0] in q;
      forall j | 0 <= j < |rest|
        ensures Before(q[0], rest[j])
      {
        assert rest[j] in rest;
        if rest[j] != e {
          var i :| 0 <= i < |q[1..]| && q[1..][i] == rest[j];
          assert Before(q[0], q[i + 1]);
        }
      }
    }
  }

  /** The guard survives a batch of effects exactly when it held before and
      none of them is a ClearGuard. */
  lemma {:induction false} GuardSurvivesUnlessCleared(f: Flags, es: seq<Entry>)
    ensures ApplyEffects(f, es).guarded
        <==> f.guarded && forall i :: 0 <= i < |es| ==> es[i].effect != ClearGuard
    decreases |es|
  {
    if es != [] {
      GuardSurvivesUnlessCleared(ApplyEffect(f, es[0].effect), es[1..]);
      assert forall i :: 1 <= i < |es| ==> es[i] == es[1..][i - 1];
    }
  }

  /** The status controller of one player (`ControlM`). */
  class ControlM {
    var guarded: bool
    var stunned: bool
    var fixed: bool
    var combiBuff: bool
    var counterOn: CounterOn
    var queue: seq<Entry>

    function View(): Control
      reads this
    {
      Control(Flags(guarded, stunned, fixed, combiBuff), counterOn, queue)
    }

    constructor()
      ensures View() == Idle
    {
      guarded, stunned, fixed, combiBuff := false, false, false, false;
      counterOn := Off;
      queue := [];
    }

    /** Queues `effect` for `turn` under sequence number `order`. */
    method Schedule(turn: int, effect: Effect, order: int)
      modifies this
      ensures View() == Scheduled(old(View()), turn, effect, order)
    {
      var e := Entry(turn, order, effect);
      var k := 0;
      while k < |queue| && !Before(e, queue[k])
        invariant 0 <= k <= |queue|
        invariant Insert(queue, e) == queue[..k] + Insert(queue[k..], e)
      {
        assert queue[k..] == [queue[k]] + queue[k + 1..];
        k := k + 1;
      }
      queue := queue[..k] + [e] + queue[k..];
    }

    method RunEffect(e: Effect)
      modifies this
      ensures View() == old(View()).(flags := ApplyEffect(old(View()).flags, e))
    {
      match e
      case ClearGuard => guarded := false;
      case SetStun => stunned := true;
      case ClearStun => stunned := false;
      case SetFixed => fixed := true;
      case ClearFixed => fixed := false;
      case EnableCombi => combiBuff := true;
      case DisableCombi => combiBuff := false;
    }

    /** Pops and runs every entry due by `now`, front first. */
    method Update(now: int)
      modifies this
      ensures View() == Updated(old(View()), now)
    {
      while queue != [] && queue[0].turn <= now
        invariant Updated(View(), now) == Updated(old(View()), now)
        decreases |queue|
      {
        var e := queue[0];
        queue := queue[1..];
        RunEffect(e.effect);
      }
    }
  }
}
