/**
 * The one-shot gate: waiters suspend until someone opens it, once and for all.
 * Two implementations, one on a lock and one on an actor, and the abstract gate
 * they both refine.
 */
module OneShotGate {
  import opened Wrappers

  // ---- the abstract gate ---------------------------------------------------

  datatype Abstract = Abstract(open: bool, waiting: set<nat>, released: set<nat>)

  datatype Act = Arrive(waiter: nat) | Open | Release(waiter: nat)

  predicate CanTake(a: Abstract, act: Act) {
    match act
    case Arrive(w) => w !in a.waiting && w !in a.released
    case Open => true
    case Release(w) => a.open && w in a.waiting
  }

  function Take(a: Abstract, act: Act): Abstract {
    match act
    case Arrive(w) => a.(waiting := a.waiting + {w})
    case Open => a.(open := true)
    case Release(w) => a.(waiting := a.waiting - {w}, released := a.released + {w})
  }

  /** `labels` can be taken one after the other from `a`, ending in `b`. */
  predicate Path(a: Abstract, labels: seq<Act>, b: Abstract)
    decreases |labels|
  {
    if labels == [] then a == b
    else CanTake(a, labels[0]) && Path(Take(a, labels[0]), labels[1..], b)
  }

  lemma {:induction false} PathsJoin(a: Abstract, p: seq<Act>, b: Abstract, q: seq<Act>, c: Abstract)
    requires Path(a, p, b) && Path(b, q, c)
    ensures Path(a, p + q, c)
    decreases |p|
  {
    if p == [] {
      assert p + q == q;
    } else {
      assert (p + q)[1..] == p[1..] + q;
      PathsJoin(Take(a, p[0]), p[1..], b, q, c);
    }
  }

  // ---- the gate on a lock ---------------------------------------------------

  /** Where a thread stands in `wait()`; from `Holding` to just before the unlock it owns the lock. */
  datatype WaiterPc = Calling | Holding | Passing | Queued | Resuming | Suspended | Passed

  /** Where a thread stands in `open()`; `Draining` carries the continuations it took. */
  datatype OpenerPc =
    | Idle
    | Locked
    | Opened
    | Copied(list: seq<nat>)
    | Taken(list: seq<nat>)
    | Draining(list: seq<nat>)

  datatype Thread = Waiter(id: nat) | Opener(id: nat)

  /** Shared fields, the lock's owner, every thread's position, and each continuation's resumes. */
  datatype Gate = Gate(
    isOpen: bool,
    waiting: seq<nat>,
    owner: Option<Thread>,
    waiters: seq<WaiterPc>,
    openers: seq<OpenerPc>,
    resumed: multiset<nat>)

  function Initial(waiters: nat, openers: nat): Gate {
    Gate(false, [], None, seq(waiters, _ => Calling), seq(openers, _ => Idle), multiset{})
  }

  function WaiterStep(g: Gate, w: nat): Option<Gate>
    requires w < |g.waiters|
  {
    match g.waiters[w]
    case Calling =>
      if g.owner.Some? then None
      else Some(g.(owner := Some(Waiter(w)), waiters := g.waiters[w := Holding]))
    case Holding =>
      if g.isOpen then Some(g.(waiters := g.waiters[w := Passing]))
      else Some(g.(waiting := g.waiting + [w], waiters := g.waiters[w := Queued]))
    case Passing => Some(g.(owner := None, waiters := g.waiters[w := Resuming]))
    case Queued => Some(g.(owner := None, waiters := g.waiters[w := Suspended]))
    case Resuming => Some(g.(resumed := g.resumed + multiset{w}, waiters := g.waiters[w := Passed]))
    case Suspended | Passed => None
  }

  function OpenerStep(g: Gate, o: nat): Option<Gate>
    requires o < |g.openers|
  {
    match g.openers[o]
    case Idle =>
      if g.owner.Some? then None
      else Some(g.(owner := Some(Opener(o)), openers := g.openers[o := Locked]))
    case Locked => Some(g.(isOpen := true, openers := g.openers[o := Opened]))
    case Opened => Some(g.(openers := g.openers[o := Copied(g.waiting)]))
    case Copied(list) => Some(g.(waiting := [], openers := g.openers[o := Taken(list)]))
    case Taken(list) => Some(g.(owner := None, openers := g.openers[o := Draining(list)]))
    case Draining(list) =>
      if list == [] then None
      else Some(g.(resumed := g.resumed + multiset{list[0]}, openers := g.openers[o := Draining(list[1..])]))
  }

  function Step(g: Gate, t: Thread): Option<Gate> {
    match t
    case Waiter(w) => if w < |g.waiters| then WaiterStep(g, w) else None
    case Opener(o) => if o < |g.openers| then OpenerStep(g, o) else None
  }

  /** Any schedule; a thread that is blocked or done loses its turn. */
  function Run(g: Gate, schedule: seq<Thread>): Gate
    decreases |schedule|
  {
    if schedule == [] then g
    else Run(match Step(g, schedule[0]) case None => g case Some(g') => g', schedule[1..])
  }

  // -- where every continuation is --

  function Count(list: seq<nat>, w: nat): nat {
    multiset(list)[w]
  }

  function Private(pc: OpenerPc, w: nat): nat {
    if pc.Taken? || pc.Draining? then Count(pc.list, w) else 0
  }

  function AllPrivate(openers: seq<OpenerPc>, w: nat): nat {
    if openers == [] then 0 else Private(openers[0], w) + AllPrivate(openers[1..], w)
  }

  /** In how many places waiter `w`'s continuation is. */
  function Places(g: Gate, w: nat): nat {
    Count(g.waiting, w) + AllPrivate(g.openers, w) + g.resumed[w]
  }

  /** The waiter's continuation has left its own hands. */
  predicate HandedOver(pc: WaiterPc) {
    pc.Queued? || pc.Suspended? || pc.Passed?
  }

  predicate OwnsLock(g: Gate, t: Thread) {
    match t
    case Waiter(w) => w < |g.waiters| && (g.waiters[w].Holding? || g.waiters[w].Passing? || g.waiters[w].Queued?)
    case Opener(o) => o < |g.openers| && !g.openers[o].Idle? && !g.openers[o].Draining?
  }

  /** The opener that owns the lock has opened the gate but not yet emptied the waiting list. */
  predicate Emptying(g: Gate) {
    && g.owner.Some? && g.owner.value.Opener? && g.owner.value.id < |g.openers|
    && (g.openers[g.owner.value.id].Opened? || g.openers[g.owner.value.id].Copied?)
  }

  /** One thread at most is between its lock and its unlock, and the lock knows which. */
  ghost predicate Exclusive(g: Gate) {
    forall t: Thread :: OwnsLock(g, t) <==> g.owner == Some(t)
  }

  /** Every handed-over continuation is in exactly one place, once: waiting, taken by one opener, or resumed. */
  ghost predicate Conserved(g: Gate) {
    forall w: nat :: Places(g, w) == if w < |g.waiters| && HandedOver(g.waiters[w]) then 1 else 0
  }

  /** Once the gate is open, only the opener about to empty the waiting list leaves anyone in it. */
  ghost predicate Emptied(g: Gate) {
    && (g.isOpen && g.waiting != [] ==> Emptying(g))
    && (forall o: nat | o < |g.openers| && g.openers[o].Copied? :: g.openers[o].list == g.waiting)
    && (forall o: nat | o < |g.openers| :: !g.openers[o].Idle? && !g.openers[o].Locked? ==> g.isOpen)
  }

  /** Nothing gets past a closed gate. */
  ghost predicate Closed(g: Gate) {
    && (forall w: nat | w < |g.waiters| ::
          g.waiters[w].Passing? || g.waiters[w].Resuming? || g.waiters[w].Passed? ==> g.isOpen)
    && (forall w: nat | w in g.resumed :: g.isOpen)
    && (g.isOpen ==> g.openers != [])
  }

  ghost predicate Inv(g: Gate) {
    Exclusive(g) && Conserved(g) && Emptied(g) && Closed(g)
  }

  lemma {:induction false} AllPrivateOfUpdate(openers: seq<OpenerPc>, o: nat, pc: OpenerPc, w: nat)
    requires o < |openers|
    ensures AllPrivate(openers[o := pc], w) + Private(openers[o], w) == AllPrivate(openers, w) + Private(pc, w)
  {
    if o == 0 {
      assert openers[0 := pc][1..] == openers[1..];
    } else {
      assert openers[o := pc][1..] == openers[1..][o - 1 := pc];
      AllPrivateOfUpdate(openers[1..], o - 1, pc, w);
    }
  }

  lemma StepKeepsExclusive(g: Gate, t: Thread)
    requires Exclusive(g) && Step(g, t).Some?
    ensures Exclusive(Step(g, t).value)
  {
    var g' := Step(g, t).value;
    assert OwnsLock(g, t) <==> g.owner == Some(t);
    forall u: Thread ensures OwnsLock(g', u) <==> g'.owner == Some(u) {
      assert OwnsLock(g, u) <==> g.owner == Some(u);
    }
  }

  lemma CountOneMore(s: seq<nat>, w: nat, v: nat)
    ensures Count(s + [w], v) == Count(s, v) + if v == w then 1 else 0
  {
  }

  lemma WaiterMoves(g: Gate, w: nat, v: nat)
    requires w < |g.waiters| && WaiterStep(g, w).Some?
    ensures Places(WaiterStep(g, w).value, v)
         == Places(g, v)
          + if v == w && ((g.waiters[w].Holding? && !g.isOpen) || g.waiters[w].Resuming?) then 1 else 0
  {
    CountOneMore(g.waiting, w, v);
  }

  lemma WaiterKeepsConserved(g: Gate, w: nat)
    requires Conserved(g) && w < |g.waiters| && WaiterStep(g, w).Some?
    ensures Conserved(WaiterStep(g, w).value)
  {
    var g' := WaiterStep(g, w).value;
    forall v: nat
      ensures Places(g', v) == if v < |g'.waiters| && HandedOver(g'.waiters[v]) then 1 else 0
    {
      WaiterMoves(g, w, v);
    }
  }

  lemma FirstAndRest(s: seq<nat>, w: nat)
    requires s != []
    ensures Count(s, w) == Count(s[1..], w) + if s[0] == w then 1 else 0
  {
    assert s == [s[0]] + s[1..];
  }

  /** A continuation moves from one place to another without being lost or copied. */
  lemma OpenerMoves(g: Gate, o: nat, v: nat)
    requires Emptied(g) && o < |g.openers| && OpenerStep(g, o).Some?
    ensures Places(OpenerStep(g, o).value, v) == Places(g, v)
  {
    var pc, pc' := g.openers[o], OpenerStep(g, o).value.openers[o];
    AllPrivateOfUpdate(g.openers, o, pc', v);
    if pc.Draining? {
      FirstAndRest(pc.list, v);
    }
  }

  lemma OpenerKeepsConserved(g: Gate, o: nat)
    requires Conserved(g) && Emptied(g) && o < |g.openers| && OpenerStep(g, o).Some?
    ensures Conserved(OpenerStep(g, o).value)
  {
    var g' := OpenerStep(g, o).value;
    forall v: nat
      ensures Places(g', v) == if v < |g'.waiters| && HandedOver(g'.waiters[v]) then 1 else 0
    {
      OpenerMoves(g, o, v);
      assert Places(g, v) == if v < |g.waiters| && HandedOver(g.waiters[v]) then 1 else 0;
    }
  }

  lemma WaiterKeepsEmptied(g: Gate, w: nat)
    requires Exclusive(g) && Emptied(g) && w < |g.waiters| && WaiterStep(g, w).Some?
    ensures Emptied(WaiterStep(g, w).value)
  {
    var g' := WaiterStep(g, w).value;
    assert OwnsLock(g, Waiter(w)) <==> g.owner == Some(Waiter(w));
    if g.waiters[w] == Holding {
      forall o: nat | o < |g.openers| && g.openers[o].Copied? ensures false {
        assert OwnsLock(g, Opener(o));
      }
    }
  }

  lemma OpenerKeepsEmptied(g: Gate, o: nat)
    requires Exclusive(g) && Emptied(g) && o < |g.openers| && OpenerStep(g, o).Some?
    ensures Emptied(OpenerStep(g, o).value)
  {
    var g' := OpenerStep(g, o).value;
    assert OwnsLock(g, Opener(o)) <==> g.owner == Some(Opener(o));
    forall p: nat | p < |g.openers| && g'.openers[p].Copied? ensures g'.openers[p].list == g'.waiting {
      assert OwnsLock(g, Opener(p)) <==> g.owner == Some(Opener(p));
    }
  }

  lemma StepKeepsClosed(g: Gate, t: Thread)
    requires Conserved(g) && Emptied(g) && Closed(g) && Step(g, t).Some?
    ensures Closed(Step(g, t).value)
  {
  }

  lemma StepKeepsInv(g: Gate, t: Thread)
    requires Inv(g) && Step(g, t).Some?
    ensures Inv(Step(g, t).value)
  {
    StepKeepsExclusive(g, t);
    StepKeepsClosed(g, t);
    match t {
      case Waiter(w) =>
        WaiterKeepsConserved(g, w);
        WaiterKeepsEmptied(g, w);
      case Opener(o) =>
        OpenerKeepsConserved(g, o);
        OpenerKeepsEmptied(g, o);
    }
  }

  lemma {:induction false} NothingPrivateYet(openers: nat, w: nat)
    ensures AllPrivate(seq(openers, _ => Idle), w) == 0
  {
    if openers > 0 {
      assert seq(openers, _ => Idle)[1..] == seq(openers - 1, _ => Idle);
      NothingPrivateYet(openers - 1, w);
    }
  }

  lemma InitialInv(waiters: nat, openers: nat)
    ensures Inv(Initial(waiters, openers))
  {
    forall w: nat ensures Places(Initial(waiters, openers), w) == 0 {
      NothingPrivateYet(openers, w);
    }
  }

  lemma {:induction false} RunKeepsInv(g: Gate, schedule: seq<Thread>)
    requires Inv(g)
    ensures Inv(Run(g, schedule))
    decreases |schedule|
  {
    if schedule != [] {
      match Step(g, schedule[0]) {
        case None => RunKeepsInv(g, schedule[1..]);
        case Some(g') =>
          StepKeepsInv(g, schedule[0]);
          RunKeepsInv(g', schedule[1..]);
      }
    }
  }

  // -- what the invariant means for the waiters --

  lemma ResumedAtMostOnce(g: Gate, w: nat)
    requires Inv(g)
    ensures g.resumed[w] <= 1
    ensures g.resumed[w] == 1 ==> w !in g.waiting && AllPrivate(g.openers, w) == 0
  {
    assert Places(g, w) <= 1;
    assert w in g.waiting ==> Count(g.waiting, w) > 0;
  }

  predicate OpenersDone(g: Gate) {
    forall o: nat | o < |g.openers| :: g.openers[o] == Draining([])
  }

  lemma {:induction false} NothingPrivateAnyMore(openers: seq<OpenerPc>, w: nat)
    requires forall o: nat | o < |openers| :: openers[o] == Draining([])
    ensures AllPrivate(openers, w) == 0
  {
    if openers != [] {
      NothingPrivateAnyMore(openers[1..], w);
    }
  }

  /** Once every opener has finished, whoever handed over a continuation has been resumed exactly once. */
  lemma NobodyLeftSuspended(g: Gate, w: nat)
    requires Inv(g) && |g.openers| > 0 && OpenersDone(g)
    requires w < |g.waiters| && HandedOver(g.waiters[w])
    ensures g.isOpen && g.waiting == [] && g.resumed[w] == 1
  {
    assert g.openers[0] == Draining([]);
    NothingPrivateAnyMore(g.openers, w);
    assert Places(g, w) == 1;
  }

  ghost predicate Stuck(g: Gate) {
    forall t: Thread :: Step(g, t) == None
  }

  lemma OwnerCanMove(g: Gate)
    requires Exclusive(g) && g.owner.Some?
    ensures Step(g, g.owner.value).Some?
  {
    assert OwnsLock(g, g.owner.value);
  }

  /**
   * No deadlock: when no thread can move, every `open` has returned and every `wait` has returned
   * or awaits an opener that never came.
   */
  lemma StuckMeansFinished(g: Gate)
    requires Inv(g) && Stuck(g)
    ensures OpenersDone(g)
    ensures forall w: nat | w < |g.waiters| ::
              && HandedOver(g.waiters[w])
              && (if |g.openers| > 0 then g.resumed[w] == 1 else g.waiters[w] == Suspended && w in g.waiting)
  {
    if g.owner.Some? {
      OwnerCanMove(g);
    }
    forall o: nat | o < |g.openers| ensures g.openers[o] == Draining([]) {
      assert Step(g, Opener(o)) == None && !OwnsLock(g, Opener(o));
    }
    forall w: nat | w < |g.waiters|
      ensures HandedOver(g.waiters[w])
      ensures if |g.openers| > 0 then g.resumed[w] == 1 else g.waiters[w] == Suspended && w in g.waiting
    {
      assert Step(g, Waiter(w)) == None && !OwnsLock(g, Waiter(w));
      if |g.openers| > 0 {
        NobodyLeftSuspended(g, w);
      } else {
        assert Places(g, w) == 1 && !g.isOpen && w !in g.resumed;
        assert Count(g.waiting, w) == 1;
      }
    }
  }

  // -- every schedule runs out of steps --

  function WaiterRank(pc: WaiterPc): nat {
    match pc
    case Calling => 5
    case Holding => 4
    case Passing => 3
    case Queued => 2
    case Resuming => 1
    case Suspended | Passed => 0
  }

  function OpenerRank(pc: OpenerPc): nat {
    match pc
    case Idle => 5
    case Locked => 4
    case Opened => 3
    case Copied(_) => 2
    case Taken(list) => 1 + |list|
    case Draining(list) => |list|
  }

  function WaiterRanks(waiters: seq<WaiterPc>): nat {
    if waiters == [] then 0 else WaiterRank(waiters[0]) + WaiterRanks(waiters[1..])
  }

  function OpenerRanks(openers: seq<OpenerPc>): nat {
    if openers == [] then 0 else OpenerRank(openers[0]) + OpenerRanks(openers[1..])
  }

  function StepsLeft(g: Gate): nat {
    |g.waiting| + WaiterRanks(g.waiters) + OpenerRanks(g.openers)
  }

  lemma {:induction false} WaiterRanksOfUpdate(waiters: seq<WaiterPc>, w: nat, pc: WaiterPc)
    requires w < |waiters|
    ensures WaiterRanks(waiters[w := pc]) + WaiterRank(waiters[w]) == WaiterRanks(waiters) + WaiterRank(pc)
  {
    if w == 0 {
      assert waiters[0 := pc][1..] == waiters[1..];
    } else {
      assert waiters[w := pc][1..] == waiters[1..][w - 1 := pc];
      WaiterRanksOfUpdate(waiters[1..], w - 1, pc);
    }
  }

  lemma {:induction false} OpenerRanksOfUpdate(openers: seq<OpenerPc>, o: nat, pc: OpenerPc)
    requires o < |openers|
    ensures OpenerRanks(openers[o := pc]) + OpenerRank(openers[o]) == OpenerRanks(openers) + OpenerRank(pc)
  {
    if o == 0 {
      assert openers[0 := pc][1..] == openers[1..];
    } else {
      assert openers[o := pc][1..] == openers[1..][o - 1 := pc];
      OpenerRanksOfUpdate(openers[1..], o - 1, pc);
    }
  }

  lemma WaiterUsesUp(g: Gate, w: nat)
    requires w < |g.waiters| && WaiterStep(g, w).Some?
    ensures StepsLeft(WaiterStep(g, w).value) < StepsLeft(g)
  {
    WaiterRanksOfUpdate(g.waiters, w, WaiterStep(g, w).value.waiters[w]);
  }

  lemma OpenerUsesUp(g: Gate, o: nat)
    requires Emptied(g) && o < |g.openers| && OpenerStep(g, o).Some?
    ensures StepsLeft(OpenerStep(g, o).value) < StepsLeft(g)
  {
    OpenerRanksOfUpdate(g.openers, o, OpenerStep(g, o).value.openers[o]);
  }

  lemma StepUsesUp(g: Gate, t: Thread)
    requires Inv(g) && Step(g, t).Some?
    ensures StepsLeft(Step(g, t).value) < StepsLeft(g)
  {
    match t {
      case Waiter(w) => WaiterUsesUp(g, w);
      case Opener(o) => OpenerUsesUp(g, o);
    }
  }

  /** Every turn of the schedule moves its thread. */
  predicate AllMove(g: Gate, schedule: seq<Thread>)
    decreases |schedule|
  {
    schedule == [] || (Step(g, schedule[0]).Some? && AllMove(Step(g, schedule[0]).value, schedule[1..]))
  }

  lemma {:induction false} SchedulesAreShort(g: Gate, schedule: seq<Thread>)
    requires Inv(g) && AllMove(g, schedule)
    ensures |schedule| <= StepsLeft(g)
    decreases |schedule|
  {
    if schedule != [] {
      StepUsesUp(g, schedule[0]);
      StepKeepsInv(g, schedule[0]);
      SchedulesAreShort(Step(g, schedule[0]).value, schedule[1..]);
    }
  }

  // -- refinement --

  function Abstraction(g: Gate): Abstract {
    Abstract(
      g.isOpen,
      set w: nat | w < |g.waiters| && g.waiters[w] != Calling && g.resumed[w] == 0,
      set w: nat | w < |g.waiters| && g.resumed[w] > 0)
  }

  /** The abstract acts a concrete step performs. */
  function ActsOf(g: Gate, t: Thread): seq<Act>
    requires Step(g, t).Some?
  {
    match t
    case Waiter(w) =>
      if g.waiters[w].Calling? then [Arrive(w)]
      else if g.waiters[w].Resuming? then [Release(w)]
      else []
    case Opener(o) =>
      if g.openers[o].Locked? then [Open]
      else if g.openers[o].Draining? then [Release(g.openers[o].list[0])]
      else []
  }

  lemma {:induction false} PrivateIsPart(openers: seq<OpenerPc>, o: nat, w: nat)
    requires o < |openers|
    ensures AllPrivate(openers, w) >= Private(openers[o], w)
  {
    if o > 0 {
      PrivateIsPart(openers[1..], o - 1, w);
    }
  }

  lemma OneAct(a: Abstract, act: Act)
    requires CanTake(a, act)
    ensures Path(a, [act], Take(a, act))
  {
    assert [act][1..] == [];
  }

  lemma WaiterArrives(g: Gate, w: nat)
    requires Inv(g) && w < |g.waiters| && g.waiters[w].Calling? && WaiterStep(g, w).Some?
    ensures CanTake(Abstraction(g), Arrive(w))
    ensures Abstraction(WaiterStep(g, w).value) == Take(Abstraction(g), Arrive(w))
  {
    assert Places(g, w) == 0;
  }

  lemma WaiterResumes(g: Gate, w: nat)
    requires Inv(g) && w < |g.waiters| && g.waiters[w].Resuming?
    ensures CanTake(Abstraction(g), Release(w))
    ensures Abstraction(WaiterStep(g, w).value) == Take(Abstraction(g), Release(w))
  {
    assert Places(g, w) == 0;
  }

  lemma WaiterMovesUnseen(g: Gate, w: nat)
    requires w < |g.waiters| && WaiterStep(g, w).Some? && !g.waiters[w].Calling? && !g.waiters[w].Resuming?
    ensures Abstraction(WaiterStep(g, w).value) == Abstraction(g)
  {
  }

  lemma WaiterRefines(g: Gate, w: nat)
    requires Inv(g) && w < |g.waiters| && WaiterStep(g, w).Some?
    ensures Path(Abstraction(g), ActsOf(g, Waiter(w)), Abstraction(WaiterStep(g, w).value))
  {
    if g.waiters[w].Calling? {
      WaiterArrives(g, w);
      OneAct(Abstraction(g), Arrive(w));
    } else if g.waiters[w].Resuming? {
      WaiterResumes(g, w);
      OneAct(Abstraction(g), Release(w));
    } else {
      WaiterMovesUnseen(g, w);
    }
  }

  lemma OpenerRefines(g: Gate, o: nat)
    requires Inv(g) && o < |g.openers| && OpenerStep(g, o).Some?
    ensures Path(Abstraction(g), ActsOf(g, Opener(o)), Abstraction(OpenerStep(g, o).value))
  {
    var g' := OpenerStep(g, o).value;
    var a, a' := Abstraction(g), Abstraction(g');
    if g.openers[o].Locked? {
      assert a'.waiting == a.waiting && a'.released == a.released;
      assert Path(Take(a, Open), [], a');
    } else if g.openers[o].Draining? {
      var w := g.openers[o].list[0];
      PrivateIsPart(g.openers, o, w);
      FirstAndRest(g.openers[o].list, w);
      assert Places(g, w) == 1;
      assert a'.waiting == a.waiting - {w} && a'.released == a.released + {w};
      assert Path(Take(a, Release(w)), [], a');
    } else {
      assert a'.waiting == a.waiting && a'.released == a.released;
    }
  }

  function Trace(g: Gate, schedule: seq<Thread>): seq<Act>
    decreases |schedule|
  {
    if schedule == [] then []
    else
      match Step(g, schedule[0])
      case None => Trace(g, schedule[1..])
      case Some(g') => ActsOf(g, schedule[0]) + Trace(g', schedule[1..])
  }

  /** Every interleaving of the lock-based gate is a behaviour of the abstract one. */
  lemma {:induction false} LockGateRefines(g: Gate, schedule: seq<Thread>)
    requires Inv(g)
    ensures Path(Abstraction(g), Trace(g, schedule), Abstraction(Run(g, schedule)))
    decreases |schedule|
  {
    if schedule != [] {
      var t := schedule[0];
      match Step(g, t) {
        case None => LockGateRefines(g, schedule[1..]);
        case Some(g') =>
          StepKeepsInv(g, t);
          match t {
            case Waiter(w) => WaiterRefines(g, w);
            case Opener(o) => OpenerRefines(g, o);
          }
          LockGateRefines(g', schedule[1..]);
          PathsJoin(Abstraction(g), ActsOf(g, t), Abstraction(g'),
                    Trace(g', schedule[1..]), Abstraction(Run(g, schedule)));
      }
    }
  }

  // ---- the gate on an actor --------------------------------------------------

  predicate Distinct(s: seq<nat>) {
    forall j, k | 0 <= j < k < |s| :: s[j] != s[k]
  }

  /** The actor runs each call to its next suspension without interruption. */
  class TestGate {
    var isOpen: bool
    var waiters: seq<nat>
    // Callers whose `wait` has been allowed to return.
    var through: set<nat>

    constructor ()
      ensures Valid() && View() == Abstract(false, {}, {})
    {
      isOpen, waiters, through := false, [], {};
    }

    ghost predicate Valid()
      reads this
    {
      && Distinct(waiters)
      && (forall k | 0 <= k < |waiters| :: waiters[k] !in through)
      && (isOpen ==> waiters == [])
    }

    ghost function View(): Abstract
      reads this
    {
      Abstract(isOpen, set k | 0 <= k < |waiters| :: waiters[k], through)
    }

    method Wait(caller: nat)
      requires Valid() && caller !in waiters && caller !in through
      modifies this
      ensures Valid()
      ensures Path(old(View()), if old(isOpen) then [Arrive(caller), Release(caller)] else [Arrive(caller)], View())
    {
      ghost var before := View();
      if isOpen {
        through := through + {caller};
        assert View() == Take(Take(before, Arrive(caller)), Release(caller));
        assert Path(Take(Take(before, Arrive(caller)), Release(caller)), [], View());
        assert [Arrive(caller), Release(caller)][1..] == [Release(caller)];
        return;
      }
      waiters := waiters + [caller];
      assert caller in View().waiting by {
        assert waiters[|waiters| - 1] == caller;
      }
      assert forall x | x in before.waiting :: x in View().waiting by {
        forall x | x in before.waiting ensures x in View().waiting {
          var k :| 0 <= k < |old(waiters)| && old(waiters)[k] == x;
          assert waiters[k] == x;
        }
      }
      assert View() == Take(before, Arrive(caller));
      assert Path(Take(before, Arrive(caller)), [], View());
    }

    /** Opens, and resumes every pending continuation in order. */
    method OpenUp()
      requires Valid()
      modifies this
      ensures Valid() && isOpen && waiters == []
      ensures through == old(through) + set k | 0 <= k < |old(waiters)| :: old(waiters)[k]
      ensures Path(old(View()), [Open] + Releases(old(waiters)), View())
    {
      ghost var before := View();
      isOpen := true;
      var pending := waiters;
      waiters := [];
      var i := 0;
      while i < |pending|
        invariant 0 <= i <= |pending| && isOpen && waiters == []
        invariant through == before.released + set k | 0 <= k < i :: pending[k]
      {
        through := through + {pending[i]};
        i := i + 1;
      }
      ReleasesAll(Take(before, Open), pending);
      assert View() == ReleasedAll(Take(before, Open), pending);
      assert ([Open] + Releases(pending))[1..] == Releases(pending);
    }
  }

  function Releases(waiters: seq<nat>): (acts: seq<Act>)
    ensures |acts| == |waiters|
  {
    seq(|waiters|, i requires 0 <= i < |waiters| => Release(waiters[i]))
  }

  ghost function ReleasedAll(a: Abstract, waiters: seq<nat>): Abstract {
    var all := set k | 0 <= k < |waiters| :: waiters[k];
    a.(waiting := a.waiting - all, released := a.released + all)
  }

  lemma {:induction false} ReleasesAll(a: Abstract, waiters: seq<nat>)
    requires a.open && Distinct(waiters) && forall k | 0 <= k < |waiters| :: waiters[k] in a.waiting
    ensures Path(a, Releases(waiters), ReleasedAll(a, waiters))
    decreases |waiters|
  {
    if waiters == [] {
      assert ReleasedAll(a, waiters) == a;
    } else {
      var a' := Take(a, Release(waiters[0]));
      ReleasesAll(a', waiters[1..]);
      assert Releases(waiters)[1..] == Releases(waiters[1..]);
      var all := set k | 0 <= k < |waiters| :: waiters[k];
      var rest := set k | 0 <= k < |waiters[1..]| :: waiters[1..][k];
      assert all == {waiters[0]} + rest by {
        forall x | x in all ensures x in {waiters[0]} + rest {
          var k :| 0 <= k < |waiters| && waiters[k] == x;
          assert k > 0 ==> waiters[1..][k - 1] == x;
        }
        forall x | x in rest ensures x in all {
          var k :| 0 <= k < |waiters[1..]| && waiters[1..][k] == x;
          assert waiters[k + 1] == x;
        }
      }
      assert ReleasedAll(a', waiters[1..]) == ReleasedAll(a, waiters);
    }
  }
}
