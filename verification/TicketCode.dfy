/** mutex_lock and mutex_unlock over the mutex_t that threads share, one memory access a call.  The code has 32-bit
    words only: a thread keeps its ticket while it spins and nothing after that.  The numbers of module TicketMutex,
    which do not wrap, are in `model`, and the words are proved to be what is left of them. */
module TicketCode {
  import opened Seqs
  import opened TicketMutex
  import Proofs = TicketProofs

  /** uint32_t */
  newtype Word = x: int | 0 <= x < 0x1_0000_0000

  /** The local variables and the place of a thread. */
  datatype Frame =
    | Outside | Checks | Takes | Spins(my: Word) | Enters | Inside | Rechecks | Retakes | SpinsAgain(my: Word)
    | ReadsOwner | ReadsServing | ReadsNext(v: Word) | Loads | Stores(v: Word) | Clears

  /** What a thread's own memory keeps of its place in the protocol. */
  ghost function Narrow(pc: Pc): Frame {
    match pc
    case Out => Outside
    case Check => Checks
    case Take => Takes
    case Spin(n) => Spins(ToWord(n))
    case Enter(_) => Enters
    case In(_) => Inside
    case Recheck(_) => Rechecks
    case Retake(_) => Retakes
    case Stuck(_, m) => SpinsAgain(ToWord(m))
    case UnlockOwner(_) => ReadsOwner
    case UnlockServing(_) => ReadsServing
    case UnlockNext(_, v) => ReadsNext(ToWord(v))
    case UnlockLoad(_) => Loads
    case UnlockStore(_, v) => Stores(ToWord(v))
    case UnlockClear => Clears
  }

  function ToWord(n: nat): Word {
    (n % WORDS) as Word
  }

  /** Addition of one, as the processor does it. */
  function Inc(x: Word): (y: Word)
    ensures y as int == (x as int + 1) % WORDS
  {
    if x == 0xFFFF_FFFF then 0 else x + 1
  }

  datatype Result = Ran | NotNow | Failed(why: Reason)

  ghost predicate Follows(o: Outcome, r: Result, before: State, after: State) {
    match o
    case Step(s) => r == Ran && after == s
    case Disabled => r == NotNow && after == before
    case Panic(why) => r == Failed(why)
  }

  class Mutex {
    var nextTicket: Word
    var serving: Word
    var ownerTid: Option<Tid>
    var frames: map<Tid, Frame>
    ghost var model: State

    ghost predicate FrameOk(t: Tid)
      requires t in frames
      reads this
    {
      t in model.pc && frames[t] == Narrow(model.pc[t]) && Words(model.pc[t])
    }

    /** What was read from memory is a word. */
    ghost predicate Words(pc: Pc) {
      (pc.UnlockNext? ==> pc.v < WORDS) && (pc.UnlockStore? ==> pc.v < WORDS)
    }

    ghost predicate Ready()
      reads this
    {
      && nextTicket as int == model.next && serving as int == model.serving && ownerTid == model.owner
      && frames.Keys == model.pc.Keys
      && model.next == model.issued % WORDS
      && forall t {:trigger FrameOk(t)} :: t in frames ==> FrameOk(t)
    }

    /** mutex_init */
    constructor (ts: set<Tid>)
      ensures Ready() && model == Initial(ts)
    {
      nextTicket, serving, ownerTid := 0, 0, None;
      frames := map t | t in ts :: Outside;
      model := Initial(ts);
    }

    /** Only thread t has moved. */
    twostate lemma Moved(t: Tid)
      requires old(Ready()) && t in old(frames) && t in model.pc && t in frames && frames == old(frames)[t := frames[t]]
      requires model.pc == old(model).pc[t := model.pc[t]] && frames[t] == Narrow(model.pc[t]) && Words(model.pc[t])
      requires nextTicket as int == model.next && serving as int == model.serving && ownerTid == model.owner
      requires model.next == model.issued % WORDS
      ensures Ready()
    {
      forall u | u in frames
        ensures FrameOk(u)
      {
        assert old(FrameOk(u));
      }
    }

    /** add_one_atomic on next_ticket, which gives the value before. */
    method TakeNext() returns (my: Word)
      modifies this`nextTicket
      ensures my == old(nextTicket) && nextTicket == Inc(my)
    {
      my := nextTicket;
      nextTicket := Inc(nextTicket);
    }

    /** mutex_lock up to its ticket: is the caller the owner already? */
    method Begin(t: Tid)
      requires Ready() && t in frames && Begins(frames[t])
      modifies this
      ensures Ready() && Follows(GoStep(old(model), t), Ran, old(model), model)
    {
      assert FrameOk(t);
      match frames[t] {
        case Checks =>
          frames := frames[t := if ownerTid == Some(t) then Outside else Takes];
        case Takes =>
          var my := TakeNext();
          frames := frames[t := Spins(my)];
        case Rechecks =>
          frames := frames[t := if ownerTid == Some(t) then Inside else Retakes];
        case Retakes =>
          var my := TakeNext();
          frames := frames[t := SpinsAgain(my)];
      }
      model := GoStep(model, t).s;
      Moved(t);
    }

    /** The loop of mutex_lock, one look at serving a time, and the store after it */
    method Spin(t: Tid)
      requires Ready() && t in frames && (frames[t].Spins? || frames[t].SpinsAgain? || frames[t].Enters?)
      modifies this
      ensures Ready() && Follows(GoStep(old(model), t), Ran, old(model), model)
    {
      assert FrameOk(t);
      match frames[t] {
        case Spins(my) =>
          frames := frames[t := if my == serving then Enters else Spins(my)];
        case SpinsAgain(my) =>
          frames := frames[t := if my == serving then Enters else SpinsAgain(my)];
        case Enters =>
          ownerTid := Some(t);
          frames := frames[t := Inside];
      }
      model := GoStep(model, t).s;
      Moved(t);
    }

    /** mutex_unlock as far as its two affirms */
    method CheckUnlock(t: Tid) returns (r: Result)
      requires Ready() && t in frames && Affirms(frames[t])
      modifies this
      ensures Follows(GoStep(old(model), t), r, old(model), model)
      ensures !r.Failed? ==> Ready()
    {
      assert FrameOk(t);
      match frames[t] {
        case ReadsOwner =>
          if ownerTid != Some(t) {
            return Failed(NotOwner);
          }
          frames := frames[t := ReadsServing];
        case ReadsServing =>
          frames := frames[t := ReadsNext(serving)];
        case ReadsNext(v) =>
          if v >= nextTicket {
            return Failed(NotLocked);
          }
          frames := frames[t := Loads];
      }
      model := GoStep(model, t).s;
      Moved(t);
      return Ran;
    }

    /** serving++, which is a load and a store, and the end of mutex_unlock */
    method PassOn(t: Tid)
      requires Ready() && t in frames && (frames[t].Loads? || frames[t].Stores? || frames[t].Clears?)
      modifies this
      ensures Ready() && Follows(GoStep(old(model), t), Ran, old(model), model)
    {
      assert FrameOk(t);
      match frames[t] {
        case Loads =>
          frames := frames[t := Stores(serving)];
        case Stores(v) =>
          serving := Inc(v);
          frames := frames[t := Clears];
        case Clears =>
          ownerTid := None;
          frames := frames[t := Outside];
      }
      model := GoStep(model, t).s;
      Moved(t);
    }

    /** The next access of a thread inside mutex_lock or mutex_unlock */
    method Access(t: Tid) returns (r: Result)
      requires Ready() && t in frames
      modifies this
      ensures Follows(GoStep(old(model), t), r, old(model), model)
      ensures !r.Failed? ==> Ready()
    {
      assert FrameOk(t);
      r := Ran;
      if frames[t].Outside? || frames[t].Inside? {
        return NotNow;
      } else if Begins(frames[t]) {
        Begin(t);
      } else if frames[t].Spins? || frames[t].SpinsAgain? || frames[t].Enters? {
        Spin(t);
      } else if Affirms(frames[t]) {
        r := CheckUnlock(t);
      } else {
        PassOn(t);
      }
    }

    /** Calling mutex_lock, also while holding the lock, or mutex_unlock */
    method Call(a: Action) returns (r: Result)
      requires Ready() && a.t in frames && !a.Go?
      modifies this
      ensures Ready() && Follows(Next(old(model), a), r, old(model), model)
    {
      assert FrameOk(a.t);
      if a.Lock? && frames[a.t].Outside? {
        frames := frames[a.t := Checks];
      } else if frames[a.t].Inside? {
        frames := frames[a.t := if a.Lock? then Rechecks else ReadsOwner];
      } else {
        return NotNow;
      }
      model := Next(model, a).s;
      Moved(a.t);
      return Ran;
    }

    /** One access of one thread: the words do what the protocol says, its invariant is kept, and an affirm fails only
        where the protocol says so. */
    method Act(a: Action) returns (r: Result)
      requires Ready() && Inv(model) && FewThreads(model)
      modifies this
      ensures Follows(Next(old(model), a), r, old(model), model)
      ensures !r.Failed? ==> Ready() && Inv(model) && FewThreads(model)
    {
      if Next(model, a).Step? {
        Proofs.StepInv(model, a);
      }
      if a.t !in frames {
        return NotNow;
      }
      assert FrameOk(a.t);
      if a.Go? {
        r := Access(a.t);
      } else {
        r := Call(a);
      }
    }
  }

  predicate Begins(f: Frame) {
    f.Checks? || f.Takes? || f.Rechecks? || f.Retakes?
  }

  predicate Affirms(f: Frame) {
    f.ReadsOwner? || f.ReadsServing? || f.ReadsNext?
  }
}
