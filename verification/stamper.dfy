/** The stamper slot store of `StamperMethods`: one slot per (execution context,
    stamper class) holding "the current actor" for that class. The slots live in
    `Thread.current[...]`, which Ruby scopes to the running fiber (each thread's root
    fiber, or any fiber it starts). That scope is modelled as an extra key component;
    there is no real concurrency. */
module Stamper {
  import opened Values

  /** The fiber whose `Thread.current[...]` storage is read or written. Commands with
      the same id run on the same fiber; a thread's root fiber is one such id. */
  type ThreadId = nat

  /** A class that called `model_stamper`, identified by its name and its object id. */
  datatype StamperClass = StamperClass(name: string, objectId: nat)

  /** The key of a slot: the storage key `"<name>_<object_id>_stamper"` read in the
      fiber-local storage of one thread's fiber. Below, "thread `t`" means that fiber. */
  datatype SlotKey = SlotKey(thread: ThreadId, owner: StamperClass)

  /** The slots of all fibers. A key never written reads as `nil`. */
  type Store = map<SlotKey, Value>

  /** An ActiveRecord instance: the name of its class's primary key and its attributes. */
  datatype ActiveRecordObject = ActiveRecordObject(primaryKey: FieldName, attributes: Record)

  /** An argument of `stamper=`: an ActiveRecord instance, or any other value (including `nil`). */
  datatype Assignable = Model(instance: ActiveRecordObject) | Plain(value: Value)

  /** The primary-key value of an ActiveRecord instance (`nil` when it has none yet). */
  function PrimaryKeyValue(o: ActiveRecordObject): Value
  {
    if o.primaryKey in o.attributes then o.attributes[o.primaryKey] else Nil
  }

  /** What `stamper=` puts in the slot: the primary-key value of a model, any other value as given. */
  function SlotValue(arg: Assignable): Value
  {
    match arg
    case Model(o) => PrimaryKeyValue(o)
    case Plain(v) => v
  }

  /** `stamper`: the slot of class `c` on thread `t`. */
  function CurrentStamper(s: Store, t: ThreadId, c: StamperClass): Value
  {
    var key := SlotKey(t, c);
    if key in s then s[key] else Nil
  }

  /** `stamper=`: overwrite the slot of class `c` on thread `t`. */
  function SetStamper(s: Store, t: ThreadId, c: StamperClass, arg: Assignable): (r: Store)
    ensures arg.Model? ==> CurrentStamper(r, t, c) == PrimaryKeyValue(arg.instance)
    ensures arg.Plain? ==> CurrentStamper(r, t, c) == arg.value
    ensures forall t', c' :: (t' != t || c' != c) ==> CurrentStamper(r, t', c') == CurrentStamper(s, t', c')
  {
    s[SlotKey(t, c) := SlotValue(arg)]
  }

  /** `reset_stamper`: put `nil` back in the slot of class `c` on thread `t`. */
  function ResetStamper(s: Store, t: ThreadId, c: StamperClass): (r: Store)
    ensures CurrentStamper(r, t, c) == Nil
    ensures forall t', c' :: (t' != t || c' != c) ==> CurrentStamper(r, t', c') == CurrentStamper(s, t', c')
    ensures r == SetStamper(s, t, c, Plain(Nil))
  {
    s[SlotKey(t, c) := Nil]
  }

  /** Resetting twice is resetting once. */
  lemma ResetIdempotent(s: Store, t: ThreadId, c: StamperClass)
    ensures ResetStamper(ResetStamper(s, t, c), t, c) == ResetStamper(s, t, c)
  {
  }

  /** There is one slot per key, not a stack: a second `stamper=` replaces the first,
      and `reset_stamper` after it does not bring the first back. */
  lemma SetOverwrites(s: Store, t: ThreadId, c: StamperClass, a: Assignable, b: Assignable)
    ensures SetStamper(SetStamper(s, t, c, a), t, c, b) == SetStamper(s, t, c, b)
    ensures CurrentStamper(ResetStamper(SetStamper(s, t, c, a), t, c), t, c) == Nil
  {
  }

  /** One call on a thread's stamper class, as issued at request boundaries. */
  datatype Command =
    | Assign(thread: ThreadId, owner: StamperClass, arg: Assignable)
    | Reset(thread: ThreadId, owner: StamperClass)

  function Apply(s: Store, cmd: Command): Store
  {
    match cmd
    case Assign(t, c, arg) => SetStamper(s, t, c, arg)
    case Reset(t, c) => ResetStamper(s, t, c)
  }

  /** The store after an interleaving of commands issued by any number of threads. */
  function Replay(s: Store, cmds: seq<Command>): Store
    decreases |cmds|
  {
    if |cmds| == 0 then s else Replay(Apply(s, cmds[0]), cmds[1..])
  }

  /** The commands of `cmds` issued by thread `t`, in order. */
  function OnThread(cmds: seq<Command>, t: ThreadId): (r: seq<Command>)
    ensures forall i :: 0 <= i < |r| ==> r[i].thread == t
    ensures |r| <= |cmds|
    decreases |cmds|
  {
    if |cmds| == 0 then []
    else if cmds[0].thread == t then [cmds[0]] + OnThread(cmds[1..], t)
    else OnThread(cmds[1..], t)
  }

  /** A slot no command of the trace writes or resets reads after the trace what it
      read before. */
  lemma {:induction false} UntouchedSlot(s: Store, cmds: seq<Command>, t: ThreadId, c: StamperClass)
    requires forall i :: 0 <= i < |cmds| ==> !(cmds[i].thread == t && cmds[i].owner == c)
    ensures CurrentStamper(Replay(s, cmds), t, c) == CurrentStamper(s, t, c)
    decreases |cmds|
  {
    if |cmds| > 0 {
      assert !(cmds[0].thread == t && cmds[0].owner == c);
      UntouchedSlot(Apply(s, cmds[0]), cmds[1..], t, c);
    }
  }

  /** `stamper` on a slot that was never written, in a store that starts empty, reads `nil`. */
  lemma NeverWrittenReadsNil(cmds: seq<Command>, t: ThreadId, c: StamperClass)
    requires forall i :: 0 <= i < |cmds| ==> !(cmds[i].thread == t && cmds[i].owner == c)
    ensures CurrentStamper(Replay(map[], cmds), t, c) == Nil
  {
    UntouchedSlot(map[], cmds, t, c);
  }

  /** Thread `t` reads the same stamper, for every class, in `s1` and in `s2`. */
  ghost predicate AgreeOnThread(s1: Store, s2: Store, t: ThreadId)
  {
    forall c :: CurrentStamper(s1, t, c) == CurrentStamper(s2, t, c)
  }

  /** Stores that thread `t` cannot tell apart stay so when one replays the whole
      interleaving and the other only `t`'s own commands. */
  lemma {:induction false} ReplayAgreement(s1: Store, s2: Store, cmds: seq<Command>, t: ThreadId)
    requires AgreeOnThread(s1, s2, t)
    ensures AgreeOnThread(Replay(s1, cmds), Replay(s2, OnThread(cmds, t)), t)
    decreases |cmds|
  {
    if |cmds| > 0 {
      var c0 := cmds[0];
      if c0.thread == t {
        assert OnThread(cmds, t) == [c0] + OnThread(cmds[1..], t);
        assert ([c0] + OnThread(cmds[1..], t))[1..] == OnThread(cmds[1..], t);
        ReplayAgreement(Apply(s1, c0), Apply(s2, c0), cmds[1..], t);
      } else {
        ReplayAgreement(Apply(s1, c0), s2, cmds[1..], t);
      }
    }
  }

  /** What a thread reads depends only on its own commands: the interleaving with
      other threads' `stamper=` and `reset_stamper` calls is invisible to it. */
  lemma ThreadIsolation(s: Store, cmds: seq<Command>, t: ThreadId)
    ensures AgreeOnThread(Replay(s, cmds), Replay(s, OnThread(cmds, t)), t)
  {
    ReplayAgreement(s, s, cmds, t);
  }

  /** Two interleavings in which thread `t` issues the same commands leave `t`
      reading the same stamper for every class, whatever the other threads did. */
  lemma OtherThreadsInvisible(s: Store, a: seq<Command>, b: seq<Command>, t: ThreadId)
    requires OnThread(a, t) == OnThread(b, t)
    ensures AgreeOnThread(Replay(s, a), Replay(s, b), t)
  {
    ThreadIsolation(s, a, t);
    ThreadIsolation(s, b, t);
  }
}
