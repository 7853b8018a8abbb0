/** The callbacks the mixin registers, as they fire across one record's life:
    `new -> created -> updated ... -> destroyed`, driven by saves and destroys issued
    from any thread, interleaved with `stamper=` and `reset_stamper` calls. */
module Lifecycle {
  import opened Wrappers
  import opened Values
  import Stamper
  import opened Stampable

  datatype Phase = New | Persisted | Removed

  /** Phases only move forward. */
  function Rank(p: Phase): nat
  {
    match p
    case New => 0
    case Persisted => 1
    case Removed => 2
  }

  datatype Instance = Instance(phase: Phase, record: Record)

  datatype Event = Save | Destroy

  /** The `before_validation` chain of one save, in registration order:
      `set_updater_attribute` on every save, then `set_creator_attribute` on create
      only, each when the class has registered it. */
  function BeforeValidation(cfg: Config, ctx: Context, onCreate: bool, rec: Record): (r: Result<Record, Error>)
    ensures r.Failure? <==>
              && ctx.env.stamperClass.None?
              && (|| UpdaterHook in cfg.hooks
                  || (onCreate && CreatorHook in cfg.hooks && cfg.recordUserstamp && cfg.creatorAttribute in rec))
    ensures r.Failure? && UpdaterHook in cfg.hooks ==> r.error == RuntimeError(UndefinedStamperClassMessage)
    ensures r.Success? ==> r.value.Keys == rec.Keys
    ensures r.Success? ==> forall f ::
              f != cfg.updaterAttribute && (!onCreate || f != cfg.creatorAttribute) ==>
                Attribute(r.value, f) == Attribute(rec, f)
    ensures !cfg.recordUserstamp && ctx.env.stamperClass.Some? ==> r == Success(rec)
    ensures ctx.env.stamperClass.Some? && cfg.recordUserstamp && UpdaterHook in cfg.hooks && cfg.updaterAttribute in rec ==>
              r.Success? && Attribute(r.value, cfg.updaterAttribute) == Some(Actor(ctx))
    ensures ctx.env.stamperClass.Some? && cfg.recordUserstamp && onCreate && CreatorHook in cfg.hooks && cfg.creatorAttribute in rec ==>
              r.Success? && Attribute(r.value, cfg.creatorAttribute) == Some(Actor(ctx))
  {
    if UpdaterHook !in cfg.hooks then CreatorOnCreate(cfg, ctx, onCreate, rec)
    else
      var afterUpdater :- SetUpdaterAttribute(cfg, ctx, rec);
      CreatorOnCreate(cfg, ctx, onCreate, afterUpdater)
  }

  /** The second link of the chain: `set_creator_attribute, :on => :create`. */
  function CreatorOnCreate(cfg: Config, ctx: Context, onCreate: bool, rec: Record): Result<Record, Error>
  {
    if onCreate && CreatorHook in cfg.hooks then SetCreatorAttribute(cfg, ctx, rec) else Success(rec)
  }

  /** One save or destroy of `inst` in context `ctx`. A save runs the validation
      hooks (create or update path by phase); a destroy runs `set_deleter_attribute`
      when registered, then the extra save it may ask for; that save runs the
      validation hooks again, stamping the updater (and, on a new record, the creator). The model stops at destroy:
      a removed record ignores further events, although a record soft-deleted by
      Paranoia could still be saved, which would run the updater hook again. */
  function Step(cfg: Config, ctx: Context, inst: Instance, e: Event): (r: Result<Instance, Error>)
    ensures inst.phase == Removed ==> r == Success(inst)
    ensures r.Success? && inst.phase != Removed ==> r.value.phase == (if e == Save then Persisted else Removed)
    ensures r.Success? ==> Rank(inst.phase) <= Rank(r.value.phase)
    ensures r.Success? ==> r.value.record.Keys == inst.record.Keys
    ensures r.Success? ==> forall f ::
              && f != cfg.updaterAttribute
              && (e == Save || f != cfg.deleterAttribute)
              && (inst.phase != New || f != cfg.creatorAttribute)
              ==> Attribute(r.value.record, f) == Attribute(inst.record, f)
    ensures inst.phase != Removed && e == Destroy && DeleterHook !in cfg.hooks ==>
              r == Success(Instance(Removed, inst.record))
    ensures && inst.phase != Removed && e == Destroy && DeleterHook in cfg.hooks
            && ctx.env.stamperClass.Some? && cfg.recordUserstamp && cfg.deleterAttribute in inst.record ==>
              r.Success? && Attribute(r.value.record, cfg.deleterAttribute) == Some(Actor(ctx))
    ensures && inst.phase != Removed && e == Destroy && DeleterHook in cfg.hooks && UpdaterHook in cfg.hooks
            && ctx.env.stamperClass.Some? && cfg.recordUserstamp && !ctx.env.paranoia
            && cfg.deleterAttribute in inst.record && cfg.updaterAttribute in inst.record ==>
              r.Success? && Attribute(r.value.record, cfg.updaterAttribute) == Some(Actor(ctx))
    ensures && inst.phase == New && e == Destroy && DeleterHook in cfg.hooks && CreatorHook in cfg.hooks
            && ctx.env.stamperClass.Some? && cfg.recordUserstamp && !ctx.env.paranoia
            && cfg.deleterAttribute in inst.record && cfg.creatorAttribute in inst.record ==>
              r.Success? && Attribute(r.value.record, cfg.creatorAttribute) == Some(Actor(ctx))
  {
    if inst.phase == Removed then Success(inst)
    else
      match e
      case Save =>
        var rec :- BeforeValidation(cfg, ctx, inst.phase == New, inst.record);
        Success(Instance(Persisted, rec))
      case Destroy =>
        if DeleterHook !in cfg.hooks then Success(Instance(Removed, inst.record))
        else
          var d :- SetDeleterAttribute(cfg, ctx, inst.record);
          if !d.extraSave then Success(Instance(Removed, d.record))
          else
            match BeforeValidation(cfg, ctx, inst.phase == New, d.record)
            case Success(rec) => Success(Instance(Removed, rec))
            case Failure(err) => Failure(err)
  }

  /** Something that happens in the process: a thread changes its stamper, or a thread
      saves or destroys the record. */
  datatype Action =
    | Stamp(command: Stamper.Command)
    | Persist(thread: Stamper.ThreadId, event: Event)

  datatype World = World(store: Stamper.Store, instance: Instance)

  function Exec(cfg: Config, env: Env, w: World, a: Action): Result<World, Error>
  {
    match a
    case Stamp(cmd) => Success(w.(store := Stamper.Apply(w.store, cmd)))
    case Persist(t, e) =>
      var inst :- Step(cfg, Context(env, w.store, t), w.instance, e);
      Success(w.(instance := inst))
  }

  /** Perform `actions` in order, stopping at the first exception. */
  function Run(cfg: Config, env: Env, w: World, actions: seq<Action>): Result<World, Error>
    decreases |actions|
  {
    if |actions| == 0 then Success(w)
    else
      var next :- Exec(cfg, env, w, actions[0]);
      Run(cfg, env, next, actions[1..])
  }

  /** No sequence of saves and destroys moves a record back to an earlier phase. */
  lemma {:induction false} PhaseNeverMovesBack(cfg: Config, env: Env, w: World, actions: seq<Action>)
    requires Run(cfg, env, w, actions).Success?
    ensures Rank(w.instance.phase) <= Rank(Run(cfg, env, w, actions).value.instance.phase)
    ensures Run(cfg, env, w, actions).value.instance.record.Keys == w.instance.record.Keys
    decreases |actions|
  {
    if |actions| > 0 {
      var next := Exec(cfg, env, w, actions[0]).value;
      PhaseNeverMovesBack(cfg, env, next, actions[1..]);
    }
  }

  /** Once a record exists, no later save or destroy, by any thread with any stamper,
      changes its creator attribute (as long as that attribute is not also the updater
      or deleter attribute). */
  lemma {:induction false} CreatorStableAfterCreate(cfg: Config, env: Env, w: World, actions: seq<Action>)
    requires w.instance.phase != New
    requires cfg.creatorAttribute != cfg.updaterAttribute && cfg.creatorAttribute != cfg.deleterAttribute
    requires Run(cfg, env, w, actions).Success?
    ensures Attribute(Run(cfg, env, w, actions).value.instance.record, cfg.creatorAttribute)
            == Attribute(w.instance.record, cfg.creatorAttribute)
    decreases |actions|
  {
    if |actions| > 0 {
      var next := Exec(cfg, env, w, actions[0]).value;
      assert next.instance.phase != New;
      CreatorStableAfterCreate(cfg, env, next, actions[1..]);
    }
  }

  /** With stamping off and a stamper class bound, any sequence of saves and destroys
      succeeds and leaves every attribute of the record as it was. */
  lemma {:induction false} DisabledRunKeepsRecord(cfg: Config, env: Env, w: World, actions: seq<Action>)
    requires !cfg.recordUserstamp && env.stamperClass.Some?
    ensures Run(cfg, env, w, actions).Success?
    ensures Run(cfg, env, w, actions).value.instance.record == w.instance.record
    decreases |actions|
  {
    if |actions| > 0 {
      var next := Exec(cfg, env, w, actions[0]).value;
      assert next.instance.record == w.instance.record;
      DisabledRunKeepsRecord(cfg, env, next, actions[1..]);
    }
  }

  /** `Post.without_stamps { ... saves and destroys ... }`: nothing is stamped inside,
      and `record_userstamp` is back to its earlier value afterwards. */
  lemma WithoutStampsRunKeepsRecord(cfg: Config, env: Env, w: World, actions: seq<Action>)
    requires env.stamperClass.Some?
    ensures var r := WithoutStamps(cfg, (c: Config) => (c, Run(c, env, w, actions)));
            && r.0 == cfg
            && r.1.Success?
            && r.1.value.instance.record == w.instance.record
  {
    DisabledRunKeepsRecord(cfg.(recordUserstamp := false), env, w, actions);
  }

  /** A run of two actions is the second performed after the first, unless the first raised. */
  lemma RunPair(cfg: Config, env: Env, w: World, a: Action, b: Action)
    ensures Run(cfg, env, w, [a, b]) ==
              match Exec(cfg, env, w, a)
              case Success(next) => Exec(cfg, env, next, b)
              case Failure(err) => Failure(err)
  {
    assert [a, b][1..] == [b];
    assert [b][1..] == [];
    match Exec(cfg, env, w, a)
    case Success(next) =>
      assert Run(cfg, env, w, [a, b]) == Run(cfg, env, next, [b]);
      match Exec(cfg, env, next, b) {
        case Success(last) =>
          assert Run(cfg, env, next, [b]) == Run(cfg, env, last, []);
        case Failure(_) =>
      }
    case Failure(_) =>
  }

  /** Actor class `Account`, model `Document` with the default configuration. Thread 1
      sets Account #7 and creates the document; thread 2 sets Account #9 and updates
      it; thread 1 then resets its stamper and updates again. */
  lemma AccountDocumentScenario()
    ensures
      var account := Stamper.StamperClass("Account", 1);
      var env := Env(Some(account), false, false);
      var cfg := Included(env);
      var start := World(map[], Instance(New, map["id" := Int(1), "creator_id" := Nil, "updater_id" := Nil]));
      var created := Run(cfg, env, start, [Stamp(Stamper.Assign(1, account, Stamper.Plain(Int(7)))), Persist(1, Save)]);
      && created.Success?
      && created.value.instance.record == map["id" := Int(1), "creator_id" := Int(7), "updater_id" := Int(7)]
      && var updated := Run(cfg, env, created.value, [Stamp(Stamper.Assign(2, account, Stamper.Plain(Int(9)))), Persist(2, Save)]);
         && updated.Success?
         && updated.value.instance.record == map["id" := Int(1), "creator_id" := Int(7), "updater_id" := Int(9)]
         && var again := Run(cfg, env, updated.value, [Stamp(Stamper.Reset(1, account)), Persist(1, Save)]);
            && again.Success?
            && again.value.instance.record == map["id" := Int(1), "creator_id" := Int(7), "updater_id" := Nil]
  {
    var account := Stamper.StamperClass("Account", 1);
    var env := Env(Some(account), false, false);
    var cfg := Included(env);
    var r0: Record := map["id" := Int(1), "creator_id" := Nil, "updater_id" := Nil];
    var r1: Record := map["id" := Int(1), "creator_id" := Int(7), "updater_id" := Int(7)];
    var r2: Record := map["id" := Int(1), "creator_id" := Int(7), "updater_id" := Int(9)];
    var r3: Record := map["id" := Int(1), "creator_id" := Int(7), "updater_id" := Nil];

    var a1 := Stamp(Stamper.Assign(1, account, Stamper.Plain(Int(7))));
    var s1 := Stamper.SetStamper(map[], 1, account, Stamper.Plain(Int(7)));
    var w1 := World(s1, Instance(New, r0));
    assert Exec(cfg, env, World(map[], Instance(New, r0)), a1) == Success(w1);
    var created := Step(cfg, Context(env, s1, 1), Instance(New, r0), Save);
    assert created.Success? && created.value.phase == Persisted;
    assert created.value.record == r1;
    RunPair(cfg, env, World(map[], Instance(New, r0)), a1, Persist(1, Save));

    var w2 := World(s1, Instance(Persisted, r1));
    var a2 := Stamp(Stamper.Assign(2, account, Stamper.Plain(Int(9))));
    var s2 := Stamper.SetStamper(s1, 2, account, Stamper.Plain(Int(9)));
    assert Exec(cfg, env, w2, a2) == Success(World(s2, Instance(Persisted, r1)));
    var updated := Step(cfg, Context(env, s2, 2), Instance(Persisted, r1), Save);
    assert updated.Success? && updated.value.phase == Persisted;
    assert updated.value.record == r2;
    RunPair(cfg, env, w2, a2, Persist(2, Save));

    var w3 := World(s2, Instance(Persisted, r2));
    var a3 := Stamp(Stamper.Reset(1, account));
    var s3 := Stamper.ResetStamper(s2, 1, account);
    assert Exec(cfg, env, w3, a3) == Success(World(s3, Instance(Persisted, r2)));
    var again := Step(cfg, Context(env, s3, 1), Instance(Persisted, r2), Save);
    assert again.Success? && again.value.phase == Persisted;
    assert again.value.record == r3;
    RunPair(cfg, env, w3, a3, Persist(1, Save));
  }
}
