/** The `Stampable` mixin: a per-model configuration of which attributes receive the
    creator, updater and deleter stamps, the hooks that write the current stamper into
    them, and the `without_stamps` bracket that switches stamping off for a while. */
module Stampable {
  import opened Wrappers
  import opened Values
  import Stamper

  const UndefinedStamperClassMessage := "You must define the Stamper Class. Use 'Ddb::Userstamp.stamper_klass = <class>'"

  /** The exceptions the hooks raise: the configuration error of the updater hook, and
      the `NoMethodError` of calling `stamper` on an unbound (`nil`) stamper class. */
  datatype Error = RuntimeError(message: string) | NoMethodError(name: string)

  /** Process-wide facts the mixin consults: the bound stamper class
      (`Ddb::Userstamp.stamper_klass`) and which soft-delete libraries are loaded. */
  datatype Env = Env(stamperClass: Option<Stamper.StamperClass>, cabooseParanoid: bool, paranoia: bool)

  /** Either soft-delete library, Caboose acts_as_paranoid or Paranoia, is loaded. */
  predicate SoftDeletePresent(env: Env)
  {
    env.cabooseParanoid || env.paranoia
  }

  /** Where a hook runs: the process environment, the stamper store, and the thread
      (fiber) executing the save or destroy. */
  datatype Context = Context(env: Env, store: Stamper.Store, thread: Stamper.ThreadId)

  /** The stamper the hooks read, `Ddb::Userstamp.stamper_klass.stamper`, for a bound class. */
  function Actor(ctx: Context): Value
    requires ctx.env.stamperClass.Some?
  {
    Stamper.CurrentStamper(ctx.store, ctx.thread, ctx.env.stamperClass.value)
  }

  /** The callbacks a model class has registered. */
  datatype Hook = UpdaterHook | CreatorHook | DeleterHook

  /** The class attributes the mixin adds to a model, plus its registered callbacks. */
  datatype Config = Config(
    recordUserstamp: bool,
    creatorAttribute: FieldName,
    updaterAttribute: FieldName,
    deleterAttribute: FieldName,
    linkMethod: string,
    hooks: set<Hook>)

  /** The options hash of `stampable`, keyed by option name. */
  type Options = map<string, string>

  const LinkMethodKey := "link_method"
  const CreatorAttributeKey := "creator_attribute"
  const UpdaterAttributeKey := "updater_attribute"
  const DeleterAttributeKey := "deleter_attribute"

  const DefaultLinkMethod := "belongs_to"
  const DefaultCreatorAttribute := "creator_id"
  const DefaultUpdaterAttribute := "updater_id"
  const DefaultDeleterAttribute := "deleter_id"

  const Defaults: Options := map[
    LinkMethodKey := DefaultLinkMethod,
    CreatorAttributeKey := DefaultCreatorAttribute,
    UpdaterAttributeKey := DefaultUpdaterAttribute,
    DeleterAttributeKey := DefaultDeleterAttribute]

  /** The option the caller supplied under `key`, else `default`. */
  function OptionOr(options: Options, key: string, default: string): string
  {
    if key in options then options[key] else default
  }

  /** `stampable(options)`: merge the options over the defaults, record the chosen
      attributes and link method, and register the hooks; the deleter hook only when a
      soft-delete library is loaded. `record_userstamp` is left as it was. */
  function Configure(cfg: Config, options: Options, env: Env): (r: Config)
    ensures r.creatorAttribute == OptionOr(options, CreatorAttributeKey, DefaultCreatorAttribute)
    ensures r.updaterAttribute == OptionOr(options, UpdaterAttributeKey, DefaultUpdaterAttribute)
    ensures r.deleterAttribute == OptionOr(options, DeleterAttributeKey, DefaultDeleterAttribute)
    ensures r.linkMethod == OptionOr(options, LinkMethodKey, DefaultLinkMethod)
    ensures r.recordUserstamp == cfg.recordUserstamp
    ensures UpdaterHook in r.hooks && CreatorHook in r.hooks
    ensures DeleterHook in r.hooks <==> DeleterHook in cfg.hooks || SoftDeletePresent(env)
  {
    var merged := Defaults + options;
    var installed := {UpdaterHook, CreatorHook} + (if SoftDeletePresent(env) then {DeleterHook} else {});
    cfg.(
      creatorAttribute := merged[CreatorAttributeKey],
      updaterAttribute := merged[UpdaterAttributeKey],
      deleterAttribute := merged[DeleterAttributeKey],
      linkMethod := merged[LinkMethodKey],
      hooks := cfg.hooks + installed)
  }

  /** `Stampable.included`: a fresh model class gets `record_userstamp = true` and is
      configured by `stampable` with no options. The attributes start unset (`""`
      here) and are overwritten at once. */
  function Included(env: Env): (r: Config)
    ensures r.recordUserstamp
    ensures r.creatorAttribute == DefaultCreatorAttribute
    ensures r.updaterAttribute == DefaultUpdaterAttribute
    ensures r.deleterAttribute == DefaultDeleterAttribute
    ensures r.linkMethod == DefaultLinkMethod
    ensures r.hooks == {UpdaterHook, CreatorHook} + (if SoftDeletePresent(env) then {DeleterHook} else {})
  {
    Configure(Config(true, "", "", "", "", {}), map[], env)
  }

  /** The step all three hooks share: nothing when stamping is off or the record has
      no attribute `field`; otherwise write the current stamper into `field`. */
  function StampField(cfg: Config, ctx: Context, field: FieldName, rec: Record): (r: Result<Record, Error>)
    ensures !cfg.recordUserstamp || field !in rec ==> r == Success(rec)
    ensures r.Failure? <==> cfg.recordUserstamp && field in rec && ctx.env.stamperClass.None?
    ensures r.Failure? ==> r.error == NoMethodError("stamper")
    ensures ctx.env.stamperClass.Some? && cfg.recordUserstamp && field in rec ==>
              r.Success? && Stamped(rec, r.value, field, Actor(ctx))
  {
    if !cfg.recordUserstamp then Success(rec)
    else if field !in rec then Success(rec)
    else if ctx.env.stamperClass.None? then Failure(NoMethodError("stamper"))
    else Success(rec[field := Actor(ctx)])
  }

  /** `set_creator_attribute`. */
  function SetCreatorAttribute(cfg: Config, ctx: Context, rec: Record): (r: Result<Record, Error>)
    ensures !cfg.recordUserstamp ==> r == Success(rec)
    ensures cfg.creatorAttribute !in rec ==> r == Success(rec)
    ensures r.Failure? <==> cfg.recordUserstamp && cfg.creatorAttribute in rec && ctx.env.stamperClass.None?
    ensures ctx.env.stamperClass.Some? && cfg.recordUserstamp && cfg.creatorAttribute in rec ==>
              r.Success? && Stamped(rec, r.value, cfg.creatorAttribute, Actor(ctx))
  {
    StampField(cfg, ctx, cfg.creatorAttribute, rec)
  }

  /** `set_updater_attribute`: the stamper class must be bound, even when stamping is off. */
  function SetUpdaterAttribute(cfg: Config, ctx: Context, rec: Record): (r: Result<Record, Error>)
    ensures r.Failure? <==> ctx.env.stamperClass.None?
    ensures r.Failure? ==> r.error == RuntimeError(UndefinedStamperClassMessage)
    ensures ctx.env.stamperClass.Some? && (!cfg.recordUserstamp || cfg.updaterAttribute !in rec) ==> r == Success(rec)
    ensures ctx.env.stamperClass.Some? && cfg.recordUserstamp && cfg.updaterAttribute in rec ==>
              r.Success? && Stamped(rec, r.value, cfg.updaterAttribute, Actor(ctx))
  {
    if ctx.env.stamperClass.None? then Failure(RuntimeError(UndefinedStamperClassMessage))
    else StampField(cfg, ctx, cfg.updaterAttribute, rec)
  }

  /** What `set_deleter_attribute` leaves behind: the record, and whether it asked for an
      immediate extra `save`. */
  datatype DeleterStamp = DeleterStamp(record: Record, extraSave: bool)

  /** `set_deleter_attribute`: stamps the deleter and saves the record at once, unless
      Paranoia is loaded, in which case the save is skipped. */
  function SetDeleterAttribute(cfg: Config, ctx: Context, rec: Record): (r: Result<DeleterStamp, Error>)
    ensures !cfg.recordUserstamp || cfg.deleterAttribute !in rec ==> r == Success(DeleterStamp(rec, false))
    ensures r.Failure? <==> cfg.recordUserstamp && cfg.deleterAttribute in rec && ctx.env.stamperClass.None?
    ensures ctx.env.stamperClass.Some? && cfg.recordUserstamp && cfg.deleterAttribute in rec ==>
              && r.Success?
              && Stamped(rec, r.value.record, cfg.deleterAttribute, Actor(ctx))
              && (r.value.extraSave <==> !ctx.env.paranoia)
  {
    if !cfg.recordUserstamp || cfg.deleterAttribute !in rec then Success(DeleterStamp(rec, false))
    else
      var stamped :- StampField(cfg, ctx, cfg.deleterAttribute, rec);
      Success(DeleterStamp(stamped, !ctx.env.paranoia))
  }

  /** `without_stamps`: run `body` with `record_userstamp` false, then put back the value
      it had before the call, whether `body` returned or raised. The body may change
      the configuration (a nested `without_stamps`, say); only `record_userstamp` is
      restored. The result is the body's value or exception. */
  function WithoutStamps<T>(cfg: Config, body: Config -> (Config, Result<T, Error>)): (r: (Config, Result<T, Error>))
    ensures r.0.recordUserstamp == cfg.recordUserstamp
    ensures var (during, outcome) := body(cfg.(recordUserstamp := false));
            && r.1 == outcome
            && r.0 == during.(recordUserstamp := cfg.recordUserstamp)
  {
    var original := cfg.recordUserstamp;
    var (after, outcome) := body(cfg.(recordUserstamp := false));
    (after.(recordUserstamp := original), outcome)
  }

  /** Inside `without_stamps` the creator and deleter hooks leave every record as it is,
      and the updater hook does too once a stamper class is bound. */
  lemma HooksSkippedWhileDisabled(cfg: Config, ctx: Context, rec: Record)
    requires !cfg.recordUserstamp
    ensures SetCreatorAttribute(cfg, ctx, rec) == Success(rec)
    ensures SetDeleterAttribute(cfg, ctx, rec) == Success(DeleterStamp(rec, false))
    ensures ctx.env.stamperClass.Some? ==> SetUpdaterAttribute(cfg, ctx, rec) == Success(rec)
  {
  }

  /** Two nested `without_stamps`: the inner body sees stamping off, the outer body sees
      it still off after the inner call returns or raises (the inner call restores the
      outer's disabled state, not `true`), and the outer call restores the original. */
  lemma NestedWithoutStamps<T>(cfg: Config, inner: Config -> (Config, Result<T, Error>))
    ensures var outer := (c: Config) => WithoutStamps(c, inner);
            var r := WithoutStamps(cfg, outer);
            && r.0.recordUserstamp == cfg.recordUserstamp
            && r.1 == inner(cfg.(recordUserstamp := false)).1
    ensures !WithoutStamps(cfg.(recordUserstamp := false), inner).0.recordUserstamp
  {
  }
}
