# userstamp, modelled in Dafny

The userstamp plugin records which user created, updated and soft-deleted an
ActiveRecord row. It has two parts:

- A **stamper store** (`Ddb::Userstamp::Stamper::StamperMethods`). Each stamper
  class (usually `User`) holds one slot in `Thread.current[...]`, "the current
  stamper". Ruby scopes that storage to the running fiber: each thread's root fiber,
  and every fiber it starts, has its own slot.
  `stamper=` writes the slot, `stamper` reads it and `reset_stamper` clears it.
- The **`Stampable` mixin**, which does two things:
  - It gives each model class a configuration: the `record_userstamp` flag, the
    creator, updater and deleter attribute names, and the link method.
  - It registers callbacks that copy the current stamper into those attributes
    when a record is created, validated or destroyed.

  `without_stamps` turns stamping off for the duration of a block.

The model is functional:
- The store is a map from `(fiber, stamper class)` to a value. The key component
  is called `ThreadId`, and the lemmas speak of threads, but each id stands for one
  fiber.
- A record is a map from attribute name to value.
- Each hook is a pure function that returns `Result<Record, Error>`. The deleter
  hook also returns an "extra save requested" flag.
- A small state machine (`new -> persisted -> removed`) runs the hooks in the order
  the callbacks fire. It also runs traces that interleave saves and destroys from
  several threads with `stamper=` and `reset_stamper` calls.

Files:
- `wrappers.dfy`: `Option` and `Result`.
- `values.dfy`: attribute values, records, and the `Stamped` predicate ("exactly
  this attribute changed, to this value").
- `stamper.dfy`: the slot store, with per-key isolation and per-thread isolation
  over interleaved traces.
- `stampable.dfy`: configuration, the three hooks, and `without_stamps`.
- `lifecycle.dfy`: callback scheduling on create, update and destroy, and traces
  over the life of one record.

Behaviour of the code that is easy to misread, and that the model follows:
- **Hook order.** The updater hook is registered before the creator hook
  (`lib/stampable.rb:73-74`), so on create `set_updater_attribute` runs first.
- **Unbound stamper class.** When no stamper class is bound,
  `set_creator_attribute` and `set_deleter_attribute` call `stamper` on `nil`. So
  when they are enabled and the attribute exists, they raise `NoMethodError`; they
  do not skip silently. On the create path this cannot be observed, because the
  updater hook has already raised its configuration error.
- **Option merging.** `stampable` merges the options hash over the defaults key by
  key (`Hash#merge`). It does not replace all the defaults at once.
- **When the deleter hook saves.** The extra `save` happens exactly when `Paranoia`
  is not loaded. That save runs the validation callbacks again, so the updater
  attribute is stamped as well. On a record that was never saved, the creator
  attribute is stamped too.

## Model

| member | source | states |
|---|---|---|
| Stamper.SetStamper | lib/stamper.rb:12-20 | After `stamper=`, `stamper` on the same class and thread reads the argument's primary-key value if it is an ActiveRecord instance, otherwise the argument as given (including `nil`). Every other (thread, class) slot reads as before. |
| Stamper.ResetStamper | lib/stamper.rb:28-30 | After `reset_stamper`, `stamper` reads `nil` and every other slot is unchanged. It is the same as `stamper = nil`. |
| Stamper.ResetIdempotent | lib/stamper.rb:28-30 | Resetting twice leaves the same store as resetting once. |
| Stamper.SetOverwrites | lib/stamper.rb:19 | There is one slot per key, not a stack: a second `stamper=` replaces the first, and resetting afterwards reads `nil`, not the earlier value. |
| Stamper.UntouchedSlot | lib/stamper.rb:23-25 | `stamper` on a slot that no command of a trace writes or resets reads, after the trace, what it read before. |
| Stamper.NeverWrittenReadsNil | lib/stamper.rb:23-25 | `stamper` on a slot that was never written, starting from an empty store, reads `nil`. |
| Stamper.OnThread | lib/stamper.rb:19 | The projection of a trace onto one thread keeps only that thread's commands and never grows. |
| Stamper.ReplayAgreement | lib/stamper.rb:19-29 | Two stores that thread `t` cannot tell apart stay indistinguishable to `t` when one replays a whole interleaving and the other replays only `t`'s commands. |
| Stamper.ThreadIsolation | lib/stamper.rb:19-29 | After any interleaving of `stamper=` and `reset_stamper` from many threads, thread `t` reads, for every class, what `t`'s own commands alone would give. |
| Stamper.OtherThreadsInvisible | lib/stamper.rb:19-29 | Two interleavings in which thread `t` issues the same commands leave `t` reading the same stamper for every class, whatever the other threads did. |
| Stampable.Configure | lib/stampable.rb:52-82 | Each attribute and the link method equal the option the caller supplied under that key, else `creator_id`, `updater_id`, `deleter_id` or `belongs_to`. `record_userstamp` is untouched. The updater and creator hooks are registered. The deleter hook is registered exactly when it already was or a soft-delete library (Caboose acts_as_paranoid or Paranoia) is loaded. |
| Stampable.Included | lib/stampable.rb:11-36 | A freshly included model has `record_userstamp` true, the default attributes and link method, and the updater and creator hooks. It has the deleter hook only when a soft-delete library is loaded. |
| Stampable.SetCreatorAttribute | lib/stampable.rb:104-109 | When stamping is off, or the record lacks the creator attribute, the record is returned unchanged. Otherwise the hook raises exactly when no stamper class is bound. With a class bound, exactly the creator attribute is set to that class's current stamper on this thread, and every other attribute is unchanged. |
| Stampable.SetUpdaterAttribute | lib/stampable.rb:111-118 | The hook raises the "You must define the Stamper Class" error if and only if no stamper class is bound, even when stamping is off. Otherwise, when stamping is off or the attribute is absent, the record is unchanged. When stamping is on and the attribute exists, exactly the updater attribute is set to the current stamper. |
| Stampable.SetDeleterAttribute | lib/stampable.rb:120-126 | When stamping is off, or the attribute is absent, the record is unchanged and no save is requested. Otherwise the hook raises exactly when no class is bound. With a class bound, exactly the deleter attribute is stamped, and an extra save is requested if and only if Paranoia is not loaded. |
| Stampable.WithoutStamps | lib/stampable.rb:91-97 | The body runs with `record_userstamp` false, and its value or exception is passed through. Afterwards `record_userstamp` equals its value before the call, whatever the body returned or raised. |
| Stampable.HooksSkippedWhileDisabled | lib/stampable.rb:104-126 | With `record_userstamp` false, the creator and deleter hooks leave every record unchanged and request no save. So does the updater hook once a stamper class is bound. |
| Stampable.NestedWithoutStamps | lib/stampable.rb:91-97 | With two nested calls, the inner call leaves the flag false (the outer disabled state, not `true`), and the outer call restores the original value. |
| Lifecycle.BeforeValidation | lib/stampable.rb:73-74 | The validation chain of one save raises exactly when no class is bound and some registered hook reads the stamper. It changes no attribute other than the updater attribute, and the creator attribute on create only. It stamps the updater attribute on every save and the creator attribute only on create. With stamping off, it changes nothing. |
| Lifecycle.Step | lib/stampable.rb:73-79 | A save moves the record to persisted and a destroy moves it to removed; phases never move back. The set of attributes never changes. The creator attribute is touched only on the create path. With the deleter hook registered, stamping on, a class bound and the attribute present, a destroy sets the deleter attribute to the current stamper. When Paranoia is not loaded, the extra save that follows also stamps the updater attribute, and the creator attribute on a record never saved. Without the deleter hook, a destroy touches no attribute. |
| Lifecycle.PhaseNeverMovesBack | lib/stampable.rb:73-79 | Over any trace of stamper commands, saves and destroys, the record's phase never moves back and its set of attributes never changes. |
| Lifecycle.CreatorStableAfterCreate | lib/stampable.rb:74 | Once a record exists, no later save or destroy, by any thread with any stamper, changes its creator attribute, as long as that attribute is distinct from the updater and deleter attributes. |
| Lifecycle.DisabledRunKeepsRecord | lib/stampable.rb:104-126 | With stamping off and a class bound, every trace succeeds and leaves the record's attributes exactly as they were. |
| Lifecycle.WithoutStampsRunKeepsRecord | lib/stampable.rb:91-97 | With a stamper class bound, `without_stamps` around any trace of saves and destroys stamps nothing, and leaves the configuration exactly as it was before. |
| Lifecycle.AccountDocumentScenario | lib/stampable.rb:73-74 | Thread 1 sets Account #7 and creates a document, giving creator 7 and updater 7. Thread 2 sets #9 and updates, giving creator 7 and updater 9. Thread 1 resets its stamper and updates, giving creator 7 and updater `nil`. |

## Left out

- Association declarations (`send(link_method, ...)` and `belongs_to :deleter`, `lib/stampable.rb:67-71, 77-78`) are ActiveRecord DSL calls. Only the chosen link method is kept, as a configuration value.
- ActiveRecord callback dispatch is reduced to "which registered hooks fire, in which order, on create, update and destroy". Halting a callback chain because a callback returned `false` is not modelled.
- Persistence is not modelled: the write of `save`, validations of the host model, and transaction rollback. Saves always succeed after their hooks, and the deleter hook's extra `save` is a boolean it returns.
- The model stops at destroy: a removed record is terminal. This is not what the source does. With Paranoia, a soft-deleted record stays writable, and a later `save` runs `set_updater_attribute` again. The phase half of `Lifecycle.PhaseNeverMovesBack` holds because of this choice.
- `Thread.current[...]` is fiber-local, so a stamper set in a thread's root fiber reads `nil` inside another fiber of that thread, for example inside `Enumerator#next` or on a fiber-based server. The model keys slots by an id that stands for the fiber; it does not model fibers being created or switched.
- Real threads are not modelled: concurrency is an interleaved trace of commands. The string key `"<name>_<object_id>_stamper"` is replaced by the pair (thread, class name and object id).
- Primary-key lookup by reflection (`lib/stamper.rb:14`) reads the attribute named by the instance's primary key, and gives `nil` when the attribute is missing. The model does not include the `NoMethodError` that Ruby raises for a class with no primary key at all (`send` with an empty name).
- The `defined?` checks (`lib/stampable.rb:5, 76, 124`) are booleans in `Env`. The default binding of `stamper_klass` to `User` when that class exists (`lib/stampable.rb:4-5`) is the `Env.stamperClass` parameter, so the model covers bound and unbound classes alike.
- A stamper class that never called `model_stamper`, and so has no `stamper` method, is not modelled.
- `to_sym` raising on an option value that is `nil` or not name-like is not modelled. Option values are names.
- Class-attribute inheritance by subclasses, and per-instance overrides of `record_userstamp`, are not modelled.
- Ruby values other than `nil`, integers and strings are not modelled. The plugin never inspects a stored value, so these three stand for any value.
- `lib/migration_helper.rb` is not part of this model. It is a three-line wrapper over the migration `column` DSL.
- Stampable.WithoutStamps: covers nesting on one thread only. `record_userstamp` is a class attribute shared by all threads, so two overlapping calls on different threads are not nested. If thread A saves `true`, thread B saves `false`, A restores `true` and B restores `false`, stamping stays off. The model has no shared flag across threads.
- The hooks check only the reader (`respond_to?`) before calling the writer. An instance that has a reader and no writer raises `NoMethodError` in the source. The model assumes every attribute it sees has both.
- The hooks are `before_validation` callbacks. `save(validate: false)` and `update_attribute` neither stamp nor raise. The model's `Save` is always a validating save.
- Whether a soft delete persists the in-memory deleter stamp depends on the soft-delete library. When Paranoia is loaded the hook skips its own save, and what Paranoia then writes is outside this model.
