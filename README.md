# Recyclical list handle, modelled in Dafny

Recyclical is a declarative list-binding layer over Android's RecyclerView. A
caller describes item types, their view bindings and a backing data source. The
library then keeps the list on screen in step with that data source. This project
models the part that coordinates all of this: the list handle
`RealRecyclicalHandle`. The handle owns four things:

- two registry maps: item class name to view type, and view type to item definition;
- an optional empty view, shown in place of the list while the list is empty;
- the adapter;
- the data source.

The handle answers three lookups through the registry maps. Each lookup fails
fast on a missing key and never falls back to a default. The handle also shows
or hides the empty view. It invalidates the list with a caller-supplied block,
then recomputes the empty view from the data source. Finally it attaches and
detaches the data source and the adapter together.

Files:

- `wrappers.dfy`: `Option`, `Result` and `Outcome`. These stand in for nullable
  references and for the exceptions thrown by Kotlin's `check` and `error`.
- `handle_spec.dfy`, module `HandleSpec`: the handle's observable state as a
  value (`HandleState`). It defines one transition function per state-changing
  operation, and `Run`, which performs a sequence of operations. Lemmas state
  what holds over any such sequence.
- `handle.dfy`, module `Handle`: the handle as a class whose methods update the
  empty view, the data source and the adapter in place. Each method is proved to
  perform the `HandleSpec` transition on the handle's abstract `State()`. The
  lookups are functions of the handle's registry maps.

Modelling choices:

- The main-thread check (`check(myLooper() == getMainLooper())`) becomes a
  boolean argument `onMainThread`. When it is false the operation returns
  `Fail(NotOnMainThread)` and changes nothing. In particular, the caller's block
  of `invalidateList` does not run.
- A failed lookup (`error(...)`) returns `Failure` with a `LookupError` that
  names the missing key.
- The block passed to `invalidateList` is arbitrary caller code. It is
  represented by the item sequence `after` that it leaves in the data source,
  and by a flag `blockThrows` saying whether it ends by throwing. A throwing
  block makes `invalidateList` fail with `BlockThrew` before the empty view is
  recomputed. The items are what the block left, and the empty view keeps its
  old visibility.
- Items and item definitions are type parameters `T` and `D`. The handle never
  looks inside them.
- Android's visibility states are `Visible`, `Invisible` and `Gone`. The handle
  only ever sets `Visible` or `Gone`.

## Model

| member | source | states |
|---|---|---|
| `Handle.RealRecyclicalHandle.constructor` | core/src/main/java/com/afollestad/recyclical/handle/RealRecyclicalHandle.kt:27-33 | the handle holds exactly the empty view, adapter, both registry maps and data source it is given |
| `Handle.RealRecyclicalHandle.GetViewTypeForClass` | core/src/main/java/com/afollestad/recyclical/handle/RealRecyclicalHandle.kt:52-54 | succeeds iff the class name is registered, then with its registered view type; otherwise fails with `NoTypeForClass(name)`, never a default |
| `Handle.RealRecyclicalHandle.GetDefinitionForType` | core/src/main/java/com/afollestad/recyclical/handle/RealRecyclicalHandle.kt:61-63 | succeeds iff the view type is bound, then with its bound definition; otherwise fails with `NoDefinitionForType(viewType)` |
| `Handle.RealRecyclicalHandle.GetDefinitionForClass` | core/src/main/java/com/afollestad/recyclical/handle/RealRecyclicalHandle.kt:56-59 | succeeds iff the name is registered and its view type is bound, then with the definition bound to the name's view type; an unregistered name fails with the class error, a registered name with an unbound type fails with the view-type error |
| `Handle.RealRecyclicalHandle.GetAdapter` | core/src/main/java/com/afollestad/recyclical/handle/RealRecyclicalHandle.kt:42 | always returns the adapter the handle was constructed with |
| `HandleSpec.ShowOrHide` | core/src/main/java/com/afollestad/recyclical/handle/RealRecyclicalHandle.kt:35-40 | passes iff on the main thread, and off it nothing changes; an existing empty view becomes Visible iff `show` and Gone iff not; the empty view's presence, the items and both attach flags are unchanged |
| `Handle.RealRecyclicalHandle.ShowOrHideEmptyView` | core/src/main/java/com/afollestad/recyclical/handle/RealRecyclicalHandle.kt:35-40 | the outcome and new state are exactly `HandleSpec.ShowOrHide` of the old state |
| `HandleSpec.Invalidate` | core/src/main/java/com/afollestad/recyclical/handle/RealRecyclicalHandle.kt:44-50 | passes iff on the main thread and the block returns normally; off the main thread the block does not run and nothing changes; on it the items are the block's result; if the block returns normally, the empty view, if present, is Visible exactly when they are empty and Gone otherwise; if the block throws, the outcome is `BlockThrew` and the empty view keeps its old visibility; attach flags and empty-view presence unchanged |
| `Handle.RealRecyclicalHandle.InvalidateList` | core/src/main/java/com/afollestad/recyclical/handle/RealRecyclicalHandle.kt:44-50 | the outcome and new state are exactly `HandleSpec.Invalidate` of the old state; on success the data source holds the block's items and the empty view is Visible iff the data source is empty |
| `Handle.DataSource.IsEmpty` | core/src/main/java/com/afollestad/recyclical/handle/RealRecyclicalHandle.kt:49 | true iff the data source holds no items |
| `HandleSpec.Attach` | core/src/main/java/com/afollestad/recyclical/handle/RealRecyclicalHandle.kt:65-68 | afterwards both the data source and the adapter are attached; items and empty view unchanged |
| `Handle.RealRecyclicalHandle.AttachDataSource` | core/src/main/java/com/afollestad/recyclical/handle/RealRecyclicalHandle.kt:65-68 | the new state is `HandleSpec.Attach` of the old; only the data source and adapter may change, so the registry maps and the empty view are untouched |
| `HandleSpec.Detach` | core/src/main/java/com/afollestad/recyclical/handle/RealRecyclicalHandle.kt:70-73 | afterwards neither the data source nor the adapter is attached; items and empty view unchanged |
| `Handle.RealRecyclicalHandle.DetachDataSource` | core/src/main/java/com/afollestad/recyclical/handle/RealRecyclicalHandle.kt:70-73 | the new state is `HandleSpec.Detach` of the old; the registry maps and the empty view are untouched |
| `Handle.DataSource.Attach` | core/src/main/java/com/afollestad/recyclical/handle/RealRecyclicalHandle.kt:66 | the data source becomes attached and keeps its items |
| `Handle.DataSource.Detach` | core/src/main/java/com/afollestad/recyclical/handle/RealRecyclicalHandle.kt:71 | the data source becomes detached and keeps its items |
| `Handle.DefinitionAdapter.Attach` | core/src/main/java/com/afollestad/recyclical/handle/RealRecyclicalHandle.kt:67 | the adapter becomes attached |
| `Handle.DefinitionAdapter.Detach` | core/src/main/java/com/afollestad/recyclical/handle/RealRecyclicalHandle.kt:72 | the adapter becomes detached |
| `HandleSpec.RunAppend` | core/src/main/java/com/afollestad/recyclical/handle/RealRecyclicalHandle.kt:35-73 | performing two sequences of handle operations one after the other equals performing their concatenation |
| `HandleSpec.RunKeepsAttachmentPaired` | core/src/main/java/com/afollestad/recyclical/handle/RealRecyclicalHandle.kt:65-73 | if the data source and the adapter agree on being attached, they still agree after any sequence of handle operations |
| `HandleSpec.LastLifecycleCallDecides` | core/src/main/java/com/afollestad/recyclical/handle/RealRecyclicalHandle.kt:65-73 | after any sequence of operations that ends with attach, both are attached; one ending with detach leaves neither attached |
| `HandleSpec.RunKeepsEmptyViewPresence` | core/src/main/java/com/afollestad/recyclical/handle/RealRecyclicalHandle.kt:28-39 | no sequence of operations adds or removes the empty view |
| `HandleSpec.RunKeepsItemsWithoutInvalidation` | core/src/main/java/com/afollestad/recyclical/handle/RealRecyclicalHandle.kt:44-50 | a sequence with no invalidation on the main thread leaves the items unchanged |
| `HandleSpec.InvalidateSynchronizesEmptyView` | core/src/main/java/com/afollestad/recyclical/handle/RealRecyclicalHandle.kt:44-50 | after any sequence of operations followed by an invalidation on the main thread whose block returns normally, the items are the block's result and the empty view, if present, is shown exactly when they are empty |
| `HandleSpec.RunKeepsEmptyViewInSync` | core/src/main/java/com/afollestad/recyclical/handle/RealRecyclicalHandle.kt:35-50 | once the empty view agrees with the items' emptiness, it keeps agreeing through any sequence that neither calls showOrHideEmptyView directly on the main thread nor runs an invalidation block that throws |

## Left out

- The thread-identity comparison of Android's `Looper` is not modelled. Whether
  the caller is on the main thread is a boolean argument.
- Android's `View` and RecyclerView `Adapter` types are left out. The empty view
  is reduced to its visibility. The adapter is reduced to its attached flag.
- The body of the block passed to `invalidateList` is arbitrary caller code. It
  is modelled only by the items it leaves in the data source. Changes it makes
  elsewhere are not modelled.
- `DataSource.attach/detach` and `DefinitionAdapter.attach/detach` are not part
  of this model beyond the attached flags they set. This includes the stored
  reference back to the handle and any error on attaching twice. The handle does
  not itself check the attach state. For the same reason, `invalidateList` is
  modelled without any requirement that the data source be attached: the
  handle's code does not check it.
- Data source mutations (add, remove, move and so on), view-holder creation,
  binding, click, swipe and recycle callbacks, and stable IDs are not part of
  this model. The sequences of operations in `HandleSpec` contain only the
  handle's own state-changing operations.
- Registering types in the two maps happens outside the handle. The handle never
  changes the maps and never checks that they are consistent with each other, so
  they are constant fields here.
- The text of the exception messages is not modelled. Only which lookup failed
  and on which key is kept.
- Kotlin's 32-bit `Int` view types are unbounded `int`. They are only map keys,
  so no arithmetic can overflow.
- The sample app's fragment is Android UI glue, and it is not part of this model.
