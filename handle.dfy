/**
 * The list handle of recyclical: the object that owns the registry maps
 * (item class name to view type, view type to item definition), the optional
 * empty view, the adapter and the data source, and mediates lookups,
 * invalidation and the attach/detach lifecycle.
 *
 * Each state-changing method is proved to perform the transition that
 * HandleSpec defines on the handle's abstract State().
 */
module Handle {
  import opened Wrappers
  import opened HandleSpec

  /** Why a registry lookup fails; each carries the key that was not found. */
  datatype LookupError =
    | NoTypeForClass(name: string)
    | NoDefinitionForType(viewType: int)

  /** The optional view shown in place of the list while it is empty. */
  class EmptyView {
    var visibility: Visibility

    constructor (visibility: Visibility)
      ensures this.visibility == visibility
    {
      this.visibility := visibility;
    }
  }

  /**
   * The data source, reduced to what the handle observes: its items and
   * whether it is attached to a handle.
   */
  class DataSource<T> {
    var items: seq<T>
    var attached: bool

    constructor (items: seq<T>)
      ensures this.items == items && !attached
    {
      this.items := items;
      attached := false;
    }

    predicate IsEmpty(): (empty: bool)
      reads this
      ensures empty <==> items == []
    {
      |items| == 0
    }

    method Attach()
      modifies this
      ensures attached && items == old(items)
    {
      attached := true;
    }

    method Detach()
      modifies this
      ensures !attached && items == old(items)
    {
      attached := false;
    }
  }

  /** The definition adapter, reduced to whether it is attached to a handle. */
  class DefinitionAdapter {
    var attached: bool

    constructor ()
      ensures !attached
    {
      attached := false;
    }

    method Attach()
      modifies this
      ensures attached
    {
      attached := true;
    }

    method Detach()
      modifies this
      ensures !attached
    {
      attached := false;
    }
  }

  /**
   * The handle. T is the type of the items, D the type of the item
   * definitions; the handle never looks inside either.
   */
  class RealRecyclicalHandle<T, D> {
    const emptyView: EmptyView?
    const adapter: DefinitionAdapter
    const itemClassToType: map<string, int>
    const bindingsToTypes: map<int, D>
    const dataSource: DataSource<T>

    constructor (emptyView: EmptyView?, adapter: DefinitionAdapter,
                 itemClassToType: map<string, int>, bindingsToTypes: map<int, D>,
                 dataSource: DataSource<T>)
      ensures this.emptyView == emptyView && this.adapter == adapter
      ensures this.itemClassToType == itemClassToType && this.bindingsToTypes == bindingsToTypes
      ensures this.dataSource == dataSource
    {
      this.emptyView := emptyView;
      this.adapter := adapter;
      this.itemClassToType := itemClassToType;
      this.bindingsToTypes := bindingsToTypes;
      this.dataSource := dataSource;
    }

    /** The handle's observable state, as HandleSpec describes it. */
    ghost function State(): HandleState<T>
      reads emptyView, dataSource, adapter
    {
      HandleState(
        if emptyView == null then None else Some(emptyView.visibility),
        dataSource.items, dataSource.attached, adapter.attached)
    }

    method ShowOrHideEmptyView(onMainThread: bool, show: bool) returns (r: Outcome<HandleError>)
      modifies emptyView
      ensures Transition(r, State()) == ShowOrHide(old(State()), onMainThread, show)
    {
      if !onMainThread {
        return Fail(NotOnMainThread);
      }
      if emptyView != null {
        emptyView.visibility := VisibilityFor(show);
      }
      r := Pass;
    }

    /** The adapter is the one the handle was constructed with, on every call. */
    function GetAdapter(): (a: DefinitionAdapter)
      ensures a == adapter
    {
      adapter
    }

    /**
     * Runs the caller's block against the adapter, then shows the empty view
     * exactly when the data source is empty. The block is arbitrary caller
     * code; `after` is the item sequence it leaves in the data source, and
     * `blockThrows` says whether it ends by throwing, which skips the
     * recomputation of the empty view.
     */
    method InvalidateList(onMainThread: bool, blockThrows: bool, after: seq<T>) returns (r: Outcome<HandleError>)
      modifies emptyView, dataSource
      ensures Transition(r, State()) == Invalidate(old(State()), onMainThread, blockThrows, after)
      ensures r.Pass? ==> dataSource.items == after
      ensures r.Pass? && emptyView != null ==>
                (emptyView.visibility == Visible <==> dataSource.IsEmpty())
    {
      if !onMainThread {
        return Fail(NotOnMainThread);
      }
      dataSource.items := after;
      if blockThrows {
        return Fail(BlockThrew);
      }
      r := ShowOrHideEmptyView(true, dataSource.IsEmpty());
    }

    /** The view type registered for an item class name; never a default. */
    function GetViewTypeForClass(name: string): (r: Result<int, LookupError>)
      ensures r.Success? <==> name in itemClassToType
      ensures r.Success? ==> r.value == itemClassToType[name]
      ensures r.Failure? ==> r.error == NoTypeForClass(name)
    {
      if name in itemClassToType then Success(itemClassToType[name])
      else Failure(NoTypeForClass(name))
    }

    /** The item definition bound to a view type; never a default. */
    function GetDefinitionForType(viewType: int): (r: Result<D, LookupError>)
      ensures r.Success? <==> viewType in bindingsToTypes
      ensures r.Success? ==> r.value == bindingsToTypes[viewType]
      ensures r.Failure? ==> r.error == NoDefinitionForType(viewType)
    {
      if viewType in bindingsToTypes then Success(bindingsToTypes[viewType])
      else Failure(NoDefinitionForType(viewType))
    }

    /**
     * The item definition for an item class name, through its view type: it is
     * found only when the name is registered and its view type is bound, and
     * fails with the error of the first lookup that fails.
     */
    function GetDefinitionForClass(name: string): (r: Result<D, LookupError>)
      ensures r.Success? <==>
                name in itemClassToType && itemClassToType[name] in bindingsToTypes
      ensures r.Success? ==> r.value == bindingsToTypes[itemClassToType[name]]
      ensures name !in itemClassToType ==> r == Failure(NoTypeForClass(name))
      ensures name in itemClassToType && itemClassToType[name] !in bindingsToTypes ==>
                r == Failure(NoDefinitionForType(itemClassToType[name]))
    {
      match GetViewTypeForClass(name)
      case Failure(e) => Failure(e)
      case Success(viewType) => GetDefinitionForType(viewType)
    }

    /** Attaches the data source and then the adapter to this handle. */
    method AttachDataSource()
      modifies dataSource, adapter
      ensures State() == Attach(old(State()))
    {
      dataSource.Attach();
      adapter.Attach();
    }

    /** Detaches the data source and then the adapter. */
    method DetachDataSource()
      modifies dataSource, adapter
      ensures State() == Detach(old(State()))
    {
      dataSource.Detach();
      adapter.Detach();
    }
  }
}
