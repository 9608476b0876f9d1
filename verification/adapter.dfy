/** The adapter between the functional and the object-style interface
    (src/dop_adapter.c). Wrapping four callbacks gives an object whose
    instance stores them and one component; its create method stores what the
    create callback returns, and its other methods forward to the stored
    callbacks only when both the callback and a component are present. The
    reverse direction hands out fixed wrappers around the core's create and
    update. The callbacks are function values. The update, destroy and
    serialize callbacks are given a value copy of the component's state, so
    their results can depend on that state; no callback can allocate or
    change the heap. */
module DopAdapter {
  import opened DopTypes
  import DopCore

  /** What a callback sees of the component it is passed: its metadata, its
      data and its stored checksum. */
  datatype View = View(metadata: Metadata, data: ComponentData, checksum: bv32)

  /** The current state of a component, as a callback sees it. */
  function ViewOf(c: Component): (v: View)
    reads c
    ensures v.metadata == c.metadata && v.data == c.data && v.checksum == c.checksum
  {
    View(c.metadata, c.data, c.checksum)
  }

  /** The instance behind an object-style interface. */
  class OopImpl {
    var component: Component?
    var createFunc: Option<int -> Component?>
    var updateFunc: Option<View -> int>
    var destroyFunc: Option<View -> int>
    var serializeFunc: Option<View -> Option<string>>

    /** A zero-filled instance that then takes the four callbacks. */
    constructor (create: Option<int -> Component?>, update: Option<View -> int>,
                 destroy: Option<View -> int>, serialize: Option<View -> Option<string>>)
      ensures component == null
      ensures createFunc == create && updateFunc == update
      ensures destroyFunc == destroy && serializeFunc == serialize
    {
      component := null;
      createFunc := create;
      updateFunc := update;
      destroyFunc := destroy;
      serializeFunc := serialize;
    }

    /** `oop_create`: INVALID_PARAMETER without a create callback; otherwise
        the instance keeps whatever the callback returns, and the result is
        SUCCESS when that is a component and MEMORY_ALLOCATION when it is
        NULL. The callbacks stay as they were. */
    method Create(t: int) returns (err: int)
      modifies this
      ensures createFunc == old(createFunc) && updateFunc == old(updateFunc)
      ensures destroyFunc == old(destroyFunc) && serializeFunc == old(serializeFunc)
      ensures createFunc.None? ==> err == InvalidParameter && component == old(component)
      ensures createFunc.Some? ==>
        && component == createFunc.value(t)
        && (err == Success <==> component != null)
        && (err != Success ==> err == MemoryAllocation)
    {
      if createFunc.Some? {
        component := createFunc.value(t);
        return if component != null then Success else MemoryAllocation;
      }
      return InvalidParameter;
    }

    /** `oop_update`: the update callback's result on the stored component, or
        INVALID_PARAMETER when either is missing. */
    function Update(): (err: int)
      reads this, component
      ensures updateFunc.None? || component == null ==> err == InvalidParameter
      ensures updateFunc.Some? && component != null ==> err == updateFunc.value(ViewOf(component))
    {
      if updateFunc.Some? && component != null then updateFunc.value(ViewOf(component)) else InvalidParameter
    }

    /** `oop_destroy`: the destroy callback's result on the stored component,
        or INVALID_PARAMETER when either is missing. */
    function Destroy(): (err: int)
      reads this, component
      ensures destroyFunc.None? || component == null ==> err == InvalidParameter
      ensures destroyFunc.Some? && component != null ==> err == destroyFunc.value(ViewOf(component))
    {
      if destroyFunc.Some? && component != null then destroyFunc.value(ViewOf(component)) else InvalidParameter
    }

    /** `oop_serialize`: the serialize callback's text for the stored
        component, or NULL when either is missing. */
    function Serialize(): (r: Option<string>)
      reads this, component
      ensures serializeFunc.None? || component == null ==> r.None?
      ensures serializeFunc.Some? && component != null ==> r == serializeFunc.value(ViewOf(component))
    {
      if serializeFunc.Some? && component != null then serializeFunc.value(ViewOf(component)) else None
    }

    /** `oop_get_data`: the stored component. */
    function GetData(): (c: Component?)
      reads this
      ensures c == component
    {
      component
    }
  }

  /** The object-style interface; its five method slots are always the
      methods of `OopImpl`, so only the instance is a field. */
  class OopInterface {
    const instance: OopImpl

    constructor (impl: OopImpl)
      ensures instance == impl
    {
      instance := impl;
    }
  }

  /** `dop_adapter_func_to_oop`: NULL unless both the create and the update
      callback are given; otherwise a fresh interface over a fresh instance
      that holds the four callbacks and no component yet. */
  method FuncToOop(create: Option<int -> Component?>, update: Option<View -> int>,
                   destroy: Option<View -> int>, serialize: Option<View -> Option<string>>)
    returns (iface: OopInterface?)
    ensures iface == null <==> create.None? || update.None?
    ensures iface != null ==>
      && fresh(iface) && fresh(iface.instance)
      && iface.instance.component == null
      && iface.instance.createFunc == create && iface.instance.updateFunc == update
      && iface.instance.destroyFunc == destroy && iface.instance.serializeFunc == serialize
  {
    if create.None? || update.None? {
      return null;
    }
    var impl := new OopImpl(create, update, destroy, serialize);
    iface := new OopInterface(impl);
  }

  /** Before anything has been created, every forwarding method of an adapted
      interface fails: update and destroy give INVALID_PARAMETER, serialize
      gives NULL, and the data is NULL. */
  lemma NothingBeforeCreate(impl: OopImpl)
    requires impl.component == null
    ensures impl.Update() == InvalidParameter && impl.Destroy() == InvalidParameter
    ensures impl.Serialize().None? && impl.GetData() == null
  {
  }

  /** The status the core's update returns for a component, as a callback
      that looks at the component: SUCCESS when its gate is OPEN, otherwise
      INVALID_PARAMETER. A callback gives the status only; the update of the
      component itself is `CallUpdateWrapper`. */
  function UpdateStatus(v: View): (err: int)
    ensures err == Success <==> v.metadata.gate == Open
    ensures err != Success ==> err == InvalidParameter
  {
    if v.metadata.gate == Open then Success else InvalidParameter
  }

  /** With the core's update status as its update callback, an adapted
      interface reports SUCCESS exactly when its component's gate is OPEN, so
      opening the gate turns a failing update into a succeeding one. */
  lemma UpdateFollowsGate(impl: OopImpl)
    requires impl.component != null && impl.updateFunc == Some(UpdateStatus)
    ensures impl.Update() == Success <==> impl.component.metadata.gate == Open
    ensures impl.Update() != Success ==> impl.Update() == InvalidParameter
  {
  }

  /** The functions the reverse adapter hands out. `CreateWrapper` stands for
      `create_wrapper`, whose call is `CallCreateWrapper`; `UpdateWrapper`
      stands for `update_wrapper`, whose call is `CallUpdateWrapper`. */
  datatype Wrapper = CreateWrapper | UpdateWrapper

  /** `dop_adapter_oop_to_func_create`: NULL for a NULL interface, otherwise
      the create wrapper, whatever the interface holds. */
  function OopToFuncCreate(iface: OopInterface?): (r: Option<Wrapper>)
    ensures r.None? <==> iface == null
    ensures r.Some? ==> r.value == CreateWrapper
  {
    if iface == null then None else Some(CreateWrapper)
  }

  /** `dop_adapter_oop_to_func_update`: NULL for a NULL interface, otherwise
      the update wrapper, whatever the interface holds. */
  function OopToFuncUpdate(iface: OopInterface?): (r: Option<Wrapper>)
    ensures r.None? <==> iface == null
    ensures r.Some? ==> r.value == UpdateWrapper
  {
    if iface == null then None else Some(UpdateWrapper)
  }

  /** The wrappers ignore the interface they were obtained from: any two
      interfaces give the same function. */
  lemma WrappersIgnoreInterface(a: OopInterface, b: OopInterface)
    ensures OopToFuncCreate(a) == OopToFuncCreate(b) && OopToFuncUpdate(a) == OopToFuncUpdate(b)
    ensures OopToFuncCreate(a) != OopToFuncUpdate(b)
  {
  }

  /** `create_wrapper`: the core's create. */
  method CallCreateWrapper(t: int, clockSeconds: u64, now: TimeData) returns (c: Component?)
    ensures c == null <==> !IsTypeCode(t)
    ensures c != null ==>
      && fresh(c) && c.WellFormed() && c.ChecksumMatches()
      && c.metadata.kind == TypeOfCode(t) && c.metadata.state == Ready && c.metadata.gate == Closed
      && c.data == DopCore.InitialData(TypeOfCode(t), now)
  {
    c := DopCore.CreateComponent(t, clockSeconds, now);
  }

  /** `update_wrapper`: the core's update. */
  method CallUpdateWrapper(c: Component?, now: TimeData, ops: TimeOps) returns (err: int)
    requires c != null ==> c.WellFormed()
    modifies c
    ensures c != null ==> c.WellFormed()
    ensures c != null ==> err == UpdateStatus(old(ViewOf(c)))
    ensures !old(DopCore.GateIsAccessible(c)) ==> err == InvalidParameter && (c != null ==> unchanged(c))
    ensures old(DopCore.GateIsAccessible(c)) ==>
      && err == Success
      && c.data == DopCore.Advance(old(c.data), now, ops)
      && c.metadata == old(c.metadata).(lastUpdateTimestamp := now.timestampMs)
      && c.ChecksumMatches()
  {
    err := DopCore.UpdateComponent(c, now, ops);
  }
}
