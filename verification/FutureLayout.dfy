/** The memory of a future: where MakeFuture puts its parts, and where the accessors look for them. */
module FutureLayout {
  import opened Options

  const OBJECT_ALIGNMENT := 8

  /** Rounded up to the alignment. */
  function AlignedSize(size: nat): (aligned: nat)
    ensures aligned % OBJECT_ALIGNMENT == 0 && size <= aligned < size + OBJECT_ALIGNMENT
  {
    (size + OBJECT_ALIGNMENT - 1) / OBJECT_ALIGNMENT * OBJECT_ALIGNMENT
  }

  /** The mask expression of GetAlignedSize rounds up: on 64-bit words it is the division by 8 above. */
  lemma MaskIsRounding(size: bv64)
    ensures (size + 7) & 0xFFFF_FFFF_FFFF_FFF8 == (size + 7) / 8 * 8
  {
  }

  /** implSize and callbackSize: the sizes of FutureImpl and FutureCallback. */
  datatype Sizes = Sizes(implSize: nat, callbackSize: nat, hasTaskPost: bool, valueSize: nat, taskSize: nat)

  datatype Region = Region(offset: nat, size: nat) {
    function End(): nat {
      offset + size
    }
  }

  datatype Layout = Layout(
    weakRef: Region, impl: Region, callback: Region, value: Region, task: Region, memorySize: nat)

  /** The offsets MakeFuture reserves. */
  method MakeFuture(s: Sizes) returns (layout: Layout)
    ensures layout == Reserved(s)
  {
    var memorySize := OBJECT_ALIGNMENT;
    var implOffset := AlignedSize(memorySize);
    memorySize := implOffset + s.implSize;
    var callbackOffset := AlignedSize(memorySize);
    memorySize := callbackOffset + if s.hasTaskPost then s.callbackSize else 0;
    var valueOffset := AlignedSize(memorySize);
    memorySize := valueOffset + s.valueSize;
    var taskOffset := AlignedSize(memorySize);
    memorySize := taskOffset + s.taskSize;
    layout := Layout(
      Region(0, OBJECT_ALIGNMENT), Region(implOffset, s.implSize),
      Region(callbackOffset, if s.hasTaskPost then s.callbackSize else 0),
      Region(valueOffset, s.valueSize), Region(taskOffset, s.taskSize), memorySize);
  }

  /** One region after the other, each at the next aligned offset. */
  function Reserved(s: Sizes): Layout {
    var weakRef := Region(0, OBJECT_ALIGNMENT);
    var impl := After(weakRef, s.implSize);
    var callback := After(impl, if s.hasTaskPost then s.callbackSize else 0);
    var value := After(callback, s.valueSize);
    var task := After(value, s.taskSize);
    Layout(weakRef, impl, callback, value, task, task.End())
  }

  function After(region: Region, size: nat): Region {
    Region(AlignedSize(region.End()), size)
  }

  // ---------- the accessors, relative to the FutureImpl ----------

  function GetCallback(s: Sizes): Option<Region> {
    if s.hasTaskPost then Some(Region(AlignedSize(s.implSize), s.callbackSize)) else None
  }

  /** The size of what precedes the value, counted from the FutureImpl. */
  function BeforeValue(s: Sizes): nat {
    if s.hasTaskPost then s.callbackSize + AlignedSize(s.implSize) else s.implSize
  }

  function GetValueInternal(s: Sizes): Option<Region> {
    if s.valueSize == 0 then None else Some(Region(AlignedSize(BeforeValue(s)), s.valueSize))
  }

  function GetTask(s: Sizes): Option<Region> {
    if s.taskSize == 0 then None
    else
      var memorySize := if s.valueSize > 0 then s.valueSize + AlignedSize(BeforeValue(s)) else BeforeValue(s);
      Some(Region(AlignedSize(memorySize), s.taskSize))
  }

  // ---------- agreement ----------

  lemma AlignedBase(base: nat, size: nat)
    requires base % OBJECT_ALIGNMENT == 0
    ensures AlignedSize(base + size) == base + AlignedSize(size)
  {
    assert base == base / 8 * 8;
  }

  /** A region found relative to the FutureImpl is the region reserved in the allocation. */
  predicate Finds(found: Option<Region>, layout: Layout, reserved: Region) {
    found.Some? ==> layout.impl.offset + found.value.offset == reserved.offset && found.value.size == reserved.size
  }

  lemma CallbackAgrees(s: Sizes)
    ensures Reserved(s).impl.offset == 8 && Reserved(s).callback.offset == 8 + AlignedSize(s.implSize)
  {
    AlignedBase(8, s.implSize);
  }

  lemma AlreadyAligned(size: nat)
    requires size % OBJECT_ALIGNMENT == 0
    ensures AlignedSize(size) == size
  {
    AlignedBase(size, 0);
  }

  lemma ValueAgrees(s: Sizes)
    ensures Reserved(s).value.offset == 8 + AlignedSize(BeforeValue(s))
  {
    CallbackAgrees(s);
    var end := Reserved(s).callback.End();
    if s.hasTaskPost {
      assert end == 8 + BeforeValue(s);
      AlignedBase(8, BeforeValue(s));
    } else {
      assert end == Reserved(s).callback.offset;
      AlreadyAligned(end);
    }
  }

  lemma TaskAgrees(s: Sizes)
    ensures Reserved(s).task.offset ==
              8 + AlignedSize(if s.valueSize > 0 then s.valueSize + AlignedSize(BeforeValue(s)) else BeforeValue(s))
  {
    ValueAgrees(s);
    AlignedBase(8, AlignedSize(BeforeValue(s)) + s.valueSize);
    AlignedBase(AlignedSize(BeforeValue(s)), 0);
  }

  /** For all sizes and flags, what the accessors recompute is what MakeFuture reserved; they find a part if and only if
      it is there. */
  lemma AccessorsAgree(s: Sizes)
    ensures var layout := Reserved(s);
            && Finds(GetCallback(s), layout, layout.callback) && (GetCallback(s).Some? <==> s.hasTaskPost)
            && Finds(GetValueInternal(s), layout, layout.value)
            && (GetValueInternal(s).Some? <==> layout.value.size > 0)
            && Finds(GetTask(s), layout, layout.task) && (GetTask(s).Some? <==> layout.task.size > 0)
  {
    CallbackAgrees(s);
    ValueAgrees(s);
    TaskAgrees(s);
  }

  /** b comes after a, and no more is lost between them than alignment takes. */
  predicate Apart(a: Region, b: Region) {
    a.End() <= b.offset < a.End() + OBJECT_ALIGNMENT
  }

  /** Every part starts 8-aligned; the parts do not overlap, and end inside the allocation. */
  lemma RegionsAreSound(s: Sizes)
    ensures var layout := Reserved(s);
            && layout.weakRef.offset % 8 == layout.impl.offset % 8 == layout.callback.offset % 8 == 0
            && layout.value.offset % 8 == layout.task.offset % 8 == 0
            && Apart(layout.weakRef, layout.impl) && Apart(layout.impl, layout.callback)
            && Apart(layout.callback, layout.value) && Apart(layout.value, layout.task)
            && layout.task.End() == layout.memorySize
  {
  }

  /** GetFutureImpl subtracts the unrounded size of FutureImpl from the address of the callback: it finds the future
      again exactly when that size is a multiple of the alignment. */
  lemma CallbackFindsFuture(s: Sizes)
    ensures Reserved(s).callback.offset - s.implSize == Reserved(s).impl.offset <==> s.implSize % OBJECT_ALIGNMENT == 0
  {
    AlignedBase(8, s.implSize);
    if s.implSize % OBJECT_ALIGNMENT == 0 { AlignedBase(s.implSize, 0); }
  }
}
