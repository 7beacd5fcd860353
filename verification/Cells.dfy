/** Binding cells. An import is a read-only view of the exporter's cell; the
    cell at the end of the views is shared by every importer. */
module Cells {
  import opened Syntax
  import opened Machine

  /** The state that all views of one binding share. */
  class Binding {
    var value: Option<Value>
    const writable: bool

    constructor (value: Option<Value>, writable: bool)
      ensures this.value == value && this.writable == writable
    {
      this.value, this.writable := value, writable;
    }
  }

  datatype Cell = Direct(binding: Binding) | View(target: Cell)

  datatype BindingError = Uninitialized | Immutable

  datatype BindingResult<T> = Bound(value: T) | Refused(error: BindingError)

  /** The binding behind all views. */
  function Root(c: Cell): Binding {
    match c
    case Direct(b) => b
    case View(target) => Root(target)
  }

  function Get(c: Cell): (r: BindingResult<Value>)
    reads Root(c)
    ensures r.Bound? <==> Root(c).value.Some?
    ensures r.Bound? ==> Root(c).value == Some(r.value)
    ensures r.Refused? ==> r.error == Uninitialized
  {
    match c
    case Direct(b) => if b.value.Some? then Bound(b.value.value) else Refused(Uninitialized)
    case View(target) => Get(target)
  }

  function IsInitialized(c: Cell): (r: bool)
    reads Root(c)
    ensures r <==> Get(c).Bound?
  {
    match c
    case Direct(b) => b.value.Some?
    case View(target) => IsInitialized(target)
  }

  /** Initialize or assign the binding of a direct cell; views are read-only. */
  method Set(c: Cell, v: Value) returns (r: BindingResult<()>)
    modifies Root(c)
    ensures r.Bound? <==> c.Direct? && (old(Root(c).value).None? || Root(c).writable)
    ensures r.Refused? ==> r.error == Immutable
    ensures Root(c).value == if r.Bound? then Some(v) else old(Root(c).value)
  {
    match c
    case Direct(b) =>
      if b.value.None? {
        b.value := Some(v);
        return Bound(());
      }
      if !b.writable {
        return Refused(Immutable);
      }
      b.value := Some(v);
      return Bound(());
    case View(_) =>
      return Refused(Immutable);
  }

  /** Identity of bindings, looking through views on either side. */
  predicate PtrEq(left: Cell, right: Cell)
    decreases left, right
  {
    match (left, right)
    case (View(l), _) => PtrEq(l, right)
    case (_, View(r)) => PtrEq(left, r)
    case (Direct(a), Direct(b)) => a == b
  }

  lemma {:induction false} PtrEqRoot(left: Cell, right: Cell)
    ensures PtrEq(left, right) <==> Root(left) == Root(right)
    decreases left, right
  {
    match (left, right)
    case (View(l), _) => PtrEqRoot(l, right);
    case (_, View(r)) => PtrEqRoot(left, r);
    case (Direct(_), Direct(_)) =>
  }

  function CreateImport(target: Cell): (c: Cell)
    ensures Root(c) == Root(target)
  {
    View(target)
  }

  /** A write by the exporter is seen through every view of its cell and
      nowhere else; a write through a view changes nothing. */
  method WriteThrough(exporter: Cell, importer: Cell, other: Cell, v: Value) returns (r: BindingResult<()>)
    requires Root(importer) == Root(exporter) && Root(other) != Root(exporter)
    modifies Root(exporter)
    ensures r.Bound? ==> Get(importer) == Get(exporter) == Bound(v)
    ensures r.Refused? || exporter.View? ==> Get(importer) == old(Get(importer))
    ensures Get(other) == old(Get(other))
  {
    ghost var before := Get(other);
    r := Set(exporter, v);
    assert Root(other).value == old(Root(other).value);
  }
}
