/** Copying a typed slice into a slice of interface values (pkg/slices/slices.go). */
module Slices {

  /**
   * An `interface{}` value: nil, or a boxed value of the element type. The
   * copy is generic in its element type, so it gets its own interface type
   * rather than Domain.Any, which only lists the dynamic types the stores and
   * matchers meet.
   */
  datatype Iface<T> = Nil | Boxed(value: T)

  /**
   * Allocates a fresh slice of nil interfaces as long as the input and fills
   * it position by position. The input is only read: the method may modify
   * nothing that already exists.
   */
  method Interfaces<T>(vs: array<T>) returns (boxed: array<Iface<T>>)
    ensures fresh(boxed)
    ensures boxed.Length == vs.Length
    ensures forall i :: 0 <= i < vs.Length ==> boxed[i] == Boxed(vs[i])
  {
    boxed := new Iface<T>[vs.Length];
    var i := 0;
    while i < vs.Length
      invariant 0 <= i <= vs.Length
      invariant forall j :: 0 <= j < i ==> boxed[j] == Boxed(vs[j])
    {
      boxed[i] := Boxed(vs[i]);
      i := i + 1;
    }
  }
}
