/**
 * The record the ingestor carries from the file to the store
 * (internal/core/domain/port.go), and the dynamic values that Go's
 * `any` / `interface{}` can hold where the core stores or inspects them.
 */
module Domain {

  /** One coordinate as the bit pattern of a float64. It is never computed with. */
  datatype Coordinate = Coordinate(bits: bv64)

  /** A port record. `id` is the record identifier; every other field is carried opaquely. */
  datatype Port = Port(
    id: string,
    name: string,
    city: string,
    country: string,
    alias: seq<string>,
    regions: seq<string>,
    coordinates: seq<Coordinate>,
    province: string,
    timezone: string,
    unlocs: seq<string>,
    code: string)

  type Ports = seq<Port>

  /** A port with only an identifier and a name, the shape the tests build. */
  function NamedPort(id: string, name: string): Port
  {
    Port(id, name, "", "", [], [], [], "", "", [], "")
  }

  /**
   * A value held by an `any`: the nil interface, a `domain.Port` value, a
   * `*domain.Port` (pointing at the given port), a `domain.Ports` slice, or a
   * value of some other dynamic type, named by its type.
   */
  datatype Any =
    | Nil
    | PortValue(port: Port)
    | PortPointer(target: Port)
    | PortsValue(ports: Ports)
    | OtherValue(typeName: string)
}
