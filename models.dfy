/** The records the client returns. Auth, Profile and Measure are built by the client itself
    from body members without any conversion (dataclass annotations are not enforced), so
    their fields hold the copied JSON value. Devices are built by the device factory, which
    is not part of this model; their fields follow the annotations. */
module Models {
  import opened Json

  /** The session token returned by `auth`. */
  datatype Auth = Auth(token: Value)

  /** The user's profile; `id` is annotated `int` but receives whatever the body holds. */
  datatype Profile = Profile(id: Value, gridType: Value)

  /** One reading of `get_measures_total`; `typeName` is the source's `type` field. */
  datatype Measure = Measure(typeName: Value, unit: Value, value: Value)

  /** The base Device record (`typeName` is its `type` field) and the variant its subclass adds. */
  datatype Device = Device(id: string, name: string, typeName: string, typeId: string, variant: Variant)

  datatype Variant =
    | Plain
    | Battery(state: bool, capacity: int)
    | Relay(state: bool, masterId: string, masterType: string)
    | Counter(state: bool, phase: int, masterId: string, masterType: string)
    | CompositeCounter(masterId: string, masterType: string, children: map<string, int>)
    | Virtual(state: bool)
    | Master(state: bool, reportPeriod: int)
}
