/** Small value types shared by the Schematyc, editor and entity-system models. */
module Common {

  /** A value or nothing; `None` stands for a null pointer or an empty result. */
  datatype Option<+T> = None | Some(value: T)

  /** A Schematyc SGUID: 128 bits, kept as two 64-bit halves. */
  datatype Guid = Guid(high: bv64, low: bv64)

  /** The default-constructed SGUID, which GUID::IsEmpty recognises. */
  const EmptyGuid: Guid := Guid(0, 0)

  predicate IsEmpty(guid: Guid)
  {
    guid == EmptyGuid
  }
}
