/**
 * The board classification the mainboard consumes. The lookup tables behind
 * Identification.GetManufacturer and Identification.GetModel, and the names of
 * the Manufacturer enumeration, are not part of this model: the resolver is an
 * arbitrary triple of functions, constrained only by what every C# enumeration
 * guarantees.
 */
module Identification {
  import opened Wrappers

  /** The Manufacturer enumeration: its Unknown member, or another member by position. */
  datatype Manufacturer = Unknown | Listed(ordinal: nat)

  /** The Model enumeration: its Unknown member, or another member by position. */
  datatype Model = Unknown | Listed(ordinal: nat)

  /**
   * GetManufacturer and GetModel map a (possibly null) SMBIOS string to an
   * enumeration member; manufacturerString is Manufacturer.ToString().
   */
  datatype Resolver = Resolver(
    getManufacturer: Option<string> -> Manufacturer,
    getModel: Option<string> -> Model,
    manufacturerString: Manufacturer -> string)
  {
    /** ToString of an enumeration member is the member's (non-empty) identifier. */
    ghost predicate Valid() {
      && manufacturerString(Manufacturer.Unknown) == "Unknown"
      && forall m :: manufacturerString(m) != ""
    }
  }
}
