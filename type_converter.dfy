/** The two-way mapping between the language's type names and the runtime types that hold values. */
module TypeConverter {
  import opened Wrappers

  /** The runtime types: the three the language uses, and any other type a caller could pass. */
  datatype SystemType = Int | Float | Bool | OtherType(name: string)

  datatype ConversionError = UnsupportedType

  /**
   * A type name or token kind to a runtime type: "int" is Int, "float" and "exp" are Float,
   * "boolean" and "boolval" are Bool; every other string is unsupported.
   */
  function ConvertName(typeName: string): (r: Result<SystemType, ConversionError>)
    ensures r.Ok? <==> typeName in ["int", "float", "exp", "boolean", "boolval"]
    ensures r.Ok? ==> r.value.Int? || r.value.Float? || r.value.Bool?
  {
    match typeName
    case "int" => Ok(Int)
    case "float" => Ok(Float)
    case "exp" => Ok(Float)
    case "boolean" => Ok(Bool)
    case "boolval" => Ok(Bool)
    case _ => Err(UnsupportedType)
  }

  /** A runtime type to its name: Int is "int", Float is "float", Bool is "bool"; any other type is unsupported. */
  function ConvertType(t: SystemType): (r: Result<string, ConversionError>)
    ensures r.Ok? <==> !t.OtherType?
  {
    if t == Int then Ok("int")
    else if t == Float then Ok("float")
    else if t == Bool then Ok("bool")
    else Err(UnsupportedType)
  }

  /** Distinct supported types get distinct names. */
  lemma NamesDistinct(s: SystemType, t: SystemType)
    requires ConvertType(s).Ok? && ConvertType(t).Ok? && ConvertType(s) == ConvertType(t)
    ensures s == t
  {
  }

  /**
   * Name to type to name: every accepted name comes back as a name, and it comes back unchanged
   * exactly for "int" and "float"; "exp" becomes "float" and both boolean names become "bool".
   */
  lemma NameRoundTrip(typeName: string)
    requires ConvertName(typeName).Ok?
    ensures ConvertType(ConvertName(typeName).value).Ok?
    ensures ConvertType(ConvertName(typeName).value).value == typeName <==> typeName == "int" || typeName == "float"
    ensures typeName == "exp" ==> ConvertType(ConvertName(typeName).value) == Ok("float")
    ensures typeName in ["boolean", "boolval"] ==> ConvertType(ConvertName(typeName).value) == Ok("bool")
  {
  }

  /**
   * Type to name to type: Int and Float come back unchanged, but the name given to Bool is one
   * that the name conversion refuses.
   */
  lemma TypeRoundTrip(t: SystemType)
    requires ConvertType(t).Ok?
    ensures ConvertName(ConvertType(t).value).Ok? <==> t != Bool
    ensures ConvertName(ConvertType(t).value).Ok? ==> ConvertName(ConvertType(t).value) == Ok(t)
  {
  }
}
