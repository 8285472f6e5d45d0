/** The `#[derive(Attestation)]` procedural macro and its two pass-through
    companions. The model computes the ABI value the generated
    `ABIProvider` implementation returns rather than its token stream. */
module Derive {
  import opened Wrappers
  import opened AbiTypes

  /** One segment of a type path, `ident` or `ident<args>`; `args` is the
      text between the angle brackets, empty when there are none. */
  datatype PathSegment = PathSegment(ident: string, args: string)

  /** A field type: a (possibly qualified) path such as `a::b::u64` or
      `Array<u8>`, or any other type form (tuple, reference, ...). */
  datatype Type = Path(segments: seq<PathSegment>) | NonPath(text: string)

  datatype NamedField = NamedField(ident: string, ty: Type)

  /** The field shape of a struct: named, tuple-like or unit. */
  datatype Fields = Named(named: seq<NamedField>) | Unnamed(unnamed: seq<Type>) | Unit

  /** The body of the item the macro is applied to. */
  datatype Data = StructData(fields: Fields) | EnumData(variants: seq<string>) | UnionData

  datatype DeriveInput = DeriveInput(ident: string, data: Data)

  datatype DeriveError = OnlyNamedFields | OnlyStructs {
    /** The message of the compile error the macro reports. */
    function Message(): string {
      match this
      case OnlyNamedFields => "Only structs with named fields are supported"
      case OnlyStructs => "Only structs are supported"
    }
  }

  /** What the derive expands to: the provider, or a compile error. */
  datatype MacroOutput = Generated(provider: AbiProvider) | CompileError(message: string)

  /** An opaque token stream, one string per token. */
  type TokenStream = seq<string>

  /** The identifier of the last path segment, if the type is a non-empty path. */
  function LastIdent(ty: Type): Option<string> {
    if ty.Path? && |ty.segments| > 0 then Some(ty.segments[|ty.segments| - 1].ident) else None
  }

  /** Maps a field type to its ABI type name and byte size, keyed on the
      last path segment's identifier. */
  function GetTypeInfo(ty: Type): (r: TypeInfo)
    ensures LastIdent(ty).Some? && LastIdent(ty).value in FixedWidthTable ==>
              r == TypeInfo(LastIdent(ty).value, FixedWidthTable[LastIdent(ty).value])
    ensures LastIdent(ty).Some? && LastIdent(ty).value in VariableWidthNames ==>
              r == TypeInfo(LastIdent(ty).value, 0)
    ensures LastIdent(ty).None? || LastIdent(ty).value !in KnownNames ==>
              r == TypeInfo(UnknownName, 0)
    ensures r.typeName in KnownNames || r.typeName == UnknownName
    ensures r.sizeBytes <= MaxFieldSize
  {
    match ty
    case Path(segments) =>
      if |segments| == 0 then TypeInfo("unknown", 0)
      else (
        match segments[|segments| - 1].ident
        case "ContractAddress" => TypeInfo("ContractAddress", 32)
        case "felt252" => TypeInfo("felt252", 32)
        case "u8" => TypeInfo("u8", 1)
        case "u16" => TypeInfo("u16", 2)
        case "u32" => TypeInfo("u32", 4)
        case "u64" => TypeInfo("u64", 8)
        case "u128" => TypeInfo("u128", 16)
        case "u256" => TypeInfo("u256", 32)
        case "bool" => TypeInfo("bool", 1)
        case "ByteArray" => TypeInfo("ByteArray", 0)
        case "Array" => TypeInfo("Array", 0)
        case "Span" => TypeInfo("Span", 0)
        case _ => TypeInfo("unknown", 0))
    case NonPath(_) => TypeInfo("unknown", 0)
  }

  /** The field names, in declaration order. */
  ghost function FieldNames(fields: seq<NamedField>): (names: seq<string>)
    ensures |names| == |fields|
  {
    seq(|fields|, i requires 0 <= i < |fields| => fields[i].ident)
  }

  /** The type info of each field, in declaration order. */
  ghost function FieldInfos(fields: seq<NamedField>): (infos: seq<TypeInfo>)
    ensures |infos| == |fields|
  {
    seq(|fields|, i requires 0 <= i < |fields| => GetTypeInfo(fields[i].ty))
  }

  /** One `ABIField` per named field, in order (the `abi_fields` map). */
  function AbiFields(fields: seq<NamedField>): (r: seq<ABIField>)
    ensures FieldsProject(r, FieldNames(fields), FieldInfos(fields))
  {
    if |fields| == 0 then []
    else
      var info := GetTypeInfo(fields[0].ty);
      [ABIField(fields[0].ident, info.typeName, info.sizeBytes)] + AbiFields(fields[1..])
  }

  /** The separately computed sum of per-field sizes (the `sum::<u32>()`). */
  function TotalSize(fields: seq<NamedField>): (r: nat)
    ensures r <= MaxFieldSize * |fields|
  {
    if |fields| == 0 then 0 else GetTypeInfo(fields[0].ty).sizeBytes + TotalSize(fields[1..])
  }

  /** The two passes over the fields agree: the separately summed total is
      the sum of the emitted fields' sizes. */
  lemma {:induction false} TotalSizeIsFieldSum(fields: seq<NamedField>)
    ensures TotalSize(fields) == SumSizes(AbiFields(fields))
  {
    if |fields| > 0 {
      TotalSizeIsFieldSum(fields[1..]);
      assert AbiFields(fields)[1..] == AbiFields(fields[1..]);
    }
  }

  /** Builds the provider of a struct with named fields; enums, unions,
      tuple structs and unit structs are rejected. */
  function GenerateAbiProvider(input: DeriveInput): (r: Result<AbiProvider, DeriveError>)
    ensures r.Success? <==> input.data.StructData? && input.data.fields.Named?
    ensures !input.data.StructData? ==> r == Failure(OnlyStructs)
    ensures input.data.StructData? && !input.data.fields.Named? ==> r == Failure(OnlyNamedFields)
    ensures r.Success? ==>
              IsProviderFor(r.value, input.ident, FieldNames(input.data.fields.named),
                            FieldInfos(input.data.fields.named))
    ensures r.Success? ==> r.value.abi.totalSize <= MaxFieldSize * r.value.fieldCount
  {
    match input.data
    case StructData(Named(fields)) =>
      var fieldCount := |fields|;
      var abiFields := AbiFields(fields);
      var totalSize := TotalSize(fields);
      TotalSizeIsFieldSum(fields);
      Success(AbiProvider(StructABI(input.ident, abiFields, totalSize), fieldCount))
    case StructData(_) => Failure(OnlyNamedFields)
    case _ => Failure(OnlyStructs)
  }

  /** The derive entry point: the provider, or the error turned into a
      compile error carrying its message. */
  function DeriveAttestation(input: DeriveInput): (r: MacroOutput)
    ensures r.Generated? <==> input.data.StructData? && input.data.fields.Named?
    ensures !input.data.StructData? ==> r == CompileError("Only structs are supported")
    ensures input.data.StructData? && !input.data.fields.Named? ==>
              r == CompileError("Only structs with named fields are supported")
    ensures r.Generated? ==> GenerateAbiProvider(input) == Success(r.provider)
    ensures r.Generated? ==>
              IsProviderFor(r.provider, input.ident, FieldNames(input.data.fields.named),
                            FieldInfos(input.data.fields.named))
  {
    match GenerateAbiProvider(input)
    case Success(provider) => Generated(provider)
    case Failure(err) => CompileError(err.Message())
  }

  /** `#[attestation_abi(...)]`: the arguments are ignored and the item is
      emitted unchanged. */
  function AttestationAbi(args: TokenStream, input: DeriveInput): (r: DeriveInput)
    ensures r == input
  {
    input
  }

  /** `abi_field!(...)`: returns its input tokens unchanged. */
  function AbiFieldMacro(input: TokenStream): (r: TokenStream)
    ensures r == input
  {
    input
  }

  /** The unit test's type table: ContractAddress 32, felt252 32, u64 8,
      bool 1, ByteArray 0. */
  lemma TypeMappingExamples()
    ensures GetTypeInfo(Path([PathSegment("ContractAddress", "")])) == TypeInfo("ContractAddress", 32)
    ensures GetTypeInfo(Path([PathSegment("felt252", "")])) == TypeInfo("felt252", 32)
    ensures GetTypeInfo(Path([PathSegment("u64", "")])) == TypeInfo("u64", 8)
    ensures GetTypeInfo(Path([PathSegment("bool", "")])) == TypeInfo("bool", 1)
    ensures GetTypeInfo(Path([PathSegment("ByteArray", "")])) == TypeInfo("ByteArray", 0)
  {
  }

  /** A qualified path maps like its last segment. */
  lemma QualifiedPathMapsLikeLastSegment(prefix: seq<PathSegment>, last: PathSegment)
    ensures GetTypeInfo(Path(prefix + [last])) == GetTypeInfo(Path([last]))
  {
    assert LastIdent(Path(prefix + [last])) == LastIdent(Path([last]));
  }

  /** The unit tests' structs: a two-field struct reports two fields, and an
      enum is rejected. */
  lemma FieldCountAndEnumExamples()
    ensures var twoFields := DeriveInput("TestStruct", StructData(Named([
              NamedField("field1", Path([PathSegment("ContractAddress", "")])),
              NamedField("field2", Path([PathSegment("felt252", "")]))])));
            && GenerateAbiProvider(twoFields).Success?
            && GenerateAbiProvider(twoFields).value.fieldCount == 2
            && GenerateAbiProvider(twoFields).value.abi.totalSize == 64
    ensures GenerateAbiProvider(DeriveInput("TestEnum", EnumData(["Variant1", "Variant2"])))
              == Failure(OnlyStructs)
  {
  }
}
