/** The Cairo compiler plugin: for a struct carrying `#[derive(Attestation)]`
    it generates an `ABIProvider` implementation. The model computes the
    ABI value that implementation returns rather than its source text. */
module Plugin {
  import opened Wrappers
  import opened Text
  import opened AbiTypes

  /** A struct member `name: type`, its type as written (without trivia). */
  datatype Member = Member(name: string, typeText: string)

  /** A struct's member list: a list of named members, or any other shape. */
  datatype MemberList = Named(members: seq<Member>) | NotNamed

  /** An attribute `#[name(args)]`; `args` holds the text of each argument
      and is `None` when the attribute has no argument list. */
  datatype Attribute = Attribute(name: string, args: Option<seq<string>>)

  datatype ItemStruct = ItemStruct(name: string, attributes: seq<Attribute>, members: MemberList)

  /** A module item handed to the plugin; only structs are of interest. */
  datatype ModuleItem = Struct(item: ItemStruct) | OtherItem

  datatype Severity = Error

  datatype PluginDiagnostic = PluginDiagnostic(message: string, severity: Severity)

  /** `PluginResult`: the generated provider (if any), diagnostics, and
      whether the original item is removed. */
  datatype PluginResult = PluginResult(
    code: Option<AbiProvider>,
    diagnostics: seq<PluginDiagnostic>,
    removeOriginalItem: bool)

  /** `PluginResult::default()`: no code, no diagnostics, item kept. */
  const DefaultResult: PluginResult := PluginResult(None, [], false)

  const NamedMembersOnly: string := "Only structs with named members are supported"

  /** Maps a member's type text to its ABI type name and byte size. */
  function CairoTypeInfo(typeText: string): (r: TypeInfo)
    ensures typeText in FixedWidthTable ==> r == TypeInfo(typeText, FixedWidthTable[typeText])
    ensures typeText == "ByteArray" ==> r == TypeInfo("ByteArray", 0)
    ensures typeText !in FixedWidthTable && typeText != "ByteArray" ==>
              if StartsWith(typeText, "Array<") then r == TypeInfo("Array", 0)
              else if StartsWith(typeText, "Span<") then r == TypeInfo("Span", 0)
              else r == TypeInfo(typeText, 0)
    ensures r.sizeBytes > 0 <==> typeText in FixedWidthTable
    ensures r.sizeBytes <= MaxFieldSize
  {
    match typeText
    case "ContractAddress" => TypeInfo("ContractAddress", 32)
    case "felt252" => TypeInfo("felt252", 32)
    case "u8" => TypeInfo("u8", 1)
    case "u16" => TypeInfo("u16", 2)
    case "u32" => TypeInfo("u32", 4)
    case "u64" => TypeInfo("u64", 8)
    case "u128" => TypeInfo("u128", 16)
    case "u256" => TypeInfo("u256", 32)
    case "bool" => TypeInfo("bool", 1)
    case "ByteArray" => TypeInfo("ByteArray", 0)
    case _ =>
      if StartsWith(typeText, "Array<") then TypeInfo("Array", 0)
      else if StartsWith(typeText, "Span<") then TypeInfo("Span", 0)
      else TypeInfo(typeText, 0)
  }

  /** The argument list of a `derive` attribute; `None` for any other
      attribute or a `derive` without arguments. */
  function DeriveAttrList(attr: Attribute): Option<seq<string>> {
    if attr.name != "derive" then None else attr.args
  }

  /** Some `derive` attribute of the list names `Attestation`. */
  ghost predicate DerivesAttestation(attributes: seq<Attribute>) {
    exists i, j :: 0 <= i < |attributes| && attributes[i].name == "derive" && attributes[i].args.Some?
      && 0 <= j < |attributes[i].args.value| && attributes[i].args.value[j] == "Attestation"
  }

  /** Scans every attribute's derive list for `Attestation`, stopping at the
      first hit. */
  method HasAttestationDerive(s: ItemStruct) returns (found: bool)
    ensures found <==> DerivesAttestation(s.attributes)
  {
    for i := 0 to |s.attributes|
      invariant !DerivesAttestation(s.attributes[..i])
    {
      var attrList := DeriveAttrList(s.attributes[i]);
      if attrList.Some? {
        for j := 0 to |attrList.value|
          invariant forall k :: 0 <= k < j ==> attrList.value[k] != "Attestation"
        {
          if attrList.value[j] == "Attestation" {
            assert s.attributes[i].args.value[j] == "Attestation";
            return true;
          }
        }
      }
      assert s.attributes[..i + 1][..i] == s.attributes[..i];
    }
    assert s.attributes[..|s.attributes|] == s.attributes;
    return false;
  }

  /** The member names, in declaration order. */
  ghost function MemberNames(members: seq<Member>): (names: seq<string>)
    ensures |names| == |members|
  {
    seq(|members|, i requires 0 <= i < |members| => members[i].name)
  }

  /** The plugin's type info of each member, in declaration order. */
  ghost function MemberInfos(members: seq<Member>): (infos: seq<TypeInfo>)
    ensures |infos| == |members|
  {
    seq(|members|, i requires 0 <= i < |members| => CairoTypeInfo(members[i].typeText))
  }

  /** Folds the member list into ABI fields, a running `total_size` and the
      member count; a struct without named members is rejected. */
  method GenerateAbiProviderForStruct(s: ItemStruct) returns (r: Result<AbiProvider, PluginDiagnostic>)
    ensures r.Failure? <==> s.members.NotNamed?
    ensures r.Failure? ==> r.error == PluginDiagnostic(NamedMembersOnly, Error)
    ensures r.Success? ==>
              IsProviderFor(r.value, s.name, MemberNames(s.members.members), MemberInfos(s.members.members))
    ensures r.Success? ==> r.value.abi.totalSize <= MaxFieldSize * r.value.fieldCount
  {
    if s.members.NotNamed? {
      return Failure(PluginDiagnostic(NamedMembersOnly, Error));
    }
    var members := s.members.members;
    var fields: seq<ABIField> := [];
    var totalSize: nat := 0;
    var fieldCount := |members|;
    for i := 0 to |members|
      invariant |fields| == i
      invariant forall k :: 0 <= k < i ==>
                  fields[k] == ABIField(members[k].name, CairoTypeInfo(members[k].typeText).typeName,
                                        CairoTypeInfo(members[k].typeText).sizeBytes)
      invariant totalSize == SumSizes(fields)
    {
      var info := CairoTypeInfo(members[i].typeText);
      SumSizesAppend(fields, ABIField(members[i].name, info.typeName, info.sizeBytes));
      totalSize := totalSize + info.sizeBytes;
      fields := fields + [ABIField(members[i].name, info.typeName, info.sizeBytes)];
    }
    SumSizesBound(fields);
    return Success(AbiProvider(StructABI(s.name, fields, totalSize), fieldCount));
  }

  /** The plugin entry point: only structs deriving `Attestation` produce
      code; a malformed one produces one error diagnostic instead. */
  method GenerateCode(item: ModuleItem) returns (r: PluginResult)
    ensures !r.removeOriginalItem
    ensures !item.Struct? ==> r == DefaultResult
    ensures item.Struct? && !DerivesAttestation(item.item.attributes) ==> r == DefaultResult
    ensures item.Struct? && DerivesAttestation(item.item.attributes) && item.item.members.NotNamed? ==>
              r.code.None? && r.diagnostics == [PluginDiagnostic(NamedMembersOnly, Error)]
    ensures r.code.Some? <==>
              item.Struct? && DerivesAttestation(item.item.attributes) && item.item.members.Named?
    ensures r.code.Some? ==>
              && r.diagnostics == []
              && IsProviderFor(r.code.value, item.item.name,
                               MemberNames(item.item.members.members), MemberInfos(item.item.members.members))
  {
    if !item.Struct? {
      return DefaultResult;
    }
    var derives := HasAttestationDerive(item.item);
    if !derives {
      return DefaultResult;
    }
    var generated := GenerateAbiProviderForStruct(item.item);
    match generated {
      case Success(provider) =>
        return PluginResult(Some(provider), [], false);
      case Failure(diagnostic) =>
        return PluginResult(None, [diagnostic], false);
    }
  }
}
