/** The ABI values a generated `ABIProvider` implementation returns, the
    fixed-width type table both `#[derive(Attestation)]` implementations
    share, and the size accounting over a field list. */
module AbiTypes {

  /** The `(type_name, size_bytes)` pair a field's type is mapped to. */
  datatype TypeInfo = TypeInfo(typeName: string, sizeBytes: nat)

  /** One `ABIField { name, field_type, size_bytes }` entry of a `StructABI`. */
  datatype ABIField = ABIField(name: string, fieldType: string, sizeBytes: nat)

  /** `StructABI { name, fields, total_size }`, as `get_abi()` returns it. */
  datatype StructABI = StructABI(name: string, fields: seq<ABIField>, totalSize: nat)

  /** What a generated `ABIProvider` impl answers: `get_abi()` and
      `get_field_count()`. */
  datatype AbiProvider = AbiProvider(abi: StructABI, fieldCount: nat)

  /** The widest fixed-width type (`ContractAddress`, `felt252`, `u256`). */
  const MaxFieldSize: nat := 32

  /** Reference table of the fixed-width Cairo types and their byte sizes. */
  const FixedWidthTable: map<string, nat> := map[
    "ContractAddress" := 32,
    "felt252" := 32,
    "u8" := 1,
    "u16" := 2,
    "u32" := 4,
    "u64" := 8,
    "u128" := 16,
    "u256" := 32,
    "bool" := 1
  ]

  /** The variable-size types: they are named but contribute size 0. */
  const VariableWidthNames: set<string> := {"ByteArray", "Array", "Span"}

  /** Every type name either table recognises. */
  const KnownNames: set<string> := FixedWidthTable.Keys + VariableWidthNames

  /** The name the proc macro reports for a type it does not recognise. */
  const UnknownName: string := "unknown"

  /** Every fixed width is positive and at most `MaxFieldSize`. */
  lemma FixedWidthsInRange(name: string)
    requires name in FixedWidthTable
    ensures 0 < FixedWidthTable[name] <= MaxFieldSize
  {
  }

  /** Sum of `size_bytes` over a field list, in order. */
  function SumSizes(fields: seq<ABIField>): nat {
    if |fields| == 0 then 0 else fields[0].sizeBytes + SumSizes(fields[1..])
  }

  /** Appending a field adds exactly its size: the total is recomputed from
      the fields, never cached. */
  lemma {:induction false} SumSizesAppend(fields: seq<ABIField>, f: ABIField)
    ensures SumSizes(fields + [f]) == SumSizes(fields) + f.sizeBytes
  {
    if |fields| == 0 {
      assert fields + [f] == [f];
      assert [f][1..] == [];
    } else {
      assert (fields + [f])[1..] == fields[1..] + [f];
      SumSizesAppend(fields[1..], f);
    }
  }

  /** When every field is at most `MaxFieldSize` bytes, so is the average. */
  lemma {:induction false} SumSizesBound(fields: seq<ABIField>)
    requires forall i :: 0 <= i < |fields| ==> fields[i].sizeBytes <= MaxFieldSize
    ensures SumSizes(fields) <= MaxFieldSize * |fields|
  {
    if |fields| > 0 {
      SumSizesBound(fields[1..]);
    }
  }

  /** `fields` is the member-by-member projection of `names` and `infos`:
      one entry per member, in declaration order. */
  ghost predicate FieldsProject(fields: seq<ABIField>, names: seq<string>, infos: seq<TypeInfo>) {
    && |fields| == |names| == |infos|
    && forall i :: 0 <= i < |fields| ==>
         fields[i] == ABIField(names[i], infos[i].typeName, infos[i].sizeBytes)
  }

  /** The projection of a member list is unique. */
  lemma FieldsProjectUnique(a: seq<ABIField>, b: seq<ABIField>, names: seq<string>, infos: seq<TypeInfo>)
    requires FieldsProject(a, names, infos) && FieldsProject(b, names, infos)
    ensures a == b
  {
    assert forall i :: 0 <= i < |a| ==> a[i] == b[i];
  }

  /** `p` is the provider generated for a struct called `structName` whose
      members have the given names and type infos. */
  ghost predicate IsProviderFor(p: AbiProvider, structName: string, names: seq<string>, infos: seq<TypeInfo>) {
    && p.abi.name == structName
    && FieldsProject(p.abi.fields, names, infos)
    && p.abi.totalSize == SumSizes(p.abi.fields)
    && p.fieldCount == |names|
  }
}
