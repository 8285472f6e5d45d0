# Attestation ABI derivation — a Dafny model

The attestations repository lets a Cairo struct declare `#[derive(Attestation)]`
and get an `ABIProvider` implementation for free. Two implementations of that
derivation exist: a Cairo compiler plugin
(`crates/cairo-attestation-plugin`) and a Rust procedural macro
(`crates/attestation-derive`). Both project a struct declaration onto an ABI:

- each member's type is mapped to a `(type_name, size_bytes)` pair by a fixed
  table (`ContractAddress`, `felt252`, `u256` → 32; `u128` → 16; `u64` → 8;
  `u32` → 4; `u16` → 2; `u8`, `bool` → 1; `ByteArray`, `Array`, `Span` → 0);
- the members are folded, in declaration order, into a list of
  `ABIField { name, field_type, size_bytes }`, a `total_size` (the sum of the
  sizes, so variable-size and unknown types add 0) and a `field_count`;
- structs without named members, and (for the macro) enums and unions, are
  rejected.

This project models that projection with immutable datatypes and pure
functions, and proves what it computes. The model returns the ABI value the
generated `get_abi()` / `get_field_count()` would return, not the generated
source text.

Modules:

- `Wrappers` (`wrappers.dfy`): `Option` and `Result`.
- `Text` (`text.dfy`): string prefix and bare-identifier predicates.
- `AbiTypes` (`abi_types.dfy`): `TypeInfo`, `ABIField`, `StructABI`,
  `AbiProvider`; the reference table `FixedWidthTable` and the set
  `VariableWidthNames`; `SumSizes` and the predicate `IsProviderFor`, which
  says what a provider for a given member list must contain.
- `Plugin` (`plugin.dfy`): the compiler plugin. The type table is keyed on the
  member's whole type text. The fold is a loop with a running total, as in
  the source. `GenerateCode` is the entry point.
- `Derive` (`derive.dfy`): the procedural macro. The type table is keyed on
  the last path segment's identifier. The fields and the total are computed
  by two separate passes, as in the source. Also models the two
  pass-through macros.
- `Agreement` (`agreement.dfy`): how the two tables relate. They agree on
  every bare identifier in the table and on generic `Array<..>` / `Span<..>`
  written without whitespace inside the type.
  On other bare identifiers they agree on the size (0) but not the name: the
  plugin keeps the text, the macro says `unknown`. On a qualified path such as
  `a::b::u64` they disagree on the size: the macro gives 8, while the plugin
  matches the whole text, finds no entry and gives 0. For a struct whose field
  types are all bare identifiers, both report the same `total_size`.

The compiler's syntax trees are represented by plain data. A plugin member is
its name and its type text. A macro field type is a path (a list of segments,
each an identifier plus the text of its generic arguments) or some other type
form. `Agreement.RenderType` gives the text the plugin would see for a path
written in canonical spelling: segments joined by `::`, generic arguments in
`<..>`, and no whitespace or comments inside the type.

## Model

| member | source | states |
|---|---|---|
| Plugin.CairoTypeInfo | crates/cairo-attestation-plugin/src/lib.rs:185-203 | A text that is a fixed-width table key maps to itself and the table width. `ByteArray` maps to (`ByteArray`, 0). Otherwise a text starting with `Array<` gives (`Array`, 0), one starting with `Span<` gives (`Span`, 0), and anything else gives its own text with size 0. The size is positive exactly for fixed-width keys and never exceeds 32. The function is total: there is no error result. |
| Plugin.HasAttestationDerive | crates/cairo-attestation-plugin/src/lib.rs:65-99 | Returns true exactly when some attribute named `derive` has an argument list containing `Attestation`. |
| Plugin.GenerateAbiProviderForStruct | crates/cairo-attestation-plugin/src/lib.rs:102-182 | A struct whose member list is not a named list gives the error diagnostic "Only structs with named members are supported". Otherwise the result has the struct's name and one field per member, in order: the member's name plus its type info from the table. `total_size` is the sum of the field sizes and is at most 32 × the member count. `field_count` is the member count. |
| Plugin.GenerateCode | crates/cairo-attestation-plugin/src/lib.rs:24-57 | Non-struct items give the default result: no code, no diagnostics. So do structs that do not derive `Attestation`. A deriving struct with a non-named member list gives no code and exactly one diagnostic. Code is produced exactly for deriving structs with named members; it is the provider described above and comes with no diagnostics. The original item is never removed. |
| Derive.GetTypeInfo | crates/attestation-derive/src/lib.rs:110-136 | Keyed on the identifier of the last path segment. A fixed-width identifier gives itself and the table width. `ByteArray`, `Array` and `Span` give themselves with size 0. An unknown identifier, an empty path or a non-path type gives (`unknown`, 0). The name is always a table name or `unknown`, and the size is at most 32. |
| Derive.QualifiedPathMapsLikeLastSegment | crates/attestation-derive/src/lib.rs:113-115 | A qualified path `p::…::seg` maps exactly like the single segment `seg`. |
| Derive.AbiFields | crates/attestation-derive/src/lib.rs:53-65 | Emits one `ABIField` per named field, in declaration order. Each has the field's name and the type name and size from the table. |
| Derive.TotalSize | crates/attestation-derive/src/lib.rs:67-72 | The separately summed total is at most 32 × the number of fields. |
| Derive.TotalSizeIsFieldSum | crates/attestation-derive/src/lib.rs:53-72 | The two separate passes agree: the summed `total_size` equals the sum of `size_bytes` over the emitted fields. |
| Derive.GenerateAbiProvider | crates/attestation-derive/src/lib.rs:32-107 | Succeeds exactly on structs with named fields. Enums and unions are rejected with "Only structs are supported". Tuple and unit structs are rejected with "Only structs with named fields are supported". On success the provider has the struct's name, one field per named field in order, `total_size` equal to the sum of the field sizes (at most 32 × count) and `field_count` equal to the number of fields. |
| Derive.DeriveAttestation | crates/attestation-derive/src/lib.rs:23-30 | Expands to a provider exactly when the input is a struct with named fields, and that provider is the one `GenerateAbiProvider` returns: the struct's name, one field per named field in order, the summed `total_size` and the field count. Otherwise it is a compile error carrying the matching message. |
| Derive.AttestationAbi | crates/attestation-derive/src/lib.rs:149-155 | Ignores its arguments and re-emits the annotated item unchanged. |
| Derive.AbiFieldMacro | crates/attestation-derive/src/lib.rs:158-162 | Returns its input tokens unchanged. |
| Derive.TypeMappingExamples | crates/attestation-derive/src/lib.rs:224-230 | The table gives ContractAddress 32, felt252 32, u64 8, bool 1 and ByteArray 0. |
| Derive.FieldCountAndEnumExamples | crates/attestation-derive/src/lib.rs:192-221 | A two-field struct is accepted with `field_count` 2 (and `total_size` 64). An enum is rejected with `OnlyStructs`. |
| AbiTypes.SumSizesAppend | crates/cairo-attestation-plugin/src/lib.rs:130-131 | Adding a field to the list adds exactly that field's size to the total, so the running `total_size += size_bytes` always equals the sum over the fields so far. |
| AbiTypes.SumSizesBound | crates/cairo-attestation-plugin/src/lib.rs:122-131 | If every field is at most 32 bytes, the total is at most 32 × the number of fields. |
| AbiTypes.FixedWidthsInRange | crates/cairo-attestation-plugin/src/lib.rs:189-197 | Every fixed-width entry has a size between 1 and 32. |
| Agreement.BareIdentifierAgreement | crates/cairo-attestation-plugin/src/lib.rs:188-201 | On a bare identifier, the plugin's table (whole text) and the macro's table (last segment, lib.rs:115-128 of the macro) give the same size. They give the same pair exactly when the identifier is one of the twelve table names, or is `unknown` itself. |
| Agreement.GenericCollectionAgreement | crates/cairo-attestation-plugin/src/lib.rs:199-200 | `Array<..>` and `Span<..>` map to (`Array`, 0) and (`Span`, 0) in both tables. |
| Agreement.QualifiedFixedWidthSizesDiffer | crates/cairo-attestation-plugin/src/lib.rs:186-201 | For a qualified path whose last segment is a fixed-width type, the plugin's whole-text lookup gives size 0, while the macro keeps the positive table width. |
| Agreement.PluginAbiFields | crates/cairo-attestation-plugin/src/lib.rs:125-140 | The fields the plugin emits for a struct whose types are seen as their text: exactly the per-member projection (name, type name, size from the plugin's table) that the plugin's fold promises, in declaration order. |
| Agreement.PluginProviderFields | crates/cairo-attestation-plugin/src/lib.rs:121-157 | Any provider meeting the plugin fold's contract for such a struct lists exactly the fields `PluginAbiFields` gives. |
| Agreement.PluginProviderMatchesDerive | crates/cairo-attestation-plugin/src/lib.rs:122-131 | For a struct whose field types are all bare identifiers, the provider the plugin's fold returns has the same `total_size` as the macro computes. |
| Agreement.BareFieldsSameTotalSize | crates/cairo-attestation-plugin/src/lib.rs:122-131 | When every field type is a bare identifier, the plugin's field sizes (computed from the type text) sum to the same `total_size` as the macro's. |

## Left out

- Syntax-tree access (`cairo_lang_syntax` queries, `syn` parsing, `get_text_without_trivia`) is represented by plain strings and datatypes. `parse_macro_input!` failing on malformed tokens is not modelled: the macros take an already-parsed item.
- The generated source text (`formatdoc!`, `quote!`) and the generated file name `<Struct>_abi_provider.cairo` are not modelled. The model returns the ABI value that the generated `get_abi()` and `get_field_count()` would return.
- `serialize_to_array` only delegates to Cairo's `Serde` implementation, which is not part of this model.
- The `plugin()` C entry point (`Box::leak`) and `declared_attributes` (the constant list `["derive"]`) carry no logic and are not modelled.
- Plugin.HasAttestationDerive: the source refers to a `db` that is not in scope, so it does not compile as written; the model states the predicate the code evidently intends.
- Plugin.GenerateAbiProviderForStruct: `total_size` is an unbounded `nat`, whereas the source accumulates it in a `u32`. Overflow would need more than 134,217,727 members of 32 bytes each, and `SumSizesBound` bounds the total by 32 × the member count.
- Derive.GenerateAbiProvider: `total_size` is an unbounded `nat` rather than the source's `u32` sum, for the same reason.
- Agreement.RenderType: the plugin reads a type through `get_text_without_trivia`, which keeps whitespace and comments inside the type. `RenderType` produces only the canonical spelling, so the agreement lemmas say nothing about a type written as `Array <u8>`. For that text the plugin gives (`Array <u8>`, 0) while the macro gives (`Array`, 0).
- The plugin's `if let Member::Member(..)` filter is modelled as keeping every member. Every element of a named member list is a member, so `field_count` and the field list have the same length.
- The plugin's unit tests are not modelled. `mock_type_clause` is `unimplemented!`, and `test_type_mapping` checks an inline copy of the table rather than the function.
- The rest of the attestation standard is not part of this model: schema validation, serialization, and the verification engine with its lifecycle and composition rules. None of it is implemented by the two derivation crates, and the standard itself treats the derivation as a convenience outside its contract.
