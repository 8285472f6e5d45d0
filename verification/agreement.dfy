/** How the plugin's text-keyed type table and the proc macro's
    last-segment-keyed type table relate. A type the macro sees as a path
    is seen by the plugin as the path's text, `RenderType`. */
module Agreement {
  import opened Wrappers
  import opened Text
  import opened AbiTypes
  import Plugin
  import Derive

  function RenderSegment(seg: Derive.PathSegment): string {
    if seg.args == "" then seg.ident else seg.ident + "<" + seg.args + ">"
  }

  /** The segments joined by `::`. */
  function RenderPath(segments: seq<Derive.PathSegment>): string {
    if |segments| == 0 then ""
    else if |segments| == 1 then RenderSegment(segments[0])
    else RenderSegment(segments[0]) + "::" + RenderPath(segments[1..])
  }

  /** The text of a type in its canonical spelling: segments joined by
      `::`, generic arguments in `<..>`, no whitespace or comments inside. */
  function RenderType(ty: Derive.Type): string {
    match ty
    case Path(segments) => RenderPath(segments)
    case NonPath(text) => text
  }

  /** The single-segment path naming `ident` with no generic arguments. */
  function Bare(ident: string): Derive.Type {
    Derive.Path([Derive.PathSegment(ident, "")])
  }

  /** On a bare identifier both tables give the same size, and the same
      name exactly when the identifier is in the table (or is itself
      `unknown`); elsewhere the plugin keeps the text and the macro says
      `unknown`. */
  lemma BareIdentifierAgreement(ident: string)
    requires IsIdentifier(ident)
    ensures RenderType(Bare(ident)) == ident
    ensures Plugin.CairoTypeInfo(ident).sizeBytes == Derive.GetTypeInfo(Bare(ident)).sizeBytes
    ensures (Plugin.CairoTypeInfo(ident) == Derive.GetTypeInfo(Bare(ident)))
            <==> (ident in KnownNames || ident == UnknownName)
  {
    assert Derive.LastIdent(Bare(ident)) == Some(ident);
    if ident !in FixedWidthTable && ident != "ByteArray" {
      assert |ident| <= 5 || IsIdentChar(ident[5]);
      assert !StartsWith(ident, "Array<");
      assert |ident| <= 4 || IsIdentChar(ident[4]);
      assert !StartsWith(ident, "Span<");
      assert Plugin.CairoTypeInfo(ident) == TypeInfo(ident, 0);
    }
  }

  /** Generic `Array<..>` and `Span<..>` map alike in both tables. */
  lemma GenericCollectionAgreement(ident: string, args: string)
    requires ident == "Array" || ident == "Span"
    requires args != ""
    ensures var ty := Derive.Path([Derive.PathSegment(ident, args)]);
            && Plugin.CairoTypeInfo(RenderType(ty)) == TypeInfo(ident, 0)
            && Derive.GetTypeInfo(ty) == TypeInfo(ident, 0)
  {
    var ty := Derive.Path([Derive.PathSegment(ident, args)]);
    var text := RenderType(ty);
    assert text == ident + "<" + args + ">";
    assert StartsWith(text, ident + "<");
    assert text[0] == 'A' || text[0] == 'S';
    assert text != "ByteArray";
    assert text[|ident|] == '<';
    assert text !in FixedWidthTable;
    assert Derive.LastIdent(ty) == Some(ident);
  }

  /** A path of two or more segments renders with a `::` separator. */
  lemma {:induction false} QualifiedPathHasSeparator(segments: seq<Derive.PathSegment>)
    requires |segments| >= 2
    ensures |RenderSegment(segments[0])| < |RenderPath(segments)|
    ensures RenderPath(segments)[|RenderSegment(segments[0])|] == ':'
  {
    var head := RenderSegment(segments[0]);
    assert RenderPath(segments) == head + "::" + RenderPath(segments[1..]);
    assert (head + "::" + RenderPath(segments[1..]))[|head|] == ':';
  }

  /** No fixed-width type name contains a `:`. */
  lemma FixedWidthNamesHaveNoColon(text: string, k: nat)
    requires k < |text| && text[k] == ':'
    ensures text !in FixedWidthTable
  {
  }

  /** A qualified path to a fixed-width type such as `a::b::u64` keeps its
      width in the macro but gets size 0 from the plugin, which matches the
      whole text. */
  lemma QualifiedFixedWidthSizesDiffer(segments: seq<Derive.PathSegment>)
    requires |segments| >= 2
    requires segments[|segments| - 1].ident in FixedWidthTable
    ensures Plugin.CairoTypeInfo(RenderType(Derive.Path(segments))).sizeBytes == 0
    ensures Derive.GetTypeInfo(Derive.Path(segments)).sizeBytes
              == FixedWidthTable[segments[|segments| - 1].ident] > 0
  {
    QualifiedPathHasSeparator(segments);
    FixedWidthNamesHaveNoColon(RenderPath(segments), |RenderSegment(segments[0])|);
    FixedWidthsInRange(segments[|segments| - 1].ident);
  }

  /** The struct's fields as the plugin sees them: each type as its text. */
  function PluginMembers(fields: seq<Derive.NamedField>): (members: seq<Plugin.Member>)
    ensures |members| == |fields|
    ensures forall i :: 0 <= i < |fields| ==>
              members[i] == Plugin.Member(fields[i].ident, RenderType(fields[i].ty))
  {
    seq(|fields|, i requires 0 <= i < |fields| => Plugin.Member(fields[i].ident, RenderType(fields[i].ty)))
  }

  /** The fields the plugin would emit for the same struct: exactly the
      per-member projection `Plugin.GenerateAbiProviderForStruct` promises. */
  function PluginAbiFields(fields: seq<Derive.NamedField>): (r: seq<ABIField>)
    ensures FieldsProject(r, Plugin.MemberNames(PluginMembers(fields)),
                          Plugin.MemberInfos(PluginMembers(fields)))
  {
    if |fields| == 0 then []
    else
      var info := Plugin.CairoTypeInfo(RenderType(fields[0].ty));
      [ABIField(fields[0].ident, info.typeName, info.sizeBytes)] + PluginAbiFields(fields[1..])
  }

  /** Every field's type is a single segment naming a bare identifier. */
  predicate AllBareIdentifiers(fields: seq<Derive.NamedField>) {
    forall i :: 0 <= i < |fields| ==>
      fields[i].ty.Path? && |fields[i].ty.segments| == 1
      && fields[i].ty.segments[0].args == "" && IsIdentifier(fields[i].ty.segments[0].ident)
  }

  /** For a struct whose field types are all bare identifiers, the plugin
      and the macro report the same `total_size`. */
  lemma {:induction false} BareFieldsSameTotalSize(fields: seq<Derive.NamedField>)
    requires AllBareIdentifiers(fields)
    ensures SumSizes(PluginAbiFields(fields)) == Derive.TotalSize(fields)
  {
    if |fields| > 0 {
      BareFieldsSameTotalSize(fields[1..]);
      assert PluginAbiFields(fields)[1..] == PluginAbiFields(fields[1..]);
      var ident := fields[0].ty.segments[0].ident;
      assert fields[0].ty == Bare(ident);
      BareIdentifierAgreement(ident);
    }
  }

  /** Any provider the plugin's fold may return for the struct (as
      `Plugin.GenerateAbiProviderForStruct` promises it) lists exactly the
      fields `PluginAbiFields` gives, one per struct field. */
  lemma PluginProviderFields(p: AbiProvider, name: string, fields: seq<Derive.NamedField>)
    requires IsProviderFor(p, name, Plugin.MemberNames(PluginMembers(fields)),
                           Plugin.MemberInfos(PluginMembers(fields)))
    ensures p.abi.fields == PluginAbiFields(fields)
  {
    var members := PluginMembers(fields);
    FieldsProjectUnique(p.abi.fields, PluginAbiFields(fields),
                        Plugin.MemberNames(members), Plugin.MemberInfos(members));
  }

  /** With bare-identifier field types, the provider the plugin's fold
      returns reports the same `total_size` as the macro's. */
  lemma PluginProviderMatchesDerive(p: AbiProvider, name: string, fields: seq<Derive.NamedField>)
    requires IsProviderFor(p, name, Plugin.MemberNames(PluginMembers(fields)),
                           Plugin.MemberInfos(PluginMembers(fields)))
    requires AllBareIdentifiers(fields)
    ensures p.abi.totalSize == Derive.TotalSize(fields)
  {
    PluginProviderFields(p, name, fields);
    BareFieldsSameTotalSize(fields);
  }
}
