/**
 * `#[derive(Drive)]`: the traversal plan built from `#[drive(...)]`
 * (`impl_drive`, `drive_struct`, `drive_enum`, `drive_variant`,
 * `destructure_fields`, `drive_field`). The emitted token stream is replaced
 * by a datatype with the same shape: whether `self` is entered and exited,
 * then the field steps of a struct or the match arms of an enum.
 */
module Plan {
  import opened Syntax
  import opened Lexical
  import opened Params

  /** `syn::Member`: how `self.<member>` names a struct field. */
  datatype Member = Named(name: Ident) | Unnamed(index: nat)

  /** The value a field step drives: `&self.<member>` in a struct, a bound name in an enum arm. */
  datatype ValueExpr = SelfMember(member: Member) | Bound(name: Ident)

  /** `#drive_fn(#value_expr, visitor);` */
  datatype FieldStep = FieldStep(driveFn: Path, value: ValueExpr)

  /** One position of a destructuring pattern: a name, or `_`. */
  datatype Binding = BindName(name: Ident) | Discard

  /** `{ a, b: _ }`, `( i0, _ )`, or nothing for a unit variant. */
  datatype Pattern =
    | BracePattern(entries: seq<(Ident, Binding)>)
    | TuplePattern(items: seq<Binding>)
    | NoPattern

  /** `Self::#name#destructuring => { #fields }` */
  datatype Arm = Arm(variant: Ident, pattern: Pattern, steps: seq<FieldStep>)

  /** A struct's field steps, or an enum's arms (followed by the emitted `_ => {}`). */
  datatype DriveBody = StructBody(steps: seq<FieldStep>) | EnumBody(arms: seq<Arm>)

  /** The `Drive` (or `DriveMut`) impl: Enter self if `visitSelf`, the body, Exit self if `visitSelf`. */
  datatype DriveImpl = DriveImpl(name: Ident, mutable: bool, visitSelf: bool, body: DriveBody)

  const TypeKeys: seq<string> := ["skip"]
  const FieldKeys: seq<string> := ["skip", "with"]

  /** `::derive_visitor::Drive::drive`, or `::derive_visitor::DriveMut::drive_mut`. */
  function DefaultDrivePath(mutable: bool): Path {
    if mutable then Path(true, ["derive_visitor", "DriveMut", "drive_mut"])
    else Path(true, ["derive_visitor", "Drive", "drive"])
  }

  function Bindings(pattern: Pattern): seq<Binding> {
    match pattern
    case BracePattern(entries) => seq(|entries|, k requires 0 <= k < |entries| => entries[k].1)
    case TuplePattern(items) => items
    case NoPattern => []
  }

  // Skip detection.

  /**
   * `params.param("skip")?.map(Param::unit).is_some()`: only the error of the
   * removal counts; the result of `unit` is dropped, so a skip of any shape skips.
   */
  function SkipRequested(params: ParamMap): (r: Result<bool>)
  {
    match Take(params, "skip").0
    case Err(msg) => Err(msg)
    case Ok(taken) => Ok(taken.Some?)
  }

  lemma SkipOfAnyShape(params: ParamMap)
    ensures SkipRequested(params) == Ok(true) <==>
      IdentPath("skip") in params && FromMeta(params[IdentPath("skip")]).Ok?
    ensures SkipRequested(params) == Ok(false) <==> IdentPath("skip") !in params
  {
  }

  /** What a field's or a variant's own `#[drive]` attribute says about skipping. */
  function SkipOf(attrs: seq<Attribute>): Result<bool> {
    var params :- FromAttrs(attrs, "drive");
    SkipRequested(params)
  }

  /** The attributes ask to skip: `#[drive(skip)]`, `#[drive(skip = "x")]`, `#[drive(skip(..))]`. */
  predicate IsSkipped(attrs: seq<Attribute>) {
    SkipOf(attrs) == Ok(true)
  }

  /** The positions `k >= start` of `s` with `!skipped(s[k])`, in increasing order. */
  function KeptFrom<T>(s: seq<T>, skipped: T -> bool, start: nat): (kept: seq<nat>)
    requires start <= |s|
    ensures forall j :: 0 <= j < |kept| ==> start <= kept[j] < |s| && !skipped(s[kept[j]])
    ensures forall i, j :: 0 <= i < j < |kept| ==> kept[i] < kept[j]
    ensures forall k :: start <= k < |s| && !skipped(s[k]) ==> k in kept
    decreases |s| - start
  {
    if start == |s| then []
    else (if skipped(s[start]) then [] else [start]) + KeptFrom(s, skipped, start + 1)
  }

  function FieldSkipped(field: Field): bool {
    IsSkipped(field.attrs)
  }

  function VariantSkipped(variant: Variant): bool {
    IsSkipped(variant.attrs)
  }

  /** The fields that are not skipped. */
  function KeptFields(fields: seq<Field>): seq<nat> {
    KeptFrom(fields, FieldSkipped, 0)
  }

  /** The variants that are not skipped. */
  function KeptVariants(variants: seq<Variant>): seq<nat> {
    KeptFrom(variants, VariantSkipped, 0)
  }

  // Fields.

  /**
   * `drive_field`: the field's parameters must be among `skip` and `with`; a
   * skip of any shape gives no step, before `with` is looked at; `with` must be a
   * string literal holding a path; otherwise the default `drive` function is used.
   */
  function DriveField(value: ValueExpr, field: Field, mutable: bool): (r: Result<Option<FieldStep>>)
    ensures r.Ok? && r.value.Some? ==> r.value.value.value == value
  {
    var params :- FromAttrs(field.attrs, "drive");
    var ok :- CheckAllowed(params, FieldKeys);
    var skipped :- SkipRequested(params);
    if skipped then Ok(None)
    else
      var (withParam, _) := Take(Take(params, "skip").1, "with");
      var withOpt :- withParam;
      var driveFn :-
        match withOpt
        case None => Ok(DefaultDrivePath(mutable))
        case Some(param) =>
          var text :- ExpectStringLiteral(param);
          ParsePath(text);
      Ok(Some(FieldStep(driveFn, value)))
  }

  /** A field gives no step exactly when it asks to be skipped. */
  lemma DriveFieldSkips(value: ValueExpr, field: Field, mutable: bool)
    requires DriveField(value, field, mutable).Ok?
    ensures DriveField(value, field, mutable).value.None? <==> IsSkipped(field.attrs)
  {
  }

  /** Skip takes precedence over `with`, whatever `with` holds. */
  lemma SkipBeatsWith(value: ValueExpr, field: Field, mutable: bool)
    requires FromAttrs(field.attrs, "drive").Ok?
    requires CheckAllowed(FromAttrs(field.attrs, "drive").value, FieldKeys).Ok?
    requires IsSkipped(field.attrs)
    ensures DriveField(value, field, mutable) == Ok(None)
  {
  }

  /** Without `skip` and `with`, the field is driven by `Drive::drive` / `DriveMut::drive_mut`. */
  lemma DefaultDriver(value: ValueExpr, field: Field, mutable: bool)
    requires FromAttrs(field.attrs, "drive").Ok?
    requires FromAttrs(field.attrs, "drive").value.Keys == {}
    ensures DriveField(value, field, mutable) == Ok(Some(FieldStep(DefaultDrivePath(mutable), value)))
  {
  }

  /** `with = "path"` (and no skip) drives the field with the parsed path; other shapes of `with` fail. */
  lemma CustomDriver(value: ValueExpr, field: Field, mutable: bool)
    requires FromAttrs(field.attrs, "drive").Ok?
    requires FromAttrs(field.attrs, "drive").value.Keys == {IdentPath("with")}
    ensures var meta := FromAttrs(field.attrs, "drive").value[IdentPath("with")];
      if meta.MetaNameValue? && meta.lit.LitStr? then
        (ParsePath(meta.lit.text).Ok? ==>
          DriveField(value, field, mutable) == Ok(Some(FieldStep(ParsePath(meta.lit.text).value, value))))
        && (ParsePath(meta.lit.text).Err? ==> DriveField(value, field, mutable).Err?)
      else DriveField(value, field, mutable).Err?
  {
    var params := FromAttrs(field.attrs, "drive").value;
    var withKey := IdentPath("with");
    assert IsAllowed(withKey, FieldKeys) by { assert "with" in FieldKeys; }
    assert IdentPath("skip") !in params by { assert IdentPath("skip") != withKey; }
    assert Take(params, "skip").1 == params;
  }

  /** The steps of a field list: the first error in declaration order, or every kept step in order. */
  function DriveFields(fields: seq<Field>, values: seq<ValueExpr>, mutable: bool): (r: Result<seq<FieldStep>>)
    requires |values| == |fields|
    ensures r.Ok? ==> |r.value| <= |fields|
  {
    if fields == [] then Ok([])
    else
      var step :- DriveField(values[0], fields[0], mutable);
      var rest :- DriveFields(fields[1..], values[1..], mutable);
      Ok((if step.Some? then [step.value] else []) + rest)
  }

  /** Every field that is not skipped gives one step, in declaration order, driving its own value. */
  lemma DriveFieldsInOrder(fields: seq<Field>, values: seq<ValueExpr>, mutable: bool)
    requires |values| == |fields|
    requires DriveFields(fields, values, mutable).Ok?
    ensures var steps, kept := DriveFields(fields, values, mutable).value, KeptFields(fields);
      |steps| == |kept| && forall j :: 0 <= j < |steps| ==> steps[j].value == values[kept[j]]
  {
    assert fields[0..] == fields && values[0..] == values;
    DriveFieldsFrom(fields, values, mutable, 0);
  }

  lemma {:induction false} DriveFieldsFrom(fields: seq<Field>, values: seq<ValueExpr>, mutable: bool, start: nat)
    requires |values| == |fields| && start <= |fields|
    requires DriveFields(fields[start..], values[start..], mutable).Ok?
    ensures var steps := DriveFields(fields[start..], values[start..], mutable).value;
      var kept := KeptFrom(fields, FieldSkipped, start);
      |steps| == |kept| && forall j :: 0 <= j < |steps| ==> steps[j].value == values[kept[j]]
    decreases |fields| - start
  {
    if start < |fields| {
      var fs, vs := fields[start..], values[start..];
      assert fs[1..] == fields[start + 1..] && vs[1..] == values[start + 1..];
      assert fs[0] == fields[start] && vs[0] == values[start];
      DriveFieldsCons(fs, vs, mutable);
      DriveFieldsFrom(fields, values, mutable, start + 1);
      DriveFieldSkips(values[start], fields[start], mutable);
      var step := DriveField(values[start], fields[start], mutable).value;
      var rest := DriveFields(fields[start + 1..], values[start + 1..], mutable).value;
      var keptRest := KeptFrom(fields, FieldSkipped, start + 1);
      var steps := DriveFields(fs, vs, mutable).value;
      var kept := KeptFrom(fields, FieldSkipped, start);
      var head: seq<FieldStep> := if step.Some? then [step.value] else [];
      var keptHead: seq<nat> := if FieldSkipped(fields[start]) then [] else [start];
      assert kept == keptHead + keptRest;
      StepsMatchKept(head, rest, keptHead, keptRest, values);
    }
  }

  /** Steps and kept positions that correspond piecewise correspond as a whole. */
  lemma StepsMatchKept(head: seq<FieldStep>, rest: seq<FieldStep>, keptHead: seq<nat>, keptRest: seq<nat>,
                       values: seq<ValueExpr>)
    requires |head| == |keptHead| && |rest| == |keptRest|
    requires forall j :: 0 <= j < |head| ==> keptHead[j] < |values| && head[j].value == values[keptHead[j]]
    requires forall j :: 0 <= j < |rest| ==> keptRest[j] < |values| && rest[j].value == values[keptRest[j]]
    ensures var steps, kept := head + rest, keptHead + keptRest;
      |steps| == |kept| && forall j :: 0 <= j < |steps| ==> kept[j] < |values| && steps[j].value == values[kept[j]]
  {
  }

  /** One step of `DriveFields`: the first field's step, then the rest. */
  lemma DriveFieldsCons(fs: seq<Field>, vs: seq<ValueExpr>, mutable: bool)
    requires |vs| == |fs| > 0 && DriveFields(fs, vs, mutable).Ok?
    ensures DriveField(vs[0], fs[0], mutable).Ok? && DriveFields(fs[1..], vs[1..], mutable).Ok?
    ensures var step := DriveField(vs[0], fs[0], mutable).value;
      DriveFields(fs, vs, mutable).value
        == (if step.Some? then [step.value] else []) + DriveFields(fs[1..], vs[1..], mutable).value
  {
  }

  /** `field.ident.map_or_else(|| Member::Unnamed(index), Member::Named)`. */
  function MemberOf(field: Field, index: nat): Member {
    match field.ident
    case Some(name) => Named(name)
    case None => Unnamed(index)
  }

  /** The value expressions of `drive_struct`: `&self.name`, or `&self.<index>`. */
  function StructValues(fields: seq<Field>): (values: seq<ValueExpr>)
    ensures |values| == |fields|
    ensures forall k :: 0 <= k < |fields| ==> values[k] == SelfMember(MemberOf(fields[k], k))
  {
    seq(|fields|, k requires 0 <= k < |fields| => SelfMember(MemberOf(fields[k], k)))
  }

  /** `drive_struct`. */
  function DriveStruct(fields: Fields, mutable: bool): Result<seq<FieldStep>> {
    DriveFields(fields.All(), StructValues(fields.All()), mutable)
  }

  // Variants.

  /** The name a variant's field is bound to: its own name, or `i{index}`. */
  function BindingName(field: Field, index: nat): Ident {
    match field.ident
    case Some(name) => name
    case None => "i" + NatToString(index)
  }

  function VariantValues(fields: seq<Field>): (values: seq<ValueExpr>)
    ensures |values| == |fields|
    ensures forall k :: 0 <= k < |fields| ==> values[k] == Bound(BindingName(fields[k], k))
  {
    seq(|fields|, k requires 0 <= k < |fields| => Bound(BindingName(fields[k], k)))
  }

  /** `name` or `name: _` for each named field. */
  function NamedBindings(fields: seq<NamedField>): (r: Result<seq<(Ident, Binding)>>)
    ensures r.Ok? ==> |r.value| == |fields|
  {
    if fields == [] then Ok([])
    else
      var skipped :- SkipOf(fields[0].attrs);
      var name := fields[0].ident.value;
      var rest :- NamedBindings(fields[1..]);
      Ok([(name, if skipped then Discard else BindName(name))] + rest)
  }

  /** `i{index}` or `_` for each positional field, counting from `start`. */
  function TupleBindings(fields: seq<UnnamedField>, start: nat): (r: Result<seq<Binding>>)
    ensures r.Ok? ==> |r.value| == |fields|
  {
    if fields == [] then Ok([])
    else
      var skipped :- SkipOf(fields[0].attrs);
      var rest :- TupleBindings(fields[1..], start + 1);
      Ok([if skipped then Discard else BindName("i" + NatToString(start))] + rest)
  }

  /** `destructure_fields`: no validation, only the field's own skip decision. */
  function DestructureFields(fields: Fields): (r: Result<Pattern>)
    ensures r.Ok? ==> |Bindings(r.value)| == |fields.All()|
    ensures r.Ok? ==> match fields
      case FieldsNamed(_) => r.value.BracePattern?
      case FieldsUnnamed(_) => r.value.TuplePattern?
      case FieldsUnit => r.value == NoPattern
  {
    match fields
    case FieldsNamed(named) =>
      var entries :- NamedBindings(named);
      Ok(BracePattern(entries))
    case FieldsUnnamed(unnamed) =>
      var items :- TupleBindings(unnamed, 0);
      Ok(TuplePattern(items))
    case FieldsUnit => Ok(NoPattern)
  }

  /** The binding the pattern gives field `k`: `_` if it is skipped, otherwise its binding name. */
  function ExpectedBinding(field: Field, k: nat): Binding {
    if IsSkipped(field.attrs) then Discard else BindName(BindingName(field, k))
  }

  lemma NamedBindingsSpec(fields: seq<NamedField>)
    requires NamedBindings(fields).Ok?
    ensures forall k :: 0 <= k < |fields| ==>
      NamedBindings(fields).value[k] == (fields[k].ident.value, ExpectedBinding(fields[k], k))
  {
    forall k | 0 <= k < |fields|
      ensures NamedBindings(fields).value[k] == (fields[k].ident.value, ExpectedBinding(fields[k], k))
    {
      NamedBindingAt(fields, k);
    }
  }

  /** The entry at position `k >= 0` of the named fields. */
  lemma {:induction false} NamedBindingAt(fields: seq<NamedField>, k: nat)
    requires NamedBindings(fields).Ok? && k < |fields|
    ensures NamedBindings(fields).value[k] == (fields[k].ident.value, ExpectedBinding(fields[k], k))
  {
    NamedBindingsCons(fields);
    if k > 0 {
      NamedBindingAt(fields[1..], k - 1);
      assert fields[1..][k - 1] == fields[k];
    }
  }

  /** The first named field's entry, then the others'. */
  lemma NamedBindingsCons(fields: seq<NamedField>)
    requires fields != [] && NamedBindings(fields).Ok?
    ensures NamedBindings(fields[1..]).Ok?
    ensures NamedBindings(fields).value
         == [(fields[0].ident.value, ExpectedBinding(fields[0], 0))] + NamedBindings(fields[1..]).value
  {
  }

  lemma TupleBindingsSpec(fields: seq<UnnamedField>, start: nat)
    requires TupleBindings(fields, start).Ok?
    ensures forall k :: 0 <= k < |fields| ==>
      TupleBindings(fields, start).value[k] == ExpectedBinding(fields[k], start + k)
  {
    forall k | 0 <= k < |fields|
      ensures TupleBindings(fields, start).value[k] == ExpectedBinding(fields[k], start + k)
    {
      TupleBindingAt(fields, start, k);
    }
  }

  /** The binding at position `k` of the positional fields counted from `start`. */
  lemma {:induction false} TupleBindingAt(fields: seq<UnnamedField>, start: nat, k: nat)
    requires TupleBindings(fields, start).Ok? && k < |fields|
    ensures TupleBindings(fields, start).value[k] == ExpectedBinding(fields[k], start + k)
  {
    TupleBindingsCons(fields, start);
    if k > 0 {
      TupleBindingAt(fields[1..], start + 1, k - 1);
      assert fields[1..][k - 1] == fields[k];
    }
  }

  /** The first positional field's binding, then the others'. */
  lemma TupleBindingsCons(fields: seq<UnnamedField>, start: nat)
    requires fields != [] && TupleBindings(fields, start).Ok?
    ensures TupleBindings(fields[1..], start + 1).Ok?
    ensures TupleBindings(fields, start).value
         == [ExpectedBinding(fields[0], start)] + TupleBindings(fields[1..], start + 1).value
  {
  }

  /** The pattern binds each field to its binding name, or to `_` when the field is skipped. */
  lemma DestructureSpec(fields: Fields)
    requires DestructureFields(fields).Ok?
    ensures forall k :: 0 <= k < |fields.All()| ==>
      Bindings(DestructureFields(fields).value)[k] == ExpectedBinding(fields.All()[k], k)
  {
    match fields
    case FieldsNamed(named) =>
      var entries := NamedBindings(named).value;
      NamedBindingsSpec(named);
      assert DestructureFields(fields) == Ok(BracePattern(entries));
      var bs := Bindings(BracePattern(entries));
      assert forall k :: 0 <= k < |named| ==> bs[k] == entries[k].1;
    case FieldsUnnamed(unnamed) =>
      var items := TupleBindings(unnamed, 0).value;
      TupleBindingsSpec(unnamed, 0);
      assert DestructureFields(fields) == Ok(TuplePattern(items));
    case FieldsUnit =>
  }

  /** Positional bindings never clash: `i{j}` and `i{k}` differ for `j != k`. */
  lemma TupleBindingsDistinct(fields: Fields, j: nat, k: nat)
    requires fields.FieldsUnnamed? && DestructureFields(fields).Ok?
    requires j < k < |fields.All()|
    requires Bindings(DestructureFields(fields).value)[j].BindName?
    requires Bindings(DestructureFields(fields).value)[k].BindName?
    ensures Bindings(DestructureFields(fields).value)[j].name != Bindings(DestructureFields(fields).value)[k].name
  {
    DestructureSpec(fields);
    var fs := fields.All();
    assert fs[j].ident.None? && fs[k].ident.None?;
    if NatToString(j) == NatToString(k) {
      NatToStringInjective(j, k);
    }
    assert ("i" + NatToString(j))[1..] == NatToString(j);
    assert ("i" + NatToString(k))[1..] == NatToString(k);
  }

  /**
   * `drive_variant`: the variant's parameters must be among `skip`; a skip of
   * any shape gives no arm; otherwise the pattern is built before the field steps.
   */
  function DriveVariant(variant: Variant, mutable: bool): (r: Result<Option<Arm>>)
    ensures r.Ok? && r.value.Some? ==> r.value.value.variant == variant.ident
  {
    var params :- FromAttrs(variant.attrs, "drive");
    var ok :- CheckAllowed(params, TypeKeys);
    var skipped :- SkipRequested(params);
    if skipped then Ok(None)
    else
      var fields := variant.fields.All();
      var pattern :- DestructureFields(variant.fields);
      var steps :- DriveFields(fields, VariantValues(fields), mutable);
      Ok(Some(Arm(variant.ident, pattern, steps)))
  }

  /**
   * The arm's steps drive exactly the fields its pattern binds, in declaration
   * order, each through the name the pattern gives it.
   */
  lemma ArmBindingsSound(variant: Variant, mutable: bool)
    requires DriveVariant(variant, mutable).Ok? && DriveVariant(variant, mutable).value.Some?
    ensures var arm, fields := DriveVariant(variant, mutable).value.value, variant.fields.All();
      var kept := KeptFields(fields);
      && |Bindings(arm.pattern)| == |fields|
      && (forall k :: 0 <= k < |fields| ==> (Bindings(arm.pattern)[k].BindName? <==> k in kept))
      && |arm.steps| == |kept|
      && (forall j :: 0 <= j < |kept| ==>
            arm.steps[j].value == Bound(Bindings(arm.pattern)[kept[j]].name))
  {
    var fields := variant.fields.All();
    var values := VariantValues(fields);
    var pattern := DestructureFields(variant.fields).value;
    var steps := DriveFields(fields, values, mutable).value;
    assert DriveVariant(variant, mutable).value.value == Arm(variant.ident, pattern, steps);
    DestructureSpec(variant.fields);
    DriveFieldsInOrder(fields, values, mutable);
    PatternMatchesSteps(fields, Bindings(pattern), values, steps, KeptFields(fields));
  }

  /** Bindings as `destructure_fields` gives them and steps over the kept fields' bound names agree. */
  lemma PatternMatchesSteps(fields: seq<Field>, bindings: seq<Binding>, values: seq<ValueExpr>, steps: seq<FieldStep>, kept: seq<nat>)
    requires |bindings| == |fields| && values == VariantValues(fields) && kept == KeptFields(fields)
    requires forall k :: 0 <= k < |fields| ==> bindings[k] == ExpectedBinding(fields[k], k)
    requires |steps| == |kept| && forall j :: 0 <= j < |steps| ==> steps[j].value == values[kept[j]]
    ensures forall k :: 0 <= k < |fields| ==> (bindings[k].BindName? <==> k in kept)
    ensures forall j :: 0 <= j < |kept| ==> steps[j].value == Bound(bindings[kept[j]].name)
  {
  }

  /** `drive_enum`: the arms of the variants that are not skipped, in order. */
  function DriveVariants(variants: seq<Variant>, mutable: bool): (r: Result<seq<Arm>>)
    ensures r.Ok? ==> |r.value| <= |variants|
  {
    if variants == [] then Ok([])
    else
      var arm :- DriveVariant(variants[0], mutable);
      var rest :- DriveVariants(variants[1..], mutable);
      Ok((if arm.Some? then [arm.value] else []) + rest)
  }

  lemma DriveVariantSkips(variant: Variant, mutable: bool)
    requires DriveVariant(variant, mutable).Ok?
    ensures DriveVariant(variant, mutable).value.None? <==> IsSkipped(variant.attrs)
  {
  }

  /** One arm per variant that is not skipped, in declaration order; a skipped variant has none. */
  lemma DriveVariantsInOrder(variants: seq<Variant>, mutable: bool)
    requires DriveVariants(variants, mutable).Ok?
    ensures var arms, kept := DriveVariants(variants, mutable).value, KeptVariants(variants);
      |arms| == |kept| && forall j :: 0 <= j < |arms| ==> arms[j].variant == variants[kept[j]].ident
  {
    assert variants[0..] == variants;
    DriveVariantsFrom(variants, mutable, 0);
  }

  lemma {:induction false} DriveVariantsFrom(variants: seq<Variant>, mutable: bool, start: nat)
    requires start <= |variants|
    requires DriveVariants(variants[start..], mutable).Ok?
    ensures var arms := DriveVariants(variants[start..], mutable).value;
      var kept := KeptFrom(variants, VariantSkipped, start);
      |arms| == |kept| && forall j :: 0 <= j < |arms| ==> arms[j].variant == variants[kept[j]].ident
    decreases |variants| - start
  {
    if start < |variants| {
      var vs := variants[start..];
      assert vs[1..] == variants[start + 1..] && vs[0] == variants[start];
      DriveVariantsCons(vs, mutable);
      DriveVariantsFrom(variants, mutable, start + 1);
      DriveVariantSkips(variants[start], mutable);
      var arm := DriveVariant(variants[start], mutable).value;
      var head: seq<Arm> := if arm.Some? then [arm.value] else [];
      var keptHead: seq<nat> := if VariantSkipped(variants[start]) then [] else [start];
      var rest := DriveVariants(variants[start + 1..], mutable).value;
      var keptRest := KeptFrom(variants, VariantSkipped, start + 1);
      assert KeptFrom(variants, VariantSkipped, start) == keptHead + keptRest;
      ArmsMatchKept(head, rest, keptHead, keptRest, variants);
    }
  }

  /** One step of `DriveVariants`: the first variant's arm, then the rest. */
  lemma DriveVariantsCons(vs: seq<Variant>, mutable: bool)
    requires vs != [] && DriveVariants(vs, mutable).Ok?
    ensures DriveVariant(vs[0], mutable).Ok? && DriveVariants(vs[1..], mutable).Ok?
    ensures var arm := DriveVariant(vs[0], mutable).value;
      DriveVariants(vs, mutable).value == (if arm.Some? then [arm.value] else []) + DriveVariants(vs[1..], mutable).value
  {
  }

  /** Arms and kept positions that correspond piecewise correspond as a whole. */
  lemma ArmsMatchKept(head: seq<Arm>, rest: seq<Arm>, keptHead: seq<nat>, keptRest: seq<nat>, variants: seq<Variant>)
    requires |head| == |keptHead| && |rest| == |keptRest|
    requires forall j :: 0 <= j < |head| ==> keptHead[j] < |variants| && head[j].variant == variants[keptHead[j]].ident
    requires forall j :: 0 <= j < |rest| ==> keptRest[j] < |variants| && rest[j].variant == variants[keptRest[j]].ident
    ensures var arms, kept := head + rest, keptHead + keptRest;
      |arms| == |kept| && forall j :: 0 <= j < |arms| ==> kept[j] < |variants| && arms[j].variant == variants[kept[j]].ident
  {
  }

  // The impl.

  /** `params.param("skip")?.map(Param::unit).transpose()?.is_some()`: a type-level skip must be bare. */
  function TypeSkip(params: ParamMap): (r: Result<bool>)
    ensures r == Ok(false) <==> IdentPath("skip") !in params
    ensures r == Ok(true) <==> IdentPath("skip") in params && params[IdentPath("skip")].MetaPath?
  {
    var taken :- Take(params, "skip").0;
    match taken
    case None => Ok(false)
    case Some(param) =>
      var ok :- ExpectUnit(param);
      Ok(true)
  }

  /**
   * `impl_drive`: the type's parameters (only `skip`, only bare), then the body of
   * a struct or an enum; a union is rejected.
   */
  function ImplDrive(input: DeriveInput, mutable: bool): (r: Result<DriveImpl>)
    ensures r.Ok? ==> r.value.name == input.ident && r.value.mutable == mutable
    ensures input.data.DataUnion? ==> r.Err?
    ensures r.Ok? ==> (r.value.body.StructBody? <==> input.data.DataStruct?)
  {
    var params :- FromAttrs(input.attrs, "drive");
    var ok :- CheckAllowed(params, TypeKeys);
    var skipSelf :- TypeSkip(params);
    var body :-
      match input.data
      case DataStruct(fields) =>
        var steps :- DriveStruct(fields, mutable);
        Ok(StructBody(steps))
      case DataEnum(variants) =>
        var arms :- DriveVariants(variants, mutable);
        Ok(EnumBody(arms))
      case DataUnion(_) => Err(UnionMsg);
    Ok(DriveImpl(input.ident, mutable, !skipSelf, body))
  }

  /** A union is rejected with "unions are not supported" once the type's parameters are accepted. */
  lemma UnionRejected(input: DeriveInput, mutable: bool)
    requires input.data.DataUnion?
    requires FromAttrs(input.attrs, "drive").Ok?
    requires CheckAllowed(FromAttrs(input.attrs, "drive").value, TypeKeys).Ok?
    requires TypeSkip(FromAttrs(input.attrs, "drive").value).Ok?
    ensures ImplDrive(input, mutable) == Err(UnionMsg)
  {
  }

  /** The messages of the three `validate` calls of the Drive derive. */
  lemma DriveKeyMessages()
    ensures UnknownParameterMsg(FieldKeys) == "unknown parameter, supported: skip, with"
    ensures UnknownParameterMsg(TypeKeys) == "unknown parameter, supported: skip"
  {
  }

  /** A field parameter other than `skip` and `with` is rejected, whatever else the field holds. */
  lemma FieldUnknownKeyRejected(value: ValueExpr, field: Field, mutable: bool, key: Path)
    requires FromAttrs(field.attrs, "drive").Ok?
    requires key in FromAttrs(field.attrs, "drive").value && !IsAllowed(key, FieldKeys)
    ensures DriveField(value, field, mutable) == Err(UnknownParameterMsg(FieldKeys))
  {
  }

  /** A variant parameter other than `skip` is rejected, whatever else the variant holds. */
  lemma VariantUnknownKeyRejected(variant: Variant, mutable: bool, key: Path)
    requires FromAttrs(variant.attrs, "drive").Ok?
    requires key in FromAttrs(variant.attrs, "drive").value && !IsAllowed(key, TypeKeys)
    ensures DriveVariant(variant, mutable) == Err(UnknownParameterMsg(TypeKeys))
  {
  }

  /** A type parameter other than `skip` is rejected, whatever the type's data. */
  lemma TypeUnknownKeyRejected(input: DeriveInput, mutable: bool, key: Path)
    requires FromAttrs(input.attrs, "drive").Ok?
    requires key in FromAttrs(input.attrs, "drive").value && !IsAllowed(key, TypeKeys)
    ensures ImplDrive(input, mutable) == Err(UnknownParameterMsg(TypeKeys))
  {
  }

  /** A type-level skip that is not bare is an invalid parameter, or its list's own error. */
  lemma TypeSkipMustBeUnit(input: DeriveInput, mutable: bool)
    requires FromAttrs(input.attrs, "drive").Ok?
    requires FromAttrs(input.attrs, "drive").value.Keys == {IdentPath("skip")}
    requires !FromAttrs(input.attrs, "drive").value[IdentPath("skip")].MetaPath?
    ensures ImplDrive(input, mutable).Err?
    ensures var meta := FromAttrs(input.attrs, "drive").value[IdentPath("skip")];
      && (meta.MetaNameValue? ==> ImplDrive(input, mutable) == Err(InvalidParameterMsg))
      && (meta.MetaList? && FromMetaList(meta.nested).Ok? ==> ImplDrive(input, mutable) == Err(InvalidParameterMsg))
      && (meta.MetaList? && FromMetaList(meta.nested).Err? ==> ImplDrive(input, mutable) == Err(FromMetaList(meta.nested).msg))
  {
    assert IsAllowed(IdentPath("skip"), TypeKeys) by { assert "skip" in TypeKeys; }
  }

  /** `#[drive(skip)]` */
  const DriveSkip: Attribute := Attribute(IdentPath("drive"), Parenthesized([NestedItem(MetaPath(IdentPath("skip")))]))

  /**
   * `#[drive(skip)]` on the type, beside any other attributes, changes only
   * whether `self` is entered and exited; without it the type visits itself.
   */
  lemma TypeSkipOnlyDropsSelfVisits(input: DeriveInput, mutable: bool)
    requires Matching(input.attrs, "drive") == [DriveSkip]
    ensures var plain := input.(attrs := Unmatched(input.attrs, "drive"));
      ImplDrive(input, mutable).Ok? == ImplDrive(plain, mutable).Ok?
      && (ImplDrive(input, mutable).Ok? ==>
            ImplDrive(input, mutable).value == ImplDrive(plain, mutable).value.(visitSelf := false))
      && (ImplDrive(plain, mutable).Ok? ==> ImplDrive(plain, mutable).value.visitSelf)
  {
    var skipKey := IdentPath("skip");
    var items := [NestedItem(MetaPath(skipKey))];
    assert FromMetaList(items[..0]) == Ok(map[]);
    assert FromMetaList(items) == Ok(map[skipKey := MetaPath(skipKey)]);
    var params := map[skipKey := MetaPath(skipKey)];
    assert FromAttrs(input.attrs, "drive") == Ok(params);
    UnmatchedSpec(input.attrs, "drive");
    FromAttrsAbsent(Unmatched(input.attrs, "drive"), "drive");
    assert IsAllowed(skipKey, TypeKeys) by { assert "skip" in TypeKeys; }
    assert TypeSkip(params) == Ok(true);
  }
}
