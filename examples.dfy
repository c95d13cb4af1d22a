/**
 * The crate's worked examples, evaluated on the model: the `Directory` example
 * of the crate documentation and the containers test. Each derive input is run
 * through the engine, and the resulting plans and route table drive the
 * counting visitor over the example value.
 */
module Examples {
  import opened Syntax
  import opened Plan
  import opened Routes
  import opened Traversal
  import opened Lexical
  import opened Params

  const Default: Path := DefaultDrivePath(false)

  // The Directory example.

  /** `struct Directory { #[drive(skip)] name: String, items: Vec<DirectoryItem> }` */
  const DirectoryInput: DeriveInput :=
    DeriveInput("Directory", [], DataStruct(FieldsNamed([Field(Some("name"), [DriveSkip]), Field(Some("items"), [])])))

  /** `enum DirectoryItem { File(File), Directory(Directory) }` */
  const DirectoryItemInput: DeriveInput :=
    DeriveInput("DirectoryItem", [], DataEnum([
      Variant("File", [], FieldsUnnamed([Field(None, [])])),
      Variant("Directory", [], FieldsUnnamed([Field(None, [])]))]))

  /** `struct File { #[drive(skip)] name: String }` */
  const FileInput: DeriveInput :=
    DeriveInput("File", [], DataStruct(FieldsNamed([Field(Some("name"), [DriveSkip])])))

  const DirectoryPlan: DriveImpl :=
    DriveImpl("Directory", false, true, StructBody([FieldStep(Default, SelfMember(Named("items")))]))

  const DirectoryItemPlan: DriveImpl :=
    DriveImpl("DirectoryItem", false, true, EnumBody([
      Arm("File", TuplePattern([BindName("i0")]), [FieldStep(Default, Bound("i0"))]),
      Arm("Directory", TuplePattern([BindName("i0")]), [FieldStep(Default, Bound("i0"))])]))

  const FilePlan: DriveImpl := DriveImpl("File", false, true, StructBody([]))

  /** `#[drive(skip)]` on a field gives it no step. */
  lemma SkippedFieldHasNoStep(value: ValueExpr, name: Option<Ident>)
    ensures DriveField(value, Field(name, [DriveSkip]), false) == Ok(None)
  {
    var params := FromAttrs([DriveSkip], "drive");
    assert Matching([DriveSkip], "drive") == [DriveSkip];
    assert params == Ok(map[IdentPath("skip") := MetaPath(IdentPath("skip"))]) by {
      assert FromMetaList([NestedItem(MetaPath(IdentPath("skip")))])
          == Ok(map[IdentPath("skip") := MetaPath(IdentPath("skip"))]);
    }
    assert IsAllowed(IdentPath("skip"), FieldKeys) by { assert "skip" in FieldKeys; }
  }

  /** An attribute-free field is driven with the default `Drive::drive`. */
  lemma PlainFieldStep(value: ValueExpr, name: Option<Ident>)
    ensures DriveField(value, Field(name, []), false) == Ok(Some(FieldStep(Default, value)))
  {
    assert FromAttrs([], "drive") == Ok(map[]);
  }

  /** A bare `#[derive(Drive)]` type enters and exits itself. */
  lemma NoTypeAttributes()
    ensures FromAttrs([], "drive") == Ok(map[])
    ensures Params.CheckAllowed(map[], TypeKeys) == Ok(())
    ensures TypeSkip(map[]) == Ok(false)
  {
  }

  /** `Directory` drives `items` and skips `name`. */
  lemma DirectoryDerive()
    ensures ImplDrive(DirectoryInput, false) == Ok(DirectoryPlan)
  {
    NoTypeAttributes();
    SkippedFieldHasNoStep(SelfMember(Named("name")), Some("name"));
    PlainFieldStep(SelfMember(Named("items")), Some("items"));
    var named := DirectoryInput.data.fields.All();
    var values := StructValues(named);
    assert values == [SelfMember(Named("name")), SelfMember(Named("items"))];
    var step := FieldStep(Default, SelfMember(Named("items")));
    assert named[1..][1..] == [] && values[1..][1..] == [];
    assert DriveFields(named[1..][1..], values[1..][1..], false) == Ok([]);
    assert DriveFields(named[1..], values[1..], false).value == [step] + [];
    assert DriveFields(named, values, false).value == [] + ([step] + []);
    assert [] + ([step] + []) == [step];
  }

  /** `File` has no step: its only field is skipped. */
  lemma FileDerive()
    ensures ImplDrive(FileInput, false) == Ok(FilePlan)
  {
    NoTypeAttributes();
    SkippedFieldHasNoStep(SelfMember(Named("name")), Some("name"));
    var named := FileInput.data.fields.All();
    assert StructValues(named) == [SelfMember(Named("name"))];
    assert DriveFields(named, StructValues(named), false) == Ok([]) by {
      assert DriveFields(named[1..], StructValues(named)[1..], false) == Ok([]);
    }
  }

  /** A variant with one plain positional field binds it as `i0` and drives it. */
  lemma NewtypeVariantArm(name: Ident)
    ensures DriveVariant(Variant(name, [], FieldsUnnamed([Field(None, [])])), false)
         == Ok(Some(Arm(name, TuplePattern([BindName("i0")]), [FieldStep(Default, Bound("i0"))])))
  {
    NoTypeAttributes();
    PlainFieldStep(Bound("i0"), None);
    var tuple: UnnamedField := Field(None, []);
    var fs: seq<UnnamedField> := [tuple];
    assert fs[0] == tuple && fs[1..] == [];
    assert SkipOf([]) == Ok(false);
    assert NatToString(0) == "0";
    assert TupleBindings(fs[1..], 1) == Ok([]);
    assert TupleBindings(fs, 0).value == [BindName("i" + NatToString(0))] + [];
    assert "i" + NatToString(0) == "i0";
    assert [BindName("i" + NatToString(0))] + [] == [BindName("i0")];
    assert BindingName(fs[0], 0) == "i0";
    assert VariantValues(fs)[0] == Bound("i0");
    assert VariantValues(fs) == [Bound("i0")];
    var step := FieldStep(Default, Bound("i0"));
    assert DriveFields(fs, [Bound("i0")], false).value == [step] + [] by {
      assert DriveFields(fs[1..], [Bound("i0")][1..], false) == Ok([]);
    }
    assert [step] + [] == [step];
  }

  /** `DirectoryItem` has one arm per variant, each driving its payload. */
  lemma DirectoryItemDerive()
    ensures ImplDrive(DirectoryItemInput, false) == Ok(DirectoryItemPlan)
  {
    NoTypeAttributes();
    var arms := DirectoryItemPlan.body.arms;
    var variants := DirectoryItemInput.data.variants;
    NewtypeVariantArm("File");
    NewtypeVariantArm("Directory");
    assert variants[1..][0] == variants[1] && variants[1..][1..] == [];
    assert DriveVariants(variants[1..][1..], false) == Ok([]);
    assert DriveVariants(variants[1..], false).value == [arms[1]] + [];
    assert [arms[1]] + [] == arms[1..];
    assert DriveVariants(variants, false).value == [arms[0]] + arms[1..];
    assert [arms[0]] + arms[1..] == arms;
  }
  // `#[visitor(A(enter), B(enter))]`, the shape of both example visitors.

  const EnterKey: Path := IdentPath("enter")

  /** `T(enter)` */
  function EnterOnly(target: Path): NestedMeta {
    NestedItem(MetaList(target, [NestedItem(MetaPath(EnterKey))]))
  }

  /** `#[visitor(A(enter), B(enter))]` */
  function EnterOnlyAttr(a: Path, b: Path): Attribute {
    Attribute(IdentPath("visitor"), Parenthesized([EnterOnly(a), EnterOnly(b)]))
  }

  /** `T(enter)` routes Enter to the derived `enter_<t>` and sets no Exit handler. */
  lemma EnterOnlyRoute(target: Path)
    ensures FromMeta(EnterOnly(target).meta).Ok?
    ensures ItemRoute(FromMeta(EnterOnly(target).meta).value)
         == Ok((target, ItemHandlers(Some(MethodNameFromPath(target, Enter)), None)))
  {
    var nested := map[EnterKey := MetaPath(EnterKey)];
    assert FromMetaList([NestedItem(MetaPath(EnterKey))]) == Ok(nested);
    assert IsAllowed(EnterKey, EventKeys) by { assert "enter" in EventKeys; }
    assert CheckAllowed(nested, EventKeys) == Ok(());
    assert nested - {EnterKey} == map[];
  }

  /** The parameter set of `#[visitor(A(enter), B(enter))]`. */
  lemma EnterOnlyParams(a: Path, b: Path)
    requires a != b
    ensures FromAttrs([EnterOnlyAttr(a, b)], "visitor") == Ok(map[a := EnterOnly(a).meta, b := EnterOnly(b).meta])
  {
    var items := [EnterOnly(a), EnterOnly(b)];
    assert Matching([EnterOnlyAttr(a, b)], "visitor") == [EnterOnlyAttr(a, b)];
    assert items[..1] == [EnterOnly(a)];
    assert FromMetaList([EnterOnly(a)][..0]) == Ok(map[]);
    assert FromMetaList([EnterOnly(a)]) == Ok(map[a := EnterOnly(a).meta]);
    assert FromMetaList(items) == Ok(map[a := EnterOnly(a).meta, b := EnterOnly(b).meta]);
  }

  function EnterOnlyTable(a: Path, b: Path): RouteTable {
    map[a := ItemHandlers(Some(MethodNameFromPath(a, Enter)), None),
        b := ItemHandlers(Some(MethodNameFromPath(b, Enter)), None)]
  }

  lemma EnterOnlyExpected(a: Path, b: Path)
    requires a != b
    ensures AllRoutesOk(map[a := EnterOnly(a).meta, b := EnterOnly(b).meta])
    ensures ExpectedRoutes(map[a := EnterOnly(a).meta, b := EnterOnly(b).meta]) == EnterOnlyTable(a, b)
  {
    EnterOnlyRoute(a);
    EnterOnlyRoute(b);
    TwoRoutes(map[a := EnterOnly(a).meta, b := EnterOnly(b).meta], a, b,
      ItemHandlers(Some(MethodNameFromPath(a, Enter)), None), ItemHandlers(Some(MethodNameFromPath(b, Enter)), None));
  }

  /** Two parameters that each route give the table of their two routes. */
  lemma TwoRoutes(params: ParamMap, a: Path, b: Path, ha: ItemHandlers, hb: ItemHandlers)
    requires params.Keys == {a, b} && a != b
    requires FromMeta(params[a]).Ok? && ItemRoute(FromMeta(params[a]).value) == Ok((a, ha))
    requires FromMeta(params[b]).Ok? && ItemRoute(FromMeta(params[b]).value) == Ok((b, hb))
    ensures AllRoutesOk(params)
    ensures ExpectedRoutes(params) == map[a := ha, b := hb]
  {
    assert forall k :: k in params ==> k == a || k == b;
    var expected := ExpectedRoutes(params);
    assert expected.Keys == {a, b};
  }

  /** The table `#[visitor(A(enter), B(enter))]` describes, in any HashMap order. */
  lemma EnterOnlyVisitor(input: DeriveInput, a: Path, b: Path, order: seq<Path>)
    requires input.attrs == [EnterOnlyAttr(a, b)] && a != b
    requires input.data.DataStruct? && AttributeFree(input.data.fields.All())
    requires IsEnumeration(order, {a, b})
    ensures OrderFits(input, order)
    ensures ImplVisitor(input, false, order) == Ok(VisitorImpl(input.ident, false, EnterOnlyTable(a, b)))
  {
    EnterOnlyParams(a, b);
    EnterOnlyExpected(a, b);
    ImplVisitorSpec(input, false, order);
  }
  // The Directory example, driven.

  const StringPath: Path := IdentPath("String")
  const DirectoryPath: Path := IdentPath("Directory")
  const DirectoryItemPath: Path := IdentPath("DirectoryItem")
  const FilePath: Path := IdentPath("File")

  /** `#[derive(Visitor)] #[visitor(File(enter), Directory(enter))] struct Counter { files: u32, directories: u32 }` */
  const CounterInput: DeriveInput :=
    DeriveInput("Counter", [EnterOnlyAttr(FilePath, DirectoryPath)],
      DataStruct(FieldsNamed([Field(Some("files"), []), Field(Some("directories"), [])])))

  const CounterTable: RouteTable := map[
    FilePath := ItemHandlers(Some("enter_file"), None),
    DirectoryPath := ItemHandlers(Some("enter_directory"), None)]

  /** The counter's routes: `enter_file` and `enter_directory`, nothing on Exit. */
  lemma CounterRoutes(order: seq<Path>)
    requires IsEnumeration(order, {FilePath, DirectoryPath})
    ensures OrderFits(CounterInput, order)
    ensures ImplVisitor(CounterInput, false, order) == Ok(VisitorImpl("Counter", false, CounterTable))
  {
    CounterNames();
    assert AttributeFree(CounterInput.data.fields.All());
    EnterOnlyVisitor(CounterInput, FilePath, DirectoryPath, order);
  }

  lemma CounterNames()
    ensures EnterOnlyTable(FilePath, DirectoryPath) == CounterTable
  {
    FileName();
    DirectoryName();
  }

  lemma FileName()
    ensures MethodNameFromPath(FilePath, Enter) == "enter_file"
  {
    CapitalizedSnakeCase("File");
    assert [ToLower('F')] + "File"[1..] == "file";
  }

  lemma DirectoryName()
    ensures MethodNameFromPath(DirectoryPath, Enter) == "enter_directory"
  {
    CapitalizedSnakeCase("Directory");
    assert [ToLower('D')] + "Directory"[1..] == "directory";
  }

  const DirectoryEnv: Env := Env(
    map[DirectoryPath := DirectoryPlan, DirectoryItemPath := DirectoryItemPlan, FilePath := FilePlan],
    (driveFn: Path, x: Value) => [])

  function FileValue(): Value {
    StructValue(FilePath, [MemberValue(Named("name"), Leaf(StringPath))])
  }

  function DirectoryValue(items: seq<Value>): Value {
    StructValue(DirectoryPath, [MemberValue(Named("name"), Leaf(StringPath)), MemberValue(Named("items"), Collection(VecKind, items))])
  }

  /** `DirectoryItem::File(..)` or `DirectoryItem::Directory(..)` */
  function ItemValue(variant: Ident, payload: Value): Value {
    EnumValue(DirectoryItemPath, variant, [MemberValue(Unnamed(0), payload)])
  }

  /** The example's tree: `root` holds `home` (two files) and the empty `downloads`. */
  function ExampleDirectory(): Value {
    DirectoryValue([
      ItemValue("Directory", DirectoryValue([ItemValue("File", FileValue()), ItemValue("File", FileValue())])),
      ItemValue("Directory", DirectoryValue([]))])
  }

  /** How many times the counter's handler `name` runs over a run. */
  function Counted(table: RouteTable, log: seq<Notification>, name: Ident): nat {
    CountCalls(TableCalls(table, log), name)
  }

  /** What the table prescribes is what the emitted routes call, in any order. */
  lemma CountedThroughRoutes(table: RouteTable, order: seq<Path>, log: seq<Notification>, name: Ident)
    requires IsEnumeration(order, table.Keys)
    ensures CountCalls(HandlerCalls(EmitRoutes(table, order), log), name) == Counted(table, log, name)
  {
    HandlerCallsFollowTable(table, order, log);
  }

  lemma CountedConcat(table: RouteTable, a: seq<Notification>, b: seq<Notification>, name: Ident)
    ensures Counted(table, a + b, name) == Counted(table, a, name) + Counted(table, b, name)
  {
    TableCallsConcat(table, a, b);
    CountCallsConcat(TableCalls(table, a), TableCalls(table, b), name);
  }

  /** A file is entered and exited once. */
  lemma FileTrace()
    ensures Trace(FileValue(), DirectoryEnv) == [Notification(FileValue(), Enter), Notification(FileValue(), Exit)]
  {
  }

  /** An item enters itself, drives its payload, and exits itself. */
  lemma ItemTrace(variant: Ident, payload: Value)
    requires variant == "File" || variant == "Directory"
    ensures Trace(ItemValue(variant, payload), DirectoryEnv)
         == [Notification(ItemValue(variant, payload), Enter)] + Trace(payload, DirectoryEnv)
            + [Notification(ItemValue(variant, payload), Exit)]
  {
    var v := ItemValue(variant, payload);
    var arm := if variant == "File" then DirectoryItemPlan.body.arms[0] else DirectoryItemPlan.body.arms[1];
    assert FindArm(DirectoryItemPlan.body.arms, variant) == Some(arm);
    assert Resolve(Bound("i0"), arm.pattern, v.members) == Some(0);
    assert IsDefaultDrive(arm.steps[0].driveFn);
    assert FieldStepTrace(arm.steps[0], arm.pattern, v, DirectoryEnv) == Trace(payload, DirectoryEnv);
    assert arm.steps[1..] == [];
    assert StepsTrace(arm.steps, arm.pattern, v, DirectoryEnv) == Trace(payload, DirectoryEnv) + [];
  }

  /** A directory enters itself, drives its items in order, and exits itself. */
  lemma DirectoryTrace(items: seq<Value>)
    ensures Trace(DirectoryValue(items), DirectoryEnv)
         == [Notification(DirectoryValue(items), Enter)] + TraceAll(items, DirectoryEnv)
            + [Notification(DirectoryValue(items), Exit)]
  {
    var v := DirectoryValue(items);
    var steps := DirectoryPlan.body.steps;
    assert v.members[1..] == [MemberValue(Named("items"), Collection(VecKind, items))];
    assert MemberIndex(v.members[1..], Named("items")) == Some(0);
    assert Resolve(steps[0].value, NoPattern, v.members) == Some(1);
    assert IsDefaultDrive(steps[0].driveFn);
    assert Trace(v.members[1].value, DirectoryEnv) == TraceAll(items, DirectoryEnv);
    assert FieldStepTrace(steps[0], NoPattern, v, DirectoryEnv) == StepTrace(steps[0].driveFn, v.members[1].value, DirectoryEnv);
    assert steps[1..] == [];
    assert StepsTrace(steps, NoPattern, v, DirectoryEnv) == TraceAll(items, DirectoryEnv) + [];
  }

  /** The counter's handler calls for one notification. */
  lemma CountedOne(n: Notification, name: Ident)
    ensures Counted(CounterTable, [n], name) ==
      if TypeOf(n.item) == Some(FilePath) && n.event == Enter && name == "enter_file" then 1
      else if TypeOf(n.item) == Some(DirectoryPath) && n.event == Enter && name == "enter_directory" then 1
      else 0
  {
    var calls := TableCallFor(CounterTable, n);
    assert [n][1..] == [];
    assert TableCalls(CounterTable, [n]) == calls + [];
    assert calls + [] == calls;
    if calls != [] {
      assert calls[1..] == [];
      assert CountCalls(calls, name) == (if calls[0].0 == name then 1 else 0) + CountCalls([], name);
    }
  }

  /** Driving an item counts what driving its payload counts: `DirectoryItem` has no route. */
  lemma ItemCounted(variant: Ident, payload: Value, name: Ident)
    requires variant == "File" || variant == "Directory"
    ensures Counted(CounterTable, Trace(ItemValue(variant, payload), DirectoryEnv), name)
         == Counted(CounterTable, Trace(payload, DirectoryEnv), name)
  {
    var v := ItemValue(variant, payload);
    ItemTrace(variant, payload);
    CountedConcat(CounterTable, [Notification(v, Enter)] + Trace(payload, DirectoryEnv), [Notification(v, Exit)], name);
    CountedConcat(CounterTable, [Notification(v, Enter)], Trace(payload, DirectoryEnv), name);
    CountedOne(Notification(v, Enter), name);
    CountedOne(Notification(v, Exit), name);
  }

  /** A directory adds one Directory Enter to what its items count. */
  lemma DirectoryCounted(items: seq<Value>, name: Ident)
    ensures Counted(CounterTable, Trace(DirectoryValue(items), DirectoryEnv), name)
         == (if name == "enter_directory" then 1 else 0) + Counted(CounterTable, TraceAll(items, DirectoryEnv), name)
  {
    var v := DirectoryValue(items);
    DirectoryTrace(items);
    CountedConcat(CounterTable, [Notification(v, Enter)] + TraceAll(items, DirectoryEnv), [Notification(v, Exit)], name);
    CountedConcat(CounterTable, [Notification(v, Enter)], TraceAll(items, DirectoryEnv), name);
    CountedOne(Notification(v, Enter), name);
    CountedOne(Notification(v, Exit), name);
  }

  lemma FileCounted(name: Ident)
    ensures Counted(CounterTable, Trace(FileValue(), DirectoryEnv), name) == if name == "enter_file" then 1 else 0
  {
    var f := FileValue();
    FileTrace();
    assert [Notification(f, Enter), Notification(f, Exit)] == [Notification(f, Enter)] + [Notification(f, Exit)];
    CountedConcat(CounterTable, [Notification(f, Enter)], [Notification(f, Exit)], name);
    CountedOne(Notification(f, Enter), name);
    CountedOne(Notification(f, Exit), name);
  }

  /** Two elements are counted one after the other. */
  lemma PairCounted(table: RouteTable, a: Value, b: Value, env: Env, name: Ident)
    ensures Counted(table, TraceAll([a, b], env), name)
         == Counted(table, Trace(a, env), name) + Counted(table, Trace(b, env), name)
  {
    assert [a, b] == [a] + [b];
    TraceAllConcat([a], [b], env);
    assert TraceAll([a], env) == Trace(a, env) + TraceAll([], env);
    assert TraceAll([b], env) == Trace(b, env) + TraceAll([], env);
    assert TraceAll([a], env) == Trace(a, env) && TraceAll([b], env) == Trace(b, env);
    assert TraceAll([a, b], env) == Trace(a, env) + Trace(b, env);
    CountedConcat(table, Trace(a, env), Trace(b, env), name);
  }

  /** Counting over the example tree, handler by handler. */
  lemma ExampleCounted(name: Ident)
    ensures Counted(CounterTable, Trace(ExampleDirectory(), DirectoryEnv), name)
         == if name == "enter_file" then 2 else if name == "enter_directory" then 3 else 0
  {
    var file := ItemValue("File", FileValue());
    var home := DirectoryValue([file, file]);
    var downloads := DirectoryValue([]);
    FileCounted(name);
    ItemCounted("File", FileValue(), name);
    PairCounted(CounterTable, file, file, DirectoryEnv, name);
    DirectoryCounted([file, file], name);
    DirectoryCounted([], name);
    ItemCounted("Directory", home, name);
    ItemCounted("Directory", downloads, name);
    PairCounted(CounterTable, ItemValue("Directory", home), ItemValue("Directory", downloads), DirectoryEnv, name);
    DirectoryCounted([ItemValue("Directory", home), ItemValue("Directory", downloads)], name);
  }

  /** The crate documentation's example: the Drive impls derived for its three types. */
  lemma DirectoryDrives()
    ensures ImplDrive(DirectoryInput, false) == Ok(DirectoryEnv.plans[DirectoryPath])
    ensures ImplDrive(DirectoryItemInput, false) == Ok(DirectoryEnv.plans[DirectoryItemPath])
    ensures ImplDrive(FileInput, false) == Ok(DirectoryEnv.plans[FilePath])
  {
    DirectoryDerive();
    DirectoryItemDerive();
    FileDerive();
  }

  /** Driving the example's tree with the counter counts two files and three directories, in any HashMap order. */
  lemma DirectoryExample(order: seq<Path>)
    requires IsEnumeration(order, {FilePath, DirectoryPath})
    ensures var calls := HandlerCalls(EmitRoutes(CounterTable, order), Trace(ExampleDirectory(), DirectoryEnv));
      CountCalls(calls, "enter_file") == 2 && CountCalls(calls, "enter_directory") == 3
  {
    DirectoryCounts(order, "enter_file");
    DirectoryCounts(order, "enter_directory");
    ExampleCounted("enter_file");
    ExampleCounted("enter_directory");
  }

  /** How often the routed visitor calls `name` while the example's tree is driven. */
  lemma DirectoryCounts(order: seq<Path>, name: Ident)
    requires IsEnumeration(order, {FilePath, DirectoryPath})
    ensures CountCalls(HandlerCalls(EmitRoutes(CounterTable, order), Trace(ExampleDirectory(), DirectoryEnv)), name)
         == Counted(CounterTable, Trace(ExampleDirectory(), DirectoryEnv), name)
  {
    assert CounterTable.Keys == {FilePath, DirectoryPath};
    CountedThroughRoutes(CounterTable, order, Trace(ExampleDirectory(), DirectoryEnv), name);
  }

  // The containers test.

  const CountMe1Path: Path := IdentPath("CountMe1")
  const CountMe2Path: Path := IdentPath("CountMe2")
  const TopPath: Path := IdentPath("Top")

  const TopFieldNames: seq<Ident> :=
    ["tuple_field", "array_field", "vec_field", "map_field", "option_field", "list_field", "cell_field"]

  function PlainNamedFields(names: seq<Ident>): (fields: seq<NamedField>)
    ensures |fields| == |names|
    ensures forall k :: 0 <= k < |names| ==> fields[k] == Field(Some(names[k]), [])
  {
    seq(|names|, k requires 0 <= k < |names| => Field(Some(names[k]), []))
  }

  /** `struct Top { tuple_field: (..), array_field: Box<[CountMe1; 5]>, .. }`, no attributes. */
  const TopInput: DeriveInput := DeriveInput("Top", [], DataStruct(FieldsNamed(PlainNamedFields(TopFieldNames))))

  /** `struct CountMe1;` */
  const CountMe1Input: DeriveInput := DeriveInput("CountMe1", [], DataStruct(FieldsUnit))

  /** `struct CountMe2(#[drive(skip)] String);` */
  const CountMe2Input: DeriveInput := DeriveInput("CountMe2", [], DataStruct(FieldsUnnamed([Field(None, [DriveSkip])])))

  /** `#[visitor(CountMe1(enter), CountMe2(enter))] struct TestVisitor { count1: usize, count2: usize }` */
  const TestVisitorInput: DeriveInput :=
    DeriveInput("TestVisitor", [EnterOnlyAttr(CountMe1Path, CountMe2Path)],
      DataStruct(FieldsNamed([Field(Some("count1"), []), Field(Some("count2"), [])])))

  function TopSteps(): (steps: seq<FieldStep>)
    ensures |steps| == |TopFieldNames|
    ensures forall k :: 0 <= k < |steps| ==> steps[k] == FieldStep(Default, SelfMember(Named(TopFieldNames[k])))
  {
    seq(|TopFieldNames|, k requires 0 <= k < |TopFieldNames| => FieldStep(Default, SelfMember(Named(TopFieldNames[k]))))
  }

  const TopPlan: DriveImpl := DriveImpl("Top", false, true, StructBody(TopSteps()))
  const CountMe1Plan: DriveImpl := DriveImpl("CountMe1", false, true, StructBody([]))
  const CountMe2Plan: DriveImpl := DriveImpl("CountMe2", false, true, StructBody([]))

  const TestVisitorTable: RouteTable := map[
    CountMe1Path := ItemHandlers(Some("enter_count_me_1"), None),
    CountMe2Path := ItemHandlers(Some("enter_count_me_2"), None)]

  /** Attribute-free fields are all driven with the default function, in order. */
  lemma {:induction false} PlainFieldsSteps(fields: seq<Field>, values: seq<ValueExpr>)
    requires |values| == |fields|
    requires forall k :: 0 <= k < |fields| ==> fields[k].attrs == []
    ensures DriveFields(fields, values, false).Ok?
    ensures |DriveFields(fields, values, false).value| == |fields|
    ensures forall k :: 0 <= k < |fields| ==> DriveFields(fields, values, false).value[k] == FieldStep(Default, values[k])
  {
    if fields != [] {
      PlainFieldsSteps(fields[1..], values[1..]);
      PlainFieldStep(values[0], fields[0].ident);
      assert fields[0] == Field(fields[0].ident, []);
      var rest := DriveFields(fields[1..], values[1..], false).value;
      assert DriveFields(fields, values, false).value == [FieldStep(Default, values[0])] + rest;
    }
  }

  lemma TopDerive()
    ensures ImplDrive(TopInput, false) == Ok(TopPlan)
  {
    NoTypeAttributes();
    var fields := TopInput.data.fields.All();
    var values := StructValues(fields);
    PlainFieldsSteps(fields, values);
    assert DriveFields(fields, values, false).value == TopSteps();
  }

  lemma CountMeDerive()
    ensures ImplDrive(CountMe1Input, false) == Ok(CountMe1Plan)
    ensures ImplDrive(CountMe2Input, false) == Ok(CountMe2Plan)
  {
    NoTypeAttributes();
    SkippedFieldHasNoStep(SelfMember(Unnamed(0)), None);
    var fields := CountMe2Input.data.fields.All();
    assert StructValues(fields) == [SelfMember(Unnamed(0))];
    assert DriveFields(fields, StructValues(fields), false) == Ok([]) by {
      assert DriveFields(fields[1..], StructValues(fields)[1..], false) == Ok([]);
    }
  }

  lemma TestVisitorNames()
    ensures EnterOnlyTable(CountMe1Path, CountMe2Path) == TestVisitorTable
  {
    CountMeName('1');
    CountMeName('2');
    assert "CountMe" + ['1'] == "CountMe1" && "CountMe" + ['2'] == "CountMe2";
    assert "enter_count_me_" + ['1'] == "enter_count_me_1" && "enter_count_me_" + ['2'] == "enter_count_me_2";
  }

  /** The Enter handler derived for `CountMe<d>` is `enter_count_me_<d>`. */
  lemma CountMeName(d: char)
    requires IsDigit(d)
    ensures MethodNameFromPath(IdentPath("CountMe" + [d]), Enter) == "enter_count_me_" + [d]
  {
    SnakeCountMe(d);
    assert IdentPath("CountMe" + [d]).Last() == "CountMe" + [d];
  }

  /** The std types test's handler for `u32` is `enter_u_32`: a lower-digit boundary splits `u` from `32`. */
  lemma U32Name()
    ensures MethodNameFromPath(IdentPath("u32"), Enter) == "enter_u_32"
  {
    var s := "u32";
    assert IsBoundary(s, 1) && !IsBoundary(s, 2);
    assert s[0..1] == "u" && s[1..] == "32";
    assert SplitWords(s, 1, 2) == ["32"];
    assert SplitWords(s, 0, 0) == ["u", "32"];
    var words := SplitWords(s, 0, 0);
    var lw := seq(|words|, k requires 0 <= k < |words| => Lowercase(words[k]));
    assert Lowercase("u") == "u" && Lowercase("32") == "32";
    assert lw == ["u", "32"];
    assert lw[1..] == ["32"];
    assert Join(lw, "_") == "u" + "_" + "32";
    assert IdentPath(s).Last() == s;
  }

  /** `CountMe<d>` splits into `Count`, `Me` and `<d>`, so its snake case is `count_me_<d>`. */
  lemma SnakeCountMe(d: char)
    requires IsDigit(d)
    ensures SnakeCase("CountMe" + [d]) == "count_me_" + [d]
  {
    var s := "CountMe" + [d];
    assert s[5..7] == "Me" && s[7..] == [d] && s[0..5] == "Count";
    assert SplitWords(s, 7, 8) == [[d]];
    LowerRun(s, 5, 6, 7);
    assert SplitWords(s, 5, 7) == ["Me", [d]];
    LowerRun(s, 0, 1, 5);
    assert SplitWords(s, 0, 5) == ["Count", "Me", [d]];
    assert SplitWords(s, 0, 0) == ["Count", "Me", [d]];
    var words := SplitWords(s, 0, 0);
    var lw := seq(|words|, k requires 0 <= k < |words| => Lowercase(words[k]));
    assert Lowercase("Count") == "count";
    assert Lowercase("Me") == "me";
    assert Lowercase([d]) == [d];
    assert lw == ["count", "me", [d]];
    assert lw[1..][1..] == [[d]];
    assert Join(lw[1..], "_") == "me" + "_" + [d];
    assert Join(lw, "_") == "count" + "_" + ("me" + "_" + [d]);
  }

  const TopEnv: Env := Env(
    map[TopPath := TopPlan, CountMe1Path := CountMe1Plan, CountMe2Path := CountMe2Plan],
    (driveFn: Path, x: Value) => [])

  /** `CountMe1` */
  const One: Value := StructValue(CountMe1Path, [])

  /** `CountMe2(..)`, its `String` being a leaf. */
  const Two: Value := StructValue(CountMe2Path, [MemberValue(Unnamed(0), Leaf(StringPath))])

  /** The field values of the test's `top`, in declaration order. */
  function TopFieldValues(): seq<Value> {
    [ TupleValue([One, Two, One, Two, One, Two]),
      Boxed(ArrayValue([One, One, One, One, One])),
      Collection(VecKind, [Two, Two]),
      MapValue(HashMapKind, [Entry(One, Two)]),
      OptionValue(Some(Two)),
      Collection(LinkedListKind, [One]),
      CellValue(One) ]
  }

  function TopValue(): Value {
    var values := TopFieldValues();
    StructValue(TopPath, seq(|values|, k requires 0 <= k < |values| => MemberValue(Named(TopFieldNames[k]), values[k])))
  }

  /** The handler calls a table prescribes for one notification, counted. */
  lemma CountedOneIn(table: RouteTable, n: Notification, name: Ident)
    ensures Counted(table, [n], name) == CountCalls(TableCallFor(table, n), name)
  {
    assert [n][1..] == [];
    assert TableCalls(table, [n]) == TableCallFor(table, n) + [];
    assert TableCallFor(table, n) + [] == TableCallFor(table, n);
  }

  /** What each element's own trace counts, summed. */
  function CountedEach(table: RouteTable, xs: seq<Value>, env: Env, name: Ident): nat {
    if xs == [] then 0 else Counted(table, Trace(xs[0], env), name) + CountedEach(table, xs[1..], env, name)
  }

  lemma {:induction false} CountedAll(table: RouteTable, xs: seq<Value>, env: Env, name: Ident)
    ensures Counted(table, TraceAll(xs, env), name) == CountedEach(table, xs, env, name)
  {
    if xs != [] {
      CountedAll(table, xs[1..], env, name);
      CountedConcat(table, Trace(xs[0], env), TraceAll(xs[1..], env), name);
    }
  }

  /** A `CountMe1` or `CountMe2` is entered once and calls its own handler once. */
  lemma CountMeCounted(x: Value, name: Ident)
    requires x == One || x == Two
    ensures Counted(TestVisitorTable, Trace(x, TopEnv), name)
         == if (x == One && name == "enter_count_me_1") || (x == Two && name == "enter_count_me_2") then 1 else 0
  {
    assert Trace(x, TopEnv) == [Notification(x, Enter)] + [Notification(x, Exit)];
    CountedConcat(TestVisitorTable, [Notification(x, Enter)], [Notification(x, Exit)], name);
    CountedOneIn(TestVisitorTable, Notification(x, Enter), name);
    CountedOneIn(TestVisitorTable, Notification(x, Exit), name);
    var calls := TableCallFor(TestVisitorTable, Notification(x, Enter));
    assert |calls| == 1 && calls[1..] == [];
  }

  /** The first member with a name is found when no earlier member has it. */
  lemma {:induction false} MemberIndexOfFirst(members: seq<MemberValue>, j: nat)
    requires j < |members|
    requires forall i :: 0 <= i < j ==> members[i].member != members[j].member
    ensures MemberIndex(members, members[j].member) == Some(j)
  {
    if j > 0 {
      assert members[1..][j - 1] == members[j];
      MemberIndexOfFirst(members[1..], j - 1);
    }
  }

  /** Steps `&self.<member>` with the default driver trace the members' values in step order. */
  lemma {:induction false} SelfStepsTrace(v: Value, env: Env, steps: seq<FieldStep>, values: seq<Value>)
    requires v.StructValue? && |steps| == |values|
    requires forall j :: 0 <= j < |steps| ==>
      && steps[j].driveFn == Default && steps[j].value.SelfMember?
      && MemberIndex(v.members, steps[j].value.member).Some?
      && v.members[MemberIndex(v.members, steps[j].value.member).value].value == values[j]
    ensures StepsTrace(steps, NoPattern, v, env) == TraceAll(values, env)
  {
    if steps != [] {
      SelfStepsTrace(v, env, steps[1..], values[1..]);
      assert IsDefaultDrive(steps[0].driveFn);
      assert FieldStepTrace(steps[0], NoPattern, v, env) == Trace(values[0], env);
    }
  }

  /** Each field of `top` is found under its own name. */
  lemma TopMembers()
    ensures |TopValue().members| == |TopFieldNames|
    ensures forall j :: 0 <= j < |TopFieldNames| ==>
      && MemberIndex(TopValue().members, Named(TopFieldNames[j])) == Some(j)
      && TopValue().members[j].value == TopFieldValues()[j]
  {
    var members := TopValue().members;
    forall j | 0 <= j < |TopFieldNames|
      ensures MemberIndex(members, Named(TopFieldNames[j])) == Some(j)
    {
      forall i | 0 <= i < j ensures members[i].member != members[j].member {
        assert TopFieldNames[i] != TopFieldNames[j];
      }
      MemberIndexOfFirst(members, j);
    }
  }

  /** `top` enters itself, drives its seven fields in declaration order, and exits itself. */
  lemma TopTrace()
    ensures Trace(TopValue(), TopEnv)
         == [Notification(TopValue(), Enter)] + TraceAll(TopFieldValues(), TopEnv) + [Notification(TopValue(), Exit)]
  {
    var v := TopValue();
    TopMembers();
    SelfStepsTrace(v, TopEnv, TopSteps(), TopFieldValues());
    assert TopEnv.plans[TopPath] == TopPlan;
  }

  /** Counted over `n` copies of one value. */
  function Copies(x: Value, n: nat): (xs: seq<Value>)
    ensures |xs| == n && forall k :: 0 <= k < n ==> xs[k] == x
  {
    seq(n, k requires 0 <= k < n => x)
  }

  lemma {:induction false} CountedCopies(table: RouteTable, x: Value, n: nat, env: Env, name: Ident)
    ensures CountedEach(table, Copies(x, n), env, name) == n * Counted(table, Trace(x, env), name)
  {
    if n > 0 {
      assert Copies(x, n)[1..] == Copies(x, n - 1);
      CountedCopies(table, x, n - 1, env, name);
      var c := Counted(table, Trace(x, env), name);
      assert n * c == (n - 1) * c + c;
    }
  }

  lemma {:induction false} CountedEachConcat(table: RouteTable, a: seq<Value>, b: seq<Value>, env: Env, name: Ident)
    ensures CountedEach(table, a + b, env, name) == CountedEach(table, a, env, name) + CountedEach(table, b, env, name)
  {
    if a == [] {
      assert a + b == b;
    } else {
      assert (a + b)[0] == a[0] && (a + b)[1..] == a[1..] + b;
      CountedEachConcat(table, a[1..], b, env, name);
    }
  }

  /** The tuple field: three of each. */
  lemma TupleFieldCounted(name: Ident)
    ensures Counted(TestVisitorTable, Trace(TopFieldValues()[0], TopEnv), name)
         == 3 * Counted(TestVisitorTable, Trace(One, TopEnv), name) + 3 * Counted(TestVisitorTable, Trace(Two, TopEnv), name)
  {
    var t := TestVisitorTable;
    var pair := [One, Two];
    assert TopFieldValues()[0] == TupleValue(pair + pair + pair);
    CountedAll(t, pair + pair + pair, TopEnv, name);
    CountedEachConcat(t, pair + pair, pair, TopEnv, name);
    CountedEachConcat(t, pair, pair, TopEnv, name);
    assert pair[1..] == [Two] && pair[1..][1..] == [];
    assert CountedEach(t, pair[1..], TopEnv, name) == Counted(t, Trace(Two, TopEnv), name) + CountedEach(t, [], TopEnv, name);
  }

  /** The boxed array, the vector and the list: copies of one value. */
  lemma CopiesFieldsCounted(name: Ident)
    ensures Counted(TestVisitorTable, Trace(TopFieldValues()[1], TopEnv), name) == 5 * Counted(TestVisitorTable, Trace(One, TopEnv), name)
    ensures Counted(TestVisitorTable, Trace(TopFieldValues()[2], TopEnv), name) == 2 * Counted(TestVisitorTable, Trace(Two, TopEnv), name)
    ensures Counted(TestVisitorTable, Trace(TopFieldValues()[5], TopEnv), name) == Counted(TestVisitorTable, Trace(One, TopEnv), name)
  {
    var t := TestVisitorTable;
    assert Copies(One, 5) == [One, One, One, One, One];
    assert TopFieldValues()[1] == Boxed(ArrayValue(Copies(One, 5)));
    CountedAll(t, Copies(One, 5), TopEnv, name);
    CountedCopies(t, One, 5, TopEnv, name);
    assert Copies(Two, 2) == [Two, Two];
    assert TopFieldValues()[2] == Collection(VecKind, Copies(Two, 2));
    CountedAll(t, Copies(Two, 2), TopEnv, name);
    CountedCopies(t, Two, 2, TopEnv, name);
    assert Copies(One, 1) == [One];
    assert TopFieldValues()[5] == Collection(LinkedListKind, Copies(One, 1));
    CountedAll(t, Copies(One, 1), TopEnv, name);
    CountedCopies(t, One, 1, TopEnv, name);
  }

  /** The map drives its key and its value; the option and the cell their content. */
  lemma WrapperFieldsCounted(name: Ident)
    ensures Counted(TestVisitorTable, Trace(TopFieldValues()[3], TopEnv), name)
         == Counted(TestVisitorTable, Trace(One, TopEnv), name) + Counted(TestVisitorTable, Trace(Two, TopEnv), name)
    ensures Counted(TestVisitorTable, Trace(TopFieldValues()[4], TopEnv), name) == Counted(TestVisitorTable, Trace(Two, TopEnv), name)
    ensures Counted(TestVisitorTable, Trace(TopFieldValues()[6], TopEnv), name) == Counted(TestVisitorTable, Trace(One, TopEnv), name)
  {
    var entries := [Entry(One, Two)];
    assert TopFieldValues()[3] == MapValue(HashMapKind, entries);
    assert entries[0] == Entry(One, Two) && entries[1..] == [];
    assert TraceEntries(entries, TopEnv) == Trace(One, TopEnv) + Trace(Two, TopEnv) + TraceEntries([], TopEnv);
    assert TraceEntries(entries, TopEnv) == Trace(One, TopEnv) + Trace(Two, TopEnv);
    CountedConcat(TestVisitorTable, Trace(One, TopEnv), Trace(Two, TopEnv), name);
  }

  /** What the test's fields count: 3 + 5 + 1 + 1 + 1 for `CountMe1`, 3 + 2 + 1 + 1 for `CountMe2`. */
  lemma TopFieldsCounted(name: Ident)
    ensures CountedEach(TestVisitorTable, TopFieldValues(), TopEnv, name)
         == if name == "enter_count_me_1" then 11 else if name == "enter_count_me_2" then 7 else 0
  {
    var values := TopFieldValues();
    CountMeCounted(One, name);
    CountMeCounted(Two, name);
    TupleFieldCounted(name);
    CopiesFieldsCounted(name);
    WrapperFieldsCounted(name);
    CountedEachOfSeven(TestVisitorTable, values, TopEnv, name);
  }

  /** Counting over seven values is the sum of the seven counts. */
  lemma CountedEachOfSeven(t: RouteTable, values: seq<Value>, env: Env, name: Ident)
    requires |values| == 7
    ensures CountedEach(t, values, env, name)
         == Counted(t, Trace(values[0], env), name) + Counted(t, Trace(values[1], env), name)
          + Counted(t, Trace(values[2], env), name) + Counted(t, Trace(values[3], env), name)
          + Counted(t, Trace(values[4], env), name) + Counted(t, Trace(values[5], env), name)
          + Counted(t, Trace(values[6], env), name)
  {
    var c := seq(7, k requires 0 <= k < 7 => Counted(t, Trace(values[k], env), name));
    assert CountedEach(t, values[6..], env, name) == c[6] by {
      assert values[6..][1..] == [];
    }
    assert CountedEach(t, values[5..], env, name) == c[5] + c[6] by { assert values[5..][1..] == values[6..]; }
    assert CountedEach(t, values[4..], env, name) == c[4] + c[5] + c[6] by { assert values[4..][1..] == values[5..]; }
    assert CountedEach(t, values[3..], env, name) == c[3] + c[4] + c[5] + c[6] by { assert values[3..][1..] == values[4..]; }
    assert CountedEach(t, values[2..], env, name) == c[2] + c[3] + c[4] + c[5] + c[6] by { assert values[2..][1..] == values[3..]; }
    assert CountedEach(t, values[1..], env, name) == c[1] + c[2] + c[3] + c[4] + c[5] + c[6] by { assert values[1..][1..] == values[2..]; }
  }

  /** Counting over the whole run of `top.drive(..)`. */
  lemma TopCounted(name: Ident)
    ensures Counted(TestVisitorTable, Trace(TopValue(), TopEnv), name)
         == if name == "enter_count_me_1" then 11 else if name == "enter_count_me_2" then 7 else 0
  {
    var t := TestVisitorTable;
    TopTrace();
    var enter, exit := Notification(TopValue(), Enter), Notification(TopValue(), Exit);
    var fields := TraceAll(TopFieldValues(), TopEnv);
    CountedConcat(t, [enter] + fields, [exit], name);
    CountedConcat(t, [enter], fields, name);
    CountedOneIn(t, enter, name);
    CountedOneIn(t, exit, name);
    CountedAll(t, TopFieldValues(), TopEnv, name);
    TopFieldsCounted(name);
  }

  /** The containers test: the visitor subscribes to Enter of `CountMe1` and `CountMe2`, in any HashMap order. */
  lemma ContainersVisitor(order: seq<Path>)
    requires IsEnumeration(order, {CountMe1Path, CountMe2Path})
    ensures OrderFits(TestVisitorInput, order)
    ensures ImplVisitor(TestVisitorInput, false, order) == Ok(VisitorImpl("TestVisitor", false, TestVisitorTable))
  {
    TestVisitorNames();
    assert AttributeFree(TestVisitorInput.data.fields.All());
    EnterOnlyVisitor(TestVisitorInput, CountMe1Path, CountMe2Path, order);
  }

  /** The containers test: the Drive impls derived for `Top`, `CountMe1` and `CountMe2`. */
  lemma ContainersDrives()
    ensures ImplDrive(TopInput, false) == Ok(TopEnv.plans[TopPath])
    ensures ImplDrive(CountMe1Input, false) == Ok(TopEnv.plans[CountMe1Path])
    ensures ImplDrive(CountMe2Input, false) == Ok(TopEnv.plans[CountMe2Path])
  {
    TopDerive();
    CountMeDerive();
  }

  /** Driving `top` with the test visitor counts eleven `CountMe1` and seven `CountMe2`, in any HashMap order. */
  lemma ContainersExample(order: seq<Path>)
    requires IsEnumeration(order, {CountMe1Path, CountMe2Path})
    ensures var calls := HandlerCalls(EmitRoutes(TestVisitorTable, order), Trace(TopValue(), TopEnv));
      CountCalls(calls, "enter_count_me_1") == 11 && CountCalls(calls, "enter_count_me_2") == 7
  {
    TopCounts(order, "enter_count_me_1");
    TopCounts(order, "enter_count_me_2");
    TopCounted("enter_count_me_1");
    TopCounted("enter_count_me_2");
  }

  /** How often the routed visitor calls `name` while `top` is driven. */
  lemma TopCounts(order: seq<Path>, name: Ident)
    requires IsEnumeration(order, {CountMe1Path, CountMe2Path})
    ensures CountCalls(HandlerCalls(EmitRoutes(TestVisitorTable, order), Trace(TopValue(), TopEnv)), name)
         == Counted(TestVisitorTable, Trace(TopValue(), TopEnv), name)
  {
    assert TestVisitorTable.Keys == {CountMe1Path, CountMe2Path};
    CountedThroughRoutes(TestVisitorTable, order, Trace(TopValue(), TopEnv), name);
  }
}
