/**
 * The runtime: the `Drive` impls of the std containers, tuples and arrays, the
 * derived impls described by a `DriveImpl` plan, and the visitors that consume
 * the notifications (`visitor_fn`, `visitor_enter_fn`, and a derived `Visitor`).
 *
 * A value is a tree. Driving a visitor through it sends a sequence of
 * `(item, event)` notifications; `Trace` is that sequence, and class `Recorder`
 * is a visitor whose `drive` appends them to its log in place.
 */
module Traversal {
  import opened Syntax
  import opened Plan
  import Params
  import Routes

  /** The std collections whose `Drive` impl drives every element in iteration order. */
  datatype SeqKind = VecKind | VecDequeKind | LinkedListKind | BTreeSetKind | HashSetKind | BinaryHeapKind

  /** The std maps, whose `Drive` impl drives each key, then its value. */
  datatype MapKind = BTreeMapKind | HashMapKind

  /**
   * A value. Collections and maps hold their elements in iteration order (for the
   * hashed ones, an arbitrary but fixed order). A `Leaf` is a value of a type the
   * model gives no `Drive` impl (a `String`, a number): it is only ever skipped
   * or handed to a custom driver.
   */
  datatype Value =
    | StructValue(tag: Path, members: seq<MemberValue>)
    | EnumValue(tag: Path, variant: Ident, members: seq<MemberValue>)
    | Collection(seqKind: SeqKind, elements: seq<Value>)
    | MapValue(mapKind: MapKind, entries: seq<Entry>)
    | Boxed(inner: Value)
    | CellValue(cell: Value)
    | OptionValue(option: Option<Value>)
    | TupleValue(elements: seq<Value>)
    | ArrayValue(elements: seq<Value>)
    | Leaf(tag: Path)

  datatype MemberValue = MemberValue(member: Member, value: Value)

  datatype Entry = Entry(key: Value, val: Value)

  /** The type path `downcast_ref` compares with; std containers are never a route's target. */
  function TypeOf(v: Value): Option<Path> {
    match v
    case StructValue(tag, _) => Some(tag)
    case EnumValue(tag, _, _) => Some(tag)
    case Leaf(tag) => Some(tag)
    case _ => None
  }

  /** One `visitor.visit(item, event)` call. */
  datatype Notification = Notification(item: Value, event: Event)

  /**
   * The derived impls in scope, by type path, and the notifications each custom
   * `with` function sends for a value (it is code the model does not see).
   */
  datatype Env = Env(plans: map<Path, DriveImpl>, custom: (Path, Value) -> seq<Notification>)

  /** A step with `Drive::drive` (or `DriveMut::drive_mut`) drives the value's own impl. */
  predicate IsDefaultDrive(driveFn: Path) {
    driveFn == DefaultDrivePath(false) || driveFn == DefaultDrivePath(true)
  }

  function SelfVisit(plan: DriveImpl, v: Value, event: Event): seq<Notification> {
    if plan.visitSelf then [Notification(v, event)] else []
  }

  /** The position of the first member named `m`. */
  function MemberIndex(members: seq<MemberValue>, m: Member): (r: Option<nat>)
    ensures r.Some? ==> r.value < |members| && members[r.value].member == m
    ensures r.None? ==> forall k :: 0 <= k < |members| ==> members[k].member != m
  {
    if members == [] then None
    else if members[0].member == m then Some(0)
    else match MemberIndex(members[1..], m)
      case Some(k) => Some(k + 1)
      case None => None
  }

  /** The position of the first `BindName(name)` in a list of bindings. */
  function BindingIndex(bindings: seq<Binding>, name: Ident): (r: Option<nat>)
    ensures r.Some? ==> r.value < |bindings| && bindings[r.value] == BindName(name)
    ensures r.None? ==> BindName(name) !in bindings
  {
    if bindings == [] then None
    else if bindings[0] == BindName(name) then Some(0)
    else match BindingIndex(bindings[1..], name)
      case Some(k) => Some(k + 1)
      case None => None
  }

  /** The member a pattern position binds: a named field by name, a positional one by index. */
  function PatternMember(pattern: Pattern, k: nat): Member
    requires k < |Bindings(pattern)|
  {
    match pattern
    case BracePattern(entries) => Named(entries[k].0)
    case TuplePattern(_) => Unnamed(k)
  }

  /** Which member of the value a step's expression denotes, if any. */
  function Resolve(expr: ValueExpr, pattern: Pattern, members: seq<MemberValue>): (r: Option<nat>)
    ensures r.Some? ==> r.value < |members|
  {
    match expr
    case SelfMember(m) => MemberIndex(members, m)
    case Bound(name) =>
      match BindingIndex(Bindings(pattern), name)
      case Some(k) => MemberIndex(members, PatternMember(pattern, k))
      case None => None
  }

  /** The first arm for `variant`; `None` falls into the emitted `_ => {}`. */
  function FindArm(arms: seq<Arm>, variant: Ident): (r: Option<Arm>)
    ensures r.Some? ==> r.value in arms && r.value.variant == variant
    ensures r.None? ==> forall k :: 0 <= k < |arms| ==> arms[k].variant != variant
  {
    if arms == [] then None
    else if arms[0].variant == variant then Some(arms[0])
    else FindArm(arms[1..], variant)
  }

  /**
   * The notifications of `value.drive(visitor)`: a derived type enters itself,
   * runs its steps and exits itself; every std impl only drives its parts.
   */
  function Trace(v: Value, env: Env): seq<Notification>
    decreases v, 1
  {
    match v
    case StructValue(tag, _) =>
      if tag in env.plans && env.plans[tag].body.StructBody? then
        var plan := env.plans[tag];
        SelfVisit(plan, v, Enter) + StepsTrace(plan.body.steps, NoPattern, v, env) + SelfVisit(plan, v, Exit)
      else []
    case EnumValue(tag, variant, _) =>
      if tag in env.plans && env.plans[tag].body.EnumBody? then
        var plan := env.plans[tag];
        var body := match FindArm(plan.body.arms, variant)
          case Some(arm) => StepsTrace(arm.steps, arm.pattern, v, env)
          case None => [];
        SelfVisit(plan, v, Enter) + body + SelfVisit(plan, v, Exit)
      else []
    case Collection(_, elements) => TraceAll(elements, env)
    case MapValue(_, entries) => TraceEntries(entries, env)
    case Boxed(inner) => Trace(inner, env)
    case CellValue(content) => Trace(content, env)
    case OptionValue(content) => if content.Some? then Trace(content.value, env) else []
    case TupleValue(elements) => TraceAll(elements, env)
    case ArrayValue(elements) => TraceAll(elements, env)
    case Leaf(_) => []
  }

  /** The field steps of a derived impl, in order, on the members they denote. */
  function StepsTrace(steps: seq<FieldStep>, pattern: Pattern, v: Value, env: Env): seq<Notification>
    requires v.StructValue? || v.EnumValue?
    decreases v, 0, |steps|
  {
    if steps == [] then []
    else FieldStepTrace(steps[0], pattern, v, env) + StepsTrace(steps[1..], pattern, v, env)
  }

  /** One step: the notifications for the member it names, or none when it names no member. */
  function FieldStepTrace(step: FieldStep, pattern: Pattern, v: Value, env: Env): seq<Notification>
    requires v.StructValue? || v.EnumValue?
    decreases v, 0, 0
  {
    match Resolve(step.value, pattern, v.members)
    case Some(i) => StepTrace(step.driveFn, v.members[i].value, env)
    case None => []
  }

  /** `#drive_fn(value, visitor)`: the value's own impl, or the custom function's notifications. */
  function StepTrace(driveFn: Path, x: Value, env: Env): seq<Notification>
    decreases x, 2
  {
    if IsDefaultDrive(driveFn) then Trace(x, env) else env.custom(driveFn, x)
  }

  /** The element traces concatenated in iteration order. */
  function TraceAll(elements: seq<Value>, env: Env): seq<Notification>
    decreases elements
  {
    if elements == [] then [] else Trace(elements[0], env) + TraceAll(elements[1..], env)
  }

  /** Entry by entry: the key's trace, then the value's. */
  function TraceEntries(entries: seq<Entry>, env: Env): seq<Notification>
    decreases entries
  {
    if entries == [] then []
    else
      var e := entries[0];
      assert e in entries;
      assert e.key < e && e.val < e;
      Trace(e.key, env) + Trace(e.val, env) + TraceEntries(entries[1..], env)
  }

  lemma {:induction false} TraceAllConcat(a: seq<Value>, b: seq<Value>, env: Env)
    ensures TraceAll(a + b, env) == TraceAll(a, env) + TraceAll(b, env)
  {
    if a == [] {
      assert a + b == b;
    } else {
      assert (a + b)[0] == a[0] && (a + b)[1..] == a[1..] + b;
      TraceAllConcat(a[1..], b, env);
    }
  }

  lemma TraceAllAppend(elements: seq<Value>, x: Value, env: Env)
    ensures TraceAll(elements + [x], env) == TraceAll(elements, env) + Trace(x, env)
  {
    TraceAllConcat(elements, [x], env);
    assert TraceAll([x], env) == Trace(x, env) + TraceAll([], env);
  }

  lemma {:induction false} TraceEntriesConcat(a: seq<Entry>, b: seq<Entry>, env: Env)
    ensures TraceEntries(a + b, env) == TraceEntries(a, env) + TraceEntries(b, env)
  {
    if a == [] {
      assert a + b == b;
    } else {
      assert (a + b)[0] == a[0] && (a + b)[1..] == a[1..] + b;
      TraceEntriesConcat(a[1..], b, env);
    }
  }

  lemma TraceEntriesAppend(entries: seq<Entry>, e: Entry, env: Env)
    ensures TraceEntries(entries + [e], env) == TraceEntries(entries, env) + Trace(e.key, env) + Trace(e.val, env)
  {
    TraceEntriesConcat(entries, [e], env);
    assert TraceEntries([e], env) == Trace(e.key, env) + Trace(e.val, env) + TraceEntries([], env);
  }

  // The std impls as the source states them.

  /**
   * The element at position `k` is driven after every earlier element and before
   * every later one, with nothing in between.
   */
  lemma TraceAllSplit(elements: seq<Value>, k: nat, env: Env)
    requires k < |elements|
    ensures TraceAll(elements, env)
         == TraceAll(elements[..k], env) + Trace(elements[k], env) + TraceAll(elements[k + 1..], env)
  {
    assert elements == elements[..k] + [elements[k]] + elements[k + 1..];
    TraceAllConcat(elements[..k] + [elements[k]], elements[k + 1..], env);
    TraceAllAppend(elements[..k], elements[k], env);
  }

  /** A sequence or set container sends nothing of its own: its trace is its elements' traces in order. */
  lemma CollectionTrace(kind: SeqKind, elements: seq<Value>, env: Env, k: nat)
    requires k < |elements|
    ensures Trace(Collection(kind, elements), env)
         == TraceAll(elements[..k], env) + Trace(elements[k], env) + TraceAll(elements[k + 1..], env)
  {
    TraceAllSplit(elements, k, env);
  }

  /** Tuples and arrays drive their positions in index order; `()` and `[T; 0]` send nothing. */
  lemma PositionalTrace(elements: seq<Value>, env: Env, k: nat)
    requires k < |elements|
    ensures Trace(TupleValue(elements), env)
         == TraceAll(elements[..k], env) + Trace(elements[k], env) + TraceAll(elements[k + 1..], env)
    ensures Trace(ArrayValue(elements), env) == Trace(TupleValue(elements), env)
    ensures Trace(TupleValue([]), env) == [] && Trace(ArrayValue([]), env) == []
  {
    TraceAllSplit(elements, k, env);
  }

  /** A map drives entry `k` (its key, then its value) after the earlier entries and before the later ones. */
  lemma MapTrace(kind: MapKind, entries: seq<Entry>, env: Env, k: nat)
    requires k < |entries|
    ensures Trace(MapValue(kind, entries), env)
         == TraceEntries(entries[..k], env) + Trace(entries[k].key, env) + Trace(entries[k].val, env)
            + TraceEntries(entries[k + 1..], env)
  {
    assert entries == entries[..k] + [entries[k]] + entries[k + 1..];
    TraceEntriesConcat(entries[..k] + [entries[k]], entries[k + 1..], env);
    TraceEntriesAppend(entries[..k], entries[k], env);
  }

  /** `Box` and `Cell` delegate to their content; `Option` traces its value or nothing. */
  lemma WrapperTrace(x: Value, env: Env)
    ensures Trace(Boxed(x), env) == Trace(x, env)
    ensures Trace(CellValue(x), env) == Trace(x, env)
    ensures Trace(OptionValue(Some(x)), env) == Trace(x, env)
    ensures Trace(OptionValue(None), env) == []
  {
  }

  // Well-nesting of the notifications.

  /** Replays a log on a stack of entered items (top first); `None` on an exit that does not match. */
  function Replay(stack: seq<Value>, log: seq<Notification>): Option<seq<Value>>
    decreases |log|
  {
    if log == [] then Some(stack)
    else match log[0].event
      case Enter => Replay([log[0].item] + stack, log[1..])
      case Exit =>
        if stack != [] && stack[0] == log[0].item then Replay(stack[1..], log[1..]) else None
  }

  /** Every Enter is closed by an Exit of the same item, innermost first, and nothing else exits. */
  predicate Balanced(log: seq<Notification>) {
    Replay([], log) == Some([])
  }

  lemma {:induction false} ReplayAppend(stack: seq<Value>, a: seq<Notification>, b: seq<Notification>)
    ensures Replay(stack, a + b) == match Replay(stack, a) case None => None case Some(t) => Replay(t, b)
    decreases |a|
  {
    if a == [] {
      assert a + b == b;
    } else {
      assert (a + b)[0] == a[0] && (a + b)[1..] == a[1..] + b;
      match a[0].event
      case Enter => ReplayAppend([a[0].item] + stack, a[1..], b);
      case Exit =>
        if stack != [] && stack[0] == a[0].item {
          ReplayAppend(stack[1..], a[1..], b);
        }
    }
  }

  /** A replay that never pops below its starting stack runs the same on a deeper stack. */
  lemma {:induction false} ReplayDeeper(stack: seq<Value>, below: seq<Value>, log: seq<Notification>)
    requires Replay(stack, log).Some?
    ensures Replay(stack + below, log) == Some(Replay(stack, log).value + below)
    decreases |log|
  {
    if log != [] {
      match log[0].event
      case Enter =>
        assert [log[0].item] + (stack + below) == ([log[0].item] + stack) + below;
        ReplayDeeper([log[0].item] + stack, below, log[1..]);
      case Exit =>
        assert (stack + below)[1..] == stack[1..] + below;
        ReplayDeeper(stack[1..], below, log[1..]);
    }
  }

  lemma BalancedConcat(a: seq<Notification>, b: seq<Notification>)
    requires Balanced(a) && Balanced(b)
    ensures Balanced(a + b)
  {
    ReplayAppend([], a, b);
  }

  /** `Enter(x)`, a balanced body, `Exit(x)` is balanced. */
  lemma BalancedWrap(x: Value, body: seq<Notification>)
    requires Balanced(body)
    ensures Balanced([Notification(x, Enter)] + body + [Notification(x, Exit)])
  {
    var exit := [Notification(x, Exit)];
    var log := [Notification(x, Enter)] + body + exit;
    assert log[0] == Notification(x, Enter) && log[1..] == body + exit;
    assert [log[0].item] + [] == [x];
    assert Replay([], log) == Replay([x], body + exit);
    ReplayAppend([x], body, exit);
    ReplayDeeper([], [x], body);
    assert [] + [x] == [x] && Replay([], body).value + [x] == [x];
    assert Replay([x], body) == Some([x]);
    assert Replay([x], exit) == Replay([], []);
  }

  lemma BalancedSelfVisits(plan: DriveImpl, v: Value, body: seq<Notification>)
    requires Balanced(body)
    ensures Balanced(SelfVisit(plan, v, Enter) + body + SelfVisit(plan, v, Exit))
  {
    if plan.visitSelf {
      BalancedWrap(v, body);
    } else {
      assert [] + body + [] == body;
    }
  }

  ghost predicate CustomBalanced(env: Env) {
    forall p: Path, x: Value :: Balanced(env.custom(p, x))
  }

  /**
   * When every custom driver is well nested, so is every trace: a derived node's
   * Enter and Exit enclose the traces of its parts.
   */
  lemma {:induction false} TraceBalanced(v: Value, env: Env)
    requires CustomBalanced(env)
    ensures Balanced(Trace(v, env))
    decreases v, 1
  {
    match v
    case StructValue(tag, _) =>
      if tag in env.plans && env.plans[tag].body.StructBody? {
        var plan := env.plans[tag];
        StepsBalanced(plan.body.steps, NoPattern, v, env);
        BalancedSelfVisits(plan, v, StepsTrace(plan.body.steps, NoPattern, v, env));
      }
    case EnumValue(tag, variant, _) =>
      if tag in env.plans && env.plans[tag].body.EnumBody? {
        var plan := env.plans[tag];
        match FindArm(plan.body.arms, variant)
        case Some(arm) =>
          StepsBalanced(arm.steps, arm.pattern, v, env);
          BalancedSelfVisits(plan, v, StepsTrace(arm.steps, arm.pattern, v, env));
        case None =>
          BalancedSelfVisits(plan, v, []);
      }
    case Collection(_, elements) => AllBalanced(elements, env);
    case MapValue(_, entries) => EntriesBalanced(entries, env);
    case Boxed(inner) => TraceBalanced(inner, env);
    case CellValue(content) => TraceBalanced(content, env);
    case OptionValue(content) =>
      if content.Some? {
        TraceBalanced(content.value, env);
      }
    case TupleValue(elements) => AllBalanced(elements, env);
    case ArrayValue(elements) => AllBalanced(elements, env);
    case Leaf(_) =>
  }

  lemma {:induction false} StepsBalanced(steps: seq<FieldStep>, pattern: Pattern, v: Value, env: Env)
    requires v.StructValue? || v.EnumValue?
    requires CustomBalanced(env)
    ensures Balanced(StepsTrace(steps, pattern, v, env))
    decreases v, 0, |steps|
  {
    if steps != [] {
      StepsBalanced(steps[1..], pattern, v, env);
      match Resolve(steps[0].value, pattern, v.members)
      case Some(i) =>
        var x := v.members[i].value;
        if IsDefaultDrive(steps[0].driveFn) {
          TraceBalanced(x, env);
        }
        BalancedConcat(StepTrace(steps[0].driveFn, x, env), StepsTrace(steps[1..], pattern, v, env));
      case None =>
        assert [] + StepsTrace(steps[1..], pattern, v, env) == StepsTrace(steps[1..], pattern, v, env);
    }
  }

  lemma {:induction false} AllBalanced(elements: seq<Value>, env: Env)
    requires CustomBalanced(env)
    ensures Balanced(TraceAll(elements, env))
    decreases elements
  {
    if elements != [] {
      TraceBalanced(elements[0], env);
      AllBalanced(elements[1..], env);
      BalancedConcat(Trace(elements[0], env), TraceAll(elements[1..], env));
    }
  }

  lemma {:induction false} EntriesBalanced(entries: seq<Entry>, env: Env)
    requires CustomBalanced(env)
    ensures Balanced(TraceEntries(entries, env))
    decreases entries
  {
    if entries != [] {
      var e := entries[0];
      assert e in entries;
      assert e.key < e && e.val < e;
      TraceBalanced(e.key, env);
      TraceBalanced(e.val, env);
      EntriesBalanced(entries[1..], env);
      BalancedConcat(Trace(e.key, env), Trace(e.val, env));
      BalancedConcat(Trace(e.key, env) + Trace(e.val, env), TraceEntries(entries[1..], env));
    }
  }

  /** A derived struct's trace starts by entering it and ends by exiting it, unless it skips itself. */
  lemma DerivedStructTrace(v: Value, env: Env)
    requires v.StructValue? && v.tag in env.plans && env.plans[v.tag].body.StructBody?
    requires env.plans[v.tag].visitSelf
    ensures var t := Trace(v, env);
      |t| >= 2 && t[0] == Notification(v, Enter) && t[|t| - 1] == Notification(v, Exit)
      && t[1..|t| - 1] == StepsTrace(env.plans[v.tag].body.steps, NoPattern, v, env)
  {
  }

  // The visitor that records: the state every derived `drive` threads through.

  class Recorder {
    var log: seq<Notification>

    constructor ()
      ensures log == []
    {
      log := [];
    }

    /** `Visitor::visit`. */
    method Visit(item: Value, event: Event)
      modifies this
      ensures log == old(log) + [Notification(item, event)]
    {
      log := log + [Notification(item, event)];
    }

    /** `value.drive(self)`: the std impls' loops and the derived impls' enter, steps, exit. */
    method Drive(v: Value, env: Env)
      modifies this
      ensures log == old(log) + Trace(v, env)
      decreases v, 2
    {
      match v
      case StructValue(_, _) => DriveTagged(v, env);
      case EnumValue(_, _, _) => DriveTagged(v, env);
      case Collection(_, elements) => DriveElements(v, elements, env);
      case MapValue(_, entries) => DriveEntries(v, entries, env);
      case Boxed(inner) => Drive(inner, env);
      case CellValue(content) => Drive(content, env);
      case OptionValue(content) =>
        if content.Some? {
          Drive(content.value, env);
        }
      case TupleValue(elements) => DriveElements(v, elements, env);
      case ArrayValue(elements) => DriveElements(v, elements, env);
      case Leaf(_) =>
    }

    /** A struct or an enum value: its derived `drive`, found by its type among the plans. */
    method DriveTagged(v: Value, env: Env)
      requires v.StructValue? || v.EnumValue?
      modifies this
      ensures log == old(log) + Trace(v, env)
      decreases v, 1
    {
      if v.StructValue? {
        if v.tag in env.plans && env.plans[v.tag].body.StructBody? {
          var plan := env.plans[v.tag];
          DriveDerived(plan, plan.body.steps, NoPattern, v, env);
        }
      } else if v.tag in env.plans && env.plans[v.tag].body.EnumBody? {
        var plan := env.plans[v.tag];
        var arm := FindArm(plan.body.arms, v.variant);
        if arm.Some? {
          DriveDerived(plan, arm.value.steps, arm.value.pattern, v, env);
        } else {
          DriveDerived(plan, [], NoPattern, v, env);
        }
      }
    }

    /** The body of a derived `drive`: Enter self, the steps, Exit self. */
    method DriveDerived(plan: DriveImpl, steps: seq<FieldStep>, pattern: Pattern, v: Value, env: Env)
      requires v.StructValue? || v.EnumValue?
      modifies this
      ensures log == old(log) + SelfVisit(plan, v, Enter) + StepsTrace(steps, pattern, v, env)
                    + SelfVisit(plan, v, Exit)
      decreases v, 0, |steps| + 1
    {
      if plan.visitSelf { Visit(v, Enter); }
      DriveSteps(steps, pattern, v, env);
      if plan.visitSelf { Visit(v, Exit); }
    }

    /** `for (key, value) in self.iter() { key.drive(visitor); value.drive(visitor); }` */
    method DriveEntries(ghost v: Value, entries: seq<Entry>, env: Env)
      requires v.MapValue? && v.entries == entries
      modifies this
      ensures log == old(log) + TraceEntries(entries, env)
      decreases v, 0
    {
      var i := 0;
      while i < |entries|
        invariant 0 <= i <= |entries|
        invariant log == old(log) + TraceEntries(entries[..i], env)
      {
        var e := entries[i];
        assert e in entries;
        assert e.key < e && e.val < e;
        Drive(e.key, env);
        Drive(e.val, env);
        TraceEntriesAppend(entries[..i], e, env);
        assert entries[..i + 1] == entries[..i] + [e];
        i := i + 1;
      }
      assert entries[..i] == entries;
    }

    /** `for_each(|item| item.drive(visitor))`, and the positional drives of tuples and arrays. */
    method DriveElements(ghost v: Value, elements: seq<Value>, env: Env)
      requires (v.Collection? || v.TupleValue? || v.ArrayValue?) && v.elements == elements
      modifies this
      ensures log == old(log) + TraceAll(elements, env)
      decreases v, 0
    {
      var i := 0;
      while i < |elements|
        invariant 0 <= i <= |elements|
        invariant log == old(log) + TraceAll(elements[..i], env)
      {
        assert elements[i] in elements;
        Drive(elements[i], env);
        TraceAllAppend(elements[..i], elements[i], env);
        assert elements[..i + 1] == elements[..i] + [elements[i]];
        i := i + 1;
      }
      assert elements[..i] == elements;
    }

    /** The field steps of a derived impl, one statement each. */
    method DriveSteps(steps: seq<FieldStep>, pattern: Pattern, v: Value, env: Env)
      requires v.StructValue? || v.EnumValue?
      modifies this
      ensures log == old(log) + StepsTrace(steps, pattern, v, env)
      decreases v, 0, |steps|
    {
      var i := 0;
      while i < |steps|
        invariant 0 <= i <= |steps|
        invariant log + StepsTrace(steps[i..], pattern, v, env) == old(log) + StepsTrace(steps, pattern, v, env)
        decreases |steps| - i
      {
        assert steps[i..][0] == steps[i] && steps[i..][1..] == steps[i + 1..];
        DriveStep(steps[i], pattern, v, env);
        i := i + 1;
      }
    }

    /** `#drive_fn(value, visitor);` for one step. */
    method DriveStep(step: FieldStep, pattern: Pattern, v: Value, env: Env)
      requires v.StructValue? || v.EnumValue?
      modifies this
      ensures log == old(log) + FieldStepTrace(step, pattern, v, env)
      decreases v, 0, 0
    {
      var r := Resolve(step.value, pattern, v.members);
      if r.Some? {
        var x := v.members[r.value].value;
        if IsDefaultDrive(step.driveFn) {
          Drive(x, env);
        } else {
          log := log + env.custom(step.driveFn, x);
        }
      }
    }
  }

  // Visitors.

  /** `FnVisitor::visit`: the closure is called with the item and event exactly when the item is a `T`. */
  function FnVisit(target: Path, n: Notification): seq<Notification> {
    if TypeOf(n.item) == Some(target) then [n] else []
  }

  /** The closure calls of `visitor_fn::<T>` over a run, in order. */
  function FnVisitorCalls(target: Path, log: seq<Notification>): (calls: seq<Notification>)
    ensures forall n :: n in calls <==> n in log && TypeOf(n.item) == Some(target)
  {
    if log == [] then [] else FnVisit(target, log[0]) + FnVisitorCalls(target, log[1..])
  }

  /** `EnterFnVisitor::visit`: the closure is called only for Enter on a `T`. */
  function EnterFnVisit(target: Path, n: Notification): seq<Value> {
    if n.event == Enter && TypeOf(n.item) == Some(target) then [n.item] else []
  }

  /** The closure calls of `visitor_enter_fn::<T>` over a run, in order. */
  function EnterFnVisitorCalls(target: Path, log: seq<Notification>): (calls: seq<Value>)
    ensures forall x :: x in calls <==> Notification(x, Enter) in log && TypeOf(x) == Some(target)
  {
    if log == [] then [] else EnterFnVisit(target, log[0]) + EnterFnVisitorCalls(target, log[1..])
  }

  /** Pairs each called handler with the item it is called with. */
  function WithItem(names: seq<Ident>, item: Value): (calls: seq<(Ident, Value)>)
    ensures |calls| == |names|
    ensures forall k :: 0 <= k < |names| ==> calls[k] == (names[k], item)
  {
    seq(|names|, k requires 0 <= k < |names| => (names[k], item))
  }

  /** What the emitted `visit` body calls for one notification. */
  function RouteCallsFor(routes: seq<Routes.Route>, n: Notification): seq<(Ident, Value)> {
    match TypeOf(n.item)
    case Some(t) => WithItem(Routes.Visit(routes, t, n.event), n.item)
    case None => []
  }

  /** The handler calls of a derived `Visitor` impl over a run: `(handler, item)` in order. */
  function HandlerCalls(routes: seq<Routes.Route>, log: seq<Notification>): seq<(Ident, Value)> {
    if log == [] then [] else RouteCallsFor(routes, log[0]) + HandlerCalls(routes, log[1..])
  }

  /** What a route table prescribes for one notification. */
  function TableCallFor(table: Routes.RouteTable, n: Notification): seq<(Ident, Value)> {
    match TypeOf(n.item)
    case Some(t) =>
      if t in table && Routes.HandlerFor(table[t], n.event).Some?
      then [(Routes.HandlerFor(table[t], n.event).value, n.item)] else []
    case None => []
  }

  /** The handler calls a route table prescribes over a run. */
  function TableCalls(table: Routes.RouteTable, log: seq<Notification>): seq<(Ident, Value)> {
    if log == [] then [] else TableCallFor(table, log[0]) + TableCalls(table, log[1..])
  }

  lemma RouteCallsFollowTable(table: Routes.RouteTable, order: seq<Path>, n: Notification)
    requires Params.IsEnumeration(order, table.Keys)
    ensures RouteCallsFor(Routes.EmitRoutes(table, order), n) == TableCallFor(table, n)
  {
    match TypeOf(n.item)
    case Some(t) =>
      Routes.VisitDispatch(table, order, t, n.event);
      var names := Routes.Visit(Routes.EmitRoutes(table, order), t, n.event);
      if names != [] {
        assert WithItem(names, n.item) == [(names[0], n.item)];
      }
    case None =>
  }

  /** Whatever order the routes were emitted in, the derived visitor calls what the table says. */
  lemma {:induction false} HandlerCallsFollowTable(table: Routes.RouteTable, order: seq<Path>, log: seq<Notification>)
    requires Params.IsEnumeration(order, table.Keys)
    ensures HandlerCalls(Routes.EmitRoutes(table, order), log) == TableCalls(table, log)
  {
    if log != [] {
      HandlerCallsFollowTable(table, order, log[1..]);
      RouteCallsFollowTable(table, order, log[0]);
    }
  }

  /** The number of calls to handler `name`. */
  function CountCalls(calls: seq<(Ident, Value)>, name: Ident): nat {
    if calls == [] then 0 else (if calls[0].0 == name then 1 else 0) + CountCalls(calls[1..], name)
  }

  lemma {:induction false} CountCallsConcat(a: seq<(Ident, Value)>, b: seq<(Ident, Value)>, name: Ident)
    ensures CountCalls(a + b, name) == CountCalls(a, name) + CountCalls(b, name)
  {
    if a != [] {
      assert (a + b)[1..] == a[1..] + b;
      CountCallsConcat(a[1..], b, name);
    } else {
      assert a + b == b;
    }
  }

  lemma {:induction false} TableCallsConcat(table: Routes.RouteTable, a: seq<Notification>, b: seq<Notification>)
    ensures TableCalls(table, a + b) == TableCalls(table, a) + TableCalls(table, b)
  {
    if a != [] {
      assert (a + b)[1..] == a[1..] + b;
      assert (a + b)[0] == a[0];
      TableCallsConcat(table, a[1..], b);
    } else {
      assert a + b == b;
    }
  }
}
