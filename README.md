# derive-visitor, modelled in Dafny

derive-visitor is a Rust crate in two parts.

- **Macro engine** (`derive-visitor-macros`). It implements `#[derive(Drive)]` and `#[derive(Visitor)]`.
  - `#[drive(..)]` attributes turn a struct or an enum into a *plan*. The plan enters the value, drives its fields in order, then exits it.
  - `#[visitor(..)]` attributes turn a visitor struct into a *route table*. The table maps a type to the handlers for its Enter and Exit events.
- **Runtime** (`derive-visitor`). It defines the `Drive` impls of the std containers, tuples and arrays, and the closure visitors `visitor_fn` and `visitor_enter_fn`.

This project models both parts and proves what they promise.

Modules, one per concern:

- `Syntax` — the token-free shape of `syn`'s input:
  - paths, literals, metas, attributes, fields, variants, derive inputs;
  - the `Result`/`Option` types;
  - `Event`;
  - the error messages.
- `Lexical` — the two lexical services the macros borrow, on ASCII text:
  - convert_case's snake case (`to_case(Case::Snake)`);
  - `LitStr::parse` into an identifier or a path.
- `Params` — `extract_meta`, `Params` and `Param`:
  - the pure functions say what each operation computes;
  - class `ParamSet` holds the parameter map the source mutates. Its methods hold the loops of `from_meta_list` and `validate`, and the removals of `param` and `Iterator::next`.
- `Plan` — `impl_drive`, `drive_struct`, `drive_enum`, `drive_variant`, `destructure_fields`, `drive_field`. The generated code is represented by its structure, `DriveImpl`; this covers the optional self visits, the field steps, and the match arms with their destructuring patterns.
- `Routes` — `impl_visitor` and `visitor_route`:
  - the route table;
  - the checks on the visitor type;
  - the dispatch of the emitted `visit` body.
- `Traversal` — the runtime:
  - `Trace(v, env)` is the sequence of `(item, event)` notifications that `v.drive(visitor)` sends;
  - class `Recorder` is a visitor whose `drive` appends those notifications to its `log` field, loop by loop, which `Trace` specifies;
  - `visitor_fn`, `visitor_enter_fn` and a derived `Visitor` are functions of that log.
- `Examples` — the worked examples run through the whole model:
  - the crate documentation's `Directory` example (2 files, 3 directories);
  - the containers test (11 `CountMe1`, 7 `CountMe2`);
  - the handler names of the tests.

Modelling decisions:

- **HashMap iteration order** is an explicit parameter. A `seq<Path>` lists every key exactly once (`IsEnumeration`). The results say "for every such order", and `ImplVisitorOrderIndependent` proves the derive does not depend on it. `ParamSet.Next` picks an arbitrary key.
- **`Any::downcast_ref`** is equality of the written type paths (`TypeOf`), not of Rust's `TypeId`. Std containers are never the target of a route.
- **A custom `with` function** is code the model cannot see. It is a parameter `env.custom` that maps the function's path and the value to the notifications it sends.
- **A `Leaf`** stands for a value without a `Drive` impl (a `String`, a number). Such a value is only ever skipped or handed to a custom driver, and its trace is empty.
- **Behaviour follows the code as written:**
  - `extract_meta` fails only when a *third* matching attribute exists; with two, the second is ignored.
  - A field's or variant's `skip` of any shape that classifies (bare, `= ".."`, `(..)`) skips. Only the type-level `skip` must be bare.
  - `impl_visitor`'s `.map_ok(..).flatten()` silently drops a top-level entry whose `Param::from_meta` fails.
  - The `Visitor` derive rejects any attribute at all on a field or variant.
  - A skipped variant has no arm and falls into the trailing `_ => {}`.

## Model

| member | source | states |
|---|---|---|
| Params.MatchingSpec | derive-visitor-macros/src/lib.rs:53-56 | the filter keeps exactly the attributes whose path is the identifier `attr_name` (every found one carries it, every one carrying it is found), and finds none exactly when no attribute carries that name |
| Params.ExtractMeta | derive-visitor-macros/src/lib.rs:52-63 | "duplicate attribute" exactly when more than two attributes match; an extracted meta always has the attribute's own name as its path |
| Params.ExtractMetaAbsent | derive-visitor-macros/src/lib.rs:52-63 | no meta is extracted exactly when no attribute carries the name |
| Params.SecondAttributeIgnored | derive-visitor-macros/src/lib.rs:57-62 | adding a second same-named attribute leaves the result unchanged: the first one is used |
| Params.ThirdAttributeRejected | derive-visitor-macros/src/lib.rs:57-59 | adding a third same-named attribute fails with "duplicate attribute", whatever it holds |
| Params.FromAttrsAbsent | derive-visitor-macros/src/lib.rs:69-80 | with no matching attribute the parameter set is empty |
| Params.NonListAttributeRejected | derive-visitor-macros/src/lib.rs:71-76 | an attribute that is not a parenthesised list fails with "invalid attribute" |
| Params.FromMetaListSpec | derive-visitor-macros/src/lib.rs:82-97 | the list parses exactly when every item is a meta and their paths are pairwise distinct; then the keys are exactly the item paths and each maps to its own meta |
| Params.PrefixErrorPropagates | derive-visitor-macros/src/lib.rs:84-95 | the loop returns at the first bad item: once a prefix fails, the whole list fails with the same error |
| Params.LiteralItemRejected | derive-visitor-macros/src/lib.rs:92-94 | the first bare literal after distinct metas is "invalid attribute" |
| Params.RepeatedKeyRejected | derive-visitor-macros/src/lib.rs:86-90 | the first repeated key after distinct metas is "duplicate parameter" |
| Params.FromMeta | derive-visitor-macros/src/lib.rs:144-162 | the path is kept; Unit exactly for a path meta, StringLiteral exactly for a string name-value, NestedParams exactly for a list whose items parse; another literal is "invalid parameter"; a bad list passes its error on |
| Params.ExpectUnit | derive-visitor-macros/src/lib.rs:179-185 | succeeds exactly on a unit parameter, otherwise "invalid parameter" |
| Params.ExpectStringLiteral | derive-visitor-macros/src/lib.rs:187-193 | succeeds exactly on a string-literal parameter, yielding its text, otherwise "invalid parameter" |
| Params.CheckAllowed | derive-visitor-macros/src/lib.rs:99-116 | succeeds exactly when every key is one of the allowed identifiers; otherwise "unknown parameter, supported: " followed by the allowed names joined by ", " |
| Params.Take | derive-visitor-macros/src/lib.rs:118-123 | the named key is gone, every other entry is unchanged, an absent name gives `Ok(None)`, and a present one is classified by `from_meta` |
| Params.Iterate | derive-visitor-macros/src/lib.rs:126-135 | one item per entry, the i-th classifying the entry of the i-th key in iteration order |
| Params.EnumerationSize | derive-visitor-macros/src/lib.rs:126-135 | an iteration order lists exactly as many keys as the map has |
| Params.ParamSet.Build | derive-visitor-macros/src/lib.rs:82-97 | the insertion loop succeeds exactly when `FromMetaList` does, storing its map, and otherwise returns its error |
| Params.ParamSet.Validate | derive-visitor-macros/src/lib.rs:99-116 | the loop over the keys returns exactly `CheckAllowed`'s verdict and changes nothing |
| Params.ParamSet.TakeParam | derive-visitor-macros/src/lib.rs:118-123 | returns and removes exactly what `Take` says |
| Params.ParamSet.Next | derive-visitor-macros/src/lib.rs:128-134 | on an empty set yields `None` and changes nothing; otherwise removes one entry and yields its classification |
| Params.ParamSet.Drain | derive-visitor-macros/src/lib.rs:126-135 | pulling `next` until `None` yields exactly one item per entry, in an iteration order of the keys, and empties the set |
| Lexical.ParseIdent | derive-visitor-macros/src/lib.rs:215 | `key = "m"` gives `m` exactly when `m` is an identifier that is not a keyword, otherwise an error |
| Lexical.ParsePathOfIdent | derive-visitor-macros/src/lib.rs:544 | `with = "f"` with a plain identifier parses to the one-segment path `f` |
| Routes.MethodNameFromPath | derive-visitor-macros/src/lib.rs:201-211 | the name is the event name, `_`, then the snake case of the path's last segment, which holds no capital |
| Routes.DerivedNamesDiffer | derive-visitor-macros/src/lib.rs:201-211 | the derived Enter and Exit names of a type never coincide |
| Routes.DerivedNameUsesLastSegment | derive-visitor-macros/src/lib.rs:202-207 | paths with the same last segment get the same handler name |
| Routes.MethodNameFromParam | derive-visitor-macros/src/lib.rs:213-219 | `key = "m"` parses `m` as an identifier, a bare key derives the name from the type's path, `key(..)` is "invalid parameter" |
| Routes.TakeHandlerSpec | derive-visitor-macros/src/lib.rs:234-241 | an absent event key sets no handler; a present one succeeds exactly when it names a handler, and then sets that handler |
| Routes.ItemRoute | derive-visitor-macros/src/lib.rs:223-248 | the route is for the entry's own path; bare `T` sets both derived handlers; `T = ".."` is "invalid attribute"; an unknown nested key is "unknown parameter" |
| Routes.NestedRouteSpec | derive-visitor-macros/src/lib.rs:231-243 | `T(..)` succeeds exactly when its keys are among enter and exit and each names a handler; it then sets exactly the events it lists |
| Routes.CollectRoutesOk | derive-visitor-macros/src/lib.rs:222-251 | the collection fails exactly when the closure fails on some item the iterator yields as `Ok`; items yielded as `Err` are dropped |
| Routes.CollectRoutesKeys | derive-visitor-macros/src/lib.rs:222-251 | the table's keys are exactly the paths of the yielded `Ok` items |
| Routes.CollectRoutesValues | derive-visitor-macros/src/lib.rs:222-251 | with distinct paths, each yielded item's path carries exactly the handlers the closure computed for it |
| Routes.CollectRoutesSpec | derive-visitor-macros/src/lib.rs:222-251 | the three facts above together |
| Routes.CollectInAnyOrder | derive-visitor-macros/src/lib.rs:222-251 | for every iteration order of a parameter set, the collection succeeds exactly when every classified entry routes, and then yields the same table |
| Routes.CheckFieldAttrs | derive-visitor-macros/src/lib.rs:272-281 | succeeds exactly when no field carries any attribute |
| Routes.CheckVariantAttrs | derive-visitor-macros/src/lib.rs:253-271 | succeeds exactly when no variant and none of its fields carries any attribute |
| Routes.CheckVisitorData | derive-visitor-macros/src/lib.rs:253-288 | a struct or an enum passes exactly when attribute-free; a union is "unions are not supported" |
| Routes.ImplVisitor | derive-visitor-macros/src/lib.rs:221-313 | a produced impl has the input's name and mutability and an input that passed the checks; a union never produces one |
| Routes.ImplVisitorSpec | derive-visitor-macros/src/lib.rs:221-313 | on an accepted type, the derive succeeds exactly when every classified entry routes, and then emits the expected table |
| Routes.ImplVisitorOrderIndependent | derive-visitor-macros/src/lib.rs:221-313 | success and the emitted table are the same for any two HashMap orders |
| Routes.EmitRoutes | derive-visitor-macros/src/lib.rs:292-294 | one route block per table entry, in iteration order, each with the entry's handlers |
| Routes.RouteCall | derive-visitor-macros/src/lib.rs:315-349 | a route block calls at most one handler: exactly when the item is of its target type and a handler is set for the event, and then that handler |
| Routes.VisitNoTarget | derive-visitor-macros/src/lib.rs:340-347 | an item of a type no route targets triggers no call |
| Routes.VisitOneTarget | derive-visitor-macros/src/lib.rs:305-311 | with distinct targets, the emitted `visit` makes exactly the call of the item's own route |
| Routes.VisitDispatch | derive-visitor-macros/src/lib.rs:305-349 | for any emission order, an item gets exactly its type's handler for the event, or no call when none is set |
| Plan.SkipOfAnyShape | derive-visitor-macros/src/lib.rs:532 | a field or variant skips exactly when a `skip` entry is present and classifies, whatever its shape |
| Plan.KeptFrom | derive-visitor-macros/src/lib.rs:421-439 | the positions not skipped, in increasing order, and all of them |
| Plan.DriveField | derive-visitor-macros/src/lib.rs:528-550 | a step always drives the value expression it was given |
| Plan.FieldUnknownKeyRejected | derive-visitor-macros/src/lib.rs:529-530 | a field parameter other than `skip` and `with` is "unknown parameter, supported: skip, with", whatever else the field holds |
| Plan.DriveKeyMessages | derive-visitor-macros/src/lib.rs:99-116 | the two messages of the Drive derive's `validate` calls: "unknown parameter, supported: skip, with" and "unknown parameter, supported: skip" |
| Plan.DriveFieldSkips | derive-visitor-macros/src/lib.rs:528-534 | an accepted field gives no step exactly when it asks to be skipped |
| Plan.SkipBeatsWith | derive-visitor-macros/src/lib.rs:532-534 | skip takes precedence over `with`, whatever `with` holds |
| Plan.DefaultDriver | derive-visitor-macros/src/lib.rs:536-543 | without parameters the field is driven by `Drive::drive` or `DriveMut::drive_mut` |
| Plan.CustomDriver | derive-visitor-macros/src/lib.rs:536-545 | `with = "path"` drives with the parsed path; an unparsable path or another shape of `with` is an error |
| Plan.DriveFields | derive-visitor-macros/src/lib.rs:421-439 | never more steps than fields |
| Plan.DriveFieldsInOrder | derive-visitor-macros/src/lib.rs:421-439 | every field that is not skipped gives one step, in declaration order, driving its own value |
| Plan.StructValues | derive-visitor-macros/src/lib.rs:426-436 | field k is driven as `&self.name`, or `&self.k` when positional |
| Plan.VariantValues | derive-visitor-macros/src/lib.rs:467-473 | variant field k is driven through its bound name: its own name, or `i{k}` |
| Plan.DestructureFields | derive-visitor-macros/src/lib.rs:486-526 | one binding per field, of the field list's shape |
| Plan.DestructureSpec | derive-visitor-macros/src/lib.rs:486-526 | field k is bound as `_` when skipped, otherwise by its name or `i{k}` |
| Plan.NamedBindingsSpec | derive-visitor-macros/src/lib.rs:488-505 | each named field is bound as `name` or `name: _` |
| Plan.TupleBindingsSpec | derive-visitor-macros/src/lib.rs:506-523 | each positional field is bound as `i{index}` or `_`, the index counting all fields |
| Plan.TupleBindingsDistinct | derive-visitor-macros/src/lib.rs:516 | two positional bindings never share a name |
| Syntax.NatToStringInjective | derive-visitor-macros/src/lib.rs:516 | distinct indices print as distinct decimal strings |
| Plan.DriveVariant | derive-visitor-macros/src/lib.rs:455-484 | an arm is for the variant's own name |
| Plan.VariantUnknownKeyRejected | derive-visitor-macros/src/lib.rs:456-457 | a variant parameter other than `skip` is "unknown parameter, supported: skip", whatever else the variant holds |
| Plan.DriveVariantSkips | derive-visitor-macros/src/lib.rs:456-460 | an accepted variant gets no arm exactly when it asks to be skipped |
| Plan.ArmBindingsSound | derive-visitor-macros/src/lib.rs:455-484 | an arm's pattern binds exactly the kept fields, and its steps drive exactly those bound names, in order |
| Plan.DriveVariants | derive-visitor-macros/src/lib.rs:441-453 | never more arms than variants |
| Plan.DriveVariantsInOrder | derive-visitor-macros/src/lib.rs:441-453 | one arm per variant that is not skipped, in declaration order |
| Plan.TypeSkip | derive-visitor-macros/src/lib.rs:355-359 | no type-level skip gives false; a bare one gives true; any other shape is an error |
| Plan.ImplDrive | derive-visitor-macros/src/lib.rs:351-419 | a produced plan has the input's name and mutability, a struct body exactly for a struct; a union never produces one |
| Plan.TypeUnknownKeyRejected | derive-visitor-macros/src/lib.rs:352-353 | a type parameter other than `skip` is "unknown parameter, supported: skip", whatever the type's data |
| Plan.UnionRejected | derive-visitor-macros/src/lib.rs:391-398 | once the type's parameters are accepted, a union is "unions are not supported" |
| Plan.TypeSkipMustBeUnit | derive-visitor-macros/src/lib.rs:355-359 | a type-level skip that is not bare fails: "invalid parameter" for `skip = ..` and for a `skip(..)` whose list parses, the list's own error otherwise |
| Plan.TypeSkipOnlyDropsSelfVisits | derive-visitor-macros/src/lib.rs:355-383 | `#[drive(skip)]` on the type, beside any other attributes, changes only the Enter and Exit of `self`: removing it gives the same plan with both self visits |
| Traversal.MemberIndex | derive-visitor-macros/src/lib.rs:436 | `self.<member>` denotes the first member of that name, or none |
| Traversal.FindArm | derive-visitor-macros/src/lib.rs:447-452 | the value's variant selects the first arm for it; without one it falls into `_ => {}` |
| Traversal.CollectionTrace | derive-visitor/src/lib.rs:374-470 | a Vec, VecDeque, LinkedList, BTreeSet, HashSet or BinaryHeap sends nothing of its own: element k's trace sits between the earlier and the later elements' |
| Traversal.MapTrace | derive-visitor/src/lib.rs:361-422 | a BTreeMap or HashMap drives entry k's key, then its value, after the earlier entries and before the later ones |
| Traversal.WrapperTrace | derive-visitor/src/lib.rs:392-452 | Box and Cell delegate to their content; Option traces its value, or nothing |
| Traversal.PositionalTrace | derive-visitor/src/lib.rs:472-539 | tuples and arrays drive their positions in index order; `()` and `[T; 0]` send nothing |
| Traversal.DerivedStructTrace | derive-visitor/src/lib.rs:286-321 | a derived struct's trace starts with its Enter, ends with its Exit, and holds its steps' traces between |
| Traversal.TraceBalanced | derive-visitor/src/lib.rs:286-321 | when custom drivers are well nested, every Enter is closed by the Exit of the same item, innermost first |
| Traversal.Recorder.Visit | derive-visitor/src/lib.rs:189 | one `visit` call appends its notification to the log |
| Traversal.Recorder.Drive | derive-visitor/src/lib.rs:358-539 | driving any value appends exactly its trace to the log |
| Traversal.Recorder.DriveEntries | derive-visitor/src/lib.rs:366-371 | the map loop appends each key's trace, then its value's, entry by entry |
| Traversal.Recorder.DriveElements | derive-visitor/src/lib.rs:454-461 | the element loop appends the element traces in iteration order |
| Traversal.Recorder.DriveDerived | derive-visitor/src/lib.rs:291-297 | a derived `drive` appends its Enter, its steps' traces, then its Exit |
| Traversal.FnVisitorCalls | derive-visitor/src/lib.rs:221-228 | the closure of `visitor_fn::<T>` is called with a notification exactly when its item is a `T`, on either event |
| Traversal.EnterFnVisitorCalls | derive-visitor/src/lib.rs:236-243 | the closure of `visitor_enter_fn::<T>` is called with an item exactly when it is a `T` entered |
| Traversal.RouteCallsFollowTable | derive-visitor-macros/src/lib.rs:305-349 | for one notification, the emitted routes call what the table prescribes |
| Traversal.HandlerCallsFollowTable | derive-visitor-macros/src/lib.rs:305-349 | over a whole run, a derived visitor calls what its table prescribes, whatever the emission order |
| Examples.DirectoryDrives | derive-visitor/src/lib.rs:286-321 | the derived plans of `Directory`, `DirectoryItem` and `File` are the hand-written impls of the documentation |
| Examples.CounterRoutes | derive-visitor/src/lib.rs:38-52 | `#[visitor(File(enter), Directory(enter))]` routes Enter to `enter_file` and `enter_directory` only |
| Examples.DirectoryExample | derive-visitor/src/lib.rs:54-77 | driving the example directory counts 2 files and 3 directories, in any HashMap order |
| Examples.ContainersDrives | derive-visitor/tests/test_containers.rs:8-23 | the derived plans of `Top`, `CountMe1` and `CountMe2` |
| Examples.ContainersVisitor | derive-visitor/tests/test_containers.rs:25-39 | `#[visitor(CountMe1(enter), CountMe2(enter))]` routes Enter to `enter_count_me_1` and `enter_count_me_2` only |
| Examples.ContainersExample | derive-visitor/tests/test_containers.rs:53-84 | driving `top` counts 11 `CountMe1` and 7 `CountMe2`, in any HashMap order |
| Examples.CountMeName | derive-visitor/tests/test_containers.rs:33-38 | the Enter handler of `CountMe<d>` is `enter_count_me_<d>` |
| Examples.U32Name | derive-visitor/tests/test_std_types.rs:38 | the Enter handler of `u32` is `enter_u_32` |

## Left out

- The `VisitorMut`/`DriveMut` runtime is left out: these traits, their `drive_mut` impls and `test_visitor_mut.rs` are not part of this model. The macros' `mutable` flag is modelled only as far as it changes the plan and the route table (driver path, flag).
- Proc-macro plumbing is left out: `expand_with`, `parse_macro_input`, `to_compile_error`, generics splitting, spans and the literal token text of `quote!`. The model keeps the structure of plans and routes (`DriveImpl`, `VisitorImpl`).
- Foreign lexical and parsing services are modelled only in part:
  - snake case and `LitStr::parse` handle ASCII only, without Unicode;
  - `Attribute::parse_meta` has its token stream already classified (`AttrTokens`);
  - syn's own error texts become one message.
- `Any::downcast_ref` is modelled as equality of written type paths: generics and type aliases are not modelled.
- Routes.VisitDispatch: two route paths that name one type, such as `File` and `crate::File` (or a re-export), are two keys of the route table. In the crate both route blocks downcast a `File` item, so both handlers run; the model compares written paths, so only the route of the item's own path fires. VisitDispatch, RouteCall and VisitOneTarget hold only when each type is named by one path.
- Lexical.ParseIdent: syn also accepts surrounding whitespace (`enter = " f "`) and raw identifiers (`enter = "r#type"`); the model rejects both, and treats `try` as a keyword.
- Lexical.ParsePath: syn also accepts whitespace around `::` (`with = "a :: b"`), generic arguments (`with = "f::<u8>"`), raw identifiers and a `try` segment; the model rejects them.
- Tuples and arrays: the runtime implements `Drive` for tuples of arity 1 to 8 and arrays of length 0 to 8. `TupleValue`, `ArrayValue` and PositionalTrace allow any arity, which generalises those impls.
- `Cell`'s `Copy` bound is not modelled (`CellValue` drives its content). Mutex and lock containers do not appear in the runtime file and are not modelled.
- `src/lib.rs`, `src/example.rs` and `example/src/main.rs` are not part of this model. They are a superseded draft that does not compile, and a demo of the older `Walk` API.
- `tests/leaf_iterator.rs` and `tests/dyn_visitor.rs` use API the runtime file lacks, so they are not modelled.
- The containers test's string payloads are not written out. `CountMe2`'s string field is skipped, so the model holds it as a `Leaf` that no route targets.
- A struct or enum value whose tag has no plan, or whose kind differs from its plan's, traces nothing. The compiler rules such values out, and the model does not.
