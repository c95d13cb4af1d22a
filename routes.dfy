/**
 * `#[derive(Visitor)]`: the route table built from `#[visitor(...)]`
 * (`impl_visitor`), the handler names (`visitor_method_name_from_path`,
 * `visitor_method_name_from_param`) and the dispatch the emitted `visit` body
 * performs (`visitor_route`).
 *
 * Type identity is modelled as path equality: `downcast_ref::<T>(item)`
 * succeeds exactly when the item's type path is `T`.
 */
module Routes {
  import opened Syntax
  import opened Lexical
  import opened Params

  /** `VisitorItemParams`: the handler called on Enter and the one called on Exit, if any. */
  datatype ItemHandlers = ItemHandlers(enter: Option<Ident>, exit: Option<Ident>)

  type RouteTable = map<Path, ItemHandlers>

  /** The `Visitor` (or `VisitorMut`) impl: the visitor's name and its routes. */
  datatype VisitorImpl = VisitorImpl(name: Ident, mutable: bool, routes: RouteTable)

  /** The keys a nested route entry may use. */
  const EventKeys: seq<string> := ["enter", "exit"]

  function EventName(event: Event): string {
    match event
    case Enter => "enter"
    case Exit => "exit"
  }

  function HandlerFor(handlers: ItemHandlers, event: Event): Option<Ident> {
    match event
    case Enter => handlers.enter
    case Exit => handlers.exit
  }

  /**
   * `visitor_method_name_from_path`: `<event>_<snake case of the last segment>`.
   * The path is used only through its last segment.
   */
  function MethodNameFromPath(target: Path, event: Event): (name: Ident)
    ensures |name| > |EventName(event)|
    ensures name[..|EventName(event)| + 1] == EventName(event) + "_"
    ensures name[|EventName(event)| + 1..] == SnakeCase(target.Last())
    ensures NoUpper(name[|EventName(event)| + 1..])
  {
    EventName(event) + "_" + SnakeCase(target.Last())
  }

  /** The Enter and the Exit handler derived for the same path never coincide. */
  lemma DerivedNamesDiffer(target: Path)
    ensures MethodNameFromPath(target, Enter) != MethodNameFromPath(target, Exit)
  {
    var e, x := MethodNameFromPath(target, Enter), MethodNameFromPath(target, Exit);
    assert e[..6] == "enter_" && x[..5] == "exit_";
    assert e[1] == 'n' && x[1] == 'x';
  }

  /** Paths with the same last segment get the same derived handler names. */
  lemma DerivedNameUsesLastSegment(p: Path, q: Path, event: Event)
    requires p.Last() == q.Last()
    ensures MethodNameFromPath(p, event) == MethodNameFromPath(q, event)
  {
  }

  /**
   * `visitor_method_name_from_param`: a string literal is parsed as the name, a
   * bare key derives the name from the target path (not from the key), and a
   * nested list is an invalid parameter.
   */
  function MethodNameFromParam(param: Param, target: Path, event: Event): (r: Result<Ident>)
    ensures param.StringLiteral? ==> r == ParseIdent(param.lit)
    ensures param.Unit? ==> r == Ok(MethodNameFromPath(target, event))
    ensures param.NestedParams? ==> r == Err(InvalidParameterMsg)
  {
    match param
    case StringLiteral(_, text) => ParseIdent(text)
    case Unit(_) => Ok(MethodNameFromPath(target, event))
    case NestedParams(_, _) => Err(InvalidParameterMsg)
  }

  /**
   * `nested.param(key)?.map(|param| visitor_method_name_from_param(..)).transpose()?`:
   * the handler for one event, and the entries left.
   */
  function TakeHandler(nested: ParamMap, key: string, target: Path, event: Event)
    : (r: (Result<Option<Ident>>, ParamMap))
    ensures r.1 == Take(nested, key).1
  {
    var (taken, rest) := Take(nested, key);
    var handler :=
      match taken
      case Err(msg) => Err(msg)
      case Ok(None) => Ok(None)
      case Ok(Some(param)) =>
        match MethodNameFromParam(param, target, event)
        case Ok(name) => Ok(Some(name))
        case Err(msg) => Err(msg);
    (handler, rest)
  }

  /** A meta that names a handler: a bare key, or `key = "ident"`. */
  predicate IsHandlerMeta(meta: Meta) {
    || meta.MetaPath?
    || (meta.MetaNameValue? && meta.lit.LitStr? && IsIdentifier(meta.lit.text))
  }

  function HandlerOf(meta: Meta, target: Path, event: Event): Ident
    requires IsHandlerMeta(meta)
  {
    if meta.MetaPath? then MethodNameFromPath(target, event) else meta.lit.text
  }

  /** The handler a nested entry sets for `key`, when every entry names a handler. */
  function HandlerIn(nested: ParamMap, key: string, target: Path, event: Event): Option<Ident>
    requires forall k :: k in nested ==> IsHandlerMeta(nested[k])
  {
    if IdentPath(key) in nested then Some(HandlerOf(nested[IdentPath(key)], target, event)) else None
  }

  lemma TakeHandlerSpec(nested: ParamMap, key: string, target: Path, event: Event)
    ensures IdentPath(key) !in nested ==> TakeHandler(nested, key, target, event).0 == Ok(None)
    ensures IdentPath(key) in nested ==>
      (TakeHandler(nested, key, target, event).0.Ok? <==> IsHandlerMeta(nested[IdentPath(key)]))
    ensures IdentPath(key) in nested && IsHandlerMeta(nested[IdentPath(key)]) ==>
      TakeHandler(nested, key, target, event).0 == Ok(Some(HandlerOf(nested[IdentPath(key)], target, event)))
  {
  }

  /**
   * The closure of `impl_visitor`'s `map_ok`: a bare `T` routes both events to
   * derived names, `T(..)` routes the events it lists, `T = ".."` is an invalid attribute.
   */
  function ItemRoute(param: Param): (r: Result<(Path, ItemHandlers)>)
    ensures r.Ok? ==> r.value.0 == param.path
    ensures param.Unit? ==> r == Ok((param.path, ItemHandlers(
      Some(MethodNameFromPath(param.path, Enter)), Some(MethodNameFromPath(param.path, Exit)))))
    ensures param.StringLiteral? ==> r == Err(InvalidAttributeMsg)
    ensures param.NestedParams? && CheckAllowed(param.params, EventKeys).Err? ==>
      r == Err(UnknownParameterMsg(EventKeys))
  {
    match param
    case Unit(target) =>
      Ok((target, ItemHandlers(Some(MethodNameFromPath(target, Enter)), Some(MethodNameFromPath(target, Exit)))))
    case NestedParams(target, nested) =>
      var ok :- CheckAllowed(nested, EventKeys);
      var (enterResult, rest) := TakeHandler(nested, "enter", target, Enter);
      var enter :- enterResult;
      var (exitResult, _) := TakeHandler(rest, "exit", target, Exit);
      var exit :- exitResult;
      Ok((target, ItemHandlers(enter, exit)))
    case StringLiteral(_, _) => Err(InvalidAttributeMsg)
  }

  /**
   * `T(..)` succeeds exactly when its keys are among `enter`, `exit` and each
   * names a handler; then it sets exactly the events it lists.
   */
  lemma NestedRouteSpec(target: Path, nested: ParamMap)
    ensures ItemRoute(NestedParams(target, nested)).Ok? <==>
      (forall k :: k in nested ==> IsAllowed(k, EventKeys) && IsHandlerMeta(nested[k]))
    ensures ItemRoute(NestedParams(target, nested)).Ok? ==>
      ItemRoute(NestedParams(target, nested)).value.1 == ItemHandlers(
        HandlerIn(nested, "enter", target, Enter), HandlerIn(nested, "exit", target, Exit))
  {
    var enterKey, exitKey := IdentPath("enter"), IdentPath("exit");
    if forall k :: k in nested ==> IsAllowed(k, EventKeys) {
      assert forall k :: k in nested ==> k == enterKey || k == exitKey by {
        forall k | k in nested ensures k == enterKey || k == exitKey {
          var a :| a in EventKeys && k.IsIdent(a);
        }
      }
      TakeHandlerSpec(nested, "enter", target, Enter);
      var rest := Take(nested, "enter").1;
      TakeHandlerSpec(rest, "exit", target, Exit);
      assert exitKey in rest <==> exitKey in nested;
      assert exitKey in rest ==> rest[exitKey] == nested[exitKey];
      if forall k :: k in nested ==> IsHandlerMeta(nested[k]) {
      } else {
        var k :| k in nested && !IsHandlerMeta(nested[k]);
        assert k == enterKey || k == exitKey;
      }
    }
  }

  /**
   * `.map_ok(ItemRoute).flatten().collect::<Result<HashMap<..>>>()`: an item the
   * iterator yields as `Err` is dropped by `flatten`; the first error of the
   * closure stops the collection; a later entry for the same path replaces an earlier one.
   */
  function CollectRoutes(items: seq<Result<Param>>): (r: Result<RouteTable>)
  {
    if items == [] then Ok(map[])
    else if items[0].Err? then CollectRoutes(items[1..])
    else
      var (target, handlers) :- ItemRoute(items[0].value);
      var rest :- CollectRoutes(items[1..]);
      Ok(map[target := handlers] + rest)
  }

  predicate DistinctOkPaths(items: seq<Result<Param>>) {
    forall i, j :: 0 <= i < j < |items| && items[i].Ok? && items[j].Ok? ==>
      items[i].value.path != items[j].value.path
  }

  /** The collected table routes exactly the well-formed items, each as `ItemRoute` says. */
  lemma CollectRoutesSpec(items: seq<Result<Param>>)
    requires DistinctOkPaths(items)
    ensures CollectRoutes(items).Ok? <==>
      forall i :: 0 <= i < |items| && items[i].Ok? ==> ItemRoute(items[i].value).Ok?
    ensures CollectRoutes(items).Ok? ==> forall p :: p in CollectRoutes(items).value <==>
      exists i :: 0 <= i < |items| && items[i].Ok? && items[i].value.path == p
    ensures CollectRoutes(items).Ok? ==> forall i :: 0 <= i < |items| && items[i].Ok? ==>
      CollectRoutes(items).value[items[i].value.path] == ItemRoute(items[i].value).value.1
  {
    CollectRoutesOk(items);
    if CollectRoutes(items).Ok? {
      CollectRoutesKeys(items);
      CollectRoutesValues(items);
    }
  }

  /** The collection fails exactly when the closure fails on some yielded item. */
  lemma {:induction false} CollectRoutesOk(items: seq<Result<Param>>)
    ensures CollectRoutes(items).Ok? <==>
      forall i :: 0 <= i < |items| && items[i].Ok? ==> ItemRoute(items[i].value).Ok?
  {
    if items != [] {
      var tail := items[1..];
      CollectRoutesOk(tail);
      forall i | 0 <= i < |tail| ensures tail[i] == items[i + 1] { }
      if !CollectRoutes(tail).Ok? && (items[0].Err? || ItemRoute(items[0].value).Ok?) {
        var i :| 0 <= i < |tail| && tail[i].Ok? && ItemRoute(tail[i].value).Err?;
        assert items[i + 1] == tail[i];
      }
    }
  }

  /** The table's keys are the paths of the yielded items. */
  lemma {:induction false} CollectRoutesKeys(items: seq<Result<Param>>)
    requires CollectRoutes(items).Ok?
    ensures forall p :: p in CollectRoutes(items).value <==>
      exists i :: 0 <= i < |items| && items[i].Ok? && items[i].value.path == p
  {
    if items != [] {
      var tail := items[1..];
      CollectRoutesKeys(tail);
      var table := CollectRoutes(items).value;
      forall p | p in table ensures exists i :: 0 <= i < |items| && items[i].Ok? && items[i].value.path == p {
        if items[0].Err? || p != items[0].value.path {
          var i :| 0 <= i < |tail| && tail[i].Ok? && tail[i].value.path == p;
          assert items[i + 1] == tail[i];
        }
      }
      forall i | 0 <= i < |items| && items[i].Ok? ensures items[i].value.path in table {
        if i > 0 {
          assert tail[i - 1] == items[i];
        }
      }
    }
  }

  /** With pairwise distinct paths, each yielded item keeps the handlers `ItemRoute` gives it. */
  lemma {:induction false} CollectRoutesValues(items: seq<Result<Param>>)
    requires DistinctOkPaths(items) && CollectRoutes(items).Ok?
    ensures forall i :: 0 <= i < |items| && items[i].Ok? ==>
      && ItemRoute(items[i].value).Ok?
      && items[i].value.path in CollectRoutes(items).value
      && CollectRoutes(items).value[items[i].value.path] == ItemRoute(items[i].value).value.1
  {
    CollectRoutesOk(items);
    if items != [] {
      var tail := items[1..];
      assert DistinctOkPaths(tail) by {
        forall i, j | 0 <= i < j < |tail| && tail[i].Ok? && tail[j].Ok?
          ensures tail[i].value.path != tail[j].value.path
        {
          assert tail[i] == items[i + 1] && tail[j] == items[j + 1];
        }
      }
      CollectRoutesValues(tail);
      CollectRoutesKeys(tail);
      var table, rest := CollectRoutes(items).value, CollectRoutes(tail).value;
      if items[0].Ok? {
        var target := items[0].value.path;
        assert table == map[target := ItemRoute(items[0].value).value.1] + rest;
        assert target !in rest;
      } else {
        assert table == rest;
      }
      forall i | 0 <= i < |items| && items[i].Ok?
        ensures ItemRoute(items[i].value).Ok? && items[i].value.path in table
        ensures table[items[i].value.path] == ItemRoute(items[i].value).value.1
      {
        if i > 0 {
          assert tail[i - 1] == items[i];
          assert items[0].Ok? ==> items[i].value.path != items[0].value.path;
        }
      }
    }
  }

  // The checks `impl_visitor` makes on the type it is derived for.

  function CheckFieldAttrs(fields: seq<Field>): (r: Result<()>)
    ensures r.Ok? <==> forall k :: 0 <= k < |fields| ==> fields[k].attrs == []
    ensures r.Err? ==> r.msg == MisplacedVisitorAttributeMsg
  {
    if fields == [] then Ok(())
    else if fields[0].attrs != [] then Err(MisplacedVisitorAttributeMsg)
    else
      var rest := CheckFieldAttrs(fields[1..]);
      assert forall k :: 1 <= k < |fields| ==> fields[k] == fields[1..][k - 1];
      rest
  }

  function CheckVariantAttrs(variants: seq<Variant>): (r: Result<()>)
    ensures r.Ok? <==> forall k :: 0 <= k < |variants| ==>
      variants[k].attrs == [] && CheckFieldAttrs(variants[k].fields.All()).Ok?
    ensures r.Err? ==> r.msg == MisplacedVisitorAttributeMsg
  {
    if variants == [] then Ok(())
    else if variants[0].attrs != [] then Err(MisplacedVisitorAttributeMsg)
    else
      var ok :- CheckFieldAttrs(variants[0].fields.All());
      var rest := CheckVariantAttrs(variants[1..]);
      assert forall k :: 1 <= k < |variants| ==> variants[k] == variants[1..][k - 1];
      rest
  }

  predicate AttributeFree(fields: seq<Field>) {
    forall k :: 0 <= k < |fields| ==> fields[k].attrs == []
  }

  /**
   * The `match input.data` of `impl_visitor`: no attribute of any kind on a
   * variant or a field, and no union.
   */
  function CheckVisitorData(data: Data): (r: Result<()>)
    ensures r.Ok? <==> match data
      case DataStruct(fields) => AttributeFree(fields.All())
      case DataEnum(variants) => forall k :: 0 <= k < |variants| ==>
        variants[k].attrs == [] && AttributeFree(variants[k].fields.All())
      case DataUnion(_) => false
    ensures data.DataUnion? ==> r == Err(UnionMsg)
    ensures !data.DataUnion? && r.Err? ==> r.msg == MisplacedVisitorAttributeMsg
  {
    match data
    case DataEnum(variants) => CheckVariantAttrs(variants)
    case DataStruct(fields) => CheckFieldAttrs(fields.All())
    case DataUnion(_) => Err(UnionMsg)
  }

  /** `order` is an iteration order of the `#[visitor]` parameter set, when there is one. */
  predicate OrderFits(input: DeriveInput, order: seq<Path>) {
    FromAttrs(input.attrs, "visitor").Ok? ==> IsEnumeration(order, FromAttrs(input.attrs, "visitor").value.Keys)
  }

  /**
   * `impl_visitor`: parameter errors first, then the first route error in
   * iteration order, then the checks on the type.
   */
  function ImplVisitor(input: DeriveInput, mutable: bool, order: seq<Path>): (r: Result<VisitorImpl>)
    requires OrderFits(input, order)
    ensures r.Ok? ==> r.value.name == input.ident && r.value.mutable == mutable
    ensures r.Ok? ==> CheckVisitorData(input.data).Ok?
    ensures input.data.DataUnion? ==> r.Err?
  {
    var params :- FromAttrs(input.attrs, "visitor");
    var routes :- CollectRoutes(Iterate(params, order));
    var ok :- CheckVisitorData(input.data);
    Ok(VisitorImpl(input.ident, mutable, routes))
  }

  /** Every entry is stored under its own path, as `from_meta_list` stores it. */
  predicate KeyedByPath(params: ParamMap) {
    forall k :: k in params ==> params[k].path == k
  }

  lemma FromAttrsKeyedByPath(attrs: seq<Attribute>, name: string)
    requires FromAttrs(attrs, name).Ok?
    ensures KeyedByPath(FromAttrs(attrs, name).value)
  {
    var meta := ExtractMeta(attrs, name).value;
    if meta.Some? {
      var items := meta.value.nested;
      FromMetaListSpec(items);
      var params := FromMetaList(items).value;
      forall k | k in params ensures params[k].path == k {
        var i :| 0 <= i < |items| && items[i].NestedItem? && items[i].meta.path == k;
      }
    }
  }

  /** Every entry of the parameter set that classifies gives a route without error. */
  predicate AllRoutesOk(params: ParamMap) {
    forall k :: k in params && FromMeta(params[k]).Ok? ==> ItemRoute(FromMeta(params[k]).value).Ok?
  }

  /** The route table a parameter set describes, whatever the iteration order. */
  function ExpectedRoutes(params: ParamMap): RouteTable
    requires AllRoutesOk(params)
  {
    map k | k in params && FromMeta(params[k]).Ok? :: ItemRoute(FromMeta(params[k]).value).value.1
  }

  /**
   * For any iteration order, collecting succeeds exactly when every classified
   * entry routes, and then yields `ExpectedRoutes`: entries that fail to classify
   * are dropped without error.
   */
  lemma CollectInAnyOrder(params: ParamMap, order: seq<Path>)
    requires KeyedByPath(params) && IsEnumeration(order, params.Keys)
    ensures CollectRoutes(Iterate(params, order)).Ok? <==> AllRoutesOk(params)
    ensures AllRoutesOk(params) ==> CollectRoutes(Iterate(params, order)) == Ok(ExpectedRoutes(params))
  {
    var items := Iterate(params, order);
    forall i | 0 <= i < |items| && items[i].Ok? ensures items[i].value.path == order[i] {
      assert items[i] == FromMeta(params[order[i]]);
    }
    assert DistinctOkPaths(items);
    CollectRoutesSpec(items);
    if AllRoutesOk(params) {
      forall i | 0 <= i < |items| && items[i].Ok? ensures ItemRoute(items[i].value).Ok? {
        assert order[i] in params;
      }
      CollectedTableIsExpected(params, order, items, CollectRoutes(items).value);
    } else {
      var k :| k in params && FromMeta(params[k]).Ok? && ItemRoute(FromMeta(params[k]).value).Err?;
      var i :| 0 <= i < |order| && order[i] == k;
      assert items[i] == FromMeta(params[k]);
    }
  }

  lemma CollectedTableIsExpected(params: ParamMap, order: seq<Path>, items: seq<Result<Param>>, table: RouteTable)
    requires IsEnumeration(order, params.Keys) && AllRoutesOk(params)
    requires |items| == |order| && forall i :: 0 <= i < |items| ==> items[i] == FromMeta(params[order[i]])
    requires forall i :: 0 <= i < |items| && items[i].Ok? ==> items[i].value.path == order[i]
    requires forall p :: p in table <==> exists i :: 0 <= i < |items| && items[i].Ok? && items[i].value.path == p
    requires forall i :: 0 <= i < |items| && items[i].Ok? ==>
      table[items[i].value.path] == ItemRoute(items[i].value).value.1
    ensures table == ExpectedRoutes(params)
  {
    var expected := ExpectedRoutes(params);
    forall p ensures p in table <==> p in expected {
      if p in expected {
        var i :| 0 <= i < |order| && order[i] == p;
        assert items[i].Ok? && items[i].value.path == p;
      }
      if p in table {
        var i :| 0 <= i < |items| && items[i].Ok? && items[i].value.path == p;
        assert order[i] == p;
      }
    }
    forall p | p in table ensures table[p] == expected[p] {
      var i :| 0 <= i < |items| && items[i].Ok? && items[i].value.path == p;
      assert order[i] == p;
    }
  }

  /**
   * `impl_visitor` on a type without misplaced attributes: it succeeds exactly
   * when every classified entry routes, and then emits `ExpectedRoutes`.
   */
  lemma ImplVisitorSpec(input: DeriveInput, mutable: bool, order: seq<Path>)
    requires OrderFits(input, order)
    requires FromAttrs(input.attrs, "visitor").Ok? && CheckVisitorData(input.data).Ok?
    ensures var params := FromAttrs(input.attrs, "visitor").value;
      && (ImplVisitor(input, mutable, order).Ok? <==> AllRoutesOk(params))
      && (AllRoutesOk(params) ==>
            ImplVisitor(input, mutable, order) == Ok(VisitorImpl(input.ident, mutable, ExpectedRoutes(params))))
  {
    FromAttrsKeyedByPath(input.attrs, "visitor");
    CollectInAnyOrder(FromAttrs(input.attrs, "visitor").value, order);
  }

  /** Whether the derive succeeds, and the routes it emits, do not depend on the HashMap order. */
  lemma ImplVisitorOrderIndependent(input: DeriveInput, mutable: bool, o1: seq<Path>, o2: seq<Path>)
    requires OrderFits(input, o1) && OrderFits(input, o2)
    ensures ImplVisitor(input, mutable, o1).Ok? == ImplVisitor(input, mutable, o2).Ok?
    ensures ImplVisitor(input, mutable, o1).Ok? ==> ImplVisitor(input, mutable, o1) == ImplVisitor(input, mutable, o2)
  {
    var params := FromAttrs(input.attrs, "visitor");
    if params.Ok? {
      FromAttrsKeyedByPath(input.attrs, "visitor");
      CollectInAnyOrder(params.value, o1);
      CollectInAnyOrder(params.value, o2);
    }
  }

  // The emitted `visit` body.

  /** One `visitor_route` block: the target type and its handlers. */
  datatype Route = Route(target: Path, handlers: ItemHandlers)

  /** The routes in the order the table is iterated when the code is emitted. */
  function EmitRoutes(table: RouteTable, order: seq<Path>): (routes: seq<Route>)
    requires IsEnumeration(order, table.Keys)
    ensures |routes| == |order|
    ensures forall i :: 0 <= i < |routes| ==> routes[i] == Route(order[i], table[order[i]])
  {
    seq(|order|, i requires 0 <= i < |order| => Route(order[i], table[order[i]]))
  }

  /**
   * What one emitted route calls for an item of type `itemType`: nothing unless
   * the downcast succeeds, then the handler of `event` if it is set.
   */
  function RouteCall(route: Route, itemType: Path, event: Event): (calls: seq<Ident>)
    ensures |calls| <= 1
    ensures calls != [] <==> route.target == itemType && HandlerFor(route.handlers, event).Some?
    ensures calls != [] ==> calls == [HandlerFor(route.handlers, event).value]
  {
    if route.target != itemType then []
    else match HandlerFor(route.handlers, event)
      case Some(name) => [name]
      case None => []
  }

  /** The handler calls of the emitted `visit(item, event)`: every route block in order. */
  function Visit(routes: seq<Route>, itemType: Path, event: Event): seq<Ident> {
    if routes == [] then [] else RouteCall(routes[0], itemType, event) + Visit(routes[1..], itemType, event)
  }

  predicate DistinctTargets(routes: seq<Route>) {
    forall i, j :: 0 <= i < j < |routes| ==> routes[i].target != routes[j].target
  }

  lemma {:induction false} VisitNoTarget(routes: seq<Route>, itemType: Path, event: Event)
    requires forall i :: 0 <= i < |routes| ==> routes[i].target != itemType
    ensures Visit(routes, itemType, event) == []
  {
    if routes != [] {
      VisitNoTarget(routes[1..], itemType, event);
    }
  }

  lemma {:induction false} VisitOneTarget(routes: seq<Route>, k: nat, itemType: Path, event: Event)
    requires DistinctTargets(routes) && k < |routes| && routes[k].target == itemType
    ensures Visit(routes, itemType, event) == RouteCall(routes[k], itemType, event)
  {
    if k == 0 {
      VisitNoTarget(routes[1..], itemType, event);
    } else {
      VisitOneTarget(routes[1..], k - 1, itemType, event);
    }
  }

  /**
   * Dispatch of the emitted code: for any emission order, an item gets exactly
   * the handler its type's route sets for the event, and no call when it has none.
   */
  lemma VisitDispatch(table: RouteTable, order: seq<Path>, itemType: Path, event: Event)
    requires IsEnumeration(order, table.Keys)
    ensures Visit(EmitRoutes(table, order), itemType, event) ==
      if itemType in table && HandlerFor(table[itemType], event).Some?
      then [HandlerFor(table[itemType], event).value] else []
  {
    var routes := EmitRoutes(table, order);
    if itemType in table {
      var k :| 0 <= k < |order| && order[k] == itemType;
      VisitOneTarget(routes, k, itemType, event);
    } else {
      VisitNoTarget(routes, itemType, event);
    }
  }
}
