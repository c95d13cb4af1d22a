/**
 * The attribute parameter model of the derive macros: `extract_meta`, the
 * parameter set `Params` (a map from parameter path to its `Meta`, with unique
 * keys) and the classified parameter `Param`.
 *
 * The pure functions below are what the macro pipelines (module Routes and
 * module Plan) use; class `ParamSet` is the in-place form of `Params`, whose
 * methods (the insertion loop, the validation loop, removal by name and the
 * iterator) are proved to agree with them.
 */
module Params {
  import opened Syntax

  type ParamMap = map<Path, Meta>

  /** `Param`: a parameter classified by the shape of its meta (spans are not modelled). */
  datatype Param =
    | Unit(path: Path)
    | StringLiteral(path: Path, lit: string)
    | NestedParams(path: Path, params: ParamMap)

  /** The attributes whose path is the identifier `name`, in order. */
  function Matching(attrs: seq<Attribute>, name: string): (found: seq<Attribute>)
    ensures |found| <= |attrs|
  {
    if attrs == [] then []
    else
      var rest := Matching(attrs[1..], name);
      if attrs[0].path.IsIdent(name) then [attrs[0]] + rest else rest
  }

  /** Exactly the attributes named `name` are found. */
  lemma {:induction false} MatchingSpec(attrs: seq<Attribute>, name: string)
    ensures forall a :: a in Matching(attrs, name) ==> a in attrs && a.path.IsIdent(name)
    ensures forall a :: a in attrs && a.path.IsIdent(name) ==> a in Matching(attrs, name)
    ensures Matching(attrs, name) == [] <==> forall a :: a in attrs ==> !a.path.IsIdent(name)
  {
    if attrs != [] {
      MatchingSpec(attrs[1..], name);
      assert forall a :: a in attrs[1..] ==> a in attrs;
      assert attrs[0] in attrs;
      forall a | a in attrs && a.path.IsIdent(name) ensures a in Matching(attrs, name) {
        if a != attrs[0] {
          assert a in attrs[1..];
        }
      }
    }
  }

  /** The attributes whose path is not the identifier `name`, in order. */
  function Unmatched(attrs: seq<Attribute>, name: string): (others: seq<Attribute>)
    ensures |others| + |Matching(attrs, name)| == |attrs|
  {
    if attrs == [] then []
    else
      var rest := Unmatched(attrs[1..], name);
      if attrs[0].path.IsIdent(name) then rest else [attrs[0]] + rest
  }

  /** Removing the attributes named `name` leaves none of that name. */
  lemma {:induction false} UnmatchedSpec(attrs: seq<Attribute>, name: string)
    ensures forall a :: a in Unmatched(attrs, name) ==> a in attrs && !a.path.IsIdent(name)
  {
    if attrs != [] {
      UnmatchedSpec(attrs[1..], name);
      assert forall a :: a in attrs[1..] ==> a in attrs;
      assert attrs[0] in attrs;
    }
  }

  lemma {:induction false} MatchingAppend(attrs: seq<Attribute>, extra: Attribute, name: string)
    ensures Matching(attrs + [extra], name)
         == Matching(attrs, name) + (if extra.path.IsIdent(name) then [extra] else [])
  {
    if attrs == [] {
      assert attrs + [extra] == [extra];
    } else {
      assert (attrs + [extra])[1..] == attrs[1..] + [extra];
      MatchingAppend(attrs[1..], extra, name);
    }
  }

  /**
   * `extract_meta`: the meta of the first attribute named `name`. Only a THIRD
   * such attribute is an error (the source tests `get(2)`), so a second one is
   * silently ignored.
   */
  function ExtractMeta(attrs: seq<Attribute>, name: string): (r: Result<Option<Meta>>)
    ensures r == Err(DuplicateAttributeMsg) <==> |Matching(attrs, name)| > 2
    ensures r.Ok? && r.value.Some? ==> r.value.value.path.IsIdent(name)
  {
    var found := Matching(attrs, name);
    if |found| > 2 then Err(DuplicateAttributeMsg)
    else if |found| == 0 then Ok(None)
    else
      MatchingSpec(attrs, name);
      assert found[0] in found;
      var meta :- ParseMeta(found[0]);
      Ok(Some(meta))
  }

  /** No meta is extracted exactly when no attribute carries the name. */
  lemma ExtractMetaAbsent(attrs: seq<Attribute>, name: string)
    ensures ExtractMeta(attrs, name) == Ok(None) <==> forall a :: a in attrs ==> !a.path.IsIdent(name)
  {
    MatchingSpec(attrs, name);
  }

  /** Adding a second attribute of the same name leaves the result unchanged. */
  lemma SecondAttributeIgnored(attrs: seq<Attribute>, extra: Attribute, name: string)
    requires |Matching(attrs, name)| == 1
    requires extra.path.IsIdent(name)
    ensures ExtractMeta(attrs + [extra], name) == ExtractMeta(attrs, name)
  {
    MatchingAppend(attrs, extra, name);
  }

  /** Adding a third attribute of the same name is an error, whatever it holds. */
  lemma ThirdAttributeRejected(attrs: seq<Attribute>, extra: Attribute, name: string)
    requires |Matching(attrs, name)| == 2
    requires extra.path.IsIdent(name)
    ensures ExtractMeta(attrs + [extra], name) == Err(DuplicateAttributeMsg)
  {
    MatchingAppend(attrs, extra, name);
  }

  /** `Params::from_attrs`: the parameters of the attribute named `name`, or none. */
  function FromAttrs(attrs: seq<Attribute>, name: string): (r: Result<ParamMap>)
  {
    var meta :- ExtractMeta(attrs, name);
    match meta
    case None => Ok(map[])
    case Some(MetaList(_, nested)) => FromMetaList(nested)
    case Some(_) => Err(InvalidAttributeMsg)
  }

  /** Without an attribute of that name there are no parameters. */
  lemma FromAttrsAbsent(attrs: seq<Attribute>, name: string)
    requires forall a :: a in attrs ==> !a.path.IsIdent(name)
    ensures FromAttrs(attrs, name) == Ok(map[])
  {
    ExtractMetaAbsent(attrs, name);
  }

  /** An attribute that is not a parenthesised list is rejected. */
  lemma NonListAttributeRejected(attrs: seq<Attribute>, name: string)
    requires 0 < |Matching(attrs, name)| <= 2
    requires Matching(attrs, name)[0].tokens.NoTokens? || Matching(attrs, name)[0].tokens.Assigned?
    ensures FromAttrs(attrs, name) == Err(InvalidAttributeMsg)
  {
  }

  /**
   * `Params::from_meta_list`, as the fold its loop performs: every item must be
   * a meta (a bare literal is an invalid attribute) and no path may repeat.
   */
  function FromMetaList(items: seq<NestedMeta>): (r: Result<ParamMap>)
    decreases |items|
  {
    if items == [] then Ok(map[])
    else
      var params :- FromMetaList(items[..|items| - 1]);
      match items[|items| - 1]
      case NestedLit(_) => Err(InvalidAttributeMsg)
      case NestedItem(meta) =>
        if meta.path in params then Err(DuplicateParameterMsg) else Ok(params[meta.path := meta])
  }

  /** Every item is a meta and their paths are pairwise distinct. */
  predicate DistinctParams(items: seq<NestedMeta>) {
    && (forall i :: 0 <= i < |items| ==> items[i].NestedItem?)
    && (forall i, j :: 0 <= i < j < |items| && items[i].NestedItem? && items[j].NestedItem?
          ==> items[i].meta.path != items[j].meta.path)
  }

  function ItemPaths(items: seq<NestedMeta>): set<Path> {
    set i | 0 <= i < |items| && items[i].NestedItem? :: items[i].meta.path
  }

  /** The parameter set keeps every item under its own path and nothing else. */
  lemma {:induction false} FromMetaListSpec(items: seq<NestedMeta>)
    ensures FromMetaList(items).Ok? <==> DistinctParams(items)
    ensures FromMetaList(items).Ok? ==> FromMetaList(items).value.Keys == ItemPaths(items)
    ensures FromMetaList(items).Ok? ==>
      forall i :: 0 <= i < |items| ==> FromMetaList(items).value[items[i].meta.path] == items[i].meta
    decreases |items|
  {
    if items != [] {
      var n := |items| - 1;
      var prefix := items[..n];
      FromMetaListSpec(prefix);
      assert items == prefix + [items[n]];
      if FromMetaList(prefix).Err? {
        DistinctParamsPrefix(prefix, items[n]);
      } else if items[n].NestedItem? {
        var params := FromMetaList(prefix).value;
        var path := items[n].meta.path;
        if path in params {
          var j :| 0 <= j < n && prefix[j].NestedItem? && prefix[j].meta.path == path;
          assert items[j] == prefix[j];
        } else {
          ExtendDistinct(prefix, items[n], params);
        }
      }
    }
  }

  /** A list whose prefix repeats a path, or holds a literal, does so too. */
  lemma DistinctParamsPrefix(prefix: seq<NestedMeta>, item: NestedMeta)
    ensures DistinctParams(prefix + [item]) ==> DistinctParams(prefix)
  {
    var items := prefix + [item];
    assert forall i :: 0 <= i < |prefix| ==> prefix[i] == items[i];
  }

  /** Adding a meta with a new path keeps the set exactly the items, each under its own path. */
  lemma ExtendDistinct(prefix: seq<NestedMeta>, item: NestedMeta, params: ParamMap)
    requires item.NestedItem? && item.meta.path !in params
    requires DistinctParams(prefix) && params.Keys == ItemPaths(prefix)
    requires forall i :: 0 <= i < |prefix| ==> params[prefix[i].meta.path] == prefix[i].meta
    ensures var items, extended := prefix + [item], params[item.meta.path := item.meta];
      && DistinctParams(items)
      && extended.Keys == ItemPaths(items)
      && forall i :: 0 <= i < |items| ==> extended[items[i].meta.path] == items[i].meta
  {
    var items := prefix + [item];
    var n := |prefix|;
    assert forall i :: 0 <= i < n ==> items[i] == prefix[i];
    assert items[n] == item;
    forall i | 0 <= i < n ensures items[i].meta.path != item.meta.path {
      assert items[i].meta.path in ItemPaths(prefix);
    }
    assert ItemPaths(items) == ItemPaths(prefix) + {item.meta.path};
  }

  /** Once a prefix fails, the whole list fails with the same error. */
  lemma {:induction false} PrefixErrorPropagates(prefix: seq<NestedMeta>, rest: seq<NestedMeta>)
    requires FromMetaList(prefix).Err?
    ensures FromMetaList(prefix + rest) == FromMetaList(prefix)
    decreases |rest|
  {
    if rest == [] {
      assert prefix + rest == prefix;
    } else {
      var all := prefix + rest;
      assert all[..|all| - 1] == prefix + rest[..|rest| - 1];
      PrefixErrorPropagates(prefix, rest[..|rest| - 1]);
    }
  }

  /** The first bare literal, after distinct metas, is reported as an invalid attribute. */
  lemma LiteralItemRejected(items: seq<NestedMeta>, k: nat)
    requires k < |items| && DistinctParams(items[..k]) && items[k].NestedLit?
    ensures FromMetaList(items) == Err(InvalidAttributeMsg)
  {
    FromMetaListSpec(items[..k]);
    assert items[..k + 1][..k] == items[..k];
    assert items == items[..k + 1] + items[k + 1..];
    PrefixErrorPropagates(items[..k + 1], items[k + 1..]);
  }

  /** The first repeated key, after distinct metas, is reported as a duplicate parameter. */
  lemma RepeatedKeyRejected(items: seq<NestedMeta>, j: nat, k: nat)
    requires j < k < |items| && DistinctParams(items[..k]) && items[k].NestedItem?
    requires items[j].NestedItem? && items[j].meta.path == items[k].meta.path
    ensures FromMetaList(items) == Err(DuplicateParameterMsg)
  {
    var prefix := items[..k];
    FromMetaListSpec(prefix);
    assert prefix[j] == items[j];
    assert items[j].meta.path in FromMetaList(prefix).value;
    assert items[..k + 1][..k] == prefix;
    assert items == items[..k + 1] + items[k + 1..];
    PrefixErrorPropagates(items[..k + 1], items[k + 1..]);
  }

  /** `Param::from_meta`: Path is Unit, List is NestedParams, a string NameValue is StringLiteral. */
  function FromMeta(meta: Meta): (r: Result<Param>)
    ensures r.Ok? ==> r.value.path == meta.path
    ensures r.Ok? && r.value.Unit? <==> meta.MetaPath?
    ensures r.Ok? && r.value.StringLiteral? <==> meta.MetaNameValue? && meta.lit.LitStr?
    ensures r.Ok? && r.value.NestedParams? <==> meta.MetaList? && FromMetaList(meta.nested).Ok?
    ensures meta.MetaNameValue? && !meta.lit.LitStr? ==> r == Err(InvalidParameterMsg)
    ensures meta.MetaList? && r.Err? ==> r.msg == FromMetaList(meta.nested).msg
  {
    match meta
    case MetaPath(path) => Ok(Unit(path))
    case MetaList(path, nested) =>
      var params :- FromMetaList(nested);
      Ok(NestedParams(path, params))
    case MetaNameValue(path, LitStr(text)) => Ok(StringLiteral(path, text))
    case MetaNameValue(_, _) => Err(InvalidParameterMsg)
  }

  /** `Param::unit`: succeeds exactly on a unit parameter. */
  function ExpectUnit(param: Param): (r: Result<()>)
    ensures r.Ok? <==> param.Unit?
    ensures r.Err? ==> r.msg == InvalidParameterMsg
  {
    if param.Unit? then Ok(()) else Err(InvalidParameterMsg)
  }

  /** `Param::string_literal`: succeeds exactly on a string-literal parameter, with its text. */
  function ExpectStringLiteral(param: Param): (r: Result<string>)
    ensures r.Ok? <==> param.StringLiteral?
    ensures r.Ok? ==> r.value == param.lit
    ensures r.Err? ==> r.msg == InvalidParameterMsg
  {
    if param.StringLiteral? then Ok(param.lit) else Err(InvalidParameterMsg)
  }

  predicate IsAllowed(key: Path, allowed: seq<string>) {
    exists a :: a in allowed && key.IsIdent(a)
  }

  function UnknownParameterMsg(allowed: seq<string>): string {
    UnknownParameterPrefix + Join(allowed, ", ")
  }

  /** What `Params::validate` decides: every key is one of the allowed identifiers. */
  function CheckAllowed(params: ParamMap, allowed: seq<string>): (r: Result<()>)
    ensures r.Ok? <==> forall k :: k in params ==> IsAllowed(k, allowed)
    ensures r.Err? ==> r.msg == UnknownParameterMsg(allowed)
  {
    if forall k :: k in params ==> IsAllowed(k, allowed) then Ok(()) else Err(UnknownParameterMsg(allowed))
  }

  /** `.map(Param::from_meta).transpose()` on a removed entry. */
  function Transpose(r: Result<Param>): Result<Option<Param>> {
    match r
    case Ok(param) => Ok(Some(param))
    case Err(msg) => Err(msg)
  }

  /**
   * `Params::param(name)`: removes the entry keyed by the identifier `name` and
   * classifies it; an absent key is `Ok(None)`. Returns the result and what is left.
   */
  function Take(params: ParamMap, name: string): (r: (Result<Option<Param>>, ParamMap))
    ensures IdentPath(name) !in r.1
    ensures forall k :: k in r.1 <==> k in params && k != IdentPath(name)
    ensures forall k :: k in r.1 ==> r.1[k] == params[k]
    ensures IdentPath(name) !in params ==> r.0 == Ok(None)
    ensures IdentPath(name) in params ==> r.0 == Transpose(FromMeta(params[IdentPath(name)]))
  {
    var key := IdentPath(name);
    (if key in params then Transpose(FromMeta(params[key])) else Ok(None), params - {key})
  }

  /** `order` lists every key of a set exactly once: a HashMap iteration order. */
  predicate IsEnumeration(order: seq<Path>, keys: set<Path>) {
    && (forall i :: 0 <= i < |order| ==> order[i] in keys)
    && (forall k :: k in keys ==> k in order)
    && (forall i, j :: 0 <= i < j < |order| ==> order[i] != order[j])
  }

  lemma {:induction false} EnumerationSize(order: seq<Path>, keys: set<Path>)
    requires IsEnumeration(order, keys)
    ensures |order| == |keys|
    decreases |order|
  {
    if order != [] {
      var last := order[|order| - 1];
      var front := order[..|order| - 1];
      assert IsEnumeration(front, keys - {last}) by {
        forall k | k in keys - {last} ensures k in front {
          var i :| 0 <= i < |order| && order[i] == k;
          assert i < |order| - 1;
          assert front[i] == k;
        }
      }
      EnumerationSize(front, keys - {last});
    }
  }

  /** The items the `Iterator` impl of `Params` yields when the map iterates in `order`. */
  function Iterate(params: ParamMap, order: seq<Path>): (items: seq<Result<Param>>)
    requires IsEnumeration(order, params.Keys)
    ensures |items| == |order| == |params|
    ensures forall i :: 0 <= i < |items| ==> items[i] == FromMeta(params[order[i]])
  {
    EnumerationSize(order, params.Keys);
    seq(|order|, i requires 0 <= i < |order| => FromMeta(params[order[i]]))
  }

  /** `Params` as the object the source mutates: its map is changed in place. */
  class ParamSet {
    var entries: ParamMap

    constructor (params: ParamMap)
      ensures entries == params
    {
      entries := params;
    }

    /** `Params::from_meta_list`: the insertion loop, returning at the first bad item. */
    static method Build(items: seq<NestedMeta>) returns (r: Result<ParamSet>)
      ensures r.Ok? <==> FromMetaList(items).Ok?
      ensures r.Ok? ==> fresh(r.value) && r.value.entries == FromMetaList(items).value
      ensures r.Err? ==> r.msg == FromMetaList(items).msg
    {
      var params: ParamMap := map[];
      var i := 0;
      while i < |items|
        invariant 0 <= i <= |items|
        invariant FromMetaList(items[..i]) == Ok(params)
      {
        assert items[..i + 1][..i] == items[..i];
        assert items == items[..i + 1] + items[i + 1..];
        match items[i]
        case NestedLit(_) =>
          PrefixErrorPropagates(items[..i + 1], items[i + 1..]);
          return Err(InvalidAttributeMsg);
        case NestedItem(meta) =>
          if meta.path in params {
            PrefixErrorPropagates(items[..i + 1], items[i + 1..]);
            return Err(DuplicateParameterMsg);
          }
          params := params[meta.path := meta];
        i := i + 1;
      }
      assert items[..i] == items;
      var set_ := new ParamSet(params);
      return Ok(set_);
    }

    /** `Params::validate`: the loop over the keys, failing at the first unknown one. */
    method Validate(allowed: seq<string>) returns (r: Result<()>)
      ensures r == CheckAllowed(entries, allowed)
    {
      var pending := entries.Keys;
      while pending != {}
        invariant pending <= entries.Keys
        invariant forall k :: k in entries && k !in pending ==> IsAllowed(k, allowed)
        decreases pending
      {
        var key :| key in pending;
        if !IsAllowed(key, allowed) {
          return Err(UnknownParameterMsg(allowed));
        }
        pending := pending - {key};
      }
      return Ok(());
    }

    /** `Params::param`: removes the entry named `name` and nothing else. */
    method TakeParam(name: string) returns (r: Result<Option<Param>>)
      modifies this
      ensures (r, entries) == Take(old(entries), name)
    {
      var key := IdentPath(name);
      if key in entries {
        var meta := entries[key];
        entries := entries - {key};
        r := Transpose(FromMeta(meta));
      } else {
        assert entries == entries - {key};
        r := Ok(None);
      }
    }

    /** `Iterator::next`: removes one entry, the map's first in its iteration order. */
    method Next() returns (item: Option<Result<Param>>, ghost key: Path)
      modifies this
      ensures old(entries) == map[] ==> item == None && entries == old(entries)
      ensures old(entries) != map[] ==>
        && key in old(entries)
        && item == Some(FromMeta(old(entries)[key]))
        && entries == old(entries) - {key}
    {
      key := IdentPath("_");
      if entries == map[] {
        return None, key;
      }
      var first :| first in entries;
      key := first;
      item := Some(FromMeta(entries[first]));
      entries := entries - {first};
    }

    /**
     * Pulling `next` until `None`, as `impl_visitor`'s `collect` does: exactly
     * one item per entry, in some enumeration order of the keys.
     */
    method Drain() returns (items: seq<Result<Param>>, ghost order: seq<Path>)
      modifies this
      ensures IsEnumeration(order, old(entries).Keys)
      ensures items == Iterate(old(entries), order)
      ensures |items| == |old(entries)|
      ensures entries == map[]
    {
      ghost var start := entries;
      items, order := [], [];
      while true
        invariant forall k :: k in entries ==> k in start && entries[k] == start[k]
        invariant forall i :: 0 <= i < |order| ==> order[i] in start && order[i] !in entries
        invariant forall i, j :: 0 <= i < j < |order| ==> order[i] != order[j]
        invariant forall k :: k in start ==> k in entries || k in order
        invariant |items| == |order|
        invariant forall i :: 0 <= i < |items| ==> items[i] == FromMeta(start[order[i]])
        decreases |entries|
      {
        ghost var before := entries;
        var item, key := Next();
        if item.None? {
          break;
        }
        assert |entries| < |before| by {
          assert entries.Keys == before.Keys - {key};
        }
        items := items + [item.value];
        order := order + [key];
      }
      assert IsEnumeration(order, start.Keys);
      EnumerationSize(order, start.Keys);
    }
  }
}
