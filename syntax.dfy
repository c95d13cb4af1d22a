/**
 * The slice of syn's syntax tree that the derive macros read: paths, literals,
 * `Meta` trees of attributes, fields, variants and the derive input, together
 * with the error messages the macros report and two string helpers.
 */
module Syntax {

  datatype Option<+T> = None | Some(value: T)

  /** syn's `Result`: an error carries the message the macro reports. */
  datatype Result<+T> = Ok(value: T) | Err(msg: string) {
    predicate IsFailure() { Err? }
    function PropagateFailure<U>(): Result<U> requires Err? { Err(msg) }
    function Extract(): T requires Ok? { value }
  }

  type Ident = string

  /** The segments of a path; syn never produces a path without one. */
  type Segments = s: seq<Ident> | |s| > 0 witness ["_"]

  /** A path `a::b::c`, with `global` for a leading `::`. Generic arguments are not modelled. */
  datatype Path = Path(global: bool, segments: Segments) {
    /** `Path::is_ident`: a single segment without leading `::`, equal to `name`. */
    predicate IsIdent(name: string) {
      !global && |segments| == 1 && segments[0] == name
    }

    function Last(): Ident {
      segments[|segments| - 1]
    }
  }

  /** The path `From<Ident>` builds: one segment, no leading `::`. */
  function IdentPath(name: Ident): (p: Path)
    ensures p.IsIdent(name)
  {
    Path(false, [name])
  }

  /** Literals; every kind other than a string behaves alike in the macros. */
  datatype Lit = LitStr(text: string) | LitInt(number: int) | LitBool(flag: bool)

  datatype Meta =
    | MetaPath(path: Path)
    | MetaList(path: Path, nested: seq<NestedMeta>)
    | MetaNameValue(path: Path, lit: Lit)

  datatype NestedMeta = NestedItem(meta: Meta) | NestedLit(lit: Lit)

  /** The tokens after an attribute's path, as `Attribute::parse_meta` sees them. */
  datatype AttrTokens =
    | NoTokens                              // #[name]
    | Parenthesized(nested: seq<NestedMeta>) // #[name(...)]
    | Assigned(lit: Lit)                    // #[name = lit]
    | Malformed                             // anything parse_meta rejects

  datatype Attribute = Attribute(path: Path, tokens: AttrTokens)

  datatype Field = Field(ident: Option<Ident>, attrs: seq<Attribute>)
  type NamedField = f: Field | f.ident.Some? witness Field(Some("f"), [])
  type UnnamedField = f: Field | f.ident.None? witness Field(None, [])

  datatype Fields =
    | FieldsNamed(named: seq<NamedField>)
    | FieldsUnnamed(unnamed: seq<UnnamedField>)
    | FieldsUnit
  {
    /** The fields in declaration order (syn's `Fields::into_iter`). */
    function All(): seq<Field> {
      match this
      case FieldsNamed(named) => named
      case FieldsUnnamed(unnamed) => unnamed
      case FieldsUnit => []
    }
  }

  datatype Variant = Variant(ident: Ident, attrs: seq<Attribute>, fields: Fields)

  datatype Data =
    | DataStruct(fields: Fields)
    | DataEnum(variants: seq<Variant>)
    | DataUnion(unionFields: seq<NamedField>)

  /** A derive input; generics and visibility are not modelled. */
  datatype DeriveInput = DeriveInput(ident: Ident, attrs: seq<Attribute>, data: Data)

  /** The events the emitted code passes to `Visitor::visit`. */
  datatype Event = Enter | Exit

  // The fixed messages of the macros' errors.
  const DuplicateAttributeMsg: string := "duplicate attribute"
  const InvalidAttributeMsg: string := "invalid attribute"
  const DuplicateParameterMsg: string := "duplicate parameter"
  const InvalidParameterMsg: string := "invalid parameter"
  const UnknownParameterPrefix: string := "unknown parameter, supported: "
  const MisplacedVisitorAttributeMsg: string := "#[visitor] attribute can only be applied to enum or struct"
  const UnionMsg: string := "unions are not supported"
  /** Stands for syn's own message when `Attribute::parse_meta` fails. */
  const MalformedMetaMsg: string := "malformed attribute"

  /** `Attribute::parse_meta`: the meta has the attribute's own path. */
  function ParseMeta(attr: Attribute): (r: Result<Meta>)
    ensures r.Ok? ==> r.value.path == attr.path
    ensures r.Err? <==> attr.tokens.Malformed?
  {
    match attr.tokens
    case NoTokens => Ok(MetaPath(attr.path))
    case Parenthesized(nested) => Ok(MetaList(attr.path, nested))
    case Assigned(lit) => Ok(MetaNameValue(attr.path, lit))
    case Malformed => Err(MalformedMetaMsg)
  }

  /** `intersperse(parts, sep).collect::<String>()`. */
  function Join(parts: seq<string>, sep: string): string {
    if |parts| == 0 then ""
    else if |parts| == 1 then parts[0]
    else parts[0] + sep + Join(parts[1..], sep)
  }

  function DigitChar(d: nat): char
    requires d < 10
  {
    "0123456789"[d]
  }

  /** Decimal rendering of a `usize`, as `format!("{}", n)` does. */
  function NatToString(n: nat): (s: string)
    ensures |s| > 0
    decreases n
  {
    if n < 10 then [DigitChar(n)] else NatToString(n / 10) + [DigitChar(n % 10)]
  }

  lemma {:induction false} NatToStringInjective(a: nat, b: nat)
    requires NatToString(a) == NatToString(b)
    ensures a == b
    decreases a
  {
    var sa, sb := NatToString(a), NatToString(b);
    if a < 10 && b < 10 {
      assert sa[0] == sb[0];
    } else if a >= 10 && b >= 10 {
      assert sa[|sa| - 1] == DigitChar(a % 10) && sb[|sb| - 1] == DigitChar(b % 10);
      assert a % 10 == b % 10;
      assert sa[..|sa| - 1] == NatToString(a / 10);
      assert sb[..|sb| - 1] == NatToString(b / 10);
      NatToStringInjective(a / 10, b / 10);
    }
  }
}
