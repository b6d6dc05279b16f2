/** `liqe_to_expr`: translates a parsed Liqe search query into the text of a
    JavaScript boolean expression over `obj`, or fails on the first node it does
    not support. `JSON.stringify` of a literal is a parameter. */
module Liqe2Js {
  import opened Wrappers

  /** A literal of a Liqe query. */
  datatype Literal = Str(s: string) | Num(n: int) | Bool(b: bool) | NullLit

  datatype Field = NamedField(name: string) | ImplicitField

  /** The expression of a tag. */
  datatype TagExpr = LiteralExpr(value: Literal) | RegexExpr(regex: string) | EmptyExpr | OtherExpr(kind: string)

  /** The query nodes; any other `type` is `OtherQuery`. */
  datatype Query =
    | Logical(op: string, left: Query, right: Query)
    | Unary(uop: string, operand: Query)
    | Paren(expression: Query)
    | Tag(field: Field, tagOp: Option<string>, expr: TagExpr)
    | OtherQuery(kind: string)

  datatype ErrorKind = UnsupportedOperator | UnsupportedExpressionType | UnsupportedQueryType

  /** A translation failure: its kind and the node it was raised at. */
  datatype Failure = Failure(kind: ErrorKind, node: Query)

  /** `field_to_js`. */
  function FieldToJs(f: Field): string {
    match f
    case NamedField(name) => "obj." + name
    case ImplicitField => "obj.name"
  }

  function LiqeToExpr(q: Query, stringify: Literal -> string): Result<string, Failure>
  {
    match q
    case Logical(op, l, r) =>
      if op == "AND" || op == "OR" then
        (match LiqeToExpr(l, stringify)
         case Err(f) => Err(f)
         case Ok(ls) =>
           (match LiqeToExpr(r, stringify)
            case Err(f) => Err(f)
            case Ok(rs) => Ok("(" + ls + (if op == "AND" then " && " else " || ") + rs + ")")))
      else Err(Failure(UnsupportedOperator, q))
    case Unary(op, e) =>
      if op == "NOT" || op == "-" then
        (match LiqeToExpr(e, stringify)
         case Err(f) => Err(f)
         case Ok(es) => Ok("!(" + es + ")"))
      else Err(Failure(UnsupportedOperator, q))
    case Paren(e) =>
      (match LiqeToExpr(e, stringify)
       case Err(f) => Err(f)
       case Ok(es) => Ok("(" + es + ")"))
    case Tag(field, op, expr) =>
      if op == None || op == Some(":") then
        var fs := FieldToJs(field);
        (match expr
         case LiteralExpr(v) => Ok("(" + fs + " == " + stringify(v) + ")")
         case RegexExpr(re) => Ok(re + ".test(" + fs + ")")
         case EmptyExpr => Ok("(!!" + fs + ")")
         case OtherExpr(_) => Err(Failure(UnsupportedExpressionType, q)))
      else Err(Failure(UnsupportedOperator, q))
    case OtherQuery(_) => Err(Failure(UnsupportedQueryType, q))
  }

  /** Every node of the query is of a kind the translation handles. */
  predicate Supported(q: Query) {
    match q
    case Logical(op, l, r) => (op == "AND" || op == "OR") && Supported(l) && Supported(r)
    case Unary(op, e) => (op == "NOT" || op == "-") && Supported(e)
    case Paren(e) => Supported(e)
    case Tag(_, op, expr) => (op == None || op == Some(":")) && !expr.OtherExpr?
    case OtherQuery(_) => false
  }

  /** The first unsupported node met by a left-to-right walk that checks a node
      before its children, with the reason it is refused. */
  function FirstUnsupported(q: Query): Option<Failure> {
    match q
    case Logical(op, l, r) =>
      if op != "AND" && op != "OR" then Some(Failure(UnsupportedOperator, q))
      else if FirstUnsupported(l).Some? then FirstUnsupported(l)
      else FirstUnsupported(r)
    case Unary(op, e) =>
      if op != "NOT" && op != "-" then Some(Failure(UnsupportedOperator, q)) else FirstUnsupported(e)
    case Paren(e) => FirstUnsupported(e)
    case Tag(_, op, expr) =>
      if op != None && op != Some(":") then Some(Failure(UnsupportedOperator, q))
      else if expr.OtherExpr? then Some(Failure(UnsupportedExpressionType, q))
      else None
    case OtherQuery(_) => Some(Failure(UnsupportedQueryType, q))
  }

  lemma {:induction false} FirstUnsupportedIff(q: Query)
    ensures FirstUnsupported(q).None? <==> Supported(q)
  {
    match q
    case Logical(_, l, r) => FirstUnsupportedIff(l); FirstUnsupportedIff(r);
    case Unary(_, e) => FirstUnsupportedIff(e);
    case Paren(e) => FirstUnsupportedIff(e);
    case Tag(_, _, _) =>
    case OtherQuery(_) =>
  }

  /** The translation succeeds exactly on supported queries, and otherwise fails on
      the first unsupported node. */
  lemma {:induction false} TranslationFailsFirst(q: Query, stringify: Literal -> string)
    ensures LiqeToExpr(q, stringify).Ok? <==> Supported(q)
    ensures LiqeToExpr(q, stringify).Err? ==> Some(LiqeToExpr(q, stringify).error) == FirstUnsupported(q)
  {
    FirstUnsupportedIff(q);
    match q
    case Logical(_, l, r) =>
      FirstUnsupportedIff(l);
      TranslationFailsFirst(l, stringify);
      TranslationFailsFirst(r, stringify);
    case Unary(_, e) => TranslationFailsFirst(e, stringify);
    case Paren(e) => TranslationFailsFirst(e, stringify);
    case Tag(_, _, _) =>
    case OtherQuery(_) =>
  }

  /** The text of each supported node, built from the texts of its children. */
  lemma TranslationShapes(q: Query, stringify: Literal -> string)
    requires Supported(q)
    ensures q.Logical? ==>
      (LiqeToExpr(q, stringify).Ok? &&
       LiqeToExpr(q, stringify).value == "(" + LiqeToExpr(q.left, stringify).value
         + (if q.op == "AND" then " && " else " || ") + LiqeToExpr(q.right, stringify).value + ")")
    ensures q.Unary? ==>
      (LiqeToExpr(q, stringify).Ok? &&
       LiqeToExpr(q, stringify).value == "!(" + LiqeToExpr(q.operand, stringify).value + ")")
    ensures q.Paren? ==>
      (LiqeToExpr(q, stringify).Ok? &&
       LiqeToExpr(q, stringify).value == "(" + LiqeToExpr(q.expression, stringify).value + ")")
  {
    match q
    case Logical(_, l, r) => TranslationFailsFirst(l, stringify); TranslationFailsFirst(r, stringify);
    case Unary(_, e) => TranslationFailsFirst(e, stringify);
    case Paren(e) => TranslationFailsFirst(e, stringify);
    case Tag(_, _, _) =>
    case OtherQuery(_) =>
  }

  /** A tag translates exactly when it has no operator or `:` and a literal, regex or
      empty expression: a literal compares the field with the literal's JSON, a regex
      tests the field, an empty expression tests the field for truthiness. */
  lemma TagTranslation(f: Field, op: Option<string>, expr: TagExpr, stringify: Literal -> string)
    ensures var r := LiqeToExpr(Tag(f, op, expr), stringify);
      && (r.Ok? <==> (op == None || op == Some(":")) && !expr.OtherExpr?)
      && (op != None && op != Some(":") ==> r == Err(Failure(UnsupportedOperator, Tag(f, op, expr))))
      && ((op == None || op == Some(":")) && expr.OtherExpr? ==> r == Err(Failure(UnsupportedExpressionType, Tag(f, op, expr))))
      && (r.Ok? && expr.LiteralExpr? ==> r.value == "(" + FieldToJs(f) + " == " + stringify(expr.value) + ")")
      && (r.Ok? && expr.RegexExpr? ==> r.value == expr.regex + ".test(" + FieldToJs(f) + ")")
      && (r.Ok? && expr.EmptyExpr? ==> r.value == "(!!" + FieldToJs(f) + ")")
  {
  }

  /** `NOT` and `-` are the same negation. */
  lemma NegationsAgree(e: Query, stringify: Literal -> string)
    ensures LiqeToExpr(Unary("NOT", e), stringify) == LiqeToExpr(Unary("-", e), stringify)
  {
  }

  /** A bare term searches the `name` field: it translates exactly as the same
      term with the field `name` spelled out (only the node in an error differs). */
  lemma ImplicitFieldIsName(op: Option<string>, expr: TagExpr, stringify: Literal -> string)
    ensures var bare, named := LiqeToExpr(Tag(ImplicitField, op, expr), stringify),
                               LiqeToExpr(Tag(NamedField("name"), op, expr), stringify);
      bare.Ok? == named.Ok? && (bare.Ok? ==> bare.value == named.value)
  {
  }
}
