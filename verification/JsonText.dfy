/** JSON texts as section 2 to 7 of RFC 8259 generate them. A `Json` value is a concrete
    syntax tree: it keeps every optional white space and every choice of escape, so
    `Print` reaches each text of the grammar. */
module JsonText {
  import opened Wrappers

  datatype StringChar =
    | Unescaped(c: char)
    | Escape(c: char)
    | UnicodeEscape(hex: string)

  datatype Exponent = Exponent(e: char, sign: string, digits: string)

  datatype Number = Number(negative: bool, whole: string, frac: Option<string>, exp: Option<Exponent>)

  datatype Json =
    | Null
    | True
    | False
    | Num(n: Number)
    | Str(chars: seq<StringChar>)
    | Arr(blank: string, elements: Elements)
    | Obj(blank: string, members: Members)

  datatype Elements = NoElement | Element(before: string, value: Json, after: string, rest: Elements)

  datatype Members =
    | NoMember
    | Member(before: string, key: seq<StringChar>, afterKey: string,
             beforeValue: string, value: Json, after: string, rest: Members)

  predicate IsBlank(text: string) {
    forall c <- text :: c == ' ' || c == '\t' || c == '\n' || c == '\r'
  }

  predicate IsDigits(text: string) {
    text != "" && forall c <- text :: '0' <= c <= '9'
  }

  predicate IsHex(c: char) {
    '0' <= c <= '9' || 'a' <= c <= 'f' || 'A' <= c <= 'F'
  }

  predicate ValidChar(s: StringChar) {
    match s
    case Unescaped(c) => c as int >= 0x20 && c != '"' && c != '\\'
    case Escape(c) => c in ['"', '\\', '/', 'b', 'f', 'n', 'r', 't']
    case UnicodeEscape(hex) => |hex| == 4 && forall c <- hex :: IsHex(c)
  }

  predicate ValidString(chars: seq<StringChar>) {
    forall s <- chars :: ValidChar(s)
  }

  predicate ValidExponent(x: Exponent) {
    && (x.e == 'e' || x.e == 'E')
    && (x.sign == "" || x.sign == ['+'] || x.sign == ['-'])
    && IsDigits(x.digits)
  }

  predicate ValidNumber(n: Number) {
    && IsDigits(n.whole)
    && (n.whole[0] == '0' ==> |n.whole| == 1)
    && (n.frac.Some? ==> IsDigits(n.frac.value))
    && (n.exp.Some? ==> ValidExponent(n.exp.value))
  }

  predicate Valid(v: Json) {
    match v
    case Num(n) => ValidNumber(n)
    case Str(chars) => ValidString(chars)
    case Arr(blank, elements) => IsBlank(blank) && ValidElements(elements)
    case Obj(blank, members) => IsBlank(blank) && ValidMembers(members)
    case _ => true
  }

  predicate ValidElements(es: Elements) {
    match es
    case NoElement => true
    case Element(before, value, after, rest) =>
      IsBlank(before) && Valid(value) && IsBlank(after) && ValidElements(rest)
  }

  predicate ValidMembers(ms: Members) {
    match ms
    case NoMember => true
    case Member(before, key, afterKey, beforeValue, value, after, rest) =>
      && IsBlank(before) && ValidString(key) && IsBlank(afterKey)
      && IsBlank(beforeValue) && Valid(value) && IsBlank(after) && ValidMembers(rest)
  }

  function PrintChar(s: StringChar): string {
    match s
    case Unescaped(c) => [c]
    case Escape(c) => ['\\', c]
    case UnicodeEscape(hex) => ['\\', 'u'] + hex
  }

  function PrintChars(chars: seq<StringChar>): string {
    if chars == [] then "" else PrintChar(chars[0]) + PrintChars(chars[1..])
  }

  function PrintString(chars: seq<StringChar>): string {
    ['"'] + (PrintChars(chars) + ['"'])
  }

  function PrintNumber(n: Number): string {
    (if n.negative then ['-'] else "") + n.whole
    + (if n.frac.Some? then ['.'] + n.frac.value else "")
    + (if n.exp.Some? then [n.exp.value.e] + n.exp.value.sign + n.exp.value.digits else "")
  }

  function Print(v: Json): string {
    match v
    case Null => "null"
    case True => "true"
    case False => "false"
    case Num(n) => PrintNumber(n)
    case Str(chars) => PrintString(chars)
    case Arr(_, _) => ['['] + (Inside(v) + [']'])
    case Obj(_, _) => ['{'] + (Inside(v) + ['}'])
  }

  /** What stands between the outermost brackets. */
  function Inside(v: Json): string
    requires v.Arr? || v.Obj?
    decreases v, 0
  {
    match v
    case Arr(blank, elements) => if elements.NoElement? then blank else PrintElements(elements)
    case Obj(blank, members) => if members.NoMember? then blank else PrintMembers(members)
  }

  function PrintElements(es: Elements): string
    requires es.Element?
  {
    es.before + Print(es.value) + es.after
    + (if es.rest.NoElement? then "" else [','] + PrintElements(es.rest))
  }

  function PrintMembers(ms: Members): string
    requires ms.Member?
  {
    ms.before + PrintString(ms.key) + ms.afterKey + [':'] + ms.beforeValue + Print(ms.value) + ms.after
    + (if ms.rest.NoMember? then "" else [','] + PrintMembers(ms.rest))
  }
}
