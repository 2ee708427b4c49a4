/** The balanced-bracket scanner of the Mercado Livre provider
    (mercadolivre.provider.ts). Its single pass keeps a depth counter for the kind of
    bracket it started on and ignores the other kind, so its correctness rests on the
    text being JSON. `JSON.parse` itself is outside the model: the operations return the
    slice handed to it. */
module JsonScanner {
  import opened Wrappers
  import opened JsonText

  datatype Scan = Scan(depth: int, inString: bool, escaped: bool)

  const START := Scan(0, false, false)

  function Step(st: Scan, c: char, opening: char, closing: char): Scan {
    if st.inString then
      if st.escaped then st.(escaped := false)
      else if c == '\\' then st.(escaped := true)
      else if c == '"' then st.(inString := false)
      else st
    else if c == '"' then st.(inString := true)
    else if c == opening then st.(depth := st.depth + 1)
    else if c == closing then st.(depth := st.depth - 1)
    else st
  }

  predicate Closes(st: Scan, c: char, closing: char) {
    !st.inString && c == closing && st.depth == 1
  }

  /** Offset in `text` of the bracket that brings the depth back to zero. */
  function CloseOffset(text: string, st: Scan, opening: char, closing: char): Option<nat>
    requires opening != closing && opening != '"' && closing != '"'
    decreases |text|
  {
    if text == "" then None
    else if Closes(st, text[0], closing) then Some(0)
    else Shift(1, CloseOffset(text[1..], Step(st, text[0], opening, closing), opening, closing))
  }

  function After(text: string, st: Scan, opening: char, closing: char): Scan
    decreases |text|
  {
    if text == "" then st
    else After(text[1..], Step(st, text[0], opening, closing), opening, closing)
  }

  function Shift(distance: nat, offset: Option<nat>): Option<nat> {
    if offset.Some? then Some(distance + offset.value) else None
  }

  function IndexOf(body: string, c: char): (index: Option<nat>)
    ensures index.Some? ==> index.value < |body| && body[index.value] == c
    ensures forall k :: 0 <= k < (if index.Some? then index.value else |body|) ==> body[k] != c
  {
    if body == "" then None
    else if body[0] == c then Some(0)
    else
      assert forall k :: 1 <= k < |body| ==> body[k] == body[1..][k - 1];
      Shift(1, IndexOf(body[1..], c))
  }

  function IndexOfText(body: string, marker: string): (index: Option<nat>)
    ensures index.Some? ==> index.value + |marker| <= |body|
  {
    if marker <= body then Some(0)
    else if body == "" then None
    else Shift(1, IndexOfText(body[1..], marker))
  }

  /** It is the first occurrence. */
  lemma {:induction false} IndexOfTextIsFirst(body: string, marker: string)
    ensures var index := IndexOfText(body, marker);
            && (index.Some? ==> marker <= body[index.value..])
            && forall k :: 0 <= k < (if index.Some? then index.value else |body|) ==> !(marker <= body[k..])
  {
    if !(marker <= body) && body != "" {
      IndexOfTextIsFirst(body[1..], marker);
      forall k | 1 <= k <= |body| ensures body[k..] == body[1..][k - 1..] {
      }
    }
  }

  /** The earlier of the first `{` and the first `[`. */
  function FirstBracket(body: string): (start: Option<nat>)
    ensures start.Some? ==>
              && start.value < |body|
              && (body[start.value] == '{' || body[start.value] == '[')
    ensures forall k :: 0 <= k < (if start.Some? then start.value else |body|) ==> body[k] != '{' && body[k] != '['
  {
    var brace, bracket := IndexOf(body, '{'), IndexOf(body, '[');
    if brace.None? then bracket
    else if bracket.None? || brace.value < bracket.value then brace
    else bracket
  }

  function ClosingOf(opening: char): char {
    if opening == '{' then '}' else ']'
  }

  function FirstValue(body: string): (slice: Option<string>) {
    var start := FirstBracket(body);
    if start.None? then None
    else
      assert body[start.value..][0] == body[start.value];
      SliceOf(body[start.value..])
  }

  /** `text` up to the bracket that balances its first character. */
  function SliceOf(text: string): Option<string>
    requires text != "" && Bracket(text[0])
  {
    var end := CloseOffset(text, START, text[0], ClosingOf(text[0]));
    CloseOffsetBounded(text, START, text[0], ClosingOf(text[0]));
    if end.None? then None else Some(text[..end.value + 1])
  }

  lemma CloseOffsetBounded(text: string, st: Scan, opening: char, closing: char)
    requires opening != closing && opening != '"' && closing != '"'
    ensures var end := CloseOffset(text, st, opening, closing); end.Some? ==> end.value < |text|
    decreases |text|
  {
    if text != "" {
      CloseOffsetBounded(text[1..], Step(st, text[0], opening, closing), opening, closing);
    }
  }

  /** The loop both extractors share: from `start`, until the depth is zero again. */
  method ScanFrom(body: string, start: nat) returns (slice: Option<string>)
    requires start < |body| && (body[start] == '{' || body[start] == '[')
    ensures slice == SliceOf(body[start..])
  {
    var opening := body[start];
    var closing := ClosingOf(opening);
    var depth, inString, escaped := 0, false, false;
    CloseOffsetBounded(body[start..], START, opening, closing);
    for index := start to |body|
      invariant CloseOffset(body[start..], START, opening, closing)
             == Shift(index - start, CloseOffset(body[index..], Scan(depth, inString, escaped), opening, closing))
    {
      var character := body[index];
      assert body[index..][1..] == body[index + 1..];
      if inString {
        if escaped {
          escaped := false;
        } else if character == '\\' {
          escaped := true;
        } else if character == '"' {
          inString := false;
        }
        continue;
      }
      if character == '"' {
        inString := true;
      } else if character == opening {
        depth := depth + 1;
      } else if character == closing {
        depth := depth - 1;
        if depth == 0 {
          assert body[start..][..index - start + 1] == body[start..index + 1];
          return Some(body[start..index + 1]);
        }
      }
    }
    return None;
  }

  method ExtractFirstJsonValue(body: string) returns (slice: Option<string>)
    ensures slice == FirstValue(body)
  {
    var start := FirstBracket(body);
    if start.None? {
      return None;
    }
    slice := ScanFrom(body, start.value);
  }

  /** The text after the first `=` that follows the first occurrence of `marker`. */
  function AssignedText(body: string, marker: string): Option<string> {
    var at := IndexOfText(body, marker);
    if at.None? then None
    else
      var tail := body[at.value + |marker|..];
      var equals := IndexOf(tail, '=');
      if equals.None? then None else Some(tail[equals.value + 1..])
  }

  lemma SliceOfSlice(body: string, from: nat, offset: nat)
    requires from <= |body| && offset <= |body| - from
    ensures body[from..][offset..] == body[from + offset..]
  {
  }

  /** Where the assigned text begins. */
  method FindAssignment(body: string, marker: string) returns (at: Option<nat>)
    ensures at.Some? ==> at.value <= |body|
    ensures AssignedText(body, marker) == if at.None? then None else Some(body[at.value..])
  {
    var markerIndex := IndexOfText(body, marker);
    if markerIndex.None? {
      return None;
    }
    var from := markerIndex.value + |marker|;
    var equals := IndexOf(body[from..], '=');
    if equals.None? {
      return None;
    }
    SliceOfSlice(body, from, equals.value + 1);
    return Some(from + equals.value + 1);
  }

  /** The scan from the first bracket after the assignment, on offsets into the whole text. */
  method ExtractFrom(body: string, at: nat) returns (slice: Option<string>)
    requires at <= |body|
    ensures slice == FirstValue(body[at..])
  {
    var assignmentBody := body[at..];
    var start := FirstBracket(assignmentBody);
    if start.None? {
      return None;
    }
    SliceOfSlice(body, at, start.value);
    slice := ScanFrom(body, at + start.value);
  }

  method ExtractAssignedJson(body: string, marker: string) returns (slice: Option<string>)
    ensures slice == (var text := AssignedText(body, marker); if text.None? then None else FirstValue(text.value))
  {
    var at := FindAssignment(body, marker);
    if at.None? {
      return None;
    }
    slice := ExtractFrom(body, at.value);
  }

  // ---------------------------------------------------------------- scanning concatenations

  lemma {:induction false} ScanConcat(a: string, b: string, st: Scan, opening: char, closing: char)
    requires opening != closing && opening != '"' && closing != '"'
    ensures After(a + b, st, opening, closing) == After(b, After(a, st, opening, closing), opening, closing)
    ensures CloseOffset(a + b, st, opening, closing)
         == var first := CloseOffset(a, st, opening, closing);
            if first.Some? then first
            else Shift(|a|, CloseOffset(b, After(a, st, opening, closing), opening, closing))
    decreases |a|
  {
    if a == "" {
      assert a + b == b;
    } else {
      assert (a + b)[1..] == a[1..] + b;
      ScanConcat(a[1..], b, Step(st, a[0], opening, closing), opening, closing);
    }
  }

  /** Outside strings and inside at least one bracket, `text` changes nothing and closes nothing. */
  ghost predicate Inert(text: string, opening: char, closing: char)
    requires opening != closing && opening != '"' && closing != '"'
  {
    forall d :: d >= 1 ==>
      && After(text, Scan(d, false, false), opening, closing) == Scan(d, false, false)
      && CloseOffset(text, Scan(d, false, false), opening, closing).None?
  }

  predicate Bracket(opening: char) {
    opening == '{' || opening == '['
  }

  lemma InertConcat(a: string, b: string, opening: char)
    requires Bracket(opening)
    requires Inert(a, opening, ClosingOf(opening)) && Inert(b, opening, ClosingOf(opening))
    ensures Inert(a + b, opening, ClosingOf(opening))
  {
    forall d | d >= 1
      ensures After(a + b, Scan(d, false, false), opening, ClosingOf(opening)) == Scan(d, false, false)
      ensures CloseOffset(a + b, Scan(d, false, false), opening, ClosingOf(opening)).None?
    {
      ScanConcat(a, b, Scan(d, false, false), opening, ClosingOf(opening));
    }
  }

  predicate Plain(c: char) {
    c != '"' && c != '{' && c != '}' && c != '[' && c != ']'
  }

  lemma {:induction false} PlainIsInert(text: string, opening: char)
    requires Bracket(opening)
    requires forall c <- text :: Plain(c)
    ensures Inert(text, opening, ClosingOf(opening))
    decreases |text|
  {
    if text != "" {
      var closing := ClosingOf(opening);
      PlainIsInert(text[1..], opening);
      assert Plain(text[0]);
      forall d | d >= 1
        ensures After(text, Scan(d, false, false), opening, closing) == Scan(d, false, false)
        ensures CloseOffset(text, Scan(d, false, false), opening, closing).None?
      {
        assert After(text[1..], Scan(d, false, false), opening, closing) == Scan(d, false, false);
      }
    }
  }

  /** Every printed string character is consumed inside the string. */
  lemma StringCharStays(s: StringChar, d: int, opening: char)
    requires Bracket(opening) && ValidChar(s)
    ensures After(PrintChar(s), Scan(d, true, false), opening, ClosingOf(opening)) == Scan(d, true, false)
    ensures CloseOffset(PrintChar(s), Scan(d, true, false), opening, ClosingOf(opening)).None?
  {
    var closing := ClosingOf(opening);
    match s
    case Unescaped(c) =>
      assert PrintChar(s)[1..] == "";
    case Escape(c) =>
      assert PrintChar(s)[1..] == [c] && [c][1..] == "";
    case UnicodeEscape(hex) =>
      assert PrintChar(s)[1..] == ['u'] + hex;
      assert (['u'] + hex)[1..] == hex;
      QuotelessStays(hex, d, opening);
  }

  lemma {:induction false} QuotelessStays(text: string, d: int, opening: char)
    requires Bracket(opening)
    requires forall c <- text :: IsHex(c)
    ensures After(text, Scan(d, true, false), opening, ClosingOf(opening)) == Scan(d, true, false)
    ensures CloseOffset(text, Scan(d, true, false), opening, ClosingOf(opening)).None?
    decreases |text|
  {
    if text != "" {
      assert IsHex(text[0]);
      QuotelessStays(text[1..], d, opening);
    }
  }

  lemma {:induction false} StringCharsStay(chars: seq<StringChar>, d: int, opening: char)
    requires Bracket(opening) && ValidString(chars)
    ensures After(PrintChars(chars), Scan(d, true, false), opening, ClosingOf(opening)) == Scan(d, true, false)
    ensures CloseOffset(PrintChars(chars), Scan(d, true, false), opening, ClosingOf(opening)).None?
    decreases |chars|
  {
    if chars != [] {
      StringCharStays(chars[0], d, opening);
      StringCharsStay(chars[1..], d, opening);
      ScanConcat(PrintChar(chars[0]), PrintChars(chars[1..]), Scan(d, true, false), opening, ClosingOf(opening));
    }
  }

  /** A printed string is inert whatever brackets, quotes and escapes it holds. */
  lemma StringIsInert(chars: seq<StringChar>, opening: char)
    requires Bracket(opening) && ValidString(chars)
    ensures Inert(PrintString(chars), opening, ClosingOf(opening))
  {
    var closing := ClosingOf(opening);
    var body := PrintChars(chars);
    forall d | d >= 1
      ensures After(PrintString(chars), Scan(d, false, false), opening, closing) == Scan(d, false, false)
      ensures CloseOffset(PrintString(chars), Scan(d, false, false), opening, closing).None?
    {
      assert PrintString(chars)[1..] == body + ['"'];
      StringCharsStay(chars, d, opening);
      ScanConcat(body, ['"'], Scan(d, true, false), opening, closing);
      assert ['"'][1..] == "";
    }
  }

  lemma NumberIsInert(n: Number, opening: char)
    requires Bracket(opening) && ValidNumber(n)
    ensures Inert(PrintNumber(n), opening, ClosingOf(opening))
  {
    PlainIsInert(PrintNumber(n), opening);
  }

  /** A bracketed text whose inside is inert: inert when nested, closed at its last bracket when outermost. */
  lemma Bracketed(kind: char, inside: string, opening: char, d: int)
    requires Bracket(opening) && Bracket(kind) && Inert(inside, opening, ClosingOf(opening))
    requires d >= 1 || (d == 0 && kind == opening)
    ensures var text := [kind] + (inside + [ClosingOf(kind)]);
            var end := CloseOffset(text, Scan(d, false, false), opening, ClosingOf(opening));
            if d == 0 then end == Some(|text| - 1)
            else end.None? && After(text, Scan(d, false, false), opening, ClosingOf(opening)) == Scan(d, false, false)
  {
    var closing := ClosingOf(opening);
    var tail := inside + [ClosingOf(kind)];
    var text := [kind] + tail;
    assert text[1..] == tail;
    var inner := Scan(if kind == opening then d + 1 else d, false, false);
    assert Step(Scan(d, false, false), kind, opening, closing) == inner;
    ScanConcat(inside, [ClosingOf(kind)], inner, opening, closing);
    assert After(inside, inner, opening, closing) == inner;
    assert [ClosingOf(kind)][1..] == "";
  }

  lemma BracketedIsInert(kind: char, inside: string, opening: char)
    requires Bracket(opening) && Bracket(kind) && Inert(inside, opening, ClosingOf(opening))
    ensures Inert([kind] + (inside + [ClosingOf(kind)]), opening, ClosingOf(opening))
  {
    forall d | d >= 1
      ensures var text := [kind] + (inside + [ClosingOf(kind)]);
              && After(text, Scan(d, false, false), opening, ClosingOf(opening)) == Scan(d, false, false)
              && CloseOffset(text, Scan(d, false, false), opening, ClosingOf(opening)).None?
    {
      Bracketed(kind, inside, opening, d);
    }
  }

  lemma {:induction false} ValueIsInert(v: Json, opening: char)
    requires Bracket(opening) && Valid(v)
    ensures Inert(Print(v), opening, ClosingOf(opening))
    decreases v, 1
  {
    match v
    case Null => PlainIsInert(Print(v), opening);
    case True => PlainIsInert(Print(v), opening);
    case False => PlainIsInert(Print(v), opening);
    case Num(n) => NumberIsInert(n, opening);
    case Str(chars) => StringIsInert(chars, opening);
    case Arr(_, _) =>
      InsideIsInert(v, opening);
      BracketedIsInert('[', Inside(v), opening);
    case Obj(_, _) =>
      InsideIsInert(v, opening);
      BracketedIsInert('{', Inside(v), opening);
  }

  lemma InsideIsInert(v: Json, opening: char)
    requires Bracket(opening) && Valid(v) && (v.Arr? || v.Obj?)
    ensures Inert(Inside(v), opening, ClosingOf(opening))
    decreases v, 0
  {
    match v
    case Arr(blank, elements) =>
      if elements.NoElement? { PlainIsInert(blank, opening); } else { ElementsAreInert(elements, opening); }
    case Obj(blank, members) =>
      if members.NoMember? { PlainIsInert(blank, opening); } else { MembersAreInert(members, opening); }
  }

  lemma {:induction false} ElementsAreInert(es: Elements, opening: char)
    requires Bracket(opening) && ValidElements(es) && es.Element?
    ensures Inert(PrintElements(es), opening, ClosingOf(opening))
    decreases es, 1
  {
    PlainIsInert(es.before, opening);
    ValueIsInert(es.value, opening);
    PlainIsInert(es.after, opening);
    InertConcat(es.before, Print(es.value), opening);
    InertConcat(es.before + Print(es.value), es.after, opening);
    var head := es.before + Print(es.value) + es.after;
    if es.rest.NoElement? {
      assert PrintElements(es) == head;
    } else {
      ElementsAreInert(es.rest, opening);
      PlainIsInert([','], opening);
      InertConcat([','], PrintElements(es.rest), opening);
      InertConcat(head, [','] + PrintElements(es.rest), opening);
    }
  }

  lemma MemberIsInert(ms: Members, opening: char)
    requires Bracket(opening) && ValidMembers(ms) && ms.Member?
    requires Inert(Print(ms.value), opening, ClosingOf(opening))
    ensures Inert(ms.before + PrintString(ms.key) + ms.afterKey + [':'] + ms.beforeValue + Print(ms.value) + ms.after,
                  opening, ClosingOf(opening))
  {
    PlainIsInert(ms.before, opening);
    StringIsInert(ms.key, opening);
    PlainIsInert(ms.afterKey, opening);
    PlainIsInert([':'], opening);
    PlainIsInert(ms.beforeValue, opening);
    PlainIsInert(ms.after, opening);
    var t1 := ms.before + PrintString(ms.key);
    InertConcat(ms.before, PrintString(ms.key), opening);
    InertConcat(t1, ms.afterKey, opening);
    InertConcat(t1 + ms.afterKey, [':'], opening);
    InertConcat(t1 + ms.afterKey + [':'], ms.beforeValue, opening);
    var t2 := t1 + ms.afterKey + [':'] + ms.beforeValue;
    InertConcat(t2, Print(ms.value), opening);
    InertConcat(t2 + Print(ms.value), ms.after, opening);
  }

  lemma {:induction false} MembersAreInert(ms: Members, opening: char)
    requires Bracket(opening) && ValidMembers(ms) && ms.Member?
    ensures Inert(PrintMembers(ms), opening, ClosingOf(opening))
    decreases ms, 1
  {
    ValueIsInert(ms.value, opening);
    MemberIsInert(ms, opening);
    var head := ms.before + PrintString(ms.key) + ms.afterKey + [':'] + ms.beforeValue + Print(ms.value) + ms.after;
    if ms.rest.NoMember? {
      assert PrintMembers(ms) == head;
    } else {
      MembersAreInert(ms.rest, opening);
      PlainIsInert([','], opening);
      InertConcat([','], PrintMembers(ms.rest), opening);
      InertConcat(head, [','] + PrintMembers(ms.rest), opening);
    }
  }

  // ---------------------------------------------------------------- the extractors cut out one JSON value

  lemma ContainerCloses(v: Json, suffix: string)
    requires Valid(v) && (v.Arr? || v.Obj?)
    ensures Print(v) != "" && Bracket(Print(v)[0])
    ensures var opening := Print(v)[0];
            && CloseOffset(Print(v), START, opening, ClosingOf(opening)) == Some(|Print(v)| - 1)
            && CloseOffset(Print(v) + suffix, START, opening, ClosingOf(opening)) == Some(|Print(v)| - 1)
  {
    var opening := Print(v)[0];
    InsideIsInert(v, opening);
    Bracketed(opening, Inside(v), opening, 0);
    ScanConcat(Print(v), suffix, START, opening, ClosingOf(opening));
  }

  lemma FirstBracketAfterPrefix(prefix: string, rest: string)
    requires '{' !in prefix && '[' !in prefix
    requires rest != "" && Bracket(rest[0])
    ensures FirstBracket(prefix + rest) == Some(|prefix|)
  {
    var body := prefix + rest;
    assert body[|prefix|] == rest[0];
    assert forall k :: 0 <= k < |prefix| ==> body[k] == prefix[k];
  }

  /** Whatever surrounds it, the slice is exactly the text of the JSON value. */
  lemma FirstValueIsTheJsonText(prefix: string, v: Json, suffix: string)
    requires Valid(v) && (v.Arr? || v.Obj?)
    requires '{' !in prefix && '[' !in prefix
    ensures FirstValue(prefix + Print(v) + suffix) == Some(Print(v))
  {
    var rest := Print(v) + suffix;
    var body := prefix + Print(v) + suffix;
    ContainerCloses(v, suffix);
    assert body == prefix + rest;
    FirstBracketAfterPrefix(prefix, rest);
    assert body[|prefix|..] == rest;
    assert rest[..|Print(v)|] == Print(v);
  }

  /** A document cut short anywhere is never mistaken for a shorter one. */
  lemma TruncatedJsonHasNoValue(prefix: string, v: Json, cut: nat)
    requires Valid(v) && (v.Arr? || v.Obj?)
    requires '{' !in prefix && '[' !in prefix
    requires cut < |Print(v)|
    ensures FirstValue(prefix + Print(v)[..cut]).None?
  {
    var text := Print(v)[..cut];
    var body := prefix + text;
    if cut == 0 {
      assert body == prefix;
    } else {
      ContainerCloses(v, "");
      var opening := Print(v)[0];
      assert text[0] == opening;
      FirstBracketAfterPrefix(prefix, text);
      assert body[|prefix|..] == text;
      assert text + Print(v)[cut..] == Print(v);
      ScanConcat(text, Print(v)[cut..], START, opening, ClosingOf(opening));
      CloseOffsetBounded(text, START, opening, ClosingOf(opening));
    }
  }

  lemma IndexIs(body: string, c: char, k: nat)
    requires k < |body| && body[k] == c && c !in body[..k]
    ensures IndexOf(body, c) == Some(k)
  {
    assert forall j | 0 <= j < k :: body[j] == body[..k][j];
  }

  lemma FirstEqualsAfter(between: string, value: string)
    requires '=' !in between
    ensures IndexOf(between + (['='] + value), '=') == Some(|between|)
    ensures (between + (['='] + value))[|between| + 1..] == value
  {
    var tail := between + (['='] + value);
    assert tail[..|between|] == between;
    assert tail[|between| + 1..] == value;
    IndexIs(tail, '=', |between|);
  }

  /** An assigned value is found behind any marker, any text up to the `=`, and any bracket-free gap. */
  lemma AssignedValueIsTheJsonText(
    before: string, marker: string, between: string, gap: string, v: Json, suffix: string)
    requires Valid(v) && (v.Arr? || v.Obj?)
    requires '=' !in between && '{' !in gap && '[' !in gap
    requires IndexOfText(before + marker + (between + (['='] + (gap + Print(v) + suffix))), marker) == Some(|before|)
    ensures var text := AssignedText(before + marker + (between + (['='] + (gap + Print(v) + suffix))), marker);
            text.Some? && FirstValue(text.value) == Some(Print(v))
  {
    var tail := between + (['='] + (gap + Print(v) + suffix));
    var body := before + marker + tail;
    assert body[|before| + |marker|..] == tail;
    FirstEqualsAfter(between, gap + Print(v) + suffix);
    FirstValueIsTheJsonText(gap, v, suffix);
  }
}
