// Message templates: {path} placeholders found by one left-to-right scan.
module Templates {
  import opened Basics
  import opened Strings

  /** A JSON value of an event context. What str() prints for anything but a string is
      carried with the value. */
  datatype Value =
    | Null
    | Text(s: string)
    | Scalar(repr: string)
    | Record(fields: map<string, Value>, repr: string)

  /** Equality of JSON values: the order in which an object lists its keys, which only its
      text shows, does not matter. */
  predicate Equal(v: Value, w: Value) {
    if v.Record? && w.Record? then
      v.fields.Keys == w.fields.Keys && forall key :: key in v.fields ==> Equal(v.fields[key], w.fields[key])
    else v == w
  }

  /** What equality looks at: everything but the text an object prints. */
  function Unordered(v: Value): Value {
    match v
    case Record(fields, _) => Record(map key | key in fields :: Unordered(fields[key]), "")
    case _ => v
  }

  lemma {:induction false} EqualIff(v: Value, w: Value)
    ensures Equal(v, w) <==> Unordered(v) == Unordered(w)
  {
    if v.Record? && w.Record? {
      var a, b := Unordered(v).fields, Unordered(w).fields;
      assert a.Keys == v.fields.Keys && b.Keys == w.fields.Keys;
      forall key | key in v.fields && key in w.fields
        ensures Equal(v.fields[key], w.fields[key]) <==> a[key] == b[key]
      {
        EqualIff(v.fields[key], w.fields[key]);
      }
      if Equal(v, w) {
        assert a == b;
      }
    }
  }

  // ----- paths -----

  function Walk(v: Value, parts: seq<string>): Option<Value> {
    if parts == [] then Some(v)
    else if v.Record? && parts[0] in v.fields then Walk(v.fields[parts[0]], parts[1..])
    else None
  }

  function ResolvePath(context: Value, path: string): Option<Value> { Walk(context, Split(path, '.')) }

  function Shown(v: Value): string {
    match v
    case Null => ""
    case Text(s) => s
    case Scalar(repr) => repr
    case Record(_, repr) => repr
  }

  // ----- scanning -----

  datatype Token = Literal(c: char) | Hole(path: string)

  predicate NameChar(c: char) {
    'a' <= c <= 'z' || 'A' <= c <= 'Z' || '0' <= c <= '9' || c == '_' || c == '.'
  }

  predicate Name(s: string) { s != "" && forall i :: 0 <= i < |s| ==> NameChar(s[i]) }

  /** The length of the longest prefix of name characters. */
  function NameLength(s: string): (n: nat)
    ensures n <= |s|
    ensures forall i :: 0 <= i < n ==> NameChar(s[i])
    ensures n < |s| ==> !NameChar(s[n])
  {
    if s != "" && NameChar(s[0]) then 1 + NameLength(s[1..]) else 0
  }

  /** The length of the placeholder at the start of s, 0 if there is none. */
  function HoleLength(s: string): (h: nat)
    ensures h == 0 || 3 <= h <= |s|
  {
    if s == "" || s[0] != '{' then 0
    else
      var n := NameLength(s[1..]);
      if n > 0 && n + 1 < |s| && s[n + 1] == '}' then n + 2 else 0
  }

  /** The token a text starts with: a placeholder if there is one, else one character. */
  function First(s: string): Token
    requires s != ""
  {
    if HoleLength(s) > 0 then Hole(s[1..HoleLength(s) - 1]) else Literal(s[0])
  }

  function AfterFirst(s: string): (rest: string)
    requires s != ""
    ensures |rest| < |s|
  {
    if HoleLength(s) > 0 then s[HoleLength(s)..] else s[1..]
  }

  function Scan(s: string): seq<Token> {
    if s == "" then [] else [First(s)] + Scan(AfterFirst(s))
  }

  function PrintToken(t: Token): string {
    match t
    case Literal(c) => [c]
    case Hole(path) => "{" + path + "}"
  }

  function Print(tokens: seq<Token>): string {
    if tokens == [] then "" else PrintToken(tokens[0]) + Print(tokens[1..])
  }

  /** Tokens i to j would read as a placeholder although all of them are literals. */
  predicate LooksLikeHole(tokens: seq<Token>, i: nat, j: nat)
    requires i < j < |tokens|
  {
    && tokens[i] == Literal('{') && tokens[j] == Literal('}') && i + 1 < j
    && forall m :: i < m < j ==> tokens[m].Literal? && NameChar(tokens[m].c)
  }

  ghost predicate Canonical(tokens: seq<Token>) {
    && (forall i :: 0 <= i < |tokens| && tokens[i].Hole? ==> Name(tokens[i].path))
    && (forall i, j :: 0 <= i < j < |tokens| ==> !LooksLikeHole(tokens, i, j))
  }

  lemma PrintCons(t: Token, tail: seq<Token>)
    ensures Print([t] + tail) == PrintToken(t) + Print(tail)
  {
  }

  lemma SplitFirstToken(s: string)
    requires s != ""
    ensures s == PrintToken(First(s)) + AfterFirst(s)
    ensures First(s).Hole? ==> Name(First(s).path)
  {
    var h := HoleLength(s);
    if h > 0 {
      HolePrefix(s, h);
      assert s == s[..h] + s[h..];
    }
  }

  lemma HolePrefix(s: string, h: nat)
    requires h == HoleLength(s) > 0
    ensures s[..h] == "{" + s[1..h - 1] + "}" && Name(s[1..h - 1])
  {
  }

  /** Printing a scan gives the template back. */
  lemma {:induction false} PrintScan(s: string)
    ensures Print(Scan(s)) == s
  {
    if s == "" {
    } else {
      SplitFirstToken(s);
      PrintScan(AfterFirst(s));
      PrintCons(First(s), Scan(AfterFirst(s)));
    }
  }

  lemma {:induction false} NameThenBrace(name: string, rest: string)
    requires forall i :: 0 <= i < |name| ==> NameChar(name[i])
    ensures NameLength(name + "}" + rest) == |name|
  {
    var s := name + "}" + rest;
    var n := NameLength(s);
    assert s[|name|] == '}';
    assert forall i :: 0 <= i < |name| ==> s[i] == name[i];
    assert n >= |name| ==> n == |name|;
  }

  lemma HoleShape(path: string, rest: string)
    requires Name(path)
    ensures var s := "{" + path + "}" + rest;
            HoleLength(s) == |path| + 2 && s[1..|path| + 1] == path && s[|path| + 2..] == rest
  {
    var s := "{" + path + "}" + rest;
    assert s[1..] == path + "}" + rest;
    NameThenBrace(path, rest);
  }

  lemma ScanHole(path: string, rest: string)
    requires Name(path)
    ensures Scan(PrintToken(Hole(path)) + rest) == [Hole(path)] + Scan(rest)
  {
    var s := PrintToken(Hole(path)) + rest;
    HoleShape(path, rest);
    assert First(s) == Hole(path) && AfterFirst(s) == rest;
  }

  lemma ScanLiteral(c: char, rest: string)
    requires HoleLength([c] + rest) == 0
    ensures Scan([c] + rest) == [Literal(c)] + Scan(rest)
  {
  }

  /** Text that prints as name characters up to a closing brace is all literals. */
  lemma {:induction false} LiteralsBeforeBrace(tokens: seq<Token>, n: nat)
    requires n < |Print(tokens)| && Print(tokens)[n] == '}'
    requires forall i :: 0 <= i < n ==> NameChar(Print(tokens)[i])
    ensures n < |tokens| && tokens[n] == Literal('}')
    ensures forall i :: 0 <= i < n ==> tokens[i].Literal? && NameChar(tokens[i].c)
  {
    var s := Print(tokens);
    assert s[0] == PrintToken(tokens[0])[0];
    if n == 0 {
    } else {
      assert s[1..] == Print(tokens[1..]);
      LiteralsBeforeBrace(tokens[1..], n - 1);
      forall i | 1 <= i < n ensures tokens[i].Literal? && NameChar(tokens[i].c) {
        assert tokens[i] == tokens[1..][i - 1];
      }
    }
  }

  lemma {:induction false} ScanPrint(tokens: seq<Token>)
    requires Canonical(tokens)
    ensures Scan(Print(tokens)) == tokens
  {
    if tokens == [] {
    } else {
      var rest := Print(tokens[1..]);
      CanonicalTail(tokens);
      ScanPrint(tokens[1..]);
      match tokens[0]
      case Hole(path) =>
        ScanHole(path, rest);
      case Literal(c) =>
        LiteralNotHole(tokens);
        ScanLiteral(c, rest);
    }
  }

  lemma LiteralNotHole(tokens: seq<Token>)
    requires Canonical(tokens) && tokens != [] && tokens[0].Literal?
    ensures HoleLength(Print(tokens)) == 0
  {
    var rest := Print(tokens[1..]);
    assert Print(tokens)[1..] == rest;
    if HoleLength(Print(tokens)) > 0 {
      var n := NameLength(rest);
      LiteralsBeforeBrace(tokens[1..], n);
      assert forall m :: 0 < m < n + 1 ==> tokens[m] == tokens[1..][m - 1];
      assert LooksLikeHole(tokens, 0, n + 1);
    }
  }

  lemma CanonicalTail(tokens: seq<Token>)
    requires Canonical(tokens) && tokens != []
    ensures Canonical(tokens[1..])
  {
    var tail := tokens[1..];
    forall i, j | 0 <= i < j < |tail| ensures !LooksLikeHole(tail, i, j) {
      if LooksLikeHole(tail, i, j) {
        assert forall m :: i + 1 < m < j + 1 ==> tokens[m] == tail[m - 1];
        assert LooksLikeHole(tokens, i + 1, j + 1);
      }
    }
  }

  lemma {:induction false} ScanCanonical(s: string)
    ensures Canonical(Scan(s))
  {
    if s == "" {
    } else {
      var t, tail := First(s), Scan(AfterFirst(s));
      ScanCanonical(AfterFirst(s));
      SplitFirstToken(s);
      forall j | 1 <= j < |[t] + tail| ensures !LooksLikeHole([t] + tail, 0, j) {
        if LooksLikeHole([t] + tail, 0, j) {
          WindowPrints([t] + tail, j);
          PrintScan(s);
        }
      }
      CanonicalCons(t, tail);
    }
  }

  lemma CanonicalCons(t: Token, tail: seq<Token>)
    requires Canonical(tail) && (t.Hole? ==> Name(t.path))
    requires forall j :: 1 <= j < |[t] + tail| ==> !LooksLikeHole([t] + tail, 0, j)
    ensures Canonical([t] + tail)
  {
    var tokens := [t] + tail;
    forall i, j | 0 <= i < j < |tokens| ensures !LooksLikeHole(tokens, i, j) {
      if i > 0 && LooksLikeHole(tokens, i, j) {
        assert forall m :: i - 1 <= m <= j - 1 ==> tail[m] == tokens[m + 1];
        assert LooksLikeHole(tail, i - 1, j - 1);
      }
    }
  }

  /** Name literals up to a closing brace print as name characters up to a closing brace. */
  lemma {:induction false} LiteralsPrint(tokens: seq<Token>, n: nat)
    requires n < |tokens| && tokens[n] == Literal('}')
    requires forall i :: 0 <= i < n ==> tokens[i].Literal? && NameChar(tokens[i].c)
    ensures var s := Print(tokens); n < |s| && s[n] == '}' && NameLength(s) == n
  {
    var s, tail := Print(tokens), Print(tokens[1..]);
    assert s == [tokens[0].c] + tail;
    if n == 0 {
    } else {
      LiteralsPrint(tokens[1..], n - 1);
      assert s[1..] == tail;
    }
  }

  /** A window of literals that looks like a placeholder prints as one. */
  lemma WindowPrints(tokens: seq<Token>, j: nat)
    requires 0 < j < |tokens| && LooksLikeHole(tokens, 0, j)
    ensures HoleLength(Print(tokens)) > 0
  {
    var tail := tokens[1..];
    assert forall i :: 0 <= i < j - 1 ==> tail[i] == tokens[i + 1];
    LiteralsPrint(tail, j - 1);
    BraceThenName(Print(tail), j - 1);
  }

  lemma BraceThenName(tail: string, n: nat)
    requires 0 < n < |tail| && NameLength(tail) == n && tail[n] == '}'
    ensures HoleLength(['{'] + tail) > 0
  {
  }

  /** The scan is the only reading: a token list is the scan of what it prints exactly
      when no run of its literals could be mistaken for a placeholder. */
  lemma ScanPrintIff(tokens: seq<Token>)
    ensures Scan(Print(tokens)) == tokens <==> Canonical(tokens)
  {
    ScanCanonical(Print(tokens));
    if Canonical(tokens) {
      ScanPrint(tokens);
    }
  }

  // ----- rendering -----

  /** The text a token stands for; a hole whose path does not resolve has none. */
  function TokenText(t: Token, context: Value): Option<string> {
    match t
    case Literal(c) => Some([c])
    case Hole(path) =>
      match ResolvePath(context, path)
      case None => None
      case Some(v) => Some(Shown(v))
  }

  /** Rendering, or the first path that is missing. */
  function Render(tokens: seq<Token>, context: Value): Result<string, string> {
    if tokens == [] then Ok("")
    else
      match TokenText(tokens[0], context)
      case None => Err(tokens[0].path)
      case Some(text) => Prepend(text, Render(tokens[1..], context))
  }

  function Prepend(text: string, r: Result<string, string>): Result<string, string> {
    match r
    case Err(e) => Err(e)
    case Ok(rest) => Ok(text + rest)
  }

  /** One pass over the template; what is substituted is never looked at again. */
  method RenderTemplate(template: string, context: Value) returns (r: Result<string, string>)
    ensures r == Render(Scan(template), context)
  {
    var output, rest := "", template;
    PrependNothing(Render(Scan(template), context));
    while rest != ""
      invariant Render(Scan(template), context) == Prepend(output, Render(Scan(rest), context))
      decreases |rest|
    {
      var token := First(rest);
      RenderCons(token, Scan(AfterFirst(rest)), context);
      var text: string;
      match token {
        case Hole(path) =>
          var value := ResolvePath(context, path);
          if value.None? {
            return Err(path);
          }
          text := Shown(value.value);
        case Literal(c) =>
          text := [c];
      }
      PrependTwice(output, text, Render(Scan(AfterFirst(rest)), context));
      output, rest := output + text, AfterFirst(rest);
    }
    assert output + "" == output;
    return Ok(output);
  }

  lemma RenderCons(t: Token, tail: seq<Token>, context: Value)
    ensures Render([t] + tail, context)
         == match TokenText(t, context)
            case None => Err(t.path)
            case Some(text) => Prepend(text, Render(tail, context))
  {
  }

  lemma PrependNothing(r: Result<string, string>)
    ensures Prepend("", r) == r
  {
    if r.Ok? {
      assert "" + r.value == r.value;
    }
  }

  lemma PrependTwice(a: string, b: string, r: Result<string, string>)
    ensures Prepend(a, Prepend(b, r)) == Prepend(a + b, r)
  {
    if r.Ok? {
      assert a + (b + r.value) == a + b + r.value;
    }
  }

  /** The concatenation of literals and values, reading a missing value as nothing. */
  function Substituted(tokens: seq<Token>, context: Value): string {
    if tokens == [] then ""
    else
      (match TokenText(tokens[0], context) case Some(text) => text case None => "")
      + Substituted(tokens[1..], context)
  }

  predicate Resolves(t: Token, context: Value) { TokenText(t, context).Some? }

  /** Rendering succeeds if and only if every placeholder resolves, and is then the
      concatenation of the literals and the values. */
  lemma {:induction false} RenderIff(tokens: seq<Token>, context: Value)
    ensures Render(tokens, context).Ok? <==> forall i :: 0 <= i < |tokens| ==> Resolves(tokens[i], context)
    ensures Render(tokens, context).Ok? ==> Render(tokens, context).value == Substituted(tokens, context)
  {
    if tokens == [] {
    } else {
      RenderIff(tokens[1..], context);
      assert forall i :: 1 <= i < |tokens| ==> tokens[i] == tokens[1..][i - 1];
      if forall i :: 0 <= i < |tokens| ==> Resolves(tokens[i], context) {
        assert forall i :: 0 <= i < |tokens[1..]| ==> tokens[1..][i] == tokens[i + 1];
        assert Resolves(tokens[0], context);
      }
    }
  }

  /** Doubled braces are no escape: {{a}} is a brace, the value of a, and a brace. */
  lemma DoubledBraces(value: Value)
    ensures Render(Scan("{{a}}"), Record(map["a" := value], "")) == Ok("{" + Shown(value) + "}")
  {
    var context := Record(map["a" := value], "");
    var brace, hole := Scan("}"), Scan("{a}}");
    assert PrintToken(Hole("a")) + "}" == "{a}}";
    ScanHole("a", "}");
    assert ['{'] + "{a}}" == "{{a}}";
    ScanLiteral('{', "{a}}");
    assert ['}'] + "" == "}";
    ScanLiteral('}', "");
    RenderCons(Literal('{'), hole, context);
    RenderCons(Hole("a"), brace, context);
    RenderCons(Literal('}'), [], context);
    ResolveKey(value);
    assert "{" + (Shown(value) + "}") == "{" + Shown(value) + "}";
  }

  lemma ResolveKey(value: Value)
    ensures ResolvePath(Record(map["a" := value], ""), "a") == Some(value)
  {
    var context := Record(map["a" := value], "");
    assert Split("a", '.') == ["a"];
    assert ["a"][1..] == [];
    assert Walk(context, ["a"]) == Walk(value, []);
  }

  /** What reads as a placeholder: braces around one or more letters, digits, underscores
      and dots, and nothing else. */
  lemma PlaceholderPattern(path: string, rest: string)
    requires path != ""
    requires forall i :: 0 <= i < |path| ==>
      'a' <= path[i] <= 'z' || 'A' <= path[i] <= 'Z' || '0' <= path[i] <= '9' || path[i] == '_' || path[i] == '.'
    ensures Scan("{" + path + "}" + rest) == [Hole(path)] + Scan(rest)
  {
    ScanHole(path, rest);
  }

  lemma OnlyPlaceholders(s: string)
    requires s != "" && First(s).Hole?
    ensures var path := First(s).path;
      && s == "{" + path + "}" + AfterFirst(s) && path != ""
      && forall i :: 0 <= i < |path| ==>
           'a' <= path[i] <= 'z' || 'A' <= path[i] <= 'Z' || '0' <= path[i] <= '9' || path[i] == '_' || path[i] == '.'
  {
    SplitFirstToken(s);
  }

  /** A path goes from object to object by its parts; it leads nowhere from anything else
      or past a key that is missing. */
  lemma WalkOnKeys(v: Value, part: string, rest: seq<string>)
    ensures Walk(v, []) == Some(v)
    ensures v.Record? && part in v.fields ==> Walk(v, [part] + rest) == Walk(v.fields[part], rest)
    ensures v.Record? && part !in v.fields ==> Walk(v, [part] + rest) == None
    ensures !v.Record? ==> Walk(v, [part] + rest) == None
  {
    assert ([part] + rest)[1..] == rest;
  }

  /** A dotted path means key by key. */
  lemma PathOnKeys(context: Value, key: string, path: string)
    requires '.' !in key
    ensures context.Record? && key in context.fields ==> ResolvePath(context, key) == Some(context.fields[key])
    ensures context.Record? && key in context.fields ==>
      ResolvePath(context, key + "." + path) == ResolvePath(context.fields[key], path)
    ensures !context.Record? || key !in context.fields ==>
      ResolvePath(context, key) == None && ResolvePath(context, key + "." + path) == None
  {
    SplitFirst(key, '.', path);
    assert key + "." + path == key + ['.'] + path;
    assert Split(key, '.') == [key];
    WalkOnKeys(context, key, []);
    assert [key] + [] == [key];
    WalkOnKeys(context, key, Split(path, '.'));
    if context.Record? && key in context.fields {
      WalkOnKeys(context.fields[key], key, []);
    }
  }

  /** What a placeholder shows: nothing for null, a text as it is, anything else as it
      prints. */
  lemma PlaceholderShows(value: Value)
    ensures var shown := Render([Hole("a")], Record(map["a" := value], ""));
      && (value == Null ==> shown == Ok(""))
      && (forall s :: value == Text(s) ==> shown == Ok(s))
      && (forall repr :: value == Scalar(repr) ==> shown == Ok(repr))
      && (forall fields, repr :: value == Record(fields, repr) ==> shown == Ok(repr))
  {
    var context := Record(map["a" := value], "");
    ResolveKey(value);
    RenderCons(Hole("a"), [], context);
    assert [Hole("a")] + [] == [Hole("a")];
    assert Shown(value) + "" == Shown(value);
  }
}
