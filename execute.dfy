/** Template execution (internal/template/execute.go): the `hyphenize`
    template function and the executeTemplate entry point. Go's text/template
    package is not modelled in full: the engine is a parameter of type
    `Executor` wherever it is used, and `ExecuteTemplate` below is a small
    engine for the template forms the project's templates use (literal text,
    `{{.key}}` and `{{.key|hyphenize}}`). */
module Execute {
  import opened Meta

  /** executeTemplate(templateStr, values): the rendered string or the
      parse/execution error. */
  type Executor = (string, map<string, string>) -> Result<string>

  /** A character that `[^a-z0-9]` does not match. */
  predicate IsNameChar(c: char)
  {
    'a' <= c <= 'z' || '0' <= c <= '9'
  }

  /** hyphenize: every character outside a-z and 0-9 becomes '-'. */
  function Hyphenize(s: string): (r: string)
    ensures |r| == |s|
    ensures forall i :: 0 <= i < |s| ==> (IsNameChar(r[i]) || r[i] == '-')
    ensures forall i :: 0 <= i < |s| && IsNameChar(s[i]) ==> r[i] == s[i]
    ensures forall i :: 0 <= i < |s| && !IsNameChar(s[i]) ==> r[i] == '-'
  {
    if s == [] then [] else [if IsNameChar(s[0]) then s[0] else '-'] + Hyphenize(s[1..])
  }

  /** Hyphenizing twice is hyphenizing once. */
  lemma HyphenizeIdempotent(s: string)
    ensures Hyphenize(Hyphenize(s)) == Hyphenize(s)
  {
    var h := Hyphenize(s);
    assert forall i :: 0 <= i < |h| ==> Hyphenize(h)[i] == h[i];
  }

  /** A string made only of a-z and 0-9 is left alone. */
  lemma HyphenizeNameChars(s: string)
    requires forall i :: 0 <= i < |s| ==> IsNameChar(s[i])
    ensures Hyphenize(s) == s
  {
  }

  /** The version string of execute_internal_test.go, hyphenized. */
  lemma HyphenizeVersion()
    ensures Hyphenize("1.2.3") == "1-2-3"
  {
    assert Hyphenize("1.2.3") == ['1'] + Hyphenize(".2.3");
    assert Hyphenize(".2.3") == ['-'] + Hyphenize("2.3");
    assert Hyphenize("2.3") == ['2'] + Hyphenize(".3");
    assert Hyphenize(".3") == ['-'] + Hyphenize("3");
  }

  predicate IsKeyChar(c: char)
  {
    'a' <= c <= 'z' || 'A' <= c <= 'Z' || '0' <= c <= '9' || c == '_'
  }

  predicate AllKeyChars(k: string)
  {
    k == [] || (IsKeyChar(k[0]) && AllKeyChars(k[1..]))
  }

  lemma {:induction false} AllKeyCharsAt(k: string)
    ensures AllKeyChars(k) <==> forall i :: 0 <= i < |k| ==> IsKeyChar(k[i])
  {
    if k != [] {
      AllKeyCharsAt(k[1..]);
      assert forall i :: 1 <= i < |k| ==> k[i] == k[1..][i - 1];
    }
  }

  /** A field name that text/template reads after a '.': an identifier of
      letters, digits and '_' that does not start with a digit (".9" is the
      number 0.9, and ".1abc" does not parse). */
  predicate IsKey(k: string)
  {
    |k| > 0 && !('0' <= k[0] <= '9') && AllKeyChars(k)
  }

  /** ".9" or ".1abc" is never read as a field: text/template takes a
      digit after '.' as the start of a number, which this engine does not
      support, so the action is refused instead of looking up a key. */
  lemma DigitAfterDotIsNoField(k: string)
    requires |k| > 0 && '0' <= k[0] <= '9'
    ensures ParseAction("." + k).Err?
  {
    var a := "." + k;
    assert a[1..] == k;
    if |a| > |HyphenizeCall| && a[|a| - |HyphenizeCall|..] == HyphenizeCall {
      assert a[1..|a| - |HyphenizeCall|][0] == k[0];
    }
  }

  /** The supported template forms. */
  datatype Node = Text(text: string) | Field(key: string) | HyphenizedField(key: string)

  const HyphenizeCall: string := "|hyphenize"

  /** The inside of one `{{ }}` action. */
  function ParseAction(a: string): Result<Node>
  {
    if |a| > 0 && a[0] == '.' && IsKey(a[1..]) then Ok(Field(a[1..]))
    else if |a| > |HyphenizeCall| && a[0] == '.' && a[|a| - |HyphenizeCall|..] == HyphenizeCall
            && IsKey(a[1..|a| - |HyphenizeCall|]) then
      Ok(HyphenizedField(a[1..|a| - |HyphenizeCall|]))
    else Err(TemplateError("unsupported action"))
  }

  /** An action delimiter ("{{" when c is '{', "}}" when c is '}') starts at index i. */
  predicate DelimAt(s: string, i: int, c: char)
  {
    0 <= i && i + 1 < |s| && s[i] == c && s[i + 1] == c
  }

  /** The first "}}" at or after index i, or -1. */
  function CloseFrom(s: string, i: nat): (j: int)
    ensures j == -1 || (i <= j && DelimAt(s, j, '}'))
    decreases |s| - i
  {
    if i + 1 >= |s| then -1
    else if DelimAt(s, i, '}') then i
    else CloseFrom(s, i + 1)
  }

  /** CloseFrom finds the first "}}": one at index k means one is found at or before k. */
  lemma {:induction false} CloseFromFirst(s: string, i: nat, k: int)
    requires i <= k && DelimAt(s, k, '}')
    ensures i <= CloseFrom(s, i) <= k
    decreases |s| - i
  {
    if !DelimAt(s, i, '}') {
      CloseFromFirst(s, i + 1, k);
    }
  }

  /** Template.Parse for the supported forms, from index i on: text outside
      actions is kept one character per node, an unclosed action and an
      action of another form are parse errors. */
  function ParseFrom(s: string, i: nat): Result<seq<Node>>
    requires i <= |s|
    decreases |s| - i
  {
    if i == |s| then Ok([])
    else if DelimAt(s, i, '{') then
      var j := CloseFrom(s, i + 2);
      if j < 0 then Err(TemplateError("unclosed action"))
      else match ParseAction(s[i + 2..j])
        case Err(e) => Err(e)
        case Ok(n) =>
          match ParseFrom(s, j + 2)
          case Err(e) => Err(e)
          case Ok(ns) => Ok([n] + ns)
    else
      match ParseFrom(s, i + 1)
      case Err(e) => Err(e)
      case Ok(ns) => Ok([Text([s[i]])] + ns)
  }

  /** One node executed with a map[string]string as data: a missing key
      prints "<no value>", and a missing key handed to hyphenize is an
      execution error (nil is not a string). */
  function RenderNode(n: Node, values: map<string, string>): Result<string>
  {
    match n
    case Text(t) => Ok(t)
    case Field(k) => Ok(if k in values then values[k] else "<no value>")
    case HyphenizedField(k) =>
      if k in values then Ok(Hyphenize(values[k])) else Err(TemplateError("invalid value; expected string"))
  }

  /** Template.Execute: the nodes rendered in order, stopping at the first error. */
  function Exec(nodes: seq<Node>, values: map<string, string>): Result<string>
  {
    if nodes == [] then Ok("")
    else
      match RenderNode(nodes[0], values)
      case Err(e) => Err(e)
      case Ok(h) =>
        match Exec(nodes[1..], values)
        case Err(e) => Err(e)
        case Ok(t) => Ok(h + t)
  }

  /** executeTemplate over the supported forms: the whole template is
      parsed before anything is executed. */
  function ExecuteTemplate(tpl: string, values: map<string, string>): Result<string>
  {
    match ParseFrom(tpl, 0)
    case Err(e) => Err(e)
    case Ok(nodes) => Exec(nodes, values)
  }

  lemma {:induction false} ExecuteLiteralFrom(s: string, i: nat, values: map<string, string>)
    requires i <= |s|
    requires forall k :: i <= k ==> !DelimAt(s, k, '{')
    ensures ParseFrom(s, i).Ok? && Exec(ParseFrom(s, i).value, values) == Ok(s[i..])
    decreases |s| - i
  {
    if i < |s| {
      ExecuteLiteralFrom(s, i + 1, values);
      var ns := ParseFrom(s, i + 1).value;
      assert Exec(ns, values) == Ok(s[i + 1..]);
      assert !DelimAt(s, i, '{');
      var nodes := [Text([s[i]])] + ns;
      assert ParseFrom(s, i) == Ok(nodes);
      assert nodes[0] == Text([s[i]]) && nodes[1..] == ns;
      assert RenderNode(nodes[0], values) == Ok([s[i]]);
      assert Exec(nodes, values) == Ok([s[i]] + s[i + 1..]);
      assert [s[i]] + s[i + 1..] == s[i..];
    } else {
      assert s[i..] == [];
    }
  }

  /** Text without "{{" renders to itself, whatever the values. */
  lemma ExecuteLiteral(tpl: string, values: map<string, string>)
    requires forall k :: !DelimAt(tpl, k, '{')
    ensures ExecuteTemplate(tpl, values) == Ok(tpl)
  {
    ExecuteLiteralFrom(tpl, 0, values);
    assert tpl[0..] == tpl;
  }

  /** An action that is the last thing in the template parses as one node. */
  lemma ParseLastAction(s: string, j: int, n: Node)
    requires DelimAt(s, 0, '{') && j == CloseFrom(s, 2) && j + 2 == |s|
    requires ParseAction(s[2..j]) == Ok(n)
    ensures ParseFrom(s, 0) == Ok([n])
  {
    assert ParseFrom(s, j + 2) == Ok([]);
    assert [n] + [] == [n];
  }

  /** A template that is one supported action, whose inside has no '}',
      parses as that action. */
  lemma ParseOneAction(a: string)
    requires forall k :: 0 <= k < |a| ==> a[k] != '}'
    requires ParseAction(a).Ok?
    ensures ParseFrom("{{" + a + "}}", 0) == Ok([ParseAction(a).value])
  {
    var s := "{{" + a + "}}";
    assert DelimAt(s, 0, '{');
    assert DelimAt(s, |a| + 2, '}');
    CloseFromFirst(s, 2, |a| + 2);
    var j := CloseFrom(s, 2);
    forall m | 2 <= m < |a| + 2
      ensures !DelimAt(s, m, '}')
    {
      assert s[m] == a[m - 2];
    }
    assert j == |a| + 2;
    assert s[2..j] == a;
    ParseLastAction(s, j, ParseAction(a).value);
  }

  /** A template of one node renders as that node. */
  lemma ExecOne(n: Node, values: map<string, string>)
    ensures Exec([n], values) == RenderNode(n, values)
  {
    assert [n][1..] == [];
    if RenderNode(n, values).Ok? {
      assert RenderNode(n, values).value + "" == RenderNode(n, values).value;
    }
  }

  /** The action `{{.k}}` alone renders the value of k, or "<no value>". */
  lemma ExecuteField(k: string, values: map<string, string>)
    requires IsKey(k)
    ensures ExecuteTemplate("{{." + k + "}}", values) == Ok(if k in values then values[k] else "<no value>")
  {
    var a := "." + k;
    assert a[1..] == k;
    assert forall i :: 0 <= i < |a| ==> a[i] != '}' by {
      AllKeyCharsAt(k);
      assert forall i :: 1 <= i < |a| ==> a[i] == k[i - 1];
    }
    ParseOneAction(a);
    assert "{{" + a + "}}" == "{{." + k + "}}";
    ExecOne(Field(k), values);
  }

  /** The action `{{.k|hyphenize}}` alone renders the hyphenized value of k,
      and fails when k has no value. */
  lemma ExecuteHyphenizedField(k: string, values: map<string, string>)
    requires IsKey(k)
    ensures ExecuteTemplate("{{." + k + HyphenizeCall + "}}", values)
         == if k in values then Ok(Hyphenize(values[k])) else Err(TemplateError("invalid value; expected string"))
  {
    var a := "." + k + HyphenizeCall;
    AllKeyCharsAt(k);
    assert forall i :: 0 <= i < |a| ==> a[i] != '}' by {
      assert forall i :: 1 <= i <= |k| ==> a[i] == k[i - 1];
      assert forall i :: |k| < i < |a| ==> a[i] == HyphenizeCall[i - |k| - 1];
    }
    assert !IsKey(a[1..]) by {
      AllKeyCharsAt(a[1..]);
      assert a[1..][|k|] == '|';
    }
    assert a[|a| - |HyphenizeCall|..] == HyphenizeCall;
    assert a[1..|a| - |HyphenizeCall|] == k;
    ParseOneAction(a);
    assert "{{" + a + "}}" == "{{." + k + HyphenizeCall + "}}";
    ExecOne(HyphenizedField(k), values);
  }

  /** First form exercised by execute_internal_test.go. */
  lemma ExecuteFieldExample()
    ensures ExecuteTemplate("{{.version}}", map["version" := "1.2.3"]) == Ok("1.2.3")
  {
    assert IsKey("version");
    assert "{{." + "version" + "}}" == "{{.version}}";
    ExecuteField("version", map["version" := "1.2.3"]);
  }

  /** Second form exercised by execute_internal_test.go. */
  lemma ExecuteHyphenizeExample()
    ensures ExecuteTemplate("{{.version|hyphenize}}", map["version" := "1.2.3"]) == Ok("1-2-3")
  {
    assert IsKey("version");
    assert "{{." + "version" + HyphenizeCall + "}}" == "{{.version|hyphenize}}";
    ExecuteHyphenizedField("version", map["version" := "1.2.3"]);
    HyphenizeVersion();
  }
}
