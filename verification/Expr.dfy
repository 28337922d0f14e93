/**
The constrained `!!js` expression evaluator (boot/expr.go): a recursive-descent parser that
evaluates while it parses, the grammar it implements, and the meaning of an expression tree.
 */
module Expr {
  import opened SessionLog

  // ----- Values and their environment -----

  datatype Value = Nil | Bool(b: bool) | Text(s: string) | Number(n: real) | Object(fields: map<string, Value>) | Array(items: seq<Value>)

  datatype Error =
    | UnexpectedEnd | Unexpected(c: char) | ExpectedColon | ExpectedParenthesis | Unterminated | ExpectedMember | ExpectedArgumentEnd | TrailingInput
    | UnsupportedRoot(root: string) | BareProcess | BadEnvForm | BadCwdForm | CwdFailed | UnsupportedMember(member: string)
    | BareCtx | NonObject(field: string, service: string) | CallArity | CallArgument | UnsupportedCall | Uncomparable

  type Outcome = Result<Value, Error>

  /** What an expression can observe, and how the host reads a number. */
  datatype Env = Env(variable: string -> Option<string>, platform: string, cwd: Option<string>, service: string -> Value,
                     home: string -> string, parseFloat: string -> Option<real>)

  /** Exactly four values are not truthy. */
  predicate Truthy(v: Value): (r: bool)
    ensures !r <==> v == Nil || v == Bool(false) || v == Text("") || v == Number(0.0)
  {
    match v
    case Nil => false
    case Bool(b) => b
    case Text(s) => s != ""
    case Number(n) => n != 0.0
    case Object(_) => true
    case Array(_) => true
  }

  /** Strict equality; the host cannot compare two objects or two arrays. */
  function StrictEqual(l: Value, r: Value): (e: Result<bool, Error>)
    ensures e.Err? ==> e.error == Uncomparable && (if l.Object? then r.Object? else l.Array? && r.Array?)
    ensures l.Nil? || r.Nil? ==> e == Ok(l.Nil? && r.Nil?)
    ensures l.Text? && r.Text? ==> e == Ok(l.s == r.s)
    ensures l.Number? && r.Number? ==> e == Ok(l.n == r.n)
    ensures l.Bool? && r.Bool? ==> e == Ok(l.b == r.b)
    ensures e == Ok(true) ==> l == r
    ensures (l.Object? && r.Object?) || (l.Array? && r.Array?) ==> e.Err?
  {
    if (l.Object? && r.Object?) || (l.Array? && r.Array?) then Err(Uncomparable) else Ok(l == r)
  }

  function EvalProcess(env: Env, chain: seq<string>): Outcome {
    if chain == [] then Err(BareProcess)
    else if chain[0] == "env" then
      if |chain| != 2 then Err(BadEnvForm)
      else
        var v := env.variable(chain[1]);
        Ok(if v.None? || v.value == "" then Nil else Text(v.value))
    else if chain[0] == "platform" then Ok(Text(if env.platform == "windows" then "win32" else env.platform))
    else if chain[0] == "cwd" then
      if |chain| != 1 then Err(BadCwdForm)
      else if env.cwd.None? then Err(CwdFailed) else Ok(Text(env.cwd.value))
    else Err(UnsupportedMember(chain[0]))
  }

  /** Reads nested fields; a missing field is undefined and has no fields of its own. */
  function Walk(value: Value, fields: seq<string>, service: string): Outcome
    decreases |fields|
  {
    if fields == [] then Ok(value)
    else if !value.Object? then Err(NonObject(fields[0], service))
    else Walk(if fields[0] in value.fields then value.fields[fields[0]] else Nil, fields[1..], service)
  }

  function EvalService(env: Env, chain: seq<string>): Outcome {
    if chain == [] then Err(BareCtx)
    else
      var service := env.service(chain[0]);
      if service.Nil? then Ok(Nil) else Walk(service, chain[1..], chain[0])
  }

  function EvalChain(env: Env, chain: seq<string>): Outcome
    requires chain != []
  {
    if chain[0] == "process" then EvalProcess(env, chain[1..])
    else if chain[0] == "ctx" then EvalService(env, chain[1..])
    else if chain[0] == "undefined" then Ok(Nil)
    else Err(UnsupportedRoot(chain[0]))
  }

  function EvalCall(env: Env, chain: seq<string>, args: seq<Value>): Outcome {
    if chain == ["dshHomePath"] then
      if |args| != 1 then Err(CallArity)
      else if !args[0].Text? then Err(CallArgument)
      else Ok(Text(env.home(args[0].s)))
    else if chain == ["process", "cwd"] then
      if env.cwd.None? then Err(CwdFailed) else Ok(Text(env.cwd.value))
    else Err(UnsupportedCall)
  }

  // ----- Trees of the grammar, with the blanks before each token -----

  datatype Ternary =
    | Plain(value: Nullish)
    | Conditional(condition: Nullish, question: string, whenTrue: Ternary, colon: string, whenFalse: Ternary)

  datatype Nullish =
    | Single(value: Equality)
    | Fallback(left: Equality, blanks: string, logicalOr: bool, right: Nullish)

  datatype Equality =
    | Operand(value: Primary)
    | Compared(left: Primary, blanks: string, negated: bool, right: Primary)

  datatype Primary =
    | Parenthesized(open: string, inner: Ternary, close: string)
    | Quoted(blanks: string, quote: char, text: string)
    | Undefined(blanks: string)
    | Numeral(blanks: string, digits: string)
    | Chain(blanks: string, root: string, members: Members)
    | Call(blanks: string, root: string, members: Members, open: string, args: Arguments)

  datatype Members = NoMembers | Member(dot: string, blanks: string, name: string, more: Members)

  datatype Arguments = NoArguments(close: string) | SomeArguments(first: Ternary, more: MoreArguments)

  datatype MoreArguments = LastArgument(close: string) | NextArgument(comma: string, next: Ternary, more: MoreArguments)

  predicate IsBlank(c: char) { c == ' ' || c == '\t' }

  predicate Blank(s: string) { forall i :: 0 <= i < |s| ==> IsBlank(s[i]) }

  predicate Letter(c: char) { c == '_' || 'a' <= c <= 'z' || 'A' <= c <= 'Z' }

  predicate Digit(c: char) { '0' <= c <= '9' }

  /** A chain's root may also hold any byte from 0x80 on; its members may not. */
  predicate RootByte(c: char) { Letter(c) || c as int >= 0x80 }

  predicate IsRoot(s: string) {
    s != "" && RootByte(s[0]) && (forall i :: 0 <= i < |s| ==> RootByte(s[i]) || Digit(s[i])) && !("undefined" <= s)
  }

  predicate IsName(s: string) {
    s != "" && Letter(s[0]) && forall i :: 0 <= i < |s| ==> Letter(s[i]) || Digit(s[i])
  }

  predicate IsNumeral(env: Env, s: string) {
    s != "" && (forall i :: 0 <= i < |s| ==> Digit(s[i]) || s[i] == '.') && env.parseFloat(s).Some?
  }

  predicate FormedTernary(env: Env, e: Ternary) {
    match e
    case Plain(v) => FormedNullish(env, v)
    case Conditional(c, question, t, colon, f) =>
      FormedNullish(env, c) && Blank(question) && FormedTernary(env, t) && Blank(colon) && FormedTernary(env, f)
  }

  predicate FormedNullish(env: Env, e: Nullish) {
    match e
    case Single(v) => FormedEquality(env, v)
    case Fallback(l, blanks, _, r) => FormedEquality(env, l) && Blank(blanks) && FormedNullish(env, r)
  }

  predicate FormedEquality(env: Env, e: Equality) {
    match e
    case Operand(v) => FormedPrimary(env, v)
    case Compared(l, blanks, _, r) => FormedPrimary(env, l) && Blank(blanks) && FormedPrimary(env, r)
  }

  predicate FormedPrimary(env: Env, e: Primary) {
    match e
    case Parenthesized(open, inner, close) => Blank(open) && FormedTernary(env, inner) && Blank(close)
    case Quoted(blanks, quote, text) => Blank(blanks) && (quote == '\'' || quote == '"') && quote !in text
    case Undefined(blanks) => Blank(blanks)
    case Numeral(blanks, digits) => Blank(blanks) && IsNumeral(env, digits)
    case Chain(blanks, root, members) => Blank(blanks) && IsRoot(root) && FormedMembers(members)
    case Call(blanks, root, members, open, args) =>
      Blank(blanks) && IsRoot(root) && FormedMembers(members) && Blank(open) && FormedArguments(env, args)
  }

  predicate FormedMembers(m: Members) {
    m.Member? ==> Blank(m.dot) && Blank(m.blanks) && IsName(m.name) && FormedMembers(m.more)
  }

  predicate FormedArguments(env: Env, a: Arguments) {
    match a
    case NoArguments(close) => Blank(close)
    case SomeArguments(first, more) => FormedTernary(env, first) && FormedMore(env, more)
  }

  predicate FormedMore(env: Env, a: MoreArguments) {
    match a
    case LastArgument(close) => Blank(close)
    case NextArgument(comma, next, more) => Blank(comma) && FormedTernary(env, next) && FormedMore(env, more)
  }

  // ----- Printing, in front of the text that follows -----

  function Token(blanks: string, token: string, rest: string): string {
    blanks + (token + rest)
  }

  function PrintTernary(e: Ternary, rest: string): string {
    match e
    case Plain(v) => PrintNullish(v, rest)
    case Conditional(c, question, t, colon, f) =>
      PrintNullish(c, Token(question, "?", PrintTernary(t, Token(colon, ":", PrintTernary(f, rest)))))
  }

  function PrintNullish(e: Nullish, rest: string): string {
    match e
    case Single(v) => PrintEquality(v, rest)
    case Fallback(l, blanks, logicalOr, r) => PrintEquality(l, Token(blanks, if logicalOr then "||" else "??", PrintNullish(r, rest)))
  }

  function PrintEquality(e: Equality, rest: string): string {
    match e
    case Operand(v) => PrintPrimary(v, rest)
    case Compared(l, blanks, negated, r) => PrintPrimary(l, Token(blanks, if negated then "!==" else "===", PrintPrimary(r, rest)))
  }

  function PrintPrimary(e: Primary, rest: string): string {
    match e
    case Parenthesized(open, inner, close) => Token(open, "(", PrintTernary(inner, Token(close, ")", rest)))
    case Quoted(blanks, quote, text) => Token(blanks, [quote], Token(text, [quote], rest))
    case Undefined(blanks) => Token(blanks, "undefined", rest)
    case Numeral(blanks, digits) => Token(blanks, digits, rest)
    case Chain(blanks, root, members) => Token(blanks, root, PrintMembers(members, rest))
    case Call(blanks, root, members, open, args) => Token(blanks, root, PrintMembers(members, Token(open, "(", PrintArguments(args, rest))))
  }

  function PrintMembers(m: Members, rest: string): string {
    if m.NoMembers? then rest else Token(m.dot, ".", Token(m.blanks, m.name, PrintMembers(m.more, rest)))
  }

  function PrintArguments(a: Arguments, rest: string): string {
    match a
    case NoArguments(close) => Token(close, ")", rest)
    case SomeArguments(first, more) => PrintTernary(first, PrintMore(more, rest))
  }

  function PrintMore(a: MoreArguments, rest: string): string {
    match a
    case LastArgument(close) => Token(close, ")", rest)
    case NextArgument(comma, next, more) => Token(comma, ",", PrintTernary(next, PrintMore(more, rest)))
  }

  // ----- Meaning: every operand is evaluated, left to right, and the first error wins -----

  function MeanTernary(env: Env, e: Ternary): Outcome {
    match e
    case Plain(v) => MeanNullish(env, v)
    case Conditional(c, _, t, _, f) =>
      var condition := MeanNullish(env, c);
      if condition.Err? then condition
      else
        var whenTrue := MeanTernary(env, t);
        if whenTrue.Err? then whenTrue
        else
          var whenFalse := MeanTernary(env, f);
          if whenFalse.Err? || !Truthy(condition.value) then whenFalse else whenTrue
  }

  function MeanNullish(env: Env, e: Nullish): Outcome {
    match e
    case Single(v) => MeanEquality(env, v)
    case Fallback(l, _, logicalOr, r) =>
      var left := MeanEquality(env, l);
      if left.Err? then left
      else
        var right := MeanNullish(env, r);
        if right.Err? then right
        else if (if logicalOr then Truthy(left.value) else left.value != Nil) then left
        else right
  }

  function MeanEquality(env: Env, e: Equality): Outcome {
    match e
    case Operand(v) => MeanPrimary(env, v)
    case Compared(l, _, negated, r) =>
      var left := MeanPrimary(env, l);
      if left.Err? then left
      else
        var right := MeanPrimary(env, r);
        if right.Err? then right
        else
          var equal := StrictEqual(left.value, right.value);
          if equal.Err? then Err(equal.error) else Ok(Bool(equal.value != negated))
  }

  function MeanPrimary(env: Env, e: Primary): Outcome {
    match e
    case Parenthesized(_, inner, _) => MeanTernary(env, inner)
    case Quoted(_, _, text) => Ok(Text(text))
    case Undefined(_) => Ok(Nil)
    // A formed numeral is always readable.
    case Numeral(_, digits) => if env.parseFloat(digits).Some? then Ok(Number(env.parseFloat(digits).value)) else Err(UnexpectedEnd)
    case Chain(_, root, members) => EvalChain(env, [root] + Names(members))
    case Call(_, root, members, _, args) =>
      var values := MeanArguments(env, args);
      if values.Err? then Err(values.error) else EvalCall(env, [root] + Names(members), values.value)
  }

  function Names(m: Members): seq<string> {
    if m.NoMembers? then [] else [m.name] + Names(m.more)
  }

  function MeanArguments(env: Env, a: Arguments): Result<seq<Value>, Error> {
    match a
    case NoArguments(_) => Ok([])
    case SomeArguments(first, more) =>
      var v := MeanTernary(env, first);
      if v.Err? then Err(v.error) else MeanMore(env, more, [v.value])
  }

  function MeanMore(env: Env, a: MoreArguments, before: seq<Value>): Result<seq<Value>, Error> {
    match a
    case LastArgument(_) => Ok(before)
    case NextArgument(_, next, more) =>
      var v := MeanTernary(env, next);
      if v.Err? then Err(v.error) else MeanMore(env, more, before + [v.value])
  }

  // ----- What the parser computes on the remaining input -----

  datatype Parsed<T> = Parsed(value: T, rest: string) | Fault(error: Error)

  function Skip(s: string): (r: string)
    ensures |r| <= |s| && (r != "" ==> !IsBlank(r[0]))
  {
    if s != "" && IsBlank(s[0]) then Skip(s[1..]) else s
  }

  function Consume(s: string, token: string): (r: Option<string>)
    ensures r.Some? ==> |r.value| + |token| <= |s|
  {
    var t := Skip(s);
    if token <= t then Some(t[|token|..]) else None
  }

  /** How many leading bytes a scan takes: digits do not start a name. */
  function Span(s: string, start: char -> bool, part: char -> bool): (n: nat)
    ensures n <= |s|
  {
    if s != "" && start(s[0]) then 1 + Span(s[1..], part, part) else 0
  }

  predicate NumeralByte(c: char) { Digit(c) || c == '.' }

  predicate RootPart(c: char) { RootByte(c) || Digit(c) }

  predicate NamePart(c: char) { Letter(c) || Digit(c) }

  function IndexOf(s: string, c: char): (i: nat)
    ensures i <= |s| && (i < |s| <==> c in s) && (i < |s| ==> s[i] == c)
  {
    if s == "" || s[0] == c then 0 else 1 + IndexOf(s[1..], c)
  }

  function ParseTernary(env: Env, s: string): (r: Parsed<Value>)
    ensures r.Parsed? ==> |r.rest| < |s|
    decreases |s|, 4
  {
    var condition := ParseNullish(env, s);
    if condition.Fault? then condition
    else match Consume(condition.rest, "?")
      case None => Parsed(condition.value, Skip(condition.rest))
      case Some(afterQuestion) =>
        var whenTrue := ParseTernary(env, afterQuestion);
        if whenTrue.Fault? then whenTrue
        else match Consume(whenTrue.rest, ":")
          case None => Fault(ExpectedColon)
          case Some(afterColon) =>
            var whenFalse := ParseTernary(env, afterColon);
            if whenFalse.Fault? then whenFalse
            else Parsed(if Truthy(condition.value) then whenTrue.value else whenFalse.value, whenFalse.rest)
  }

  function ParseNullish(env: Env, s: string): (r: Parsed<Value>)
    ensures r.Parsed? ==> |r.rest| < |s|
    decreases |s|, 3
  {
    var left := ParseEquality(env, s);
    if left.Fault? then left
    else match Consume(left.rest, "??")
      case Some(after) =>
        var right := ParseNullish(env, after);
        if right.Fault? then right else Parsed(if left.value == Nil then right.value else left.value, right.rest)
      case None =>
        match Consume(left.rest, "||")
        case Some(after) =>
          var right := ParseNullish(env, after);
          if right.Fault? then right else Parsed(if Truthy(left.value) then left.value else right.value, right.rest)
        case None => Parsed(left.value, Skip(left.rest))
  }

  function Comparison(left: Value, right: Parsed<Value>, negated: bool): (r: Parsed<Value>)
    ensures r.Parsed? ==> right.Parsed? && r.rest == right.rest
  {
    if right.Fault? then right
    else
      var equal := StrictEqual(left, right.value);
      if equal.Err? then Fault(equal.error) else Parsed(Bool(equal.value != negated), right.rest)
  }

  function ParseEquality(env: Env, s: string): (r: Parsed<Value>)
    ensures r.Parsed? ==> |r.rest| < |s|
    decreases |s|, 2
  {
    var left := ParsePrimary(env, s);
    if left.Fault? then left
    else match Consume(left.rest, "===")
      case Some(after) => Comparison(left.value, ParsePrimary(env, after), false)
      case None =>
        match Consume(left.rest, "!==")
        case Some(after) => Comparison(left.value, ParsePrimary(env, after), true)
        case None => Parsed(left.value, Skip(left.rest))
  }

  function ParsePrimary(env: Env, s: string): (r: Parsed<Value>)
    ensures r.Parsed? ==> |r.rest| < |s|
    decreases |s|, 1
  {
    var t := Skip(s);
    if t == "" then Fault(UnexpectedEnd)
    else if t[0] == '(' then
      var inner := ParseTernary(env, t[1..]);
      if inner.Fault? then inner
      else match Consume(inner.rest, ")")
        case None => Fault(ExpectedParenthesis)
        case Some(after) => Parsed(inner.value, after)
    else ParseWord(env, t)
  }

  /** A literal, or a chain and its root. */
  function ParseWord(env: Env, t: string): (r: Parsed<Value>)
    requires t != ""
    ensures r.Parsed? ==> |r.rest| < |t|
    decreases |t|, 0
  {
    if t[0] == '\'' || t[0] == '"' then
      var text := t[1..];
      var end := IndexOf(text, t[0]);
      if end == |text| then Fault(Unterminated) else Parsed(Text(text[..end]), text[end + 1..])
    else if "undefined" <= t then Parsed(Nil, t[9..])
    else
      var digits := Span(t, NumeralByte, NumeralByte);
      if digits > 0 && env.parseFloat(t[..digits]).Some? then Parsed(Number(env.parseFloat(t[..digits]).value), t[digits..])
      else
        var root := Span(t, RootByte, RootPart);
        if root == 0 then Fault(Unexpected(t[0])) else ParseChain(env, [t[..root]], t[root..])
  }

  function Finish(value: Outcome, rest: string): Parsed<Value> {
    if value.Err? then Fault(value.error) else Parsed(value.value, rest)
  }

  function ParseChain(env: Env, chain: seq<string>, s: string): (r: Parsed<Value>)
    requires chain != []
    ensures r.Parsed? ==> |r.rest| <= |s|
    decreases |s|, 1
  {
    match Consume(s, ".")
    case Some(after) =>
      var t := Skip(after);
      var name := Span(t, Letter, NamePart);
      if name == 0 then Fault(ExpectedMember) else ParseChain(env, chain + [t[..name]], t[name..])
    case None =>
      match Consume(s, "(")
      case Some(after) =>
        var args := ParseArguments(env, after);
        if args.Fault? then Fault(args.error) else Finish(EvalCall(env, chain, args.value), args.rest)
      case None => Finish(EvalChain(env, chain), Skip(s))
  }

  function ParseArguments(env: Env, s: string): (r: Parsed<seq<Value>>)
    ensures r.Parsed? ==> |r.rest| <= |s|
    decreases |s|, 6
  {
    match Consume(s, ")")
    case Some(after) => Parsed([], after)
    case None => ParseMore(env, Skip(s), [])
  }

  function ParseMore(env: Env, s: string, before: seq<Value>): (r: Parsed<seq<Value>>)
    ensures r.Parsed? ==> |r.rest| <= |s|
    decreases |s|, 5
  {
    var arg := ParseTernary(env, s);
    if arg.Fault? then Fault(arg.error)
    else match Consume(arg.rest, ",")
      case Some(after) => ParseMore(env, Skip(after), before + [arg.value])
      case None =>
        match Consume(arg.rest, ")")
        case Some(after) => Parsed(before + [arg.value], after)
        case None => Fault(ExpectedArgumentEnd)
  }

  function Evaluate(env: Env, source: string): Outcome {
    match ParseTernary(env, source)
    case Fault(e) => Err(e)
    case Parsed(v, rest) => if Skip(rest) == "" then Ok(v) else Err(TrailingInput)
  }

  // ----- Reading back what was printed -----

  predicate StartsWith(s: string, allowed: set<char>) {
    var t := Skip(s);
    t == "" || t[0] in allowed
  }

  /** What may follow each level of the grammar. */
  predicate EndsPrimary(rest: string) { StartsWith(rest, {')', ',', ':', '?', '|', '=', '!'}) }

  predicate EndsEquality(rest: string) { StartsWith(rest, {')', ',', ':', '?', '|'}) }

  predicate EndsNullish(rest: string) { StartsWith(rest, {')', ',', ':', '?'}) && !("??" <= Skip(rest)) }

  predicate EndsTernary(rest: string) { StartsWith(rest, {')', ',', ':'}) }

  /** The parser found the meaning and stopped, up to blanks, at the text that follows. */
  predicate Reads(meaning: Outcome, parsed: Parsed<Value>, rest: string) {
    match meaning
    case Ok(v) => parsed.Parsed? && parsed.value == v && Skip(parsed.rest) == Skip(rest)
    case Err(e) => parsed == Fault(e)
  }

  lemma {:induction false} SkipBlanks(blanks: string, s: string)
    requires Blank(blanks) && (s == "" || !IsBlank(s[0]))
    ensures Skip(blanks + s) == s
  {
    if blanks == "" {
      assert blanks + s == s;
    } else {
      assert (blanks + s)[1..] == blanks[1..] + s;
      SkipBlanks(blanks[1..], s);
    }
  }

  lemma SkipToken(blanks: string, token: string, rest: string)
    requires Blank(blanks) && token != "" && !IsBlank(token[0])
    ensures Skip(Token(blanks, token, rest)) == token + rest
  {
    SkipBlanks(blanks, token + rest);
  }

  lemma {:induction false} SkipTwice(s: string)
    ensures Skip(Skip(s)) == Skip(s)
  {
    if s != "" && IsBlank(s[0]) { SkipTwice(s[1..]); }
  }

  /** Wherever the parser stands in the blanks, it finds the token. */
  lemma FindsToken(s: string, blanks: string, token: string, rest: string)
    requires Skip(s) == Skip(Token(blanks, token, rest)) && Blank(blanks) && token != "" && !IsBlank(token[0])
    ensures Consume(s, token) == Some(rest)
  {
    SkipToken(blanks, token, rest);
    assert (token + rest)[|token|..] == rest;
  }

  lemma MissesToken(s: string, token: string)
    requires token != "" && (Skip(s) == "" || Skip(s)[0] != token[0])
    ensures Consume(s, token) == None
  {
  }

  lemma TokenStarts(blanks: string, token: string, rest: string, allowed: set<char>)
    requires Blank(blanks) && token != "" && !IsBlank(token[0]) && token[0] in allowed
    ensures StartsWith(Token(blanks, token, rest), allowed)
  {
    SkipToken(blanks, token, rest);
  }

  /** The first byte of a text is a blank or the first byte after its blanks. */
  lemma RawStart(s: string)
    ensures s != "" ==> IsBlank(s[0]) || Skip(s) == s
    ensures Skip(s) != "" ==> s != ""
  {
  }

  lemma {:induction false} SpanOf(d: string, rest: string, start: char -> bool, part: char -> bool)
    requires d != "" ==> start(d[0]) && forall i :: 0 < i < |d| ==> part(d[i])
    requires rest == "" || (!part(rest[0]) && (d == "" ==> !start(rest[0])))
    ensures Span(d + rest, start, part) == |d|
  {
    if d == "" {
      assert d + rest == rest;
    } else {
      assert (d + rest)[1..] == d[1..] + rest;
      assert forall i :: 0 <= i < |d[1..]| ==> d[1..][i] == d[i + 1];
      SpanOf(d[1..], rest, part, part);
    }
  }

  // What may start an expression: neither of these.
  predicate Starts(s: string) { Skip(s) != "" && Skip(s)[0] !in {'?', ')'} }

  lemma PrimaryStarts(env: Env, e: Primary, rest: string)
    requires FormedPrimary(env, e)
    ensures Starts(PrintPrimary(e, rest))
  {
    hide FormedTernary, FormedMembers, FormedArguments, Blank, Skip, Token;
    match e
    case Parenthesized(open, inner, close) => SkipToken(open, "(", PrintTernary(inner, Token(close, ")", rest)));
    case Quoted(blanks, quote, text) => SkipToken(blanks, [quote], Token(text, [quote], rest));
    case Undefined(blanks) => SkipToken(blanks, "undefined", rest);
    case Numeral(blanks, digits) => SkipToken(blanks, digits, rest);
    case Chain(blanks, root, members) => SkipToken(blanks, root, PrintMembers(members, rest));
    case Call(blanks, root, members, open, args) => SkipToken(blanks, root, PrintMembers(members, Token(open, "(", PrintArguments(args, rest))));
  }

  lemma EqualityStarts(env: Env, e: Equality, rest: string)
    requires FormedEquality(env, e)
    ensures Starts(PrintEquality(e, rest))
  {
    hide Starts, FormedPrimary, PrintPrimary, Token;
    match e
    case Operand(v) => PrimaryStarts(env, v, rest);
    case Compared(l, blanks, negated, r) => PrimaryStarts(env, l, Token(blanks, if negated then "!==" else "===", PrintPrimary(r, rest)));
  }

  lemma NullishStarts(env: Env, e: Nullish, rest: string)
    requires FormedNullish(env, e)
    ensures Starts(PrintNullish(e, rest))
  {
    hide Starts, FormedEquality, PrintEquality, Token;
    match e
    case Single(v) => EqualityStarts(env, v, rest);
    case Fallback(l, blanks, logicalOr, r) => EqualityStarts(env, l, Token(blanks, if logicalOr then "||" else "??", PrintNullish(r, rest)));
  }

  lemma TernaryStarts(env: Env, e: Ternary, rest: string)
    requires FormedTernary(env, e)
    ensures Starts(PrintTernary(e, rest))
  {
    hide Starts, FormedNullish, PrintNullish, Token;
    match e
    case Plain(v) => NullishStarts(env, v, rest);
    case Conditional(c, question, t, colon, f) =>
      NullishStarts(env, c, Token(question, "?", PrintTernary(t, Token(colon, ":", PrintTernary(f, rest)))));
  }

  lemma PrimarySkipped(env: Env, s: string)
    ensures ParsePrimary(env, Skip(s)) == ParsePrimary(env, s)
  {
    hide ParseTernary, ParseWord;
    SkipTwice(s);
  }

  lemma EqualitySkipped(env: Env, s: string)
    ensures ParseEquality(env, Skip(s)) == ParseEquality(env, s)
  {
    hide ParsePrimary, Consume, Comparison;
    PrimarySkipped(env, s);
  }

  lemma NullishSkipped(env: Env, s: string)
    ensures ParseNullish(env, Skip(s)) == ParseNullish(env, s)
  {
    hide ParseEquality, Consume, Truthy;
    EqualitySkipped(env, s);
  }

  /** Leading blanks do not matter. */
  lemma TernarySkipped(env: Env, s: string)
    ensures ParseTernary(env, Skip(s)) == ParseTernary(env, s)
  {
    hide ParseNullish, Consume, Truthy;
    NullishSkipped(env, s);
  }

  // ----- Chains -----

  lemma EndIsPlain(rest: string)
    requires EndsPrimary(rest)
    ensures rest == "" || (!RootPart(rest[0]) && !NamePart(rest[0]) && !NumeralByte(rest[0]))
    ensures Skip(rest) == "" || Skip(rest)[0] !in {'.', '('}
  {
    RawStart(rest);
  }

  /** A member list in front of a plain text starts plain, too. */
  lemma MembersArePlain(m: Members, rest: string)
    requires FormedMembers(m) && (rest == "" || (!RootPart(rest[0]) && !NamePart(rest[0])))
    ensures var s := PrintMembers(m, rest);
            s == "" || (!RootPart(s[0]) && !NamePart(s[0]))
  {
    if m.Member? {
      var s := PrintMembers(m, rest);
      assert m.dot != "" ==> s[0] == m.dot[0];
      assert m.dot == "" ==> s[0] == '.';
    }
  }

  lemma ReadsMember(env: Env, chain: seq<string>, dot: string, blanks: string, name: string, tail: string)
    requires chain != [] && Blank(dot) && Blank(blanks) && IsName(name) && (tail == "" || !NamePart(tail[0]))
    ensures ParseChain(env, chain, Token(dot, ".", Token(blanks, name, tail))) == ParseChain(env, chain + [name], tail)
  {
    var afterDot := Token(blanks, name, tail);
    FindsToken(Token(dot, ".", afterDot), dot, ".", afterDot);
    SkipToken(blanks, name, tail);
    SpanOf(name, tail, Letter, NamePart);
    assert (name + tail)[..|name|] == name && (name + tail)[|name|..] == tail;
    hide Token, Skip, Consume, Span;
  }

  /** The chain loop collects exactly the member names. */
  lemma {:induction false} ReadsMembers(env: Env, chain: seq<string>, m: Members, rest: string)
    requires chain != [] && FormedMembers(m) && (rest == "" || (!RootPart(rest[0]) && !NamePart(rest[0])))
    ensures ParseChain(env, chain, PrintMembers(m, rest)) == ParseChain(env, chain + Names(m), rest)
    decreases m
  {
    hide ParseChain, Token, NamePart, RootPart;
    if m.NoMembers? {
      assert chain + Names(m) == chain;
    } else {
      MembersArePlain(m.more, rest);
      ReadsMember(env, chain, m.dot, m.blanks, m.name, PrintMembers(m.more, rest));
      ReadsMembers(env, chain + [m.name], m.more, rest);
      assert chain + [m.name] + Names(m.more) == chain + Names(m);
    }
  }

  lemma NotUndefined(root: string, tail: string)
    requires !("undefined" <= root) && (tail == "" || !RootPart(tail[0]))
    ensures !("undefined" <= root + tail)
  {
    var word, t := "undefined", root + tail;
    if |root| >= 9 {
      assert t[..9] == root[..9];
    } else if tail != "" {
      assert t[|root|] == tail[0] && RootPart(word[|root|]);
    }
  }

  /** A root is read whole: it is no keyword, no numeral and no bracket. */
  lemma ReadsRoot(env: Env, blanks: string, root: string, tail: string)
    requires Blank(blanks) && IsRoot(root) && (tail == "" || !RootPart(tail[0]))
    ensures ParsePrimary(env, Token(blanks, root, tail)) == ParseChain(env, [root], tail)
  {
    hide ParseChain, ParseTernary, Token;
    SkipToken(blanks, root, tail);
    var t := root + tail;
    assert t[0] == root[0];
    NotUndefined(root, tail);
    assert Span(t, NumeralByte, NumeralByte) == 0;
    SpanOf(root, tail, RootByte, RootPart);
    assert t[..|root|] == root && t[|root|..] == tail;
  }

  /** A chain that no bracket follows is evaluated as it stands. */
  lemma ReadsChain(env: Env, chain: seq<string>, rest: string)
    requires chain != [] && EndsPrimary(rest)
    ensures ParseChain(env, chain, rest) == Finish(EvalChain(env, chain), Skip(rest))
  {
    hide EvalChain;
    EndIsPlain(rest);
    MissesToken(rest, ".");
    MissesToken(rest, "(");
  }

  /** A bracket after a chain makes it a call. */
  lemma ReadsCall(env: Env, chain: seq<string>, open: string, tail: string)
    requires chain != [] && Blank(open)
    ensures ParseChain(env, chain, Token(open, "(", tail)) ==
            var args := ParseArguments(env, tail);
            if args.Fault? then Fault(args.error) else Finish(EvalCall(env, chain, args.value), args.rest)
  {
    hide EvalCall, ParseArguments;
    var s := Token(open, "(", tail);
    SkipToken(open, "(", tail);
    MissesToken(s, ".");
    FindsToken(s, open, "(", tail);
  }

  // ----- The round trip -----

  lemma QuotedParts(text: string, quote: char, rest: string)
    requires quote !in text
    ensures var tail := Token(text, [quote], rest);
            IndexOf(tail, quote) == |text| < |tail| && tail[..|text|] == text && tail[|text| + 1..] == rest
  {
    IndexOfQuote(text, quote, rest);
  }

  lemma ReadsQuoted(env: Env, blanks: string, quote: char, text: string, rest: string)
    requires Blank(blanks) && (quote == '\'' || quote == '"') && quote !in text
    ensures ParsePrimary(env, Token(blanks, [quote], Token(text, [quote], rest))) == Parsed(Text(text), rest)
  {
    hide ParseTernary, ParseChain, Token, IndexOf, Span;
    var tail := Token(text, [quote], rest);
    SkipToken(blanks, [quote], tail);
    var t := [quote] + tail;
    assert t[0] == quote && t[1..] == tail;
    QuotedParts(text, quote, rest);
  }

  lemma {:induction false} IndexOfQuote(text: string, quote: char, rest: string)
    requires quote !in text
    ensures IndexOf(text + ([quote] + rest), quote) == |text|
  {
    if text != "" {
      assert (text + ([quote] + rest))[1..] == text[1..] + ([quote] + rest);
      IndexOfQuote(text[1..], quote, rest);
    }
  }

  lemma ReadsUndefined(env: Env, blanks: string, rest: string)
    requires Blank(blanks)
    ensures ParsePrimary(env, Token(blanks, "undefined", rest)) == Parsed(Nil, rest)
  {
    hide ParseTernary, ParseChain, Span;
    SkipToken(blanks, "undefined", rest);
    assert ("undefined" + rest)[9..] == rest;
  }

  lemma ReadsNumeral(env: Env, blanks: string, digits: string, rest: string)
    requires Blank(blanks) && IsNumeral(env, digits) && EndsPrimary(rest)
    ensures ParsePrimary(env, Token(blanks, digits, rest)) == Parsed(Number(env.parseFloat(digits).value), rest)
  {
    hide ParseTernary, ParseChain;
    EndIsPlain(rest);
    SkipToken(blanks, digits, rest);
    var t := digits + rest;
    assert t[0] == digits[0] && !("undefined" <= t);
    SpanOf(digits, rest, NumeralByte, NumeralByte);
    assert t[..|digits|] == digits && t[|digits|..] == rest;
  }

  lemma ReadsParenthesized(env: Env, open: string, close: string, tail: string, meaning: Outcome, rest: string)
    requires Blank(open) && Blank(close) && Reads(meaning, ParseTernary(env, tail), Token(close, ")", rest))
    ensures Reads(meaning, ParsePrimary(env, Token(open, "(", tail)), rest)
  {
    hide ParseTernary, ParseChain, Span, IndexOf, Token;
    SkipToken(open, "(", tail);
    assert ("(" + tail)[1..] == tail && ("(" + tail)[0] == '(';
    if meaning.Ok? { FindsToken(ParseTernary(env, tail).rest, close, ")", rest); }
  }

  lemma CloseEndsTernary(close: string, token: string, rest: string)
    requires Blank(close) && token in {")", ",", ":"}
    ensures EndsTernary(Token(close, token, rest))
  {
    TokenStarts(close, token, rest, {')', ',', ':'});
  }

  lemma FinishReads(value: Outcome, rest: string)
    ensures Reads(value, Finish(value, Skip(rest)), rest) && Reads(value, Finish(value, rest), rest)
  {
    SkipTwice(rest);
  }

  /** The text of a chain or a call starts plain after its root. */
  lemma AfterRoot(m: Members, rest: string)
    requires FormedMembers(m) && (EndsPrimary(rest) || (exists open, tail :: Blank(open) && rest == Token(open, "(", tail)))
    ensures rest == "" || (!RootPart(rest[0]) && !NamePart(rest[0]))
    ensures var s := PrintMembers(m, rest);
            s == "" || (!RootPart(s[0]) && !NamePart(s[0]))
  {
    if EndsPrimary(rest) {
      EndIsPlain(rest);
    } else {
      var open, tail :| Blank(open) && rest == Token(open, "(", tail);
      assert rest[0] == if open == "" then '(' else open[0];
    }
    MembersArePlain(m, rest);
  }

  /** Reading back a printed primary expression gives its meaning. */
  lemma {:induction false} RoundPrimary(env: Env, e: Primary, rest: string)
    requires FormedPrimary(env, e) && EndsPrimary(rest)
    ensures Reads(MeanPrimary(env, e), ParsePrimary(env, PrintPrimary(e, rest)), rest)
    decreases e
  {
    hide ParsePrimary, ParseChain, ParseTernary, ParseArguments, Token, EvalChain, EvalCall, IsRoot, IsNumeral, RootPart, NamePart, Blank;
    match e
    case Parenthesized(open, inner, close) =>
      CloseEndsTernary(close, ")", rest);
      RoundTernary(env, inner, Token(close, ")", rest));
      ReadsParenthesized(env, open, close, PrintTernary(inner, Token(close, ")", rest)), MeanTernary(env, inner), rest);
    case Quoted(blanks, quote, text) => ReadsQuoted(env, blanks, quote, text, rest);
    case Undefined(blanks) => ReadsUndefined(env, blanks, rest);
    case Numeral(blanks, digits) =>
      ReadsNumeral(env, blanks, digits, rest);
      assert IsNumeral(env, digits) ==> env.parseFloat(digits).Some? by { NumeralsParse(env, digits); }
    case Chain(blanks, root, members) =>
      AfterRoot(members, rest);
      ReadsRoot(env, blanks, root, PrintMembers(members, rest));
      ReadsMembers(env, [root], members, rest);
      ReadsChain(env, [root] + Names(members), rest);
      FinishReads(EvalChain(env, [root] + Names(members)), rest);
    case Call(blanks, root, members, open, args) =>
      var tail := PrintArguments(args, rest);
      AfterRoot(members, Token(open, "(", tail));
      ReadsRoot(env, blanks, root, PrintMembers(members, Token(open, "(", tail)));
      ReadsMembers(env, [root], members, Token(open, "(", tail));
      ReadsCall(env, [root] + Names(members), open, tail);
      RoundArguments(env, args, rest);
      if MeanArguments(env, args).Ok? {
        FinishReads(EvalCall(env, [root] + Names(members), MeanArguments(env, args).value), rest);
      }
  }

  lemma NumeralsParse(env: Env, digits: string)
    ensures IsNumeral(env, digits) ==> env.parseFloat(digits).Some?
  {
  }

  ghost predicate ReadsAll(meaning: Result<seq<Value>, Error>, parsed: Parsed<seq<Value>>, rest: string) {
    parsed == match meaning case Ok(values) => Parsed(values, rest) case Err(e) => Fault(e)
  }

  lemma {:induction false} RoundArguments(env: Env, a: Arguments, rest: string)
    requires FormedArguments(env, a)
    ensures ReadsAll(MeanArguments(env, a), ParseArguments(env, PrintArguments(a, rest)), rest)
    decreases a
  {
    hide ParseTernary, Token, Blank;
    match a
    case NoArguments(close) => FindsToken(Token(close, ")", rest), close, ")", rest);
    case SomeArguments(first, more) =>
      var s := PrintArguments(a, rest);
      TernaryStarts(env, first, PrintMore(more, rest));
      MissesToken(s, ")");
      TernarySkipped(env, s);
      MoreEndsTernary(env, more, rest);
      RoundTernary(env, first, PrintMore(more, rest));
      AfterArgument(env, Skip(s), first, more, rest, []);
      assert MeanTernary(env, first).Ok? ==> [] + [MeanTernary(env, first).value] == [MeanTernary(env, first).value];
  }

  lemma MoreEndsTernary(env: Env, more: MoreArguments, rest: string)
    requires FormedMore(env, more)
    ensures EndsTernary(PrintMore(more, rest))
  {
    match more
    case LastArgument(close) => CloseEndsTernary(close, ")", rest);
    case NextArgument(comma, next, again) => CloseEndsTernary(comma, ",", PrintTernary(next, PrintMore(again, rest)));
  }

  /** One argument was read; the loop goes on with the rest of the list. */
  lemma {:induction false} AfterArgument(env: Env, s: string, arg: Ternary, more: MoreArguments, rest: string, before: seq<Value>)
    requires FormedMore(env, more) && Reads(MeanTernary(env, arg), ParseTernary(env, s), PrintMore(more, rest))
    ensures ReadsAll(var v := MeanTernary(env, arg); if v.Err? then Err(v.error) else MeanMore(env, more, before + [v.value]),
                     ParseMore(env, s, before), rest)
    decreases more
  {
    hide ParseTernary, Token, Blank;
    var v := MeanTernary(env, arg);
    if v.Ok? {
      var parsed := ParseTernary(env, s);
      match more
      case LastArgument(close) =>
        SkipToken(close, ")", rest);
        MissesToken(parsed.rest, ",");
        FindsToken(parsed.rest, close, ")", rest);
      case NextArgument(comma, next, again) =>
        var after := PrintTernary(next, PrintMore(again, rest));
        FindsToken(parsed.rest, comma, ",", after);
        TernarySkipped(env, after);
        MoreEndsTernary(env, again, rest);
        RoundTernary(env, next, PrintMore(again, rest));
        AfterArgument(env, Skip(after), next, again, rest, before + [v.value]);
    }
  }

  lemma {:induction false} RoundEquality(env: Env, e: Equality, rest: string)
    requires FormedEquality(env, e) && EndsEquality(rest)
    ensures Reads(MeanEquality(env, e), ParseEquality(env, PrintEquality(e, rest)), rest)
    decreases e
  {
    hide ParsePrimary, PrintPrimary, Token, Blank, StrictEqual;
    var s := PrintEquality(e, rest);
    match e
    case Operand(v) =>
      RoundPrimary(env, v, rest);
      if MeanPrimary(env, v).Ok? {
        MissesToken(ParsePrimary(env, s).rest, "===");
        MissesToken(ParsePrimary(env, s).rest, "!==");
        SkipTwice(rest);
      }
    case Compared(l, blanks, negated, r) =>
      var token, after := if negated then "!==" else "===", PrintPrimary(r, rest);
      TokenStarts(blanks, token, after, {')', ',', ':', '?', '|', '=', '!'});
      SkipToken(blanks, token, after);
      RoundPrimary(env, l, Token(blanks, token, after));
      RoundPrimary(env, r, rest);
      if MeanPrimary(env, l).Ok? {
        FindsToken(ParsePrimary(env, s).rest, blanks, token, after);
        if negated { MissesToken(ParsePrimary(env, s).rest, "==="); }
      }
  }

  lemma {:induction false} RoundNullish(env: Env, e: Nullish, rest: string)
    requires FormedNullish(env, e) && EndsNullish(rest)
    ensures Reads(MeanNullish(env, e), ParseNullish(env, PrintNullish(e, rest)), rest)
    decreases e
  {
    hide ParseEquality, PrintEquality, Token, Blank, Truthy;
    var s := PrintNullish(e, rest);
    match e
    case Single(v) =>
      RoundEquality(env, v, rest);
      if MeanEquality(env, v).Ok? {
        MissesToken(ParseEquality(env, s).rest, "||");
        SkipTwice(rest);
      }
    case Fallback(l, blanks, logicalOr, r) =>
      var token, after := if logicalOr then "||" else "??", PrintNullish(r, rest);
      TokenStarts(blanks, token, after, {')', ',', ':', '?', '|'});
      SkipToken(blanks, token, after);
      RoundEquality(env, l, Token(blanks, token, after));
      RoundNullish(env, r, rest);
      if MeanEquality(env, l).Ok? {
        FindsToken(ParseEquality(env, s).rest, blanks, token, after);
        if logicalOr { MissesToken(ParseEquality(env, s).rest, "??"); }
      }
  }

  /** A question mark in front of an expression is no `??`. */
  lemma QuestionEndsNullish(env: Env, question: string, t: Ternary, after: string)
    requires Blank(question) && FormedTernary(env, t)
    ensures EndsNullish(Token(question, "?", PrintTernary(t, after)))
  {
    hide PrintTernary, FormedTernary, Token;
    var s := PrintTernary(t, after);
    SkipToken(question, "?", s);
    TernaryStarts(env, t, after);
    RawStart(s);
    assert ("?" + s)[1] == s[0];
  }

  /** Reading back a printed expression gives its meaning, errors included. */
  lemma {:induction false} RoundTernary(env: Env, e: Ternary, rest: string)
    requires FormedTernary(env, e) && EndsTernary(rest)
    ensures Reads(MeanTernary(env, e), ParseTernary(env, PrintTernary(e, rest)), rest)
    decreases e
  {
    hide ParseNullish, PrintNullish, Token, Blank, Truthy;
    var s := PrintTernary(e, rest);
    match e
    case Plain(v) =>
      RoundNullish(env, v, rest);
      if MeanNullish(env, v).Ok? {
        MissesToken(ParseNullish(env, s).rest, "?");
        SkipTwice(rest);
      }
    case Conditional(c, question, t, colon, f) =>
      var afterColon := PrintTernary(f, rest);
      var afterQuestion := PrintTernary(t, Token(colon, ":", afterColon));
      QuestionEndsNullish(env, question, t, Token(colon, ":", afterColon));
      CloseEndsTernary(colon, ":", afterColon);
      RoundNullish(env, c, Token(question, "?", afterQuestion));
      RoundTernary(env, t, Token(colon, ":", afterColon));
      RoundTernary(env, f, rest);
      if MeanNullish(env, c).Ok? {
        FindsToken(ParseNullish(env, s).rest, question, "?", afterQuestion);
        if MeanTernary(env, t).Ok? { FindsToken(ParseTernary(env, afterQuestion).rest, colon, ":", afterColon); }
      }
  }

  lemma {:induction false} BlanksSkip(blanks: string)
    requires Blank(blanks)
    ensures Skip(blanks) == ""
  {
    if blanks != "" { BlanksSkip(blanks[1..]); }
  }

  /** For every formed tree and any blanks, evaluating the printed text consumes all of it and is
      the tree's eager meaning. */
  lemma EvaluatesToMeaning(env: Env, e: Ternary, trailing: string)
    requires FormedTernary(env, e) && Blank(trailing)
    ensures Evaluate(env, PrintTernary(e, trailing)) == MeanTernary(env, e)
  {
    hide FormedTernary, PrintTernary, ParseTernary;
    BlanksSkip(trailing);
    RoundTernary(env, e, trailing);
  }

  /** The keyword is taken as a prefix: a longer root is read as undefined, and the rest is left over. */
  lemma LongerRootIsUndefined(env: Env, blanks: string, more: string, rest: string)
    requires Blank(blanks)
    ensures ParsePrimary(env, Token(blanks, "undefined" + more, rest)) == Parsed(Nil, more + rest)
  {
    hide ParsePrimary;
    assert Token(blanks, "undefined" + more, rest) == Token(blanks, "undefined", more + rest);
    ReadsUndefined(env, blanks, more + rest);
  }

  lemma PlainStopsEquality(env: Env, s: string, v: Value, rest: string)
    requires ParsePrimary(env, s) == Parsed(v, rest) && rest != "" && RootPart(rest[0])
    ensures ParseEquality(env, s) == Parsed(v, rest)
  {
    hide ParsePrimary;
    assert Skip(rest) == rest;
  }

  lemma PlainStopsTernary(env: Env, s: string, v: Value, rest: string)
    requires ParseEquality(env, s) == Parsed(v, rest) && rest != "" && RootPart(rest[0])
    ensures ParseTernary(env, s) == Parsed(v, rest)
  {
    hide ParseEquality;
    assert Skip(rest) == rest;
    assert ParseNullish(env, s) == Parsed(v, rest);
  }

  /** So every chain whose root is longer than the keyword it begins with is refused as trailing input. */
  lemma LongerRootIsRefused(env: Env, blanks: string, more: string, rest: string)
    requires Blank(blanks) && more != "" && RootPart(more[0])
    ensures Evaluate(env, Token(blanks, "undefined" + more, rest)) == Err(TrailingInput)
  {
    hide ParsePrimary, ParseEquality, ParseTernary, Token;
    var s, left := Token(blanks, "undefined" + more, rest), more + rest;
    assert left[0] == more[0];
    LongerRootIsUndefined(env, blanks, more, rest);
    PlainStopsEquality(env, s, Nil, left);
    PlainStopsTernary(env, s, Nil, left);
    assert Skip(left) == left;
  }
}
