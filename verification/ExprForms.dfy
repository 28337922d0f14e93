/**
What the expressions of a configuration bundle evaluate to (boot/expr.go): the forms its
documentation promises, for every name and every literal, and the laws of the values they read.
 */
module ExprForms {
  import opened SessionLog
  import opened Expr

  // ----- Reading nested fields -----

  function Field(value: Value, name: string): Value
    requires value.Object?
  {
    if name in value.fields then value.fields[name] else Nil
  }

  /** The values met on the way along the fields; every one that is read from is an object. */
  ghost predicate Route(value: Value, fields: seq<string>, route: seq<Value>) {
    && |route| == |fields| + 1 && route[0] == value
    && forall i :: 0 <= i < |fields| ==> route[i].Object? && route[i + 1] == Field(route[i], fields[i])
  }

  /** A chain that can be walked ends at the last value of its route. */
  lemma {:induction false} RouteEndsWalk(value: Value, fields: seq<string>, service: string, route: seq<Value>)
    requires Route(value, fields, route)
    ensures Walk(value, fields, service) == Ok(route[|fields|])
    decreases |fields|
  {
    if fields != [] {
      assert route[0].Object? && route[1] == Field(value, fields[0]);
      RouteEndsWalk(route[1], fields[1..], service, route[1..]);
    }
  }

  /** A chain that cannot be walked is refused at the first field whose owner is no object. */
  lemma {:induction false} WalkStopsAt(value: Value, fields: seq<string>, service: string, k: nat, route: seq<Value>)
    requires k < |fields| && Route(value, fields[..k], route) && !route[k].Object?
    ensures Walk(value, fields, service) == Err(NonObject(fields[k], service))
    decreases |fields|
  {
    if k > 0 {
      assert fields[..k][0] == fields[0] && route[0].Object? && route[1] == Field(value, fields[0]);
      assert fields[1..][..k - 1] == fields[..k][1..];
      WalkStopsAt(route[1], fields[1..], service, k - 1, route[1..]);
    }
  }

  /** One of the two always applies. */
  lemma {:induction false} WalkHasRoute(value: Value, fields: seq<string>) returns (k: nat, route: seq<Value>)
    ensures k <= |fields| && Route(value, fields[..k], route) && (k < |fields| ==> !route[k].Object?)
    decreases |fields|
  {
    if fields == [] || !value.Object? {
      return 0, [value];
    }
    var rest;
    k, rest := WalkHasRoute(Field(value, fields[0]), fields[1..]);
    route := [value] + rest;
    k := k + 1;
    assert fields[1..][..k - 1] == fields[..k][1..];
    forall i | 0 <= i < k ensures route[i].Object? && route[i + 1] == Field(route[i], fields[..k][i]) {
      if i > 0 { assert rest[i - 1] == route[i] && fields[..k][1..][i - 1] == fields[..k][i]; }
    }
  }

  // ----- The supported roots -----

  /** Which chains have a value at all, and what every other one is refused for. */
  lemma SupportedChains(env: Env, chain: seq<string>)
    requires chain != []
    ensures chain == ["process"] ==> EvalChain(env, chain) == Err(BareProcess)
    ensures chain == ["ctx"] ==> EvalChain(env, chain) == Err(BareCtx)
    ensures chain[0] == "undefined" ==> EvalChain(env, chain) == Ok(Nil)
    ensures chain[0] !in {"process", "ctx", "undefined"} ==> EvalChain(env, chain) == Err(UnsupportedRoot(chain[0]))
    ensures chain[0] == "process" && |chain| > 1 && chain[1] !in {"env", "platform", "cwd"} ==> EvalChain(env, chain) == Err(UnsupportedMember(chain[1]))
    ensures chain[0] == "process" && |chain| > 1 && chain[1] == "env" && |chain| != 3 ==> EvalChain(env, chain) == Err(BadEnvForm)
    ensures chain[0] == "process" && |chain| > 1 && chain[1] == "platform" ==>
      EvalChain(env, chain) == Ok(Text(if env.platform == "windows" then "win32" else env.platform))
    ensures chain[0] == "process" && |chain| > 2 && chain[1] == "cwd" ==> EvalChain(env, chain) == Err(BadCwdForm)
    ensures chain[0] == "ctx" && |chain| > 1 && env.service(chain[1]) == Nil ==> EvalChain(env, chain) == Ok(Nil)
    ensures chain[0] == "ctx" && |chain| > 1 && env.service(chain[1]) != Nil ==>
      EvalChain(env, chain) == Walk(env.service(chain[1]), chain[2..], chain[1])
  {
    assert chain[1..] != [] ==> chain[1..][1..] == chain[2..];
  }

  /** The only calls are the home path of one text, and the working directory with any arguments. */
  lemma SupportedCalls(env: Env, chain: seq<string>, args: seq<Value>)
    ensures EvalCall(env, chain, args).Ok? <==>
      || (chain == ["dshHomePath"] && |args| == 1 && args[0].Text?)
      || (chain == ["process", "cwd"] && env.cwd.Some?)
    ensures chain == ["process", "cwd"] && env.cwd.Some? ==> EvalCall(env, chain, args) == Ok(Text(env.cwd.value))
    ensures chain == ["process", "cwd"] && env.cwd.None? ==> EvalCall(env, chain, args) == Err(CwdFailed)
    ensures chain == ["dshHomePath"] && |args| != 1 ==> EvalCall(env, chain, args) == Err(CallArity)
    ensures chain == ["dshHomePath"] && |args| == 1 && !args[0].Text? ==> EvalCall(env, chain, args) == Err(CallArgument)
    ensures chain != ["dshHomePath"] && chain != ["process", "cwd"] ==> EvalCall(env, chain, args) == Err(UnsupportedCall)
  {
    assert ["dshHomePath"] != ["process", "cwd"] by { assert |["dshHomePath"]| != |["process", "cwd"]|; }
  }

  // ----- Whole expressions -----

  /** An environment variable counts as set only with a non-empty value. */
  function Variable(env: Env, name: string): Option<string> {
    match env.variable(name)
    case Some(v) => if v == "" then None else Some(v)
    case None => None
  }

  predicate Literal(text: string) { '\'' !in text }

  function Quote(text: string): string { "'" + text + "'" }

  function Lit(text: string): Primary { Quoted(" ", '\'', text) }

  function One(name: string): Members { Member("", "", name, NoMembers) }

  function Two(first: string, second: string): Members { Member("", "", first, One(second)) }

  lemma KnownNames()
    ensures IsRoot("process") && IsRoot("ctx") && IsRoot("dshHomePath") && IsName("env")
  {
    assert "undefined"[0] != "process"[0] && "undefined"[0] != "ctx"[0] && "undefined"[0] != "dshHomePath"[0];
  }

  lemma OneMember(name: string, rest: string)
    requires IsName(name)
    ensures Names(One(name)) == [name] && FormedMembers(One(name)) && PrintMembers(One(name), rest) == "." + name + rest
  {
    assert Names(NoMembers) == [] && FormedMembers(NoMembers) && PrintMembers(NoMembers, rest) == rest;
    hide IsName;
  }

  lemma TwoMembers(first: string, second: string, rest: string)
    requires IsName(first) && IsName(second)
    ensures Names(Two(first, second)) == [first, second] && FormedMembers(Two(first, second))
    ensures PrintMembers(Two(first, second), rest) == "." + first + "." + second + rest
  {
    OneMember(second, rest);
    hide IsName;
    assert Names(Two(first, second)) == [first] + Names(One(second));
    assert PrintMembers(Two(first, second), rest) == "." + first + PrintMembers(One(second), rest);
  }

  lemma Prepend(root: string, first: string, second: string, rest: string)
    ensures root + ("." + first + "." + second + rest) == root + "." + first + "." + second + rest
  {
  }

  lemma ChainPrints(env: Env, root: string, m: Members, rest: string)
    ensures PrintPrimary(Chain("", root, m), rest) == root + PrintMembers(m, rest)
    ensures FormedPrimary(env, Chain("", root, m)) == (IsRoot(root) && FormedMembers(m))
    ensures MeanPrimary(env, Chain("", root, m)) == EvalChain(env, [root] + Names(m))
  {
    hide PrintMembers, FormedMembers, IsRoot, Names, EvalChain;
  }

  /** `root.first.second`, read as a chain of three names. */
  lemma ChainOfThree(env: Env, root: string, first: string, second: string, rest: string)
    requires IsRoot(root) && IsName(first) && IsName(second)
    ensures var e := Chain("", root, Two(first, second));
            && FormedPrimary(env, e) && MeanPrimary(env, e) == EvalChain(env, [root, first, second])
            && PrintPrimary(e, rest) == root + "." + first + "." + second + rest
  {
    hide IsName, IsRoot, EvalChain, Two, Names, FormedMembers, PrintMembers, PrintPrimary, FormedPrimary, MeanPrimary;
    TwoMembers(first, second, rest);
    ChainPrints(env, root, Two(first, second), rest);
    Prepend(root, first, second, rest);
    assert [root] + [first, second] == [root, first, second];
  }

  // What wraps one expression in the next looser form changes nothing.

  lemma OneOperand(env: Env, e: Primary, rest: string)
    ensures FormedEquality(env, Operand(e)) == FormedPrimary(env, e) && MeanEquality(env, Operand(e)) == MeanPrimary(env, e)
    ensures PrintEquality(Operand(e), rest) == PrintPrimary(e, rest)
  {
  }

  lemma OneEquality(env: Env, e: Equality, rest: string)
    ensures FormedNullish(env, Single(e)) == FormedEquality(env, e) && MeanNullish(env, Single(e)) == MeanEquality(env, e)
    ensures PrintNullish(Single(e), rest) == PrintEquality(e, rest)
  {
  }

  lemma OneNullish(env: Env, e: Nullish, rest: string)
    ensures FormedTernary(env, Plain(e)) == FormedNullish(env, e) && MeanTernary(env, Plain(e)) == MeanNullish(env, e)
    ensures PrintTernary(Plain(e), rest) == PrintNullish(e, rest)
  {
  }

  lemma OnePrimary(env: Env, e: Primary, rest: string)
    ensures var t := Plain(Single(Operand(e)));
            FormedTernary(env, t) == FormedPrimary(env, e) && MeanTernary(env, t) == MeanPrimary(env, e) && PrintTernary(t, rest) == PrintPrimary(e, rest)
  {
    hide FormedTernary, MeanTernary, PrintTernary, FormedNullish, MeanNullish, PrintNullish, FormedEquality, MeanEquality, PrintEquality,
      FormedPrimary, MeanPrimary, PrintPrimary;
    OneOperand(env, e, rest);
    OneEquality(env, Operand(e), rest);
    OneNullish(env, Single(Operand(e)), rest);
  }

  function WithFallback(e: Primary, logicalOr: bool, fallback: string): Nullish {
    Fallback(Operand(e), " ", logicalOr, Single(Operand(Lit(fallback))))
  }

  function FallbackText(logicalOr: bool, fallback: string): string {
    (if logicalOr then " || " else " ?? ") + Quote(fallback)
  }

  lemma LiteralFacts(env: Env, text: string, rest: string)
    requires Literal(text)
    ensures FormedPrimary(env, Lit(text)) && MeanPrimary(env, Lit(text)) == Ok(Text(text)) && PrintPrimary(Lit(text), rest) == " " + Quote(text) + rest
  {
  }

  lemma FallbackFacts(env: Env, e: Primary, logicalOr: bool, fallback: string, rest: string)
    requires FormedPrimary(env, e) && Literal(fallback)
    ensures var n := WithFallback(e, logicalOr, fallback);
            && FormedNullish(env, n) && PrintNullish(n, rest) == PrintPrimary(e, FallbackText(logicalOr, fallback) + rest)
            && MeanNullish(env, n) == match MeanPrimary(env, e)
                                      case Ok(v) => Ok(if (if logicalOr then Truthy(v) else v != Nil) then v else Text(fallback))
                                      case Err(error) => Err(error)
  {
    LiteralFacts(env, fallback, rest);
    hide FormedPrimary, PrintPrimary, MeanPrimary, Truthy;
    var right := Single(Operand(Lit(fallback)));
    assert FormedEquality(env, Operand(Lit(fallback))) && FormedEquality(env, Operand(e));
    assert FormedNullish(env, right);
    assert PrintNullish(right, rest) == PrintEquality(Operand(Lit(fallback)), rest) == " " + Quote(fallback) + rest;
    assert MeanNullish(env, right) == MeanEquality(env, Operand(Lit(fallback))) == Ok(Text(fallback));
    assert Token(" ", if logicalOr then "||" else "??", " " + Quote(fallback) + rest) == FallbackText(logicalOr, fallback) + rest;
  }

  lemma EnvMeans(env: Env, name: string)
    ensures EvalChain(env, ["process", "env", name]) == Ok(match Variable(env, name) case Some(v) => Text(v) case None => Nil)
  {
    assert ["process", "env", name][1..] == ["env", name];
  }

  function SetOr(env: Env, name: string, fallback: string): string {
    match Variable(env, name) case Some(v) => v case None => fallback
  }

  lemma EnvFallbackFacts(env: Env, name: string, logicalOr: bool, fallback: string, rest: string)
    requires IsName(name) && Literal(fallback)
    ensures var n := WithFallback(Chain("", "process", Two("env", name)), logicalOr, fallback);
            && FormedNullish(env, n) && MeanNullish(env, n) == Ok(Text(SetOr(env, name, fallback)))
            && PrintNullish(n, rest) == "process.env." + name + FallbackText(logicalOr, fallback) + rest
  {
    KnownNames();
    EnvMeans(env, name);
    var p, more := Chain("", "process", Two("env", name)), FallbackText(logicalOr, fallback) + rest;
    hide IsRoot, IsName, EvalChain, FormedPrimary, PrintPrimary, MeanPrimary, FormedNullish, MeanNullish, PrintNullish;
    ChainOfThree(env, "process", "env", name, more);
    FallbackFacts(env, p, logicalOr, fallback, rest);
    hide FallbackText;
    assert "process" + "." + "env" + "." + name + more == "process.env." + name + FallbackText(logicalOr, fallback) + rest;
  }

  /** `process.env.NAME ?? 'fallback'`, or with `||`: the variable if it is set and not empty. */
  lemma EnvOrFallback(env: Env, name: string, logicalOr: bool, fallback: string)
    requires IsName(name) && Literal(fallback)
    ensures Evaluate(env, "process.env." + name + FallbackText(logicalOr, fallback)) == Ok(Text(SetOr(env, name, fallback)))
  {
    hide IsName, FormedNullish, MeanNullish, PrintNullish, Evaluate, SetOr, FallbackText;
    EnvFallbackFacts(env, name, logicalOr, fallback, "");
    EvaluatesToMeaning(env, Plain(WithFallback(Chain("", "process", Two("env", name)), logicalOr, fallback)), "");
    assert "process.env." + name + FallbackText(logicalOr, fallback) + "" == "process.env." + name + FallbackText(logicalOr, fallback);
  }

  lemma ServiceMeans(env: Env, service: string, field: string)
    ensures EvalChain(env, ["ctx", service, field]) ==
            match env.service(service)
            case Nil => Ok(Nil)
            case Object(fields) => Ok(if field in fields then fields[field] else Nil)
            case _ => Err(NonObject(field, service))
  {
    var chain := ["ctx", service, field];
    assert chain[1..] == [service, field] && chain[1..][1..] == [field] && [field][1..] == [];
    var value := env.service(service);
    if value.Object? { assert Walk(Field(value, field), [], service) == Ok(Field(value, field)); }
  }

  /** `ctx.service.field ?? 'fallback'`: the field's value, the fallback for an absent service or field, and
      a refusal for a service without fields. */
  lemma ServiceOrFallback(env: Env, service: string, field: string, fallback: string)
    requires IsName(service) && IsName(field) && Literal(fallback)
    ensures Evaluate(env, "ctx." + service + "." + field + FallbackText(false, fallback)) ==
            match env.service(service)
            case Nil => Ok(Text(fallback))
            case Object(fields) => Ok(if field in fields && fields[field] != Nil then fields[field] else Text(fallback))
            case _ => Err(NonObject(field, service))
  {
    KnownNames();
    ServiceMeans(env, service, field);
    var p, more := Chain("", "ctx", Two(service, field)), FallbackText(false, fallback);
    hide IsRoot, IsName, EvalChain, FormedPrimary, PrintPrimary, MeanPrimary, Evaluate, FormedNullish, MeanNullish, PrintNullish;
    ChainOfThree(env, "ctx", service, field, more);
    FallbackFacts(env, p, false, fallback, "");
    EvaluatesToMeaning(env, Plain(WithFallback(p, false, fallback)), "");
    assert more + "" == more;
    assert "ctx" + "." + service + "." + field + more == "ctx." + service + "." + field + more;
  }

  /** `(n) === 'text' ? 'yes' : 'no'` for an expression n that denotes a text. */
  function Choice(n: Nullish, text: string, yes: string, no: string): Ternary {
    Conditional(Single(Compared(Parenthesized("", Plain(n), ""), " ", false, Lit(text))), " ",
                Plain(Single(Operand(Lit(yes)))), " ", Plain(Single(Operand(Lit(no)))))
  }

  function ChoiceText(text: string, yes: string, no: string): string {
    ") === " + Quote(text) + " ? " + Quote(yes) + " : " + Quote(no)
  }

  lemma BranchFacts(env: Env, text: string, rest: string)
    requires Literal(text)
    ensures var e := Plain(Single(Operand(Lit(text))));
            FormedTernary(env, e) && MeanTernary(env, e) == Ok(Text(text)) && PrintTernary(e, rest) == " " + Quote(text) + rest
  {
    LiteralFacts(env, text, rest);
    hide FormedPrimary, PrintPrimary, MeanPrimary, FormedTernary, MeanTernary, PrintTernary;
    OnePrimary(env, Lit(text), rest);
  }

  lemma ComparedFacts(env: Env, n: Nullish, s: string, text: string, rest: string)
    requires FormedNullish(env, n) && MeanNullish(env, n) == Ok(Text(s)) && Literal(text)
    ensures var e := Single(Compared(Parenthesized("", Plain(n), ""), " ", false, Lit(text)));
            && FormedNullish(env, e) && MeanNullish(env, e) == Ok(Bool(s == text))
            && PrintNullish(e, rest) == "(" + PrintNullish(n, ") === " + Quote(text) + rest)
  {
    LiteralFacts(env, text, rest);
    var p := Parenthesized("", Plain(n), "");
    var after := Token(" ", "===", PrintPrimary(Lit(text), rest));
    assert after == " === " + Quote(text) + rest;
    assert FormedTernary(env, Plain(n)) && FormedPrimary(env, p);
    assert MeanTernary(env, Plain(n)) == Ok(Text(s)) && MeanPrimary(env, p) == Ok(Text(s));
    assert PrintTernary(Plain(n), Token("", ")", after)) == PrintNullish(n, Token("", ")", after));
    assert Token("", ")", after) == ") === " + Quote(text) + rest;
    hide FormedNullish, PrintNullish, MeanNullish, FormedPrimary, MeanPrimary;
    assert PrintPrimary(p, after) == "(" + PrintNullish(n, ") === " + Quote(text) + rest);
    var c := Compared(p, " ", false, Lit(text));
    assert FormedEquality(env, c) && MeanEquality(env, c) == Ok(Bool(s == text));
    assert PrintEquality(c, rest) == PrintPrimary(p, after);
    OneEquality(env, c, rest);
  }

  lemma ChoiceFacts(env: Env, n: Nullish, s: string, text: string, yes: string, no: string)
    requires FormedNullish(env, n) && MeanNullish(env, n) == Ok(Text(s)) && Literal(text) && Literal(yes) && Literal(no)
    ensures var e := Choice(n, text, yes, no);
            && FormedTernary(env, e) && MeanTernary(env, e) == Ok(Text(if s == text then yes else no))
            && PrintTernary(e, "") == "(" + PrintNullish(n, ChoiceText(text, yes, no))
  {
    var right := Token(" ", ":", " " + Quote(no));
    var left := Token(" ", "?", " " + Quote(yes) + right);
    assert left == " ? " + Quote(yes) + " : " + Quote(no);
    assert ") === " + Quote(text) + left == ChoiceText(text, yes, no);
    ComparedFacts(env, n, s, text, left);
    BranchFacts(env, no, "");
    BranchFacts(env, yes, right);
    assert " " + Quote(no) + "" == " " + Quote(no);
    hide FormedNullish, PrintNullish, MeanNullish;
  }

  /** `(process.env.NAME ?? 'fallback') === 'text' ? 'yes' : 'no'`: the choice the bundles make by a mode. */
  lemma EnvChoice(env: Env, name: string, fallback: string, text: string, yes: string, no: string)
    requires IsName(name) && Literal(fallback) && Literal(text) && Literal(yes) && Literal(no)
    ensures Evaluate(env, "(" + ("process.env." + name + FallbackText(false, fallback) + ChoiceText(text, yes, no)))
            == Ok(Text(if SetOr(env, name, fallback) == text then yes else no))
  {
    hide IsName, FormedNullish, MeanNullish, PrintNullish, Evaluate, SetOr, FallbackText, ChoiceText, FormedTernary, MeanTernary, PrintTernary, Choice, Literal;
    var n := WithFallback(Chain("", "process", Two("env", name)), false, fallback);
    EnvFallbackFacts(env, name, false, fallback, ChoiceText(text, yes, no));
    ChoiceFacts(env, n, SetOr(env, name, fallback), text, yes, no);
    EvaluatesToMeaning(env, Choice(n, text, yes, no), "");
  }

  function HomeCall(arg: Ternary): Primary {
    Call("", "dshHomePath", NoMembers, "", SomeArguments(arg, LastArgument("")))
  }

  /** `dshHomePath('path')`: the path below the home directory. */
  lemma HomePath(env: Env, path: string)
    requires Literal(path)
    ensures Evaluate(env, "dshHomePath(" + Quote(path) + ")") == Ok(Text(env.home(path)))
  {
    KnownNames();
    var lit := Quoted("", '\'', path);
    assert FormedPrimary(env, lit) && MeanPrimary(env, lit) == Ok(Text(path)) && PrintPrimary(lit, ")") == Quote(path) + ")";
    hide IsRoot, Evaluate, FormedPrimary, MeanPrimary, PrintPrimary, FormedTernary, MeanTernary, PrintTernary, HomeCall;
    OnePrimary(env, lit, ")");
    var arg := Plain(Single(Operand(lit)));
    CallMeans(env, arg, path);
    CallPrints(arg, Quote(path));
    var call := HomeCall(arg);
    OnePrimary(env, call, "");
    EvaluatesToMeaning(env, Plain(Single(Operand(call))), "");
  }

  lemma CallMeans(env: Env, arg: Ternary, path: string)
    requires FormedTernary(env, arg) && MeanTernary(env, arg) == Ok(Text(path)) && IsRoot("dshHomePath")
    ensures FormedPrimary(env, HomeCall(arg)) && MeanPrimary(env, HomeCall(arg)) == Ok(Text(env.home(path)))
  {
    hide IsRoot, FormedTernary, MeanTernary;
    var args := SomeArguments(arg, LastArgument(""));
    assert FormedMore(env, LastArgument("")) && MeanMore(env, LastArgument(""), [Text(path)]) == Ok([Text(path)]);
    assert FormedArguments(env, args) && MeanArguments(env, args) == Ok([Text(path)]);
    hide FormedArguments, MeanArguments;
    assert Names(NoMembers) == [] && FormedMembers(NoMembers);
    assert ["dshHomePath"] + [] == ["dshHomePath"];
  }

  lemma CallPrints(arg: Ternary, text: string)
    requires PrintTernary(arg, ")") == text + ")"
    ensures PrintPrimary(HomeCall(arg), "") == "dshHomePath(" + text + ")"
  {
    hide PrintTernary;
    var args := SomeArguments(arg, LastArgument(""));
    assert PrintMore(LastArgument(""), "") == ")";
    assert PrintArguments(args, "") == text + ")";
    hide PrintArguments;
    var inner := Token("", "(", text + ")");
    assert PrintMembers(NoMembers, inner) == inner == "(" + (text + ")");
    assert PrintPrimary(HomeCall(arg), "") == "dshHomePath" + ("(" + (text + ")"));
  }
}
