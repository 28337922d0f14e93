/**
The parser object of boot/expr.go: one position that its methods advance while they evaluate.
Every method is the function of module Expr on the input that remains.
 */
module ExprParser {
  import opened SessionLog
  import opened Expr

  lemma ConsumeSkipped(s: string, token: string)
    ensures Consume(Skip(s), token) == Consume(s, token)
  {
    SkipTwice(s);
  }

  lemma ConsumeHere(t: string, token: string)
    requires Skip(t) == t
    ensures Consume(t, token) == if token <= t then Some(t[|token|..]) else None
  {
  }

  lemma WordIsUndefined(env: Env, t: string)
    requires t != "" && "undefined" <= t
    ensures Expr.ParseWord(env, t) == Parsed(Nil, t[9..])
  {
    assert t[0] == "undefined"[0];
  }

  lemma WordIsNumber(env: Env, t: string)
    requires t != "" && t[0] !in {'\'', '"'} && !("undefined" <= t)
    requires var n := Span(t, NumeralByte, NumeralByte); n > 0 && env.parseFloat(t[..n]).Some?
    ensures var n := Span(t, NumeralByte, NumeralByte);
            Expr.ParseWord(env, t) == Parsed(Number(env.parseFloat(t[..n]).value), t[n..])
  {
  }

  lemma WordIsChain(env: Env, t: string)
    requires t != "" && t[0] !in {'\'', '"'} && !("undefined" <= t)
    requires var n := Span(t, NumeralByte, NumeralByte); n == 0 || env.parseFloat(t[..n]).None?
    ensures var n := Span(t, RootByte, RootPart);
            Expr.ParseWord(env, t) == if n == 0 then Fault(Unexpected(t[0])) else Expr.ParseChain(env, [t[..n]], t[n..])
  {
  }

  lemma WordIsQuoted(env: Env, t: string)
    requires t != "" && t[0] in {'\'', '"'}
    ensures Expr.ParseWord(env, t) == AfterQuote(t[1..], t[0])
  {
  }

  /** A string literal whose opening quote was taken. */
  function AfterQuote(text: string, quote: char): Parsed<Value> {
    var end := Expr.IndexOf(text, quote);
    if end == |text| then Fault(Unterminated) else Parsed(Text(text[..end]), text[end + 1..])
  }

  /** The method's result and new position are what the function says. */
  predicate Agrees<T(==)>(parsed: Parsed<T>, r: Result<T, Error>, rest: string) {
    match parsed
    case Parsed(v, u) => r == Ok(v) && rest == u
    case Fault(e) => r == Err(e)
  }

  class Parser {
    const src: string
    var pos: nat

    constructor (source: string)
      ensures src == source && pos == 0
    {
      src, pos := source, 0;
    }

    predicate Valid()
      reads this
    {
      pos <= |src|
    }

    function Rest(): string
      requires Valid()
      reads this
    {
      src[pos..]
    }

    method SkipSpace()
      requires Valid()
      modifies this
      ensures Valid() && old(pos) <= pos && Rest() == Skip(old(Rest()))
    {
      while pos < |src| && (src[pos] == ' ' || src[pos] == '\t')
        invariant Valid() && old(pos) <= pos && Skip(Rest()) == Skip(old(Rest()))
      {
        assert Rest()[1..] == src[pos + 1..];
        pos := pos + 1;
      }
    }

    /** Takes the token after any blanks; a miss still skips the blanks. */
    method Consume(token: string) returns (ok: bool)
      requires Valid()
      modifies this
      ensures Valid() && old(pos) <= pos && (ok ==> old(pos) + |token| <= pos)
      ensures ok == Expr.Consume(old(Rest()), token).Some?
      ensures Rest() == if ok then Expr.Consume(old(Rest()), token).value else Skip(old(Rest()))
    {
      SkipSpace();
      ok := token <= src[pos..];
      if ok {
        assert src[pos..][|token|..] == src[pos + |token|..];
        pos := pos + |token|;
      }
    }

    /** Advances over a run of bytes, the first of which must be a `start`. */
    method Scan(start: char -> bool, part: char -> bool) returns (n: nat)
      requires Valid()
      modifies this
      ensures Valid() && n == Span(old(Rest()), start, part) && pos == old(pos) + n
    {
      n := 0;
      var test := start;
      while pos < |src| && test(src[pos])
        invariant Valid() && pos == old(pos) + n
        invariant n + Span(Rest(), test, part) == Span(old(Rest()), start, part)
        decreases |src| - pos
      {
        assert Rest()[1..] == src[pos + 1..];
        pos, n, test := pos + 1, n + 1, part;
      }
    }

    method ConsumeIdent() returns (name: string)
      requires Valid()
      modifies this
      ensures Valid() && old(pos) <= pos
      ensures var t := Skip(old(Rest()));
              var n := Span(t, Letter, NamePart);
              name == t[..n] && Rest() == t[n..] && (n > 0 ==> old(pos) < pos)
    {
      SkipSpace();
      ghost var t := Rest();
      var start := pos;
      var n := Scan(Letter, NamePart);
      assert t[..n] == src[start..pos] && t[n..] == src[pos..];
      return src[start..pos];
    }

    method TryNumber(env: Env) returns (number: Option<real>)
      requires Valid()
      modifies this
      ensures Valid() && old(pos) <= pos
      ensures var t := Skip(old(Rest()));
              var n := Span(t, NumeralByte, NumeralByte);
              && (number.Some? <==> n > 0 && env.parseFloat(t[..n]).Some?)
              && (number.Some? ==> number == env.parseFloat(t[..n]) && Rest() == t[n..] && old(pos) < pos)
              && (number.None? ==> Rest() == t)
    {
      SkipSpace();
      ghost var t := Rest();
      var start := pos;
      var n := Scan(NumeralByte, NumeralByte);
      assert t[..n] == src[start..pos] && t[n..] == src[pos..];
      if pos == start { return None; }
      number := env.parseFloat(src[start..pos]);
      if number.None? { pos := start; }
    }

    method ParseTernary(env: Env) returns (r: Outcome)
      requires Valid()
      modifies this
      ensures Valid() && old(pos) <= pos && (r.Ok? ==> old(pos) < pos)
      ensures Agrees(Expr.ParseTernary(env, old(Rest())), r, Rest())
      decreases |src| - pos, 5
    {
      hide Skip, Span, Truthy, Expr.Consume, Expr.ParseNullish;
      r := ParseNullish(env);
      if r.Err? { return; }
      var condition := r.value;
      var ok := Consume("?");
      if !ok { return; }
      r := ParseTernary(env);
      if r.Err? { return; }
      var whenTrue := r.value;
      ok := Consume(":");
      if !ok { return Err(ExpectedColon); }
      r := ParseTernary(env);
      if r.Ok? && Truthy(condition) { r := Ok(whenTrue); }
    }

    method ParseNullish(env: Env) returns (r: Outcome)
      requires Valid()
      modifies this
      ensures Valid() && old(pos) <= pos && (r.Ok? ==> old(pos) < pos)
      ensures Agrees(Expr.ParseNullish(env, old(Rest())), r, Rest())
      decreases |src| - pos, 4
    {
      hide Skip, Span, Truthy, Expr.Consume, Expr.ParseEquality;
      r := ParseEquality(env);
      if r.Err? { return; }
      var left := r.value;
      ConsumeSkipped(Rest(), "||");
      var ok := Consume("??");
      if ok {
        r := ParseNullish(env);
        if r.Ok? && left != Nil { r := Ok(left); }
        return;
      }
      SkipTwice(Expr.ParseEquality(env, old(Rest())).rest);
      ok := Consume("||");
      if ok {
        r := ParseNullish(env);
        if r.Ok? && Truthy(left) { r := Ok(left); }
      }
    }

    method ParseEquality(env: Env) returns (r: Outcome)
      requires Valid()
      modifies this
      ensures Valid() && old(pos) <= pos && (r.Ok? ==> old(pos) < pos)
      ensures Agrees(Expr.ParseEquality(env, old(Rest())), r, Rest())
      decreases |src| - pos, 3
    {
      hide Skip, Span, Expr.Consume, Expr.ParsePrimary, StrictEqual;
      r := ParsePrimary(env);
      if r.Err? { return; }
      var left := r.value;
      ConsumeSkipped(Rest(), "!==");
      SkipTwice(Rest());
      var negated := false;
      var ok := Consume("===");
      if !ok {
        negated := true;
        ok := Consume("!==");
      }
      if !ok { return; }
      r := ParsePrimary(env);
      if r.Err? { return; }
      var equal := StrictEqual(left, r.value);
      r := if equal.Err? then Err(equal.error) else Ok(Bool(equal.value != negated));
    }

    method ParsePrimary(env: Env) returns (r: Outcome)
      requires Valid()
      modifies this
      ensures Valid() && old(pos) <= pos && (r.Ok? ==> old(pos) < pos)
      ensures Agrees(Expr.ParsePrimary(env, old(Rest())), r, Rest())
      decreases |src| - pos, 2
    {
      hide Expr.ParseWord, Expr.ParseTernary;
      SkipSpace();
      SkipTwice(old(Rest()));
      if pos >= |src| { return Err(UnexpectedEnd); }
      var ok := Consume("(");
      if !ok {
        r := ParseWord(env);
        return;
      }
      r := ParseTernary(env);
      if r.Err? { return; }
      ok := Consume(")");
      if !ok { r := Err(ExpectedParenthesis); }
    }

    /** A literal, or a chain and its root. */
    method ParseWord(env: Env) returns (r: Outcome)
      requires Valid() && pos < |src| && Skip(Rest()) == Rest()
      modifies this
      ensures Valid() && old(pos) <= pos && (r.Ok? ==> old(pos) < pos)
      ensures Agrees(Expr.ParseWord(env, old(Rest())), r, Rest())
      decreases |src| - pos, 1
    {
      hide Expr.ParseWord, Skip, AfterQuote, Expr.Consume;
      ghost var t := Rest();
      var quote := TakeQuote();
      if quote.Some? {
        WordIsQuoted(env, t);
        r := QuotedText(quote.value);
        return;
      }
      ConsumeHere(t, "undefined");
      var ok := Consume("undefined");
      if ok {
        WordIsUndefined(env, t);
        return Ok(Nil);
      }
      r := ParseBare(env);
    }

    /** A number, or else a chain and its root. */
    method ParseBare(env: Env) returns (r: Outcome)
      requires Valid() && pos < |src| && Skip(Rest()) == Rest() && Rest()[0] !in {'\'', '"'} && !("undefined" <= Rest())
      modifies this
      ensures Valid() && old(pos) <= pos && (r.Ok? ==> old(pos) < pos)
      ensures Agrees(Expr.ParseWord(env, old(Rest())), r, Rest())
      decreases |src| - pos, 0
    {
      hide Expr.ParseWord, Skip, Span, Expr.ParseChain;
      ghost var t := Rest();
      var number := TryNumber(env);
      if number.Some? {
        WordIsNumber(env, t);
        return Ok(Number(number.value));
      }
      WordIsChain(env, t);
      var start := pos;
      var root := TakeRoot();
      if root == "" { return Err(Unexpected(src[start])); }
      r := ParseChain(env, root);
    }

    method TakeRoot() returns (root: string)
      requires Valid()
      modifies this
      ensures Valid() && pos == old(pos) + |root|
      ensures var n := Span(old(Rest()), RootByte, RootPart);
              root == old(Rest())[..n] && Rest() == old(Rest())[n..]
    {
      ghost var t := Rest();
      var start := pos;
      var n := Scan(RootByte, RootPart);
      assert t[..n] == src[start..pos] && t[n..] == src[pos..];
      return src[start..pos];
    }

    /** The quote that opens a string literal, if there is one. */
    method TakeQuote() returns (quote: Option<char>)
      requires Valid() && pos < |src| && Skip(Rest()) == Rest()
      modifies this
      ensures Valid()
      ensures var t := old(Rest());
              if t[0] in {'\'', '"'} then quote == Some(t[0]) && pos == old(pos) + 1 && Rest() == t[1..]
              else quote == None && pos == old(pos)
    {
      hide Skip, Expr.Consume;
      ghost var t := Rest();
      ConsumeHere(t, "'");
      ConsumeHere(t, "\"");
      var ok := Consume("'");
      SamePlace(t);
      if !ok { ok := Consume("\""); }
      SamePlace(t);
      if !ok { return None; }
      return Some(src[pos - 1]);
    }

    /** The same remaining input is the same position. */
    ghost method SamePlace(t: string)
      requires Valid() && |t| <= |src|
      ensures Rest() == t ==> pos == |src| - |t|
      ensures t != "" && Rest() == t[1..] ==> pos == |src| - |t| + 1
    {
    }

    method QuotedText(quote: char) returns (r: Outcome)
      requires Valid()
      modifies this
      ensures Valid() && old(pos) <= pos && Agrees(AfterQuote(old(Rest()), quote), r, Rest())
    {
      var rest := src[pos..];
      var end := Expr.IndexOf(rest, quote);
      if end == |rest| { return Err(Unterminated); }
      assert rest[end + 1..] == src[pos + end + 1..] && rest[..end] == src[pos..pos + end];
      r := Ok(Text(src[pos..pos + end]));
      pos := pos + end + 1;
    }

    /** The members and the call after a chain's root. */
    method ParseChain(env: Env, root: string) returns (r: Outcome)
      requires Valid() && 0 < pos
      modifies this
      ensures Valid() && old(pos) <= pos
      ensures Agrees(Expr.ParseChain(env, [root], old(Rest())), r, Rest())
      decreases |src| - pos, 7
    {
      hide Span, Skip, Expr.Consume, Expr.ParseArguments, EvalCall, EvalChain;
      var chain := [root];
      while true
        invariant Valid() && old(pos) <= pos && chain != []
        invariant Expr.ParseChain(env, chain, Rest()) == Expr.ParseChain(env, [root], old(Rest()))
        decreases |src| - pos
      {
        ConsumeSkipped(Rest(), "(");
        SkipTwice(Rest());
        ghost var before := pos;
        var ok := Consume(".");
        if ok {
          var name := ConsumeIdent();
          if name == "" { return Err(ExpectedMember); }
          chain := chain + [name];
        } else {
          ok := Consume("(");
          if !ok { break; }
          var args := ParseArguments(env);
          if args.Err? { return Err(args.error); }
          return EvalCall(env, chain, args.value);
        }
      }
      r := EvalChain(env, chain);
    }

    /** A comma-separated argument list up to its closing bracket. */
    method ParseArguments(env: Env) returns (r: Result<seq<Value>, Error>)
      requires Valid()
      modifies this
      ensures Valid() && old(pos) <= pos
      ensures Agrees(Expr.ParseArguments(env, old(Rest())), r, Rest())
      decreases |src| - pos, 6
    {
      hide Span, Skip, Expr.Consume, Expr.ParseTernary;
      var args := [];
      var ok := Consume(")");
      if ok { return Ok(args); }
      while true
        invariant Valid() && old(pos) <= pos
        invariant Expr.ParseMore(env, Rest(), args) == Expr.ParseArguments(env, old(Rest()))
        decreases |src| - pos
      {
        var arg := ParseTernary(env);
        if arg.Err? { return Err(arg.error); }
        args := args + [arg.value];
        ConsumeSkipped(Rest(), ")");
        ok := Consume(",");
        if ok {
          SkipSpace();
        } else {
          ok := Consume(")");
          return if ok then Ok(args) else Err(ExpectedArgumentEnd);
        }
      }
    }

    /** Parses and evaluates one expression source. */
    static method EvaluateExpression(env: Env, source: string) returns (r: Outcome)
      ensures r == Evaluate(env, source)
    {
      hide Skip, Expr.ParseTernary;
      var parser := new Parser(source);
      assert parser.Rest() == source;
      r := parser.ParseTernary(env);
      if r.Err? { return; }
      parser.SkipSpace();
      if parser.pos != |parser.src| { return Err(TrailingInput); }
    }
  }
}
