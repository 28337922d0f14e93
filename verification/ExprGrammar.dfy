/**
The evaluator accepts its grammar and nothing else (boot/expr.go): every text that evaluates to a
value is the printed form of a tree with that meaning.
 */
module ExprGrammar {
  import opened SessionLog
  import opened Expr

  // Blanks that were skipped belong to the token they precede.

  lemma {:induction false} SkipSplits(s: string) returns (b: string)
    ensures s == b + Skip(s) && Blank(b)
  {
    if s != "" && IsBlank(s[0]) {
      b := SkipSplits(s[1..]);
      b := [s[0]] + b;
    } else {
      b := "";
    }
  }

  lemma ConsumeSplits(before: string, s: string, token: string) returns (b: string)
    requires Blank(before) && Consume(s, token).Some?
    ensures Blank(b) && before + s == Token(b, token, Consume(s, token).value)
  {
    var skipped := SkipSplits(s);
    var t := Skip(s);
    assert t == token + t[|token|..];
    b := before + skipped;
    hide Skip;
    assert before + (skipped + t) == b + t;
  }

  lemma SkippedRest(before: string, s: string) returns (b: string)
    requires Blank(before)
    ensures Blank(b) && before + s == b + Skip(s)
  {
    var skipped := SkipSplits(s);
    b := before + skipped;
    hide Skip;
    assert before + (skipped + Skip(s)) == b + Skip(s);
  }

  // What each level of the parser has read: a tree, and blanks before the rest.

  predicate ReadTernary(env: Env, s: string, v: Value, rest: string, e: Ternary, b: string) {
    FormedTernary(env, e) && Blank(b) && s == PrintTernary(e, b + rest) && MeanTernary(env, e) == Ok(v)
  }

  predicate ReadNullish(env: Env, s: string, v: Value, rest: string, e: Nullish, b: string) {
    FormedNullish(env, e) && Blank(b) && s == PrintNullish(e, b + rest) && MeanNullish(env, e) == Ok(v)
  }

  predicate ReadEquality(env: Env, s: string, v: Value, rest: string, e: Equality, b: string) {
    FormedEquality(env, e) && Blank(b) && s == PrintEquality(e, b + rest) && MeanEquality(env, e) == Ok(v)
  }

  predicate ReadPrimary(env: Env, s: string, v: Value, rest: string, e: Primary, b: string) {
    FormedPrimary(env, e) && Blank(b) && s == PrintPrimary(e, b + rest) && MeanPrimary(env, e) == Ok(v)
  }

  predicate ReadArguments(env: Env, s: string, v: seq<Value>, rest: string, a: Arguments) {
    FormedArguments(env, a) && s == PrintArguments(a, rest) && MeanArguments(env, a) == Ok(v)
  }

  predicate ReadMore(env: Env, s: string, before: seq<Value>, v: seq<Value>, rest: string, a: MoreArguments) {
    FormedMore(env, a) && s == PrintMore(a, rest) && MeanMore(env, a, before) == Ok(v)
  }

  /** The parts of a conditional, or the single part that is none. */
  lemma TernaryParts(env: Env, s: string)
    requires ParseTernary(env, s).Parsed?
    ensures var r, c := ParseTernary(env, s), ParseNullish(env, s);
            && c.Parsed? && |c.rest| < |s|
            && match Consume(c.rest, "?")
               case None => r == Parsed(c.value, Skip(c.rest))
               case Some(s2) =>
                 var t := ParseTernary(env, s2);
                 |s2| < |s| && t.Parsed? && |t.rest| < |s2| && match Consume(t.rest, ":")
                   case None => false
                   case Some(s3) =>
                     var f := ParseTernary(env, s3);
                     |s3| < |s| && f.Parsed? && r == Parsed(if Truthy(c.value) then t.value else f.value, f.rest)
  {
    hide ParseNullish, Consume, Truthy, Skip;
  }

  lemma TernaryTree(env: Env, s: string) returns (e: Ternary, b: string)
    requires ParseTernary(env, s).Parsed?
    ensures Blank(b) && ReadTernary(env, s, ParseTernary(env, s).value, ParseTernary(env, s).rest, e, b)
    decreases |s|, 6
  {
    TernaryParts(env, s);
    hide ReadTernary, ReadNullish, ParseTernary, ParseNullish, Consume, Truthy, Skip;
    var condition := ParseNullish(env, s);
    var c, b1 := NullishTree(env, s);
    match Consume(condition.rest, "?")
    case None =>
      b := SkippedRest(b1, condition.rest);
      e := Plain(c);
      PlainRead(env, s, condition.value, condition.rest, c, b1, b);
    case Some(s2) =>
      var question := ConsumeSplits(b1, condition.rest, "?");
      var whenTrue := ParseTernary(env, s2);
      var s3 := Consume(whenTrue.rest, ":").value;
      var whenFalse := ParseTernary(env, s3);
      var t, b2 := TernaryTree(env, s2);
      var f, b3 := TernaryTree(env, s3);
      var colon := ConsumeSplits(b2, whenTrue.rest, ":");
      b, e := b3, Conditional(c, question, t, colon, f);
      ConditionalRead(env, s, condition.value, condition.rest, c, b1, question, s2, whenTrue.value, whenTrue.rest, t, b2, colon,
                      s3, whenFalse.value, whenFalse.rest, f, b3);
  }

  lemma PlainRead(env: Env, s: string, v: Value, rest: string, c: Nullish, b1: string, b: string)
    requires ReadNullish(env, s, v, rest, c, b1) && Blank(b) && b1 + rest == b + Skip(rest)
    ensures ReadTernary(env, s, v, Skip(rest), Plain(c), b)
  {
    hide FormedNullish, PrintNullish, MeanNullish, Skip;
  }

  lemma ConditionalRead(env: Env, s: string, cv: Value, cr: string, c: Nullish, b1: string, question: string,
                        s2: string, tv: Value, tr: string, t: Ternary, b2: string, colon: string,
                        s3: string, fv: Value, fr: string, f: Ternary, b3: string)
    requires ReadNullish(env, s, cv, cr, c, b1) && Blank(question) && b1 + cr == Token(question, "?", s2)
    requires ReadTernary(env, s2, tv, tr, t, b2) && Blank(colon) && b2 + tr == Token(colon, ":", s3)
    requires ReadTernary(env, s3, fv, fr, f, b3)
    ensures ReadTernary(env, s, if Truthy(cv) then tv else fv, fr, Conditional(c, question, t, colon, f), b3)
  {
    var e := Conditional(c, question, t, colon, f);
    assert PrintTernary(e, b3 + fr) == PrintNullish(c, Token(question, "?", PrintTernary(t, Token(colon, ":", PrintTernary(f, b3 + fr)))));
    assert FormedTernary(env, e);
    hide FormedNullish, PrintNullish, MeanNullish, Token, PrintTernary, FormedTernary, Blank;
  }

  function FallbackToken(rest: string): Option<string> {
    if Consume(rest, "??").Some? then Some("??") else if Consume(rest, "||").Some? then Some("||") else None
  }

  lemma NullishParts(env: Env, s: string)
    requires ParseNullish(env, s).Parsed?
    ensures var r, l := ParseNullish(env, s), ParseEquality(env, s);
            && l.Parsed? && |l.rest| < |s|
            && match FallbackToken(l.rest)
               case None => r == Parsed(l.value, Skip(l.rest))
               case Some(token) =>
                 Consume(l.rest, token).Some? &&
                 var s2 := Consume(l.rest, token).value;
                 var right := ParseNullish(env, s2);
                 && |s2| < |s| && right.Parsed?
                 && r == Parsed(if (if token == "||" then Truthy(l.value) else l.value != Nil) then l.value else right.value, right.rest)
  {
    hide ParseEquality, Consume, Truthy, Skip;
    assert "||" != "??" by { assert "||"[0] != "??"[0]; }
  }

  lemma NullishTree(env: Env, s: string) returns (e: Nullish, b: string)
    requires ParseNullish(env, s).Parsed?
    ensures Blank(b) && ReadNullish(env, s, ParseNullish(env, s).value, ParseNullish(env, s).rest, e, b)
    decreases |s|, 5
  {
    NullishParts(env, s);
    hide ReadNullish, ReadEquality, ParseNullish, ParseEquality, Consume, Truthy, Skip;
    var left := ParseEquality(env, s);
    var l, b1 := EqualityTree(env, s);
    match FallbackToken(left.rest)
    case None =>
      b := SkippedRest(b1, left.rest);
      e := Single(l);
      SingleRead(env, s, left.value, left.rest, l, b1, b);
    case Some(token) =>
      var s2 := Consume(left.rest, token).value;
      var right := ParseNullish(env, s2);
      var r, b2 := NullishTree(env, s2);
      var blanks := ConsumeSplits(b1, left.rest, token);
      b, e := b2, Fallback(l, blanks, token == "||", r);
      assert token == if token == "||" then "||" else "??";
      FallbackRead(env, s, left.value, left.rest, l, b1, blanks, token == "||", s2, right.value, right.rest, r, b2);
  }

  lemma SingleRead(env: Env, s: string, v: Value, rest: string, l: Equality, b1: string, b: string)
    requires ReadEquality(env, s, v, rest, l, b1) && Blank(b) && b1 + rest == b + Skip(rest)
    ensures ReadNullish(env, s, v, Skip(rest), Single(l), b)
  {
    hide FormedEquality, PrintEquality, MeanEquality, Skip;
  }

  lemma FallbackRead(env: Env, s: string, lv: Value, lr: string, l: Equality, b1: string, blanks: string, logicalOr: bool,
                     s2: string, rv: Value, rr: string, r: Nullish, b2: string)
    requires ReadEquality(env, s, lv, lr, l, b1) && Blank(blanks) && b1 + lr == Token(blanks, if logicalOr then "||" else "??", s2)
    requires ReadNullish(env, s2, rv, rr, r, b2)
    ensures ReadNullish(env, s, if (if logicalOr then Truthy(lv) else lv != Nil) then lv else rv, rr, Fallback(l, blanks, logicalOr, r), b2)
  {
    var e := Fallback(l, blanks, logicalOr, r);
    assert PrintNullish(e, b2 + rr) == PrintEquality(l, Token(blanks, if logicalOr then "||" else "??", PrintNullish(r, b2 + rr)));
    assert FormedNullish(env, e);
    hide FormedEquality, PrintEquality, MeanEquality, Token, PrintNullish, FormedNullish, Blank;
  }

  function EqualityToken(rest: string): Option<string> {
    if Consume(rest, "===").Some? then Some("===") else if Consume(rest, "!==").Some? then Some("!==") else None
  }

  lemma EqualityParts(env: Env, s: string)
    requires ParseEquality(env, s).Parsed?
    ensures var r, l := ParseEquality(env, s), ParsePrimary(env, s);
            && l.Parsed? && |l.rest| < |s|
            && match EqualityToken(l.rest)
               case None => r == Parsed(l.value, Skip(l.rest))
               case Some(token) =>
                 Consume(l.rest, token).Some? &&
                 var s2 := Consume(l.rest, token).value;
                 var right := ParsePrimary(env, s2);
                 && |s2| < |s| && right.Parsed? && StrictEqual(l.value, right.value).Ok?
                 && r == Parsed(Bool(StrictEqual(l.value, right.value).value != (token == "!==")), right.rest)
  {
    hide ParsePrimary, Consume, StrictEqual, Skip;
    assert "!==" != "===" by { assert "!=="[0] != "==="[0]; }
  }

  lemma EqualityTree(env: Env, s: string) returns (e: Equality, b: string)
    requires ParseEquality(env, s).Parsed?
    ensures Blank(b) && ReadEquality(env, s, ParseEquality(env, s).value, ParseEquality(env, s).rest, e, b)
    decreases |s|, 4
  {
    EqualityParts(env, s);
    hide ReadEquality, ReadPrimary, ParseEquality, ParsePrimary, Consume, StrictEqual, Skip;
    var left := ParsePrimary(env, s);
    var l, b1 := PrimaryTree(env, s);
    match EqualityToken(left.rest)
    case None =>
      b := SkippedRest(b1, left.rest);
      e := Operand(l);
      OperandRead(env, s, left.value, left.rest, l, b1, b);
    case Some(token) =>
      var s2 := Consume(left.rest, token).value;
      var right := ParsePrimary(env, s2);
      var r, b2 := PrimaryTree(env, s2);
      var blanks := ConsumeSplits(b1, left.rest, token);
      b, e := b2, Compared(l, blanks, token == "!==", r);
      assert token == if token == "!==" then "!==" else "===";
      ComparedRead(env, s, left.value, left.rest, l, b1, blanks, token == "!==", s2, right.value, right.rest, r, b2);
  }

  lemma OperandRead(env: Env, s: string, v: Value, rest: string, l: Primary, b1: string, b: string)
    requires ReadPrimary(env, s, v, rest, l, b1) && Blank(b) && b1 + rest == b + Skip(rest)
    ensures ReadEquality(env, s, v, Skip(rest), Operand(l), b)
  {
    hide FormedPrimary, PrintPrimary, MeanPrimary, Skip;
  }

  lemma ComparedRead(env: Env, s: string, lv: Value, lr: string, l: Primary, b1: string, blanks: string, negated: bool,
                     s2: string, rv: Value, rr: string, r: Primary, b2: string)
    requires ReadPrimary(env, s, lv, lr, l, b1) && Blank(blanks) && b1 + lr == Token(blanks, if negated then "!==" else "===", s2)
    requires ReadPrimary(env, s2, rv, rr, r, b2) && StrictEqual(lv, rv).Ok?
    ensures ReadEquality(env, s, Bool(StrictEqual(lv, rv).value != negated), rr, Compared(l, blanks, negated, r), b2)
  {
    hide FormedPrimary, PrintPrimary, MeanPrimary, Token, Blank, StrictEqual;
  }

  lemma PrimaryParts(env: Env, s: string)
    requires ParsePrimary(env, s).Parsed?
    ensures var r, t := ParsePrimary(env, s), Skip(s);
            && t != "" && |t| <= |s|
            && if t[0] == '(' then
                 var inner := ParseTernary(env, t[1..]);
                 inner.Parsed? && Consume(inner.rest, ")").Some? && r == Parsed(inner.value, Consume(inner.rest, ")").value)
               else r == ParseWord(env, t)
  {
    hide ParseTernary, Consume, ParseWord;
  }

  lemma PrimaryTree(env: Env, s: string) returns (e: Primary, b: string)
    requires ParsePrimary(env, s).Parsed?
    ensures Blank(b) && ReadPrimary(env, s, ParsePrimary(env, s).value, ParsePrimary(env, s).rest, e, b)
    decreases |s|, 3
  {
    PrimaryParts(env, s);
    var blanks := SkipSplits(s);
    hide ReadPrimary, ReadTernary, ParsePrimary, ParseTernary, ParseWord, Consume, Skip;
    var t := Skip(s);
    if t[0] == '(' {
      var inner := ParseTernary(env, t[1..]);
      var i, b1 := TernaryTree(env, t[1..]);
      var close := ConsumeSplits(b1, inner.rest, ")");
      b, e := "", Parenthesized(blanks, i, close);
      ParenthesizedRead(env, s, blanks, t, inner.value, inner.rest, i, b1, close, Consume(inner.rest, ")").value);
    } else {
      e, b := WordTree(env, blanks, t);
    }
  }

  lemma ParenthesizedRead(env: Env, s: string, open: string, t: string, v: Value, rest: string, i: Ternary, b1: string, close: string, after: string)
    requires s == open + t && Blank(open) && t != "" && t[0] == '('
    requires ReadTernary(env, t[1..], v, rest, i, b1) && Blank(close) && b1 + rest == Token(close, ")", after)
    ensures ReadPrimary(env, s, v, after, Parenthesized(open, i, close), "")
  {
    assert t == "(" + t[1..];
    assert "" + after == after;
    hide FormedTernary, PrintTernary, MeanTernary;
  }

  lemma WordTree(env: Env, blanks: string, t: string) returns (e: Primary, b: string)
    requires Blank(blanks) && t != "" && t[0] != '(' && ParseWord(env, t).Parsed?
    ensures Blank(b) && ReadPrimary(env, blanks + t, ParseWord(env, t).value, ParseWord(env, t).rest, e, b)
    decreases |t|, 2
  {
    hide ReadPrimary, ParseChain;
    b := "";
    if t[0] == '\'' || t[0] == '"' {
      e := QuotedTree(env, blanks, t);
    } else if "undefined" <= t {
      e := Undefined(blanks);
      UndefinedRead(env, blanks, t);
    } else {
      var digits := Span(t, NumeralByte, NumeralByte);
      if digits > 0 && env.parseFloat(t[..digits]).Some? {
        e := Numeral(blanks, t[..digits]);
        NumeralRead(env, blanks, t);
      } else {
        e, b := RootTree(env, blanks, t);
      }
    }
  }

  lemma UndefinedRead(env: Env, blanks: string, t: string)
    requires Blank(blanks) && "undefined" <= t
    ensures ReadPrimary(env, blanks + t, Nil, t[9..], Undefined(blanks), "")
  {
    assert t == "undefined" + t[9..] && "" + t[9..] == t[9..];
  }

  lemma NumeralRead(env: Env, blanks: string, t: string)
    requires Blank(blanks)
    requires var n := Span(t, NumeralByte, NumeralByte); n > 0 && env.parseFloat(t[..n]).Some?
    ensures var n := Span(t, NumeralByte, NumeralByte);
            ReadPrimary(env, blanks + t, Number(env.parseFloat(t[..n]).value), t[n..], Numeral(blanks, t[..n]), "")
  {
    var n := Span(t, NumeralByte, NumeralByte);
    SpanTakes(t, NumeralByte, NumeralByte);
    hide Span;
    assert t == t[..n] + t[n..] && "" + t[n..] == t[n..];
    assert IsNumeral(env, t[..n]);
  }

  lemma QuotedTree(env: Env, blanks: string, t: string) returns (e: Primary)
    requires Blank(blanks) && t != "" && (t[0] == '\'' || t[0] == '"') && IndexOf(t[1..], t[0]) < |t| - 1
    ensures var text, end := t[1..], IndexOf(t[1..], t[0]);
            ReadPrimary(env, blanks + t, Text(text[..end]), text[end + 1..], e, "")
  {
    var text, end := t[1..], IndexOf(t[1..], t[0]);
    FirstIndex(text, t[0]);
    hide IndexOf;
    e := Quoted(blanks, t[0], text[..end]);
    QuotedPrints(blanks, t, end);
    assert "" + text[end + 1..] == text[end + 1..];
  }

  lemma QuotedPrints(blanks: string, t: string, end: nat)
    requires end + 1 < |t| && t[end + 1] == t[0]
    ensures Token(blanks, [t[0]], Token(t[1..][..end], [t[0]], t[1..][end + 1..])) == blanks + t
  {
    var text := t[1..];
    assert text == text[..end] + ([text[end]] + text[end + 1..]) && t == [t[0]] + text;
  }

  lemma {:induction false} FirstIndex(s: string, c: char)
    ensures c !in s[..IndexOf(s, c)]
  {
    if s != "" && s[0] != c {
      FirstIndex(s[1..], c);
      assert s[..IndexOf(s, c)] == [s[0]] + s[1..][..IndexOf(s[1..], c)];
    }
  }

  lemma {:induction false} SpanTakes(s: string, start: char -> bool, part: char -> bool)
    ensures var n := Span(s, start, part);
            (n > 0 ==> start(s[0])) && forall i :: 1 <= i < n ==> part(s[i])
  {
    if s != "" && start(s[0]) {
      SpanTakes(s[1..], part, part);
      forall i | 1 <= i < Span(s, start, part) ensures part(s[i]) { assert s[i] == s[1..][i - 1]; }
    }
  }

  lemma TakenRoot(t: string)
    requires !("undefined" <= t) && Span(t, RootByte, RootPart) > 0
    ensures IsRoot(t[..Span(t, RootByte, RootPart)])
  {
    SpanTakes(t, RootByte, RootPart);
    hide Span;
    var name := t[..Span(t, RootByte, RootPart)];
    assert "undefined" <= name ==> "undefined" <= t;
  }

  lemma RootTree(env: Env, blanks: string, t: string) returns (e: Primary, b: string)
    requires Blank(blanks) && t != "" && !("undefined" <= t)
    requires var root := Span(t, RootByte, RootPart);
             root > 0 && ParseChain(env, [t[..root]], t[root..]).Parsed?
    ensures var root := Span(t, RootByte, RootPart);
            var r := ParseChain(env, [t[..root]], t[root..]);
            Blank(b) && ReadPrimary(env, blanks + t, r.value, r.rest, e, b)
    decreases |t|, 1
  {
    TakenRoot(t);
    assert Names(NoMembers) == [] && FormedMembers(NoMembers) && PrintMembers(NoMembers, t[Span(t, RootByte, RootPart)..]) == t[Span(t, RootByte, RootPart)..];
    hide Span, ReadPrimary, ParseChain, IsRoot;
    var root := Span(t, RootByte, RootPart);
    var name := t[..root];
    assert t == name + t[root..] && [name] == [name] + [];
    e, b := ChainTree(env, blanks, name, NoMembers, t[root..], [name], t[root..]);
  }

  /** The members read so far, in front of more. */
  function Extend(m: Members, more: Members): Members {
    if m.NoMembers? then more else m.(more := Extend(m.more, more))
  }

  lemma {:induction false} ExtendFacts(m: Members, more: Members, rest: string)
    ensures PrintMembers(Extend(m, more), rest) == PrintMembers(m, PrintMembers(more, rest))
    ensures Names(Extend(m, more)) == Names(m) + Names(more)
    ensures FormedMembers(m) && FormedMembers(more) ==> FormedMembers(Extend(m, more))
  {
    if m.Member? { ExtendFacts(m.more, more, rest); }
  }

  lemma ChainParts(env: Env, chain: seq<string>, s: string)
    requires chain != [] && ParseChain(env, chain, s).Parsed?
    ensures var r := ParseChain(env, chain, s);
            match Consume(s, ".")
            case Some(after) =>
              var t := Skip(after);
              var n := Span(t, Letter, NamePart);
              |t| < |s| && n > 0 && r == ParseChain(env, chain + [t[..n]], t[n..])
            case None =>
              match Consume(s, "(")
              case Some(after) =>
                var args := ParseArguments(env, after);
                |after| < |s| && args.Parsed? && EvalCall(env, chain, args.value) == Ok(r.value) && r.rest == args.rest
              case None => EvalChain(env, chain) == Ok(r.value) && r.rest == Skip(s)
  {
    hide Consume, Span, ParseArguments, EvalCall, EvalChain;
  }

  lemma ChainTree(env: Env, blanks: string, root: string, m: Members, all: string, chain: seq<string>, s: string) returns (e: Primary, b: string)
    requires Blank(blanks) && IsRoot(root) && FormedMembers(m) && all == PrintMembers(m, s) && chain == [root] + Names(m)
    requires ParseChain(env, chain, s).Parsed?
    ensures Blank(b) && ReadPrimary(env, blanks + (root + all), ParseChain(env, chain, s).value, ParseChain(env, chain, s).rest, e, b)
    decreases |s|, 1
  {
    ChainParts(env, chain, s);
    hide ReadPrimary, IsRoot, FormedMembers, PrintMembers, Names, ParseChain, ParseArguments, Consume, Skip, Span, EvalCall, EvalChain, ReadArguments;
    assert "" + s == s;
    match Consume(s, ".")
    case Some(after) =>
      var t := Skip(after);
      var n := Span(t, Letter, NamePart);
      var one := MemberRead(s, after);
      ExtendFacts(m, one, t[n..]);
      assert chain + [t[..n]] == [root] + (Names(m) + [t[..n]]);
      e, b := ChainTree(env, blanks, root, Extend(m, one), all, chain + [t[..n]], t[n..]);
    case None =>
      match Consume(s, "(")
      case Some(after) =>
        var open := ConsumeSplits("", s, "(");
        var args := ParseArguments(env, after);
        var a := ArgumentsTree(env, after);
        b, e := "", Call(blanks, root, m, open, a);
        CallRead(env, blanks, root, m, all, s, open, after, args.value, args.rest, a, ParseChain(env, chain, s).value);
      case None =>
        b := SkippedRest("", s);
        e := Chain(blanks, root, m);
        ChainRead(env, blanks, root, m, all, s, b, ParseChain(env, chain, s).value);
  }

  lemma MemberRead(s: string, after: string) returns (one: Members)
    requires Consume(s, ".") == Some(after) && Span(Skip(after), Letter, NamePart) > 0
    ensures var t := Skip(after);
            var n := Span(t, Letter, NamePart);
            FormedMembers(one) && PrintMembers(one, t[n..]) == s && Names(one) == [t[..n]]
  {
    TakenName(Skip(after));
    hide Consume, Skip, Span, IsName;
    var dot := ConsumeSplits("", s, ".");
    var gap := SkipSplits(after);
    var t := Skip(after);
    var n := Span(t, Letter, NamePart);
    assert "" + s == s && t == t[..n] + t[n..];
    one := Member(dot, gap, t[..n], NoMembers);
    OneRead(s, dot, gap, t[..n], t[n..], after);
  }

  lemma TakenName(t: string)
    ensures var n := Span(t, Letter, NamePart); n > 0 ==> IsName(t[..n])
  {
    SpanTakes(t, Letter, NamePart);
  }

  lemma OneRead(s: string, dot: string, gap: string, name: string, rest: string, after: string)
    requires Blank(dot) && Blank(gap) && IsName(name) && s == Token(dot, ".", after) && after == gap + (name + rest)
    ensures var one := Member(dot, gap, name, NoMembers);
            FormedMembers(one) && PrintMembers(one, rest) == s && Names(one) == [name]
  {
    assert FormedMembers(NoMembers) && PrintMembers(NoMembers, rest) == rest && Names(NoMembers) == [];
  }

  lemma ChainRead(env: Env, blanks: string, root: string, m: Members, all: string, s: string, b: string, v: Value)
    requires Blank(blanks) && IsRoot(root) && FormedMembers(m) && all == PrintMembers(m, s) && Blank(b) && s == b + Skip(s)
    requires EvalChain(env, [root] + Names(m)) == Ok(v)
    ensures ReadPrimary(env, blanks + (root + all), v, Skip(s), Chain(blanks, root, m), b)
  {
    hide IsRoot, FormedMembers, PrintMembers, Names, EvalChain, Skip, Blank;
  }

  lemma CallRead(env: Env, blanks: string, root: string, m: Members, all: string, s: string, open: string, after: string,
                 args: seq<Value>, rest: string, a: Arguments, v: Value)
    requires Blank(blanks) && IsRoot(root) && FormedMembers(m) && all == PrintMembers(m, s) && Blank(open) && s == Token(open, "(", after)
    requires ReadArguments(env, after, args, rest, a) && EvalCall(env, [root] + Names(m), args) == Ok(v)
    ensures ReadPrimary(env, blanks + (root + all), v, rest, Call(blanks, root, m, open, a), "")
  {
    hide IsRoot, FormedMembers, PrintMembers, Names, EvalCall, FormedArguments, PrintArguments, MeanArguments;
    assert "" + rest == rest && Blank("");
  }

  lemma ArgumentsParts(env: Env, s: string)
    requires ParseArguments(env, s).Parsed?
    ensures match Consume(s, ")")
            case Some(after) => ParseArguments(env, s) == Parsed([], after)
            case None => ParseArguments(env, s) == ParseMore(env, s, []) && ParseTernary(env, s).Parsed?
  {
    hide Consume, ParseTernary;
    if Consume(s, ")").None? { MoreSkipped(env, s, []); }
  }

  lemma ArgumentsTree(env: Env, s: string) returns (a: Arguments)
    requires ParseArguments(env, s).Parsed?
    ensures ReadArguments(env, s, ParseArguments(env, s).value, ParseArguments(env, s).rest, a)
    decreases |s|, 8
  {
    ArgumentsParts(env, s);
    hide ParseArguments, ParseMore, ParseTernary, Consume, ReadTernary, ReadMore;
    match Consume(s, ")")
    case Some(after) =>
      var close := ConsumeSplits("", s, ")");
      assert "" + s == s;
      a := NoArguments(close);
    case None =>
      var first := ParseTernary(env, s);
      var e, b := TernaryTree(env, s);
      var more := MoreTree(env, s, e, b, []);
      a := SomeArguments(e, more);
      FirstRead(env, s, first.value, first.rest, e, b, ParseArguments(env, s).value, ParseArguments(env, s).rest, more);
  }

  lemma FirstRead(env: Env, s: string, v: Value, rest: string, e: Ternary, b: string, all: seq<Value>, end: string, more: MoreArguments)
    requires ReadTernary(env, s, v, rest, e, b) && ReadMore(env, b + rest, [] + [v], all, end, more)
    ensures ReadArguments(env, s, all, end, SomeArguments(e, more))
  {
    assert [] + [v] == [v];
    hide FormedTernary, PrintTernary, MeanTernary, FormedMore, PrintMore, MeanMore;
  }

  lemma MoreParts(env: Env, s: string, before: seq<Value>)
    requires ParseMore(env, s, before).Parsed?
    ensures var r, arg := ParseMore(env, s, before), ParseTernary(env, s);
            && arg.Parsed? && |arg.rest| < |s|
            && match Consume(arg.rest, ",")
               case Some(after) => |after| < |s| && ParseTernary(env, after).Parsed? && r == ParseMore(env, after, before + [arg.value])
               case None => Consume(arg.rest, ")").Some? && r == Parsed(before + [arg.value], Consume(arg.rest, ")").value)
  {
    hide Consume, ParseTernary;
    var arg := ParseTernary(env, s);
    match Consume(arg.rest, ",")
    case Some(after) => MoreSkipped(env, after, before + [arg.value]);
    case None =>
  }

  /** What follows an argument that was read as `e`. */
  lemma MoreTree(env: Env, s: string, e: Ternary, b: string, before: seq<Value>) returns (a: MoreArguments)
    requires ParseMore(env, s, before).Parsed? && ParseTernary(env, s).Parsed?
    requires Blank(b) && ReadTernary(env, s, ParseTernary(env, s).value, ParseTernary(env, s).rest, e, b)
    ensures ReadMore(env, b + ParseTernary(env, s).rest, before + [ParseTernary(env, s).value],
                     ParseMore(env, s, before).value, ParseMore(env, s, before).rest, a)
    decreases |s|, 7
  {
    MoreParts(env, s, before);
    hide ReadTernary, ReadMore, ParseMore, ParseTernary, Consume;
    var arg := ParseTernary(env, s);
    match Consume(arg.rest, ",")
    case Some(after) =>
      var comma := ConsumeSplits(b, arg.rest, ",");
      var next := ParseTernary(env, after);
      var e2, b2 := TernaryTree(env, after);
      var more := MoreTree(env, after, e2, b2, before + [arg.value]);
      a := NextArgument(comma, e2, more);
      NextRead(env, comma, after, before + [arg.value], next.value, next.rest, e2, b2, ParseMore(env, s, before).value, ParseMore(env, s, before).rest, more);
    case None =>
      var close := ConsumeSplits(b, arg.rest, ")");
      a := LastArgument(close);
      LastRead(env, close, before + [arg.value], ParseMore(env, s, before).rest);
  }

  lemma MoreSkipped(env: Env, s: string, before: seq<Value>)
    ensures ParseMore(env, Skip(s), before) == ParseMore(env, s, before)
  {
    TernarySkipped(env, s);
  }

  lemma NextRead(env: Env, comma: string, s: string, before: seq<Value>, v: Value, rest: string, e: Ternary, b: string, all: seq<Value>, end: string, more: MoreArguments)
    requires Blank(comma) && ReadTernary(env, s, v, rest, e, b) && ReadMore(env, b + rest, before + [v], all, end, more)
    ensures ReadMore(env, Token(comma, ",", s), before, all, end, NextArgument(comma, e, more))
  {
    hide FormedTernary, PrintTernary, MeanTernary;
    var a := NextArgument(comma, e, more);
    assert PrintMore(a, end) == Token(comma, ",", PrintTernary(e, PrintMore(more, end)));
    assert FormedMore(env, a) && MeanMore(env, a, before) == MeanMore(env, more, before + [v]);
  }

  lemma LastRead(env: Env, close: string, values: seq<Value>, rest: string)
    requires Blank(close)
    ensures ReadMore(env, Token(close, ")", rest), values, values, rest, LastArgument(close))
  {
  }

  lemma EndsBlank(s: string)
    requires Skip(s) == ""
    ensures Blank(s)
  {
    var b := SkipSplits(s);
    assert b + "" == b;
  }

  /** The text is the printed form of a formed tree with this meaning. */
  ghost predicate Expresses(env: Env, source: string, v: Value) {
    exists e, trailing :: FormedTernary(env, e) && Blank(trailing) && source == PrintTernary(e, trailing) && MeanTernary(env, e) == Ok(v)
  }

  lemma AcceptedIsATree(env: Env, source: string, v: Value)
    requires Evaluate(env, source) == Ok(v)
    ensures Expresses(env, source, v)
  {
    var r := ParseTernary(env, source);
    EndsBlank(r.rest);
    hide ParseTernary, FormedTernary, PrintTernary, MeanTernary;
    var e, b := TernaryTree(env, source);
    var trailing := b + r.rest;
    assert FormedTernary(env, e) && Blank(trailing) && source == PrintTernary(e, trailing) && MeanTernary(env, e) == Ok(v);
  }

  /** A text evaluates to a value iff it is the printed form of a formed tree with that meaning: the
      evaluator accepts exactly its grammar. */
  lemma AcceptsExactlyTheGrammar(env: Env, source: string, v: Value)
    ensures Evaluate(env, source) == Ok(v) <==> Expresses(env, source, v)
  {
    hide FormedTernary, PrintTernary, MeanTernary, Evaluate;
    if Evaluate(env, source) == Ok(v) { AcceptedIsATree(env, source, v); }
    forall e, trailing | FormedTernary(env, e) && Blank(trailing) && source == PrintTernary(e, trailing) && MeanTernary(env, e) == Ok(v)
      ensures Evaluate(env, source) == Ok(v)
    {
      EvaluatesToMeaning(env, e, trailing);
    }
  }
}
