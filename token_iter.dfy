/** The filter-expression token reader: a cursor over a stream of raw tokens
    and the classifier that turns one raw token into a typed token, binding
    variables and literals in a shared context (RbtStringTokenIter). */
module TokenIter {
  import opened Wrappers
  import opened Text
  import opened Strtod

  /** The evaluator's instruction set (RbtCommands). */
  datatype Command = ADD | SUB | MUL | DIV | IF | LOG | EXP | AND

  /** The raw token that stands for each command. */
  function CommandText(c: Command): string
  {
    match c
    case ADD => "+"
    case SUB => "-"
    case MUL => "*"
    case DIV => "/"
    case IF => "if"
    case LOG => "log"
    case EXP => "exp"
    case AND => "and"
  }

  /** The command a raw token names, by exact comparison. */
  function CommandWord(s: string): (r: Option<Command>)
    ensures r.Some? ==> CommandText(r.value) == s
    ensures forall c :: CommandText(c) == s ==> r == Some(c)
  {
    if s == "+" then Some(ADD)
    else if s == "-" then Some(SUB)
    else if s == "*" then Some(MUL)
    else if s == "/" then Some(DIV)
    else if s == "if" then Some(IF)
    else if s == "log" then Some(LOG)
    else if s == "exp" then Some(EXP)
    else if s == "and" then Some(AND)
    else None
  }

  /** Names of live simulation variables contain `SCORE`, `SITE` or `LIG`. */
  predicate IsLiveName(s: string)
  {
    Contains(s, "SCORE") || Contains(s, "SITE") || Contains(s, "LIG")
  }

  /** A typed token: a command, or a handle on a named cell of the context. */
  datatype Token = Cmd(command: Command) | Vble(name: string)

  datatype TranslateError = MissingToken | CantRead(text: string)

  /** The variable context (RbtContext): named numeric cells. */
  type Bindings = map<string, Double>

  datatype Translation = Translated(token: Token, context: Bindings) | Failed(error: TranslateError)

  /** The classification of one raw token against a context, and the context it
      leaves behind. Checks run in a fixed order: empty token, the eight command
      words, live-variable names, numeric literals. */
  function Classify(s: string, ctx: Bindings): (r: Translation)
    ensures r.Failed? <==>
              s == "" || (CommandWord(s).None? && !IsLiveName(s) && ParseDouble(s).None?)
    ensures r.Failed? ==> r.error == (if s == "" then MissingToken else CantRead(s))
    ensures r.Translated? && r.token.Cmd? ==> r.context == ctx
    ensures r.Translated? && r.token.Vble? ==>
              r.token.name == s && r.context.Keys == ctx.Keys + {s} &&
              forall k :: k in ctx && k != s ==> r.context[k] == ctx[k]
  {
    if |s| == 0 then Failed(MissingToken)
    else match CommandWord(s)
      case Some(c) => Translated(Cmd(c), ctx)
      case None =>
        if IsLiveName(s) then Translated(Vble(s), ctx[s := Finite(0.0)])
        else match ParseDouble(s)
          case Some(v) => Translated(Vble(s), ctx[s := v])
          case None => Failed(CantRead(s))
  }

  /** The command words win over every later check: `-` is always SUB, never a
      negative-number prefix, and classifying a command leaves the context alone. */
  lemma CommandWordsWin(c: Command, ctx: Bindings)
    ensures Classify(CommandText(c), ctx) == Translated(Cmd(c), ctx)
  {
    assert CommandText(c) != "";
  }

  /** A live-variable name is (re)bound to 0.0 whatever it held before. */
  lemma LiveNameResetToZero(s: string, ctx: Bindings)
    requires CommandWord(s).None? && IsLiveName(s)
    ensures Classify(s, ctx) == Translated(Vble(s), ctx[s := Finite(0.0)])
    ensures Classify(s, ctx).context[s] == Finite(0.0)
  {
    assert Contains(s, "SCORE") || Contains(s, "SITE") || Contains(s, "LIG");
    assert s != "";
  }

  /** A numeric literal is bound under its own text to the value strtod gives it. */
  lemma LiteralBoundToItsValue(s: string, ctx: Bindings)
    requires CommandWord(s).None? && !IsLiveName(s) && ParseDouble(s).Some?
    ensures Classify(s, ctx) == Translated(Vble(s), ctx[s := ParseDouble(s).value])
  {
    assert s != "" by {
      assert ParseDouble(s).Some? ==> |s| > 0;
    }
  }

  /** A token with no numeral in it that is neither a command nor a live name
      cannot be read, and leaves the context as it was. */
  lemma WithoutNumeralUnreadable(s: string, ctx: Bindings)
    requires s != "" && CommandWord(s).None? && !IsLiveName(s) && !HasNumeral(s)
    ensures Classify(s, ctx) == Failed(CantRead(s))
  {
    assert ParseDouble(s).None?;
  }

  /** Marker search is case-sensitive: a token without upper-case letters is
      never a live-variable name. */
  lemma NoUpperCaseNoLiveName(s: string)
    requires forall k :: 0 <= k < |s| ==> !('A' <= s[k] <= 'Z')
    ensures !IsLiveName(s)
  {
    NotContainsWithoutFirst(s, "SCORE");
    NotContainsWithoutFirst(s, "SITE");
    NotContainsWithoutFirst(s, "LIG");
  }

  /** So `score.x` is no variable, and since it is no number either it cannot be read. */
  lemma LowerCaseMarkerIsUnreadable(s: string, ctx: Bindings)
    requires s == "score.x"
    ensures Classify(s, ctx) == Failed(CantRead(s))
  {
    assert forall k | 0 <= k < |s| :: s[k] in {'s', 'c', 'o', 'r', 'e', '.', 'x'};
    NoUpperCaseNoLiveName(s);
    WithoutNumeralUnreadable(s, ctx);
  }

  /** Every natural written in decimal is a literal bound to its own value. */
  lemma {:induction false} NaturalLiteralRoundTrip(n: nat, ctx: Bindings)
    ensures Classify(NatText(n), ctx) == Translated(Vble(NatText(n)), ctx[NatText(n) := Finite(n as real)])
  {
    var s := NatText(n);
    forall k | 0 <= k < |s|
      ensures s[k] != 'S' && s[k] != 'L'
    {
      assert IsDigitIn(s[k], 10);
    }
    NotContainsWithoutFirst(s, "SCORE");
    NotContainsWithoutFirst(s, "SITE");
    NotContainsWithoutFirst(s, "LIG");
    assert IsDigitIn(s[0], 10);
    assert CommandWord(s).None?;
    NatTextRoundTrip(n);
  }

  /** An unparseable token such as `??` fails with "Can't read". */
  lemma QuestionMarksUnreadable(ctx: Bindings)
    ensures Classify("??", ctx) == Failed(CantRead("??"))
  {
    var s := "??";
    assert forall k | 0 <= k < |s| :: s[k] == '?';
    NotContainsWithoutFirst(s, "SCORE");
    NotContainsWithoutFirst(s, "SITE");
    NotContainsWithoutFirst(s, "LIG");
    WithoutNumeralUnreadable(s, ctx);
  }

  // ---------------------------------------------------------------------------
  // The objects: the shared context, the token stream and the iterator

  /** The variable context, shared by reference between the iterator, the tokens
      and the evaluator. */
  class Context {
    var vars: Bindings

    constructor(vars: Bindings)
      ensures this.vars == vars
    {
      this.vars := vars;
    }

    /** Binds `name` to `value`, creating the cell when it is absent. */
    method Assign(name: string, value: Double)
      modifies this
      ensures vars == old(vars)[name := value]
    {
      vars := vars[name := value];
    }
  }

  /** A raw token as `>>` extracts it: non-empty, without white space. */
  predicate IsRawToken(t: string)
  {
    t != [] && forall i :: 0 <= i < |t| ==> !IsSpace(t[i])
  }

  /** The input stream: its whitespace-delimited tokens and the read position. */
  class TokenStream {
    const tokens: seq<string>
    var pos: nat

    ghost predicate Valid()
      reads this
    {
      pos <= |tokens| && forall i :: 0 <= i < |tokens| ==> IsRawToken(tokens[i])
    }

    constructor(tokens: seq<string>)
      requires forall i :: 0 <= i < |tokens| ==> IsRawToken(tokens[i])
      ensures Valid() && this.tokens == tokens && pos == 0
    {
      this.tokens := tokens;
      pos := 0;
    }

    /** `stream >> target`: the next token, or at the end of the stream the
        target left as it was (`prev`) with the position unchanged. */
    method Extract(prev: string) returns (tok: string)
      requires Valid()
      modifies this
      ensures Valid()
      ensures old(pos) < |tokens| ==> tok == tokens[old(pos)] && pos == old(pos) + 1
      ensures old(pos) == |tokens| ==> tok == prev && pos == old(pos)
    {
      if pos < |tokens| {
        tok := tokens[pos];
        pos := pos + 1;
      } else {
        tok := prev;
      }
    }
  }

  class StringTokenIter {
    var strtok: string
    var current: Option<Token>
    var filep: TokenStream
    var contextp: Context

    ghost predicate Valid()
      reads this, filep
    {
      filep.Valid()
    }

    /** Reads the first raw token from the stream. On an empty stream the raw
        token stays empty, so the first Current() fails with MissingToken. */
    constructor(fn: TokenStream, co: Context)
      requires fn.Valid()
      modifies fn
      ensures Valid() && filep == fn && contextp == co && current == None
      ensures old(fn.pos) < |fn.tokens| ==> strtok == fn.tokens[old(fn.pos)] && fn.pos == old(fn.pos) + 1
      ensures old(fn.pos) == |fn.tokens| ==> strtok == "" && fn.pos == old(fn.pos)
    {
      filep := fn;
      contextp := co;
      current := None;
      strtok := "";
      new;
      strtok := fn.Extract("");
    }

    /** The copy constructor: shares the stream and the context with `ti`. */
    constructor Copy(ti: StringTokenIter)
      requires ti.Valid()
      ensures Valid()
      ensures strtok == ti.strtok && current == ti.current
      ensures filep == ti.filep && contextp == ti.contextp
    {
      strtok := ti.strtok;
      current := ti.current;
      filep := ti.filep;
      contextp := ti.contextp;
    }

    /** Advances the stream by exactly one token. */
    method Next()
      requires Valid()
      modifies filep, this`strtok
      ensures Valid()
      ensures old(filep.pos) < |filep.tokens| ==>
                strtok == filep.tokens[old(filep.pos)] && filep.pos == old(filep.pos) + 1
      ensures old(filep.pos) == |filep.tokens| ==> strtok == old(strtok) && filep.pos == old(filep.pos)
    {
      strtok := filep.Extract(strtok);
    }

    /** Translates the current raw token without advancing the stream. */
    method Current() returns (r: Result<Token, TranslateError>)
      requires Valid()
      modifies this`current, contextp
      ensures Valid()
      ensures r.Ok? ==> Classify(strtok, old(contextp.vars)) == Translated(r.value, contextp.vars)
      ensures r.Ok? ==> current == Some(r.value)
      ensures r.Err? ==> Classify(strtok, old(contextp.vars)) == Failed(r.error)
      ensures r.Err? ==> current == old(current) && contextp.vars == old(contextp.vars)
      ensures strtok == old(strtok) && filep.pos == old(filep.pos)
    {
      r := Translate(strtok);
      if r.Ok? {
        current := Some(r.value);
      }
    }

    /** Makes all four fields equal to those of `ti`. */
    method CopyFrom(ti: StringTokenIter)
      requires ti.Valid()
      modifies this
      ensures Valid()
      ensures strtok == ti.strtok && current == ti.current
      ensures filep == ti.filep && contextp == ti.contextp
    {
      strtok := ti.strtok;
      current := ti.current;
      filep := ti.filep;
      contextp := ti.contextp;
    }

    /** Classifies one raw token, binding live variables and literals in the
        context; a failing token leaves the context unchanged. */
    method Translate(s: string) returns (r: Result<Token, TranslateError>)
      modifies contextp
      ensures r.Ok? ==> Classify(s, old(contextp.vars)) == Translated(r.value, contextp.vars)
      ensures r.Err? ==> Classify(s, old(contextp.vars)) == Failed(r.error)
      ensures r.Err? ==> contextp.vars == old(contextp.vars)
    {
      ghost var before := contextp.vars;
      if |s| == 0 {
        return Err(MissingToken);
      }
      var word := CommandWord(s);
      if word.Some? {
        return Ok(Cmd(word.value));
      }
      if Contains(s, "SCORE") || Contains(s, "SITE") || Contains(s, "LIG") {
        assert Classify(s, before) == Translated(Vble(s), before[s := Finite(0.0)]);
        contextp.Assign(s, Finite(0.0));
        return Ok(Vble(s));
      }
      var val := ParseDouble(s);
      if val.Some? {
        assert Classify(s, before) == Translated(Vble(s), before[s := val.value]);
        contextp.Assign(s, val.value);
        return Ok(Vble(s));
      }
      assert Classify(s, before) == Failed(CantRead(s));
      return Err(CantRead(s));
    }
  }
}
