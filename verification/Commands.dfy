/**
 The command parser and dispatcher of maubot/handlers/command.py.

 Compiled regexes and user-supplied parsers are foreign code: they are function
 values, and every statement below holds whatever they compute.
 */
module Commands {
  import opened Wrappers
  import opened Text

  // ---------------------------------------------------------------------
  // Arguments
  // ---------------------------------------------------------------------

  /** A bound value: text, or an object made by a parser or by regex groups. */
  datatype Value = Str(text: string) | Object(handle: nat)

  type Bindings = map<string, Option<Value>>

  /** What user code can raise. */
  datatype Failure = SyntaxError(message: string, showUsage: bool) | ValueError | OtherError

  /** `regex.match(val)`: where the match ends, and the groups if the regex has any. */
  datatype RegexMatch = RegexMatch(end: nat, groups: Option<nat>)

  /** A match of a text ends inside the text. */
  type Regex = r: string -> Option<RegexMatch> | forall s: string :: r(s).Some? ==> r(s).value.end <= |s|
    witness (s: string) => None

  datatype Argument =
    | Simple(name: string, required: bool, passRaw: bool)
    | Regexp(name: string, required: bool, passRaw: bool, regex: Regex)
    | Custom(name: string, required: bool, parser: string -> Result<Option<Value>, Failure>)
    | CustomRaw(name: string, required: bool, rawParser: string -> Result<(string, Option<Value>), Failure>)
  {
    predicate Plain() {
      Simple? && !passRaw
    }

    /**
     A raw custom parser returns its own remainder; this one cuts text off the
     front, and none when it declines.  The other kinds always do.
     */
    ghost predicate CutsFront() {
      CustomRaw? ==>
        forall s: string :: rawParser(s).Ok? ==>
          IsSuffix(rawParser(s).value.0, s) && (rawParser(s).value.1.None? ==> rawParser(s).value.0 == s)
    }

    /** `match`: the text left over and the value, if any. */
    function Match(val: string): Result<(string, Option<Value>), Failure> {
      match this
      case Simple(_, _, true) => Ok(("", Some(Str(val))))
      case Simple(_, _, false) =>
        var res := FirstToken(val);
        Ok((val[|res|..], Some(Str(res))))
      case Regexp(_, _, raw, regex) =>
        var text := if raw then val else FirstToken(val);
        (match regex(text)
         case None => Ok((val, None))
         case Some(RegexMatch(end, None)) => Ok((val[end..], Some(Str(text[..end]))))
         case Some(RegexMatch(end, Some(groups))) => Ok((val[end..], Some(Object(groups)))))
      case Custom(_, _, parser) =>
        var text := FirstToken(val);
        (match parser(text)
         case Err(e) => Err(e)
         case Ok(None) => Ok((val, None))
         case Ok(value) => Ok((val[|text|..], value)))
      case CustomRaw(_, _, rawParser) => rawParser(val)
    }
  }

  /** What the dispatcher does to the outside: it replies, calls a handler, or lets an exception through. */
  datatype Effect =
    | ReplyError(message: string, showUsage: bool)
    | ReplyUsage
    | ReplyHelp
    | Call(func: nat, args: Bindings)
    | Raise

  datatype ParseOutcome = Parsed(rest: string, args: Bindings) | Stopped(effect: Effect)

  function Complain(e: Failure): Effect {
    match e
    case SyntaxError(message, showUsage) => ReplyError(message, showUsage)
    case ValueError => ReplyUsage
    case OtherError => Raise
  }

  /** One turn of the argument loop. */
  function ParseOne(arg: Argument, args: Bindings, rest: string): ParseOutcome {
    match arg.Match(Strip(rest))
    case Err(e) => Stopped(Complain(e))
    case Ok((left, value)) =>
      if arg.required && value.None? then Stopped(ReplyUsage)
      else Parsed(left, args[arg.name := value])
  }

  function ParseArgs(arguments: seq<Argument>, args: Bindings, rest: string): ParseOutcome
    decreases |arguments|
  {
    if arguments == [] then Parsed(rest, args)
    else
      match ParseOne(arguments[0], args, rest)
      case Stopped(effect) => Stopped(effect)
      case Parsed(left, more) => ParseArgs(arguments[1..], more, left)
  }

  /** `__parse_args__`: the loop that updates the remaining text and the dictionary. */
  method ParseArguments(arguments: seq<Argument>, args: Bindings, rest: string) returns (outcome: ParseOutcome)
    ensures outcome == ParseArgs(arguments, args, rest)
  {
    hide ParseOne;
    var callArgs, remaining := args, rest;
    for i := 0 to |arguments|
      invariant ParseArgs(arguments, args, rest) == ParseArgs(arguments[i..], callArgs, remaining)
    {
      var step := ParseOne(arguments[i], callArgs, remaining);
      if step.Stopped? {
        return Stopped(step.effect);
      }
      assert arguments[i..][1..] == arguments[i + 1..];
      remaining, callArgs := step.rest, step.args;
    }
    return Parsed(remaining, callArgs);
  }

  lemma {:induction false} ParseArgsAppend(xs: seq<Argument>, ys: seq<Argument>, args: Bindings, rest: string)
    ensures ParseArgs(xs + ys, args, rest) ==
            match ParseArgs(xs, args, rest)
            case Stopped(e) => Stopped(e)
            case Parsed(left, more) => ParseArgs(ys, more, left)
    decreases |xs|
  {
    hide ParseOne;
    if xs == [] {
      assert xs + ys == ys;
    } else {
      var step := ParseOne(xs[0], args, rest);
      assert (xs + ys)[1..] == xs[1..] + ys;
      if step.Parsed? {
        ParseArgsAppend(xs[1..], ys, step.args, step.rest);
      }
    }
  }

  lemma {:induction false} ParseArgsOne(arg: Argument, args: Bindings, rest: string)
    ensures ParseArgs([arg], args, rest) == ParseOne(arg, args, rest)
  {
    hide ParseOne;
  }

  // ---------------------------------------------------------------------
  // The tokenizer
  // ---------------------------------------------------------------------

  /** Binds each name to its text, in order, so that a later name wins. */
  function BindAll(args: Bindings, names: seq<string>, texts: seq<string>): Bindings
    requires |names| == |texts|
    decreases |names|
  {
    if names == [] then args
    else BindAll(args[names[0] := Some(Str(texts[0]))], names[1..], texts[1..])
  }

  function Names(arguments: seq<Argument>): (names: seq<string>)
    ensures |names| == |arguments|
    ensures forall i | 0 <= i < |arguments| :: names[i] == arguments[i].name
  {
    seq(|arguments|, i requires 0 <= i < |arguments| => arguments[i].name)
  }

  predicate AllPlain(arguments: seq<Argument>) {
    forall i | 0 <= i < |arguments| :: arguments[i].Plain()
  }

  /** The first `k` words, padded with empty strings. */
  function Padded(ws: seq<string>, k: nat): (r: seq<string>)
    ensures |r| == k
    ensures forall i | 0 <= i < k :: r[i] == if i < |ws| then ws[i] else ""
  {
    seq(k, i requires 0 <= i < k => if i < |ws| then ws[i] else "")
  }

  function Beyond(ws: seq<string>, k: nat): seq<string> {
    if k <= |ws| then ws[k..] else []
  }

  lemma {:induction false} ParsePlain(arg: Argument, args: Bindings, rest: string)
    requires arg.Plain()
    ensures var ws := Words(rest);
            var step := ParseOne(arg, args, rest);
            && step.Parsed?
            && step.args == args[arg.name := Some(Str(if ws == [] then "" else ws[0]))]
            && Words(step.rest) == Beyond(ws, 1)
            && IsSuffix(step.rest, Strip(rest))
  {
    hide Strip, FirstToken, Words, IsSuffix;
    StepTakesFirstWord(rest);
  }

  /** The first word of a text, or nothing. */
  function FirstOf(rest: string): string {
    if Words(rest) == [] then "" else Words(rest)[0]
  }

  /** An argument that does not match: a required one stops with the usage, an optional one takes nothing. */
  predicate Declines(arg: Argument, args: Bindings, rest: string, step: ParseOutcome) {
    step == if arg.required then Stopped(ReplyUsage) else Parsed(Strip(rest), args[arg.name := None])
  }

  /** A custom parser gets the first word of any text; what it makes of it decides. */
  lemma {:induction false} ParseCustom(arg: Argument, args: Bindings, rest: string)
    requires arg.Custom?
    ensures var step := ParseOne(arg, args, rest);
            match arg.parser(FirstOf(rest))
            case Ok(Some(value)) =>
              step.Parsed? && step.args == args[arg.name := Some(value)] && Strip(rest) == FirstOf(rest) + step.rest
            case Ok(None) => Declines(arg, args, rest, step)
            case Err(SyntaxError(message, showUsage)) => step == Stopped(ReplyError(message, showUsage))
            case Err(ValueError) => step == Stopped(ReplyUsage)
            case Err(OtherError) => step == Stopped(Raise)
  {
    hide Strip, FirstToken, Words, IsSuffix;
    StepTakesFirstWord(rest);
    assert FirstToken(Strip(rest)) == FirstOf(rest);
  }

  /** A regular expression sees the first word, or all of the stripped text if it is raw; the matched front goes and is bound. */
  lemma {:induction false} ParseRegexp(arg: Argument, args: Bindings, rest: string)
    requires arg.Regexp?
    ensures var step := ParseOne(arg, args, rest);
            var text := if arg.passRaw then Strip(rest) else FirstOf(rest);
            match arg.regex(text)
            case None => Declines(arg, args, rest, step)
            case Some(RegexMatch(end, groups)) =>
              && step.Parsed? && Strip(rest) == text[..end] + step.rest
              && step.args == args[arg.name := Some(if groups.None? then Str(text[..end]) else Object(groups.value))]
  {
    hide Strip, FirstToken, Words, IsSuffix;
    StepTakesFirstWord(rest);
    var val := Strip(rest);
    var text := if arg.passRaw then val else FirstToken(val);
    assert text == if arg.passRaw then val else FirstOf(rest);
    assert text <= val;
    hide FirstOf;
    match arg.regex(text) {
      case None =>
        assert arg.Match(val) == Ok((val, None));
      case Some(RegexMatch(end, groups)) =>
        assert val == text[..end] + val[end..];
        assert arg.Match(val) == Ok((val[end..], Some(if groups.None? then Str(text[..end]) else Object(groups.value))));
    }
  }

  /** A raw custom parser gets the stripped text and says itself what is left. */
  lemma {:induction false} ParseCustomRaw(arg: Argument, args: Bindings, rest: string)
    requires arg.CustomRaw?
    ensures var step := ParseOne(arg, args, rest);
            match arg.rawParser(Strip(rest))
            case Ok((left, Some(value))) => step == Parsed(left, args[arg.name := Some(value)])
            case Ok((left, None)) => step == if arg.required then Stopped(ReplyUsage) else Parsed(left, args[arg.name := None])
            case Err(SyntaxError(message, showUsage)) => step == Stopped(ReplyError(message, showUsage))
            case Err(ValueError) => step == Stopped(ReplyUsage)
            case Err(OtherError) => step == Stopped(Raise)
  {
    hide Strip;
  }

  /**
   Tokenizer refinement: for any text and any plain arguments, the
   strip-then-split loop binds the first words of the text, padded with empty
   strings, and leaves the other words; the rest is blank exactly when there
   were no more words than arguments.
   */
  lemma {:induction false} Tokenizer(arguments: seq<Argument>, args: Bindings, rest: string)
    requires AllPlain(arguments)
    ensures var k, ws := |arguments|, Words(rest);
            var outcome := ParseArgs(arguments, args, rest);
            && outcome.Parsed?
            && outcome.args == BindAll(args, Names(arguments), Padded(ws, k))
            && Words(outcome.rest) == Beyond(ws, k)
            && (Blank(outcome.rest) <==> |ws| <= k)
            && (k > 0 ==> IsSuffix(outcome.rest, Strip(rest)))
    decreases |arguments|
  {
    hide Words, Blank, ParseOne, Strip, IsSuffix;
    var k, ws := |arguments|, Words(rest);
    if k == 0 {
      BlankIffNoWords(rest);
    } else {
      ParsePlain(arguments[0], args, rest);
      var step := ParseOne(arguments[0], args, rest);
      Tokenizer(arguments[1..], step.args, step.rest);
      assert Names(arguments)[1..] == Names(arguments[1..]);
      assert Padded(ws, k)[1..] == Padded(Beyond(ws, 1), k - 1);
      assert Beyond(Beyond(ws, 1), k - 1) == Beyond(ws, k);
      SuffixStep(step.rest, Strip(rest), ParseArgs(arguments, args, rest).rest);
    }
  }

  /** A suffix of a stripped suffix of a stripped text is a suffix of that text. */
  lemma {:induction false} SuffixStep(t: string, s: string, u: string)
    requires Stripped(s) && IsSuffix(t, s) && (u == t || IsSuffix(u, Strip(t)))
    ensures IsSuffix(u, s)
  {
    hide Strip, Stripped, IsSpace;
    StripOfSuffix(t, s);
    if u != t {
      SuffixTransitive(u, Strip(t), s);
    }
  }

  /**
   A raw argument after plain ones receives what follows the words they took:
   a stripped end of the text itself, so inner whitespace is intact.
   */
  lemma {:induction false} TrailingRaw(arguments: seq<Argument>, raw: Argument, args: Bindings, rest: string)
    returns (text: string)
    requires AllPlain(arguments) && raw.Simple? && raw.passRaw
    ensures var k, ws := |arguments|, Words(rest);
            && ParseArgs(arguments + [raw], args, rest)
               == Parsed("", BindAll(args, Names(arguments), Padded(ws, k))[raw.name := Some(Str(text))])
            && Words(text) == Beyond(ws, k)
            && Stripped(text) && IsSuffix(text, Strip(rest))
  {
    hide Words, Strip, Stripped, BindAll, Blank;
    Tokenizer(arguments, args, rest);
    var outcome := ParseArgs(arguments, args, rest);
    ParseArgsAppend(arguments, [raw], args, rest);
    ParseArgsOne(raw, outcome.args, outcome.rest);
    text := Strip(outcome.rest);
    StripWords(outcome.rest);
    if arguments != [] {
      StripOfSuffix(outcome.rest, Strip(rest));
    }
  }

  // ---------------------------------------------------------------------
  // Optional arguments
  // ---------------------------------------------------------------------

  /** Arguments only ever cut text off the front, and nothing when they do not match. */
  lemma {:induction false} MatchLeavesSuffix(arg: Argument, val: string)
    requires arg.CutsFront() && arg.Match(val).Ok?
    ensures IsSuffix(arg.Match(val).value.0, val)
    ensures arg.Match(val).value.1.None? ==> arg.Match(val).value.0 == val
  {
    hide FirstToken;
    if arg.Regexp? && !arg.passRaw {
      assert |FirstToken(val)| <= |val|;
    }
  }

  /** So the text left after any list of them is a suffix of the stripped input. */
  lemma {:induction false} RestIsSuffix(arguments: seq<Argument>, args: Bindings, rest: string)
    requires arguments != [] && forall i | 0 <= i < |arguments| :: arguments[i].CutsFront()
    requires ParseArgs(arguments, args, rest).Parsed?
    ensures IsSuffix(ParseArgs(arguments, args, rest).rest, Strip(rest))
    decreases |arguments|
  {
    hide Strip, Stripped, IsSuffix;
    MatchLeavesSuffix(arguments[0], Strip(rest));
    var step := ParseOne(arguments[0], args, rest);
    if |arguments| > 1 {
      RestIsSuffix(arguments[1..], step.args, step.rest);
    }
    SuffixStep(step.rest, Strip(rest), ParseArgs(arguments, args, rest).rest);
  }

  function Unset(args: Bindings, name: string): Bindings {
    args[name := None]
  }

  /** The same effect, or the same stripped text and bindings that differ only in `name`. */
  predicate SameButFor(name: string, rebound: bool, with: ParseOutcome, without: ParseOutcome) {
    match without
    case Stopped(effect) => with == without
    case Parsed(rest, args) =>
      && with.Parsed?
      && Strip(with.rest) == Strip(rest)
      && with.args == if rebound then args else Unset(args, name)
  }

  lemma {:induction false} UnsetOne(arg: Argument, name: string, args: Bindings, rest: string)
    ensures var without := ParseOne(arg, args, rest);
            ParseOne(arg, Unset(args, name), rest) ==
            if without.Stopped? || name == arg.name then without
            else Parsed(without.rest, Unset(without.args, name))
  {
    hide Strip, Argument.Match;
  }

  /** Unsetting a name first or last is the same unless the arguments bind it. */
  lemma {:induction false} UnsetCommutes(arguments: seq<Argument>, name: string, args: Bindings, rest: string)
    ensures var without := ParseArgs(arguments, args, rest);
            ParseArgs(arguments, Unset(args, name), rest) ==
            if without.Stopped? || name in Names(arguments) then without
            else Parsed(without.rest, Unset(without.args, name))
    decreases |arguments|
  {
    hide ParseOne, Unset;
    if arguments != [] {
      UnsetOne(arguments[0], name, args, rest);
      NamesOfTail(arguments, name);
      var step := ParseOne(arguments[0], args, rest);
      if step.Parsed? {
        UnsetCommutes(arguments[1..], name, step.args, step.rest);
      }
    }
  }

  lemma {:induction false} NamesOfTail(arguments: seq<Argument>, name: string)
    requires arguments != []
    ensures name in Names(arguments) <==> name == arguments[0].name || name in Names(arguments[1..])
  {
    assert Names(arguments)[1..] == Names(arguments[1..]);
    assert Names(arguments) == [arguments[0].name] + Names(arguments[1..]);
  }

  /** The loop strips before each match, so stripping beforehand only shows with no arguments. */
  lemma {:induction false} StripFirst(arguments: seq<Argument>, args: Bindings, rest: string)
    ensures arguments != [] ==> ParseArgs(arguments, args, Strip(rest)) == ParseArgs(arguments, args, rest)
    ensures Strip(Strip(rest)) == Strip(rest)
  {
    hide Strip, Argument.Match;
    StrippedIsFixed(Strip(rest));
  }

  /**
   Transparent optional arguments: an optional argument that does not match when
   its turn comes consumes nothing.  The list with it stops with the same effect
   as the list without it, or leaves the same stripped text and the same
   bindings, except that its own name is None unless a later argument binds it.
   */
  lemma {:induction false} TransparentOptional(
    before: seq<Argument>, arg: Argument, after: seq<Argument>, args: Bindings, rest: string)
    requires arg.CutsFront() && !arg.required
    requires var reached := ParseArgs(before, args, rest);
             reached.Parsed? ==> arg.Match(Strip(reached.rest)).Ok? && arg.Match(Strip(reached.rest)).value.1.None?
    ensures SameButFor(arg.name, arg.name in Names(after),
                       ParseArgs(before + [arg] + after, args, rest), ParseArgs(before + after, args, rest))
  {
    hide Strip, Names, Argument.Match;
    ParseArgsAppend(before + [arg], after, args, rest);
    ParseArgsAppend(before, [arg], args, rest);
    ParseArgsAppend(before, after, args, rest);
    var reached := ParseArgs(before, args, rest);
    if reached.Parsed? {
      MatchLeavesSuffix(arg, Strip(reached.rest));
      ParseArgsOne(arg, reached.args, reached.rest);
      StripFirst(after, Unset(reached.args, arg.name), reached.rest);
      UnsetCommutes(after, arg.name, reached.args, reached.rest);
    }
  }
}
