/**
 Dispatch over a tree of command handlers (`CommandHandler.__call__` and
 `__call_subcommand__` in maubot/handlers/command.py), for one bound plugin
 instance.
 */
module Dispatch {
  import opened Wrappers
  import opened Text
  import opened Commands

  /** `__mb_is_command_match__` as set up by `command.new`. */
  datatype Matcher =
    | Name(name: string)
    | NameOrAliases(name: string, aliases: seq<string>)
    | Predicate(accepts: string -> bool)
  {
    predicate Matches(word: string) {
      match this
      case Name(name) => word == name
      case NameOrAliases(name, aliases) => word == name || word in aliases
      case Predicate(accepts) => accepts(word)
    }
  }

  type MessageType = nat

  datatype Handler = Handler(
    func: nat, matcher: Matcher, arguments: seq<Argument>, subcommands: seq<Handler>,
    requireSubcommand: bool, argFallthrough: bool, mustConsumeArgs: bool, messageTypes: set<MessageType>)
  {
    /** Subcommands are looked for after the arguments, or before them. */
    predicate SubcommandsLast() {
      argFallthrough && subcommands != []
    }

    predicate SubcommandsFirst() {
      !argFallthrough && subcommands != []
    }
  }

  datatype Event = Event(ownMessage: bool, messageType: MessageType, body: string)

  predicate Accepts(h: Handler, evt: Event) {
    !evt.ownMessage && evt.messageType in h.messageTypes
  }

  /** The first handler in the list that matches, or -1. */
  function FirstMatch(handlers: seq<Handler>, word: string): (i: int)
    ensures -1 <= i < |handlers|
    ensures i >= 0 ==> handlers[i].matcher.Matches(word)
    ensures forall j | 0 <= j < (if i < 0 then |handlers| else i) :: !handlers[j].matcher.Matches(word)
  {
    if handlers == [] then -1
    else if handlers[0].matcher.Matches(word) then 0
    else
      var i := FirstMatch(handlers[1..], word);
      if i < 0 then -1 else i + 1
  }

  /** `__call_subcommand__`: whether a subcommand was chosen, and what it did. */
  function CallSubcommand(h: Handler, evt: Event, args: Bindings, rest: string): (bool, seq<Effect>)
    decreases h, 0
  {
    hide Strip, SplitInTwo, FirstMatch;
    var (command, remaining) := SplitInTwo(Strip(rest));
    var i := FirstMatch(h.subcommands, command);
    if i < 0 then (false, []) else (true, Invoke(h.subcommands[i], evt, args, remaining))
  }

  /** `__call__` with the text after the command word: everything done, in order. */
  function Invoke(h: Handler, evt: Event, args: Bindings, rest: string): seq<Effect>
    decreases h, 1
  {
    if !Accepts(h, evt) then []
    else
      var (early, before) := if h.SubcommandsFirst() then CallSubcommand(h, evt, args, rest) else (false, []);
      if early then before
      else
        match ParseArgs(h.arguments, args, rest)
        case Stopped(effect) => before + [effect]
        case Parsed(left, bound) =>
          var (late, after) := if h.SubcommandsLast() then CallSubcommand(h, evt, bound, left) else (false, []);
          if late then before + after
          else if h.SubcommandsLast() && h.requireSubcommand then before + after + [ReplyHelp]
          else if h.mustConsumeArgs && Strip(left) != "" then before + after + [ReplyHelp]
          else before + after + [Call(h.func, bound)]
  }

  /** `__call__` on a message. */
  function Handle(h: Handler, evt: Event, lower: string -> string): seq<Effect> {
    if !Accepts(h, evt) then []
    else if evt.body == "" || evt.body[0] != '!' then []
    else
      var (command, rest) := SplitInTwo(evt.body[1..]);
      if !h.matcher.Matches(lower(command)) then [] else Invoke(h, evt, map[], rest)
  }

  // ---------------------------------------------------------------------
  // Which messages are ignored
  // ---------------------------------------------------------------------

  /** The bot's own messages, other message types and texts that do not start with `!`. */
  lemma {:induction false} Ignored(h: Handler, evt: Event, lower: string -> string)
    requires evt.ownMessage || evt.messageType !in h.messageTypes || evt.body == "" || evt.body[0] != '!'
    ensures Handle(h, evt, lower) == []
  {
  }

  /**
   A command is the text between `!` and the first space.  A handler ignores the
   commands it does not match, and gets the text after the space of those it does.
   */
  lemma {:induction false} OnlyItsCommand(h: Handler, evt: Event, lower: string -> string, w: string, rest: string)
    requires ' ' !in w && (evt.body == "!" + w + " " + rest || (evt.body == "!" + w && rest == ""))
    ensures Handle(h, evt, lower) ==
            if evt.ownMessage || evt.messageType !in h.messageTypes || !h.matcher.Matches(lower(w)) then []
            else Invoke(h, evt, map[], rest)
  {
    hide Invoke;
    SplitOfPlain(w, rest);
    assert evt.body[0] == '!' && (evt.body[1..] == w + " " + rest || (evt.body[1..] == w && rest == ""));
  }

  /** Further down the tree the event has to be accepted again. */
  lemma {:induction false} IgnoredBelow(h: Handler, evt: Event, args: Bindings, rest: string)
    requires evt.ownMessage || evt.messageType !in h.messageTypes
    ensures Invoke(h, evt, args, rest) == []
  {
  }

  // ---------------------------------------------------------------------
  // Single outcome
  // ---------------------------------------------------------------------

  lemma {:induction false} CallSubcommandOnce(h: Handler, evt: Event, args: Bindings, rest: string)
    ensures var (chosen, effects) := CallSubcommand(h, evt, args, rest);
            |effects| <= 1 && (!chosen ==> effects == [])
    decreases h, 0
  {
    hide Strip, SplitInTwo, FirstMatch;
    var (command, remaining) := SplitInTwo(Strip(rest));
    var i := FirstMatch(h.subcommands, command);
    if i >= 0 {
      InvokeOnce(h.subcommands[i], evt, args, remaining);
    }
  }

  lemma {:induction false} InvokeOnce(h: Handler, evt: Event, args: Bindings, rest: string)
    ensures |Invoke(h, evt, args, rest)| <= 1
    decreases h, 1
  {
    hide Strip, ParseArgs, CallSubcommand;
    CallSubcommandOnce(h, evt, args, rest);
    var parsed := ParseArgs(h.arguments, args, rest);
    if parsed.Parsed? {
      CallSubcommandOnce(h, evt, parsed.args, parsed.rest);
    }
  }

  /**
   Single outcome: whatever the tree, the flags, the matchers and the message,
   dispatch ends in nothing at all, in one reply, in one handler call or in one
   exception of user code; never in two of them.
   */
  lemma {:induction false} SingleOutcome(h: Handler, evt: Event, lower: string -> string)
    ensures |Handle(h, evt, lower)| <= 1
  {
    hide Strip, SplitInTwo, Invoke;
    if Accepts(h, evt) && evt.body != "" && evt.body[0] == '!' {
      var (command, rest) := SplitInTwo(evt.body[1..]);
      InvokeOnce(h, evt, map[], rest);
    }
  }

  /**
   A command without subcommands and with plain arguments, on any text: the
   first words are bound, padded with empty strings, and the function is called
   unless words are left over that the command must consume.
   */
  lemma {:induction false} PlainLeaf(h: Handler, evt: Event, args: Bindings, rest: string)
    requires Accepts(h, evt) && h.subcommands == [] && AllPlain(h.arguments)
    ensures var k, ws := |h.arguments|, Words(rest);
            Invoke(h, evt, args, rest) ==
            if h.mustConsumeArgs && |ws| > k then [ReplyHelp]
            else [Call(h.func, BindAll(args, Names(h.arguments), Padded(ws, k)))]
  {
    hide Strip, Words, Blank, BindAll, ParseArgs, CallSubcommand;
    Tokenizer(h.arguments, args, rest);
    BlankIffNoWords(ParseArgs(h.arguments, args, rest).rest);
  }

  /**
   Any node with plain arguments, on any text and with any flags.  `early` and
   `late` are the subcommands that the text selects before and after the arguments.
   */
  lemma {:induction false} PlainNode(h: Handler, evt: Event, args: Bindings, rest: string)
    requires Accepts(h, evt) && AllPlain(h.arguments)
    ensures ParseArgs(h.arguments, args, rest).Parsed?
    ensures var k, ws := |h.arguments|, Words(rest);
            var bound := BindAll(args, Names(h.arguments), Padded(ws, k));
            var left := ParseArgs(h.arguments, args, rest).rest;
            var early := FirstMatch(h.subcommands, SplitInTwo(Strip(rest)).0);
            var late := FirstMatch(h.subcommands, SplitInTwo(Strip(left)).0);
            && Words(left) == Beyond(ws, k)
            && Invoke(h, evt, args, rest) ==
               if !h.argFallthrough && early >= 0 then Invoke(h.subcommands[early], evt, args, SplitInTwo(Strip(rest)).1)
               else if h.argFallthrough && late >= 0 then Invoke(h.subcommands[late], evt, bound, SplitInTwo(Strip(left)).1)
               else if h.argFallthrough && h.subcommands != [] && h.requireSubcommand then [ReplyHelp]
               else if h.mustConsumeArgs && |ws| > k then [ReplyHelp]
               else [Call(h.func, bound)]
  {
    hide Strip, Words, Blank, BindAll, ParseArgs, SplitInTwo;
    Tokenizer(h.arguments, args, rest);
    BlankIffNoWords(ParseArgs(h.arguments, args, rest).rest);
  }

  // ---------------------------------------------------------------------
  // Round trip
  // ---------------------------------------------------------------------

  /** A way down the tree: the argument texts given at each node and the words that select subcommands. */
  datatype Path =
    | Stop(texts: seq<string>)
    | Descend(texts: seq<string>, word: string, sub: nat, next: Path)

  /** The words a user types for a path. */
  function Typed(path: Path): seq<string> {
    match path
    case Stop(texts) => texts
    case Descend(texts, word, _, next) => texts + [word] + Typed(next)
  }

  function FirstWord(ws: seq<string>): string {
    if ws == [] then "" else ws[0]
  }

  /**
   The path makes sense in the tree: plain arguments each get one plain text,
   a subcommand word selects the subcommand, and where the path stops no
   subcommand is required or selected by accident.  A node that looks for
   subcommands first takes no arguments on the way down.
   */
  predicate Leads(h: Handler, path: Path, evt: Event)
    decreases path
  {
    && Accepts(h, evt)
    && match path
       case Stop(texts) =>
         && AllPlain(h.arguments) && |texts| == |h.arguments| && PlainWords(texts)
         && (h.SubcommandsLast() ==> !h.requireSubcommand && FirstMatch(h.subcommands, "") < 0)
         && (h.SubcommandsFirst() ==> FirstMatch(h.subcommands, FirstWord(texts)) < 0)
       case Descend(texts, word, sub, next) =>
         && PlainWord(word)
         && FirstMatch(h.subcommands, word) == sub
         && (if h.argFallthrough
             then AllPlain(h.arguments) && |texts| == |h.arguments| && PlainWords(texts)
             else texts == [])
         && sub < |h.subcommands| && Leads(h.subcommands[sub], next, evt)
  }

  function Target(h: Handler, path: Path): Handler
    requires Follows(h, path)
  {
    if path.Stop? then h else Target(h.subcommands[path.sub], path.next)
  }

  predicate Follows(h: Handler, path: Path)
    decreases path
  {
    path.Descend? ==> path.sub < |h.subcommands| && Follows(h.subcommands[path.sub], path.next)
  }

  /** The bindings a path asks for, on top of those already made. */
  function Expected(h: Handler, path: Path, args: Bindings, evt: Event): Bindings
    requires Leads(h, path, evt)
    decreases path
  {
    match path
    case Stop(texts) => BindAll(args, Names(h.arguments), texts)
    case Descend(texts, word, sub, next) =>
      Expected(h.subcommands[sub], next,
               if h.argFallthrough then BindAll(args, Names(h.arguments), texts) else args, evt)
  }

  lemma {:induction false} LeadsFollows(h: Handler, path: Path, evt: Event)
    requires Leads(h, path, evt)
    ensures Follows(h, path) && PlainWords(Typed(path))
    decreases path
  {
    hide FirstMatch, PlainWord;
    if path.Descend? {
      LeadsFollows(h.subcommands[path.sub], path.next, evt);
    }
  }

  /** Plain arguments take their words off the front of a joined list. */
  lemma {:induction false} ParseJoined(
    arguments: seq<Argument>, args: Bindings, rest: string, texts: seq<string>, others: seq<string>)
    requires AllPlain(arguments) && |texts| == |arguments| && PlainWords(texts + others)
    requires Strip(rest) == Join(texts + others)
    ensures var outcome := ParseArgs(arguments, args, rest);
            && outcome.Parsed?
            && outcome.args == BindAll(args, Names(arguments), texts)
            && Strip(outcome.rest) == Join(others)
    decreases |arguments|
  {
    hide Strip, Join, FirstToken, PlainWord;
    var ws := texts + others;
    if arguments == [] {
      assert ws == others;
    } else {
      FirstTokenOfJoin(ws);
      assert ws[1..] == texts[1..] + others;
      var step := ParseOne(arguments[0], args, rest);
      assert arguments[0].Plain();
      ParseJoined(arguments[1..], step.args, step.rest, texts[1..], others);
      assert Names(arguments)[1..] == Names(arguments[1..]);
    }
  }

  /** Choosing a subcommand from a joined list of words. */
  lemma {:induction false} CallJoined(h: Handler, evt: Event, args: Bindings, rest: string, ws: seq<string>)
    requires PlainWords(ws) && Strip(rest) == Join(ws)
    ensures var i := FirstMatch(h.subcommands, FirstWord(ws));
            CallSubcommand(h, evt, args, rest) ==
            if i < 0 then (false, [])
            else (true, Invoke(h.subcommands[i], evt, args, Join(if ws == [] then [] else ws[1..])))
  {
    hide Strip, Join, FirstMatch, Invoke, PlainWord;
    SplitOfJoin(ws);
    if ws == [] {
      EmptyJoin();
    }
  }

  lemma {:induction false} EmptyJoin()
    ensures Join([]) == "" && Strip("") == ""
  {
  }

  lemma {:induction false} InvokeStop(h: Handler, evt: Event, args: Bindings, rest: string, path: Path)
    requires path.Stop? && Leads(h, path, evt) && Strip(rest) == Join(path.texts)
    ensures Invoke(h, evt, args, rest) == [Call(h.func, Expected(h, path, args, evt))]
  {
    hide Strip, Join, ParseArgs, FirstMatch, PlainWords, CallSubcommand;
    var texts := path.texts;
    CallJoined(h, evt, args, rest, texts);
    assert texts + [] == texts;
    ParseJoined(h.arguments, args, rest, texts, []);
    var parsed := ParseArgs(h.arguments, args, rest);
    EmptyJoin();
    assert PlainWords([]) by { EmptyIsPlain(); }
    CallJoined(h, evt, parsed.args, parsed.rest, []);
  }

  lemma {:induction false} EmptyIsPlain()
    ensures PlainWords([])
  {
  }

  lemma {:induction false} PlainTail(xs: seq<string>, ys: seq<string>)
    requires PlainWords(xs + ys)
    ensures PlainWords(ys)
  {
    hide PlainWord;
    forall i | 0 <= i < |ys|
      ensures PlainWord(ys[i])
    {
      assert (xs + ys)[|xs| + i] == ys[i];
    }
  }

  /** The whole descent, for any text that strips to the typed words. */
  lemma {:induction false} InvokePath(h: Handler, evt: Event, args: Bindings, rest: string, path: Path)
    requires Leads(h, path, evt) && Strip(rest) == Join(Typed(path))
    ensures Follows(h, path)
    ensures Invoke(h, evt, args, rest) == [Call(Target(h, path).func, Expected(h, path, args, evt))]
    decreases path
  {
    hide Strip, Join, ParseArgs, FirstMatch, PlainWords, CallSubcommand, PlainWord;
    LeadsFollows(h, path, evt);
    if path.Stop? {
      InvokeStop(h, evt, args, rest, path);
    } else {
      var child, words := h.subcommands[path.sub], [path.word] + Typed(path.next);
      assert Typed(path) == path.texts + words;
      PlainTail(path.texts, words);
      PlainTail([path.word], Typed(path.next));
      assert words[1..] == Typed(path.next);
      JoinIsStripped(Typed(path.next));
      StrippedIsFixed(Join(Typed(path.next)));
      if h.argFallthrough {
        ParseJoined(h.arguments, args, rest, path.texts, words);
        var parsed := ParseArgs(h.arguments, args, rest);
        CallJoined(h, evt, parsed.args, parsed.rest, words);
        InvokePath(child, evt, parsed.args, Join(Typed(path.next)), path.next);
      } else {
        assert Typed(path) == words;
        CallJoined(h, evt, args, rest, words);
        InvokePath(child, evt, args, Join(Typed(path.next)), path.next);
      }
    }
  }

  /** `!name tok ... sub tok ...` */
  function Print(name: string, ws: seq<string>): string {
    "!" + Join([name] + ws)
  }

  /**
   Command round trip: typing a path that leads to a node calls exactly that
   node's function, once, with exactly the bindings of the path.
   */
  lemma {:induction false} CommandRoundTrip(
    h: Handler, path: Path, name: string, evt: Event, lower: string -> string)
    requires Leads(h, path, evt)
    requires PlainWord(name) && h.matcher.Matches(lower(name))
    requires evt.body == Print(name, Typed(path))
    ensures Follows(h, path)
    ensures Handle(h, evt, lower) == [Call(Target(h, path).func, Expected(h, path, map[], evt))]
  {
    hide Strip, Join, Invoke, PlainWord, SplitInTwo;
    LeadsFollows(h, path, evt);
    var ws := Typed(path);
    assert evt.body[1..] == Join([name] + ws);
    assert ([name] + ws)[1..] == ws;
    SplitOfJoin([name] + ws);
    JoinIsStripped(ws);
    StrippedIsFixed(Join(ws));
    InvokePath(h, evt, map[], Join(ws), path);
  }

  /** A printed command that stops short of a subcommand it requires, or names none that there is, gets the help. */
  lemma {:induction false} NoSuchSubcommand(
    h: Handler, texts: seq<string>, others: seq<string>, name: string, evt: Event, lower: string -> string)
    requires !evt.ownMessage && evt.messageType in h.messageTypes
    requires h.argFallthrough && h.subcommands != [] && h.requireSubcommand
    requires AllPlain(h.arguments) && |texts| == |h.arguments| && PlainWords(texts + others)
    requires PlainWord(name) && h.matcher.Matches(lower(name))
    requires FirstMatch(h.subcommands, FirstWord(others)) < 0
    requires evt.body == Print(name, texts + others)
    ensures Handle(h, evt, lower) == [ReplyHelp]
  {
    hide Strip, Join, PlainWord, SplitInTwo, ParseArgs, BindAll, CallSubcommand;
    var ws := texts + others;
    assert evt.body[1..] == Join([name] + ws);
    assert ([name] + ws)[1..] == ws;
    SplitOfJoin([name] + ws);
    JoinIsStripped(ws);
    StrippedIsFixed(Join(ws));
    ParseJoined(h.arguments, map[], Join(ws), texts, others);
    PlainTail(texts, others);
    var parsed := ParseArgs(h.arguments, map[], Join(ws));
    CallJoined(h, evt, parsed.args, parsed.rest, others);
  }

  // ---------------------------------------------------------------------
  // Names
  // ---------------------------------------------------------------------

  /** The words a handler answers to, if they can be listed: its name and its aliases. */
  function Called(m: Matcher): seq<string> {
    match m
    case Name(name) => [name]
    case NameOrAliases(name, aliases) => [name] + aliases
    case Predicate(_) => []
  }

  lemma {:induction false} CalledMatches(m: Matcher, word: string)
    requires !m.Predicate?
    ensures m.Matches(word) <==> word in Called(m)
  {
  }

  /** Siblings that answer to listed, non-empty words, no word to two of them. */
  predicate DistinctNames(handlers: seq<Handler>) {
    && (forall i | 0 <= i < |handlers| :: !handlers[i].matcher.Predicate? && "" !in Called(handlers[i].matcher))
    && (forall i, j, w | 0 <= i < j < |handlers| && w in Called(handlers[i].matcher) :: w !in Called(handlers[j].matcher))
  }

  /** With distinct names, each word selects its own command. */
  lemma {:induction false} NamesSelect(handlers: seq<Handler>, k: nat, word: string)
    requires DistinctNames(handlers) && k < |handlers| && word in Called(handlers[k].matcher)
    ensures FirstMatch(handlers, word) == k
  {
    hide Called, Matcher.Matches;
    forall i, w | 0 <= i < |handlers|
      ensures handlers[i].matcher.Matches(w) <==> w in Called(handlers[i].matcher)
    {
      CalledMatches(handlers[i].matcher, w);
    }
    assert handlers[k].matcher.Matches(word);
    var i := FirstMatch(handlers, word);
  }

  /** The names a path binds and the texts it binds them to. */
  function BoundNames(h: Handler, path: Path): seq<string>
    requires Follows(h, path)
    decreases path
  {
    match path
    case Stop(_) => Names(h.arguments)
    case Descend(_, _, sub, next) =>
      (if h.argFallthrough then Names(h.arguments) else []) + BoundNames(h.subcommands[sub], next)
  }

  function BoundTexts(path: Path): seq<string> {
    match path
    case Stop(texts) => texts
    case Descend(texts, _, _, next) => texts + BoundTexts(next)
  }

  lemma {:induction false} BindAllAppend(args: Bindings, ns: seq<string>, ts: seq<string>, ns': seq<string>, ts': seq<string>)
    requires |ns| == |ts| && |ns'| == |ts'|
    ensures BindAll(args, ns + ns', ts + ts') == BindAll(BindAll(args, ns, ts), ns', ts')
    decreases |ns|
  {
    if ns == [] {
      assert ns + ns' == ns' && ts + ts' == ts';
    } else {
      assert (ns + ns')[1..] == ns[1..] + ns' && (ts + ts')[1..] == ts[1..] + ts';
      BindAllAppend(args[ns[0] := Some(Str(ts[0]))], ns[1..], ts[1..], ns', ts');
    }
  }

  predicate Distinct(names: seq<string>) {
    forall i, j | 0 <= i < j < |names| :: names[i] != names[j]
  }

  /** Distinct names keep their own texts, and nothing else is bound. */
  lemma {:induction false} BindAllLookup(args: Bindings, names: seq<string>, texts: seq<string>)
    requires |names| == |texts| && Distinct(names)
    ensures var bound := BindAll(args, names, texts);
            && (forall i | 0 <= i < |names| :: names[i] in bound && bound[names[i]] == Some(Str(texts[i])))
            && (forall n | n !in names :: n in bound <==> n in args)
            && (forall n | n !in names && n in args :: bound[n] == args[n])
    decreases |names|
  {
    if names != [] {
      var more := args[names[0] := Some(Str(texts[0]))];
      var tail, bound := names[1..], BindAll(args, names, texts);
      BindAllLookup(more, tail, texts[1..]);
      assert names[0] !in tail;
      forall i | 0 <= i < |names|
        ensures names[i] in bound && bound[names[i]] == Some(Str(texts[i]))
      {
        if i > 0 {
          assert tail[i - 1] == names[i] && texts[1..][i - 1] == texts[i];
        }
      }
      assert forall n | n !in names :: n !in tail && n != names[0];
    }
  }

  lemma {:induction false} ExpectedIsBindAll(h: Handler, path: Path, args: Bindings, evt: Event)
    requires Leads(h, path, evt)
    ensures Follows(h, path) && |BoundNames(h, path)| == |BoundTexts(path)|
    ensures Expected(h, path, args, evt) == BindAll(args, BoundNames(h, path), BoundTexts(path))
    decreases path
  {
    hide FirstMatch, PlainWords, AllPlain, BindAll;
    LeadsFollows(h, path, evt);
    if path.Descend? {
      var child := h.subcommands[path.sub];
      if h.argFallthrough {
        var names := Names(h.arguments);
        var more := BindAll(args, names, path.texts);
        ExpectedIsBindAll(child, path.next, more, evt);
        BindAllAppend(args, names, path.texts, BoundNames(child, path.next), BoundTexts(path.next));
      } else {
        ExpectedIsBindAll(child, path.next, args, evt);
        assert [] + BoundNames(child, path.next) == BoundNames(child, path.next);
        assert path.texts + BoundTexts(path.next) == BoundTexts(path.next);
      }
    }
  }

  /**
   With distinct argument names along the path, the call binds each of them to
   the text typed for it and binds nothing else.
   */
  lemma {:induction false} RoundTripBindings(
    h: Handler, path: Path, name: string, evt: Event, lower: string -> string)
    requires Leads(h, path, evt) && PlainWord(name) && h.matcher.Matches(lower(name))
    requires evt.body == Print(name, Typed(path))
    requires Follows(h, path) && Distinct(BoundNames(h, path))
    ensures |BoundNames(h, path)| == |BoundTexts(path)|
    ensures exists args: Bindings ::
              && Handle(h, evt, lower) == [Call(Target(h, path).func, args)]
              && (forall n :: n in args <==> n in BoundNames(h, path))
              && (forall i | 0 <= i < |BoundNames(h, path)| ::
                    args[BoundNames(h, path)[i]] == Some(Str(BoundTexts(path)[i])))
  {
    hide Leads, Expected, BindAll, Handle, PlainWord, Distinct, BoundNames, BoundTexts;
    CommandRoundTrip(h, path, name, evt, lower);
    ExpectedIsBindAll(h, path, map[], evt);
    BindAllLookup(map[], BoundNames(h, path), BoundTexts(path));
    var args := Expected(h, path, map[], evt);
    var names, texts := BoundNames(h, path), BoundTexts(path);
    forall n: string
      ensures n in args <==> n in names
    {
      if n in names {
        var i :| 0 <= i < |names| && names[i] == n;
      }
    }
  }

  // ---------------------------------------------------------------------
  // The round trip for trees of plain names
  // ---------------------------------------------------------------------

  /** Everywhere in the tree siblings have distinct names and aliases without whitespace. */
  predicate Named(h: Handler) {
    && DistinctNames(h.subcommands)
    && (forall i | 0 <= i < |h.subcommands| :: PlainWords(Called(h.subcommands[i].matcher)))
    && (forall i | 0 <= i < |h.subcommands| :: Named(h.subcommands[i]))
  }

  predicate NamesSome(handlers: seq<Handler>, word: string) {
    exists i | 0 <= i < |handlers| :: word in Called(handlers[i].matcher)
  }

  /**
   A path spelled with names or aliases of the nodes on it and one plain token for each
   plain argument, to a node that may be called itself.  Only a node that looks
   for subcommands before its arguments adds a condition of its own: it takes no
   arguments on the way down, and a first token that names a subcommand would
   select it.
   */
  predicate Spelled(h: Handler, path: Path, evt: Event)
    decreases path
  {
    && Accepts(h, evt)
    && match path
       case Stop(texts) =>
         && AllPlain(h.arguments) && |texts| == |h.arguments| && PlainWords(texts)
         && (h.subcommands == [] || !h.argFallthrough || !h.requireSubcommand)
         && (h.argFallthrough || !NamesSome(h.subcommands, FirstWord(texts)))
       case Descend(texts, word, sub, next) =>
         && sub < |h.subcommands| && word in Called(h.subcommands[sub].matcher)
         && (if h.argFallthrough
             then AllPlain(h.arguments) && |texts| == |h.arguments| && PlainWords(texts)
             else texts == [])
         && Spelled(h.subcommands[sub], next, evt)
  }

  /** A word that is nobody's name selects nobody. */
  lemma {:induction false} NoNameSelectsNone(handlers: seq<Handler>, word: string)
    requires DistinctNames(handlers) && !NamesSome(handlers, word)
    ensures FirstMatch(handlers, word) == -1
  {
    hide Called, Matcher.Matches;
    forall i | 0 <= i < |handlers|
      ensures !handlers[i].matcher.Matches(word)
    {
      CalledMatches(handlers[i].matcher, word);
    }
    var i := FirstMatch(handlers, word);
  }

  lemma {:induction false} EmptyWordSelectsNone(handlers: seq<Handler>)
    requires DistinctNames(handlers)
    ensures FirstMatch(handlers, "") == -1
  {
    NoNameSelectsNone(handlers, "");
  }

  lemma {:induction false} SpelledLeads(h: Handler, path: Path, evt: Event)
    requires Named(h) && Spelled(h, path, evt)
    ensures Leads(h, path, evt)
    decreases path
  {
    match path
    case Stop(texts) =>
      if h.subcommands != [] {
        EmptyWordSelectsNone(h.subcommands);
        if !h.argFallthrough {
          NoNameSelectsNone(h.subcommands, FirstWord(texts));
        }
      }
    case Descend(texts, word, sub, next) =>
      NamesSelect(h.subcommands, sub, word);
      var words := Called(h.subcommands[sub].matcher);
      assert PlainWords(words);
      var i :| 0 <= i < |words| && words[i] == word;
      SpelledLeads(h.subcommands[sub], next, evt);
  }

  /**
   Command round trip under the premises a plugin author can see: a tree of
   distinct whitespace-free names and aliases, a lower-case root, distinct argument names
   along the path, plain tokens, and nodes that accept the event.  The printed
   message calls exactly the target's function, once, and binds each argument name
   of the path to its own token and nothing else.
   */
  lemma {:induction false} NamedRoundTrip(h: Handler, path: Path, name: string, evt: Event, lower: string -> string)
    requires Named(h) && Spelled(h, path, evt)
    requires !h.matcher.Predicate? && name in Called(h.matcher) && PlainWord(name) && lower(name) == name
    requires evt.body == Print(name, Typed(path))
    requires Follows(h, path) ==> Distinct(BoundNames(h, path))
    ensures Follows(h, path) && |BoundNames(h, path)| == |BoundTexts(path)|
    ensures exists args: Bindings ::
              && Handle(h, evt, lower) == [Call(Target(h, path).func, args)]
              && (forall n :: n in args <==> n in BoundNames(h, path))
              && (forall i | 0 <= i < |BoundNames(h, path)| ::
                    args[BoundNames(h, path)[i]] == Some(Str(BoundTexts(path)[i])))
  {
    hide Leads, Named, Spelled, Handle, PlainWord, Distinct, BoundNames, BoundTexts;
    SpelledLeads(h, path, evt);
    LeadsFollows(h, path, evt);
    CalledMatches(h.matcher, name);
    RoundTripBindings(h, path, name, evt, lower);
  }
}
