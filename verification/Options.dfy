/** The plugin's arguments (hh_dp_utils.c): cutting the argument string into tokens, and the string
    of short options given to getopt_long. */
module Options {
  import opened Messages

  const MAX_ARGS := 64

  // ---- Words ----

  /** Length of the leading run of characters other than the delimiter. */
  function WordLength(s: string): (n: nat)
    ensures n <= |s|
    ensures forall i :: 0 <= i < n ==> s[i] != ' '
    ensures n < |s| ==> s[n] == ' '
  {
    if s == "" || s[0] == ' ' then 0 else 1 + WordLength(s[1..])
  }

  /** The words of a string. */
  function Words(s: string): seq<string>
    decreases |s|
  {
    if s == "" then []
    else if s[0] == ' ' then Words(s[1..])
    else [s[..WordLength(s)]] + Words(s[WordLength(s)..])
  }

  predicate IsWord(w: string) {
    w != "" && ' ' !in w
  }

  function Join(words: seq<string>): string {
    if words == [] then "" else if |words| == 1 then words[0] else words[0] + " " + Join(words[1..])
  }

  function Flatten(words: seq<string>): string {
    if words == [] then "" else words[0] + Flatten(words[1..])
  }

  function Squeeze(s: string): string {
    if s == "" then "" else (if s[0] == ' ' then "" else [s[0]]) + Squeeze(s[1..])
  }

  lemma {:induction false} WordLengthOf(w: string, rest: string)
    requires ' ' !in w && (rest == "" || rest[0] == ' ')
    ensures WordLength(w + rest) == |w|
  {
    if w == "" {
      assert w + rest == rest;
    } else {
      assert (w + rest)[1..] == w[1..] + rest;
      assert (w + rest)[0] == w[0] && w[0] in w;
      WordLengthOf(w[1..], rest);
    }
  }

  lemma FirstWord(w: string, rest: string)
    requires IsWord(w) && (rest == "" || rest[0] == ' ')
    ensures Words(w + rest) == [w] + Words(rest)
  {
    WordLengthOf(w, rest);
    assert (w + rest)[..|w|] == w && (w + rest)[|w|..] == rest;
    assert (w + rest)[0] == w[0] && w[0] in w;
  }

  /** Joining words with spaces and cutting the result gives the words back. */
  lemma {:induction false} WordsOfJoin(words: seq<string>)
    requires forall i :: 0 <= i < |words| ==> IsWord(words[i])
    ensures Words(Join(words)) == words
  {
    if |words| == 1 {
      assert words[0] + "" == words[0];
      FirstWord(words[0], "");
    } else if |words| > 1 {
      var rest := " " + Join(words[1..]);
      assert words[0] + " " + Join(words[1..]) == words[0] + rest;
      FirstWord(words[0], rest);
      WordsOfJoin(words[1..]);
      assert rest[1..] == Join(words[1..]);
    }
  }

  lemma {:induction false} SqueezeWord(w: string, rest: string)
    requires ' ' !in w
    ensures Squeeze(w + rest) == w + Squeeze(rest)
  {
    if w == "" {
      assert w + rest == rest;
    } else {
      assert (w + rest)[1..] == w[1..] + rest;
      assert (w + rest)[0] == w[0] && w[0] in w;
      SqueezeWord(w[1..], rest);
    }
  }

  /** Of any string: its words are words, and together they are the string but for its spaces. */
  lemma {:induction false} WordsOfAnyString(s: string)
    ensures forall i :: 0 <= i < |Words(s)| ==> IsWord(Words(s)[i])
    ensures Flatten(Words(s)) == Squeeze(s)
    decreases |s|
  {
    if s == "" {
    } else if s[0] == ' ' {
      WordsOfAnyString(s[1..]);
    } else {
      var n := WordLength(s);
      var w, rest := s[..n], s[n..];
      WordsOfAnyString(rest);
      assert ' ' !in w;
      assert w + rest == s;
      SqueezeWord(w, rest);
      assert Words(s)[1..] == Words(rest);
    }
  }

  function Take<T>(q: seq<T>, n: nat): seq<T> {
    if n < |q| then q[..n] else q
  }

  // ---- The argument vector ----

  class PluginArgs {
    var argc: nat
    const argv: array<Option<string>>
    ghost var tokens: seq<string>

    /** The vector holds the tokens, and nulls after them. */
    ghost predicate Valid()
      reads this, argv
    {
      && argv.Length == MAX_ARGS
      && argc == |tokens| < MAX_ARGS
      && (forall i :: 0 <= i < argc ==> argv[i] == Some(tokens[i]))
      && (forall i :: argc <= i < MAX_ARGS ==> argv[i] == None)
    }

    /** plugin_args_init. */
    constructor (argv0: string)
      ensures Valid() && tokens == [argv0] && fresh(argv)
    {
      argv := new Option<string>[MAX_ARGS](_ => None);
      argc := 0;
      tokens := [];
      new;
      var r := Push(argv0);
    }

    method Push(token: string) returns (r: int)
      requires Valid()
      modifies this, argv
      ensures Valid()
      ensures r == if old(argc) >= MAX_ARGS - 1 then -1 else 0
      ensures tokens == if r == 0 then old(tokens) + [token] else old(tokens)
    {
      if argc >= MAX_ARGS - 1 {
        return -1;
      }
      argv[argc] := Some(token);
      argc := argc + 1;
      tokens := tokens + [token];
      return 0;
    }

    /** Cut the string: the first 62 words follow the program name, the others are ignored. */
    method Tokenize(args: string) returns (r: int)
      requires Valid() && argc == 1
      modifies this, argv
      ensures r == 0 && Valid()
      ensures tokens == old(tokens) + Take(Words(args), MAX_ARGS - 2)
      ensures argc <= MAX_ARGS - 1 && argv[argc] == None
    {
      if |args| == 0 {
        return 0;
      }
      var save: nat := 0;
      var more := true;
      assert args[0..] == args;
      while more && argc < MAX_ARGS - 1
        invariant Valid() && save <= |args|
        invariant argc == 1 ==> args[save..] == args || !more
        invariant old(tokens) + Words(args) == tokens + Words(args[save..])
        invariant !more ==> Words(args[save..]) == []
        decreases more, MAX_ARGS - argc
      {
        var tok;
        ghost var before := tokens;
        tok, save := NextToken(args, if argc == 1 then 0 else save);
        match tok
        case Some(w) =>
          var pushed := Push(w);
          assert before + ([w] + Words(args[save..])) == tokens + Words(args[save..]);
        case None =>
          more := false;
      }
      assert tokens == (old(tokens) + Words(args))[..argc];
      return 0;
    }

    /** plugin_args_free: every token is released, once, and nothing else. */
    method Free() returns (freed: seq<string>)
      requires Valid()
      modifies this, argv
      ensures freed == old(tokens)
      ensures Valid() && argc == 0
    {
      freed := [];
      var i := 0;
      while i < MAX_ARGS && argc > 0
        invariant 0 <= i <= |tokens| && argc == |tokens| - i
        invariant tokens == old(tokens) && freed == tokens[..i]
        invariant forall j :: 0 <= j < |tokens| ==> argv[j] == Some(tokens[j])
        invariant argv.Length == MAX_ARGS && |tokens| < MAX_ARGS
        decreases argc
      {
        match argv[i] {
          case Some(t) => freed := freed + [t];
          case None =>
        }
        argc := argc - 1;
        i := i + 1;
      }
      forall j | 0 <= j < MAX_ARGS {
        argv[j] := None;
      }
      tokens := [];
    }
  }

  /** strtok_r, from position `start`: the next word, and where to go on from. */
  method NextToken(s: string, start: nat) returns (tok: Option<string>, next: nat)
    requires start <= |s|
    ensures next <= |s|
    ensures var words := Words(s[start..]);
            match tok
            case Some(w) => words == [w] + Words(s[next..])
            case None => words == [] && Words(s[next..]) == []
  {
    var i := start;
    while i < |s| && s[i] == ' '
      invariant start <= i <= |s|
      invariant Words(s[i..]) == Words(s[start..])
    {
      assert s[i..][1..] == s[i + 1..];
      i := i + 1;
    }
    if i == |s| {
      return None, i;
    }
    next := i;
    while next < |s| && s[next] != ' '
      invariant i <= next <= |s|
      invariant forall j :: i <= j < next ==> s[j] != ' '
    {
      next := next + 1;
    }
    var w := s[i..next];
    assert s[i..] == w + s[next..];
    FirstWord(w, s[next..]);
    tok := Some(w);
  }

  // ---- Short options ----

  datatype HasArg = NoArgument | RequiredArgument | OptionalArgument | OtherArgument
  datatype LongOption = LongOption(name: string, val: char, hasArg: HasArg)

  function Colons(o: LongOption): string {
    match o.hasArg
    case RequiredArgument => ":"
    case OptionalArgument => "::"
    case NoArgument | OtherArgument => ""
  }

  function ShortOpts(opts: seq<LongOption>): (s: string)
    ensures |s| <= 3 * |opts|
  {
    if opts == [] then "" else [opts[0].val] + Colons(opts[0]) + ShortOpts(opts[1..])
  }

  /** One round of the loop: the option's value, and its colons. */
  method PutOption(buf: array<char>, start: nat, o: LongOption) returns (c: nat)
    requires start + 3 <= buf.Length
    modifies buf
    ensures c == start + 1 + |Colons(o)|
    ensures buf[start..c] == [o.val] + Colons(o)
    ensures forall i :: 0 <= i < buf.Length && !(start <= i < c) ==> buf[i] == old(buf[i])
  {
    c := start;
    buf[c] := o.val;
    c := c + 1;
    match o.hasArg
    case RequiredArgument =>
      buf[c] := ':';
      c := c + 1;
    case OptionalArgument =>
      buf[c] := ':';
      c := c + 1;
      buf[c] := ':';
      c := c + 1;
    case NoArgument | OtherArgument =>
  }

  lemma OneMoreOption(opts: seq<LongOption>, k: nat, before: string)
    requires k < |opts|
    ensures before + ShortOpts(opts[k..]) == (before + ([opts[k].val] + Colons(opts[k]))) + ShortOpts(opts[k + 1..])
    ensures |Colons(opts[k])| <= 2
  {
    assert opts[k..][1..] == opts[k + 1..];
  }

  /** The buffer gets the short options and a terminator, three characters per option at most. */
  method BuildShortOpts(buf: array<char>, opts: seq<LongOption>)
    requires buf.Length > 3 * |opts|
    modifies buf
    ensures var n := |ShortOpts(opts)|;
            && n < buf.Length
            && buf[..n] == ShortOpts(opts)
            && buf[n] == '\0'
            && forall i :: n < i < buf.Length ==> buf[i] == old(buf[i])
  {
    var c := 0;
    ghost var full := ShortOpts(opts);
    for k := 0 to |opts|
      invariant c <= 3 * k
      invariant buf[..c] + ShortOpts(opts[k..]) == full
      invariant forall i :: |full| <= i < buf.Length ==> buf[i] == old(buf[i])
    {
      ghost var done := buf[..c];
      ghost var start := c;
      hide ShortOpts, Colons;
      OneMoreOption(opts, k, done);
      c := PutOption(buf, c, opts[k]);
      assert buf[..start] == done;
      assert buf[..c] == done + buf[start..c];
    }
    assert buf[..c] + "" == buf[..c];
    buf[c] := '\0';
  }

  /** The options getopt reads in a string of short options. */
  function Decode(s: string): seq<(char, string)> {
    if s == "" then []
    else if |s| >= 3 && s[1] == ':' && s[2] == ':' then [(s[0], "::")] + Decode(s[3..])
    else if |s| >= 2 && s[1] == ':' then [(s[0], ":")] + Decode(s[2..])
    else [(s[0], "")] + Decode(s[1..])
  }

  function Meaning(opts: seq<LongOption>): seq<(char, string)> {
    if opts == [] then [] else [(opts[0].val, Colons(opts[0]))] + Meaning(opts[1..])
  }

  /** No option whose value is a colon comes right after one that may still take a colon. */
  predicate Unambiguous(opts: seq<LongOption>) {
    opts == [] ||
    ((|opts| > 1 && opts[1].val == ':' ==> opts[0].hasArg == OptionalArgument) && Unambiguous(opts[1..]))
  }

  lemma DecodeHead(opts: seq<LongOption>)
    requires opts != []
    requires |opts| > 1 && opts[1].val == ':' ==> opts[0].hasArg == OptionalArgument
    ensures Decode(ShortOpts(opts)) == [(opts[0].val, Colons(opts[0]))] + Decode(ShortOpts(opts[1..]))
  {
    var rest := ShortOpts(opts[1..]);
    var s := ShortOpts(opts);
    assert s == [opts[0].val] + Colons(opts[0]) + rest;
    assert rest != "" ==> |opts| > 1 && rest[0] == opts[1].val;
    var n := 1 + |Colons(opts[0])|;
    assert s[n..] == rest;
    assert |s| > n ==> s[n] == rest[0];
    match opts[0].hasArg
    case RequiredArgument => assert s[1] == ':';
    case OptionalArgument => assert s[1] == ':' && s[2] == ':';
    case NoArgument | OtherArgument =>
  }

  lemma SwallowedColon(opts: seq<LongOption>)
    requires |opts| > 1 && opts[1].val == ':' && opts[0].hasArg != OptionalArgument
    ensures Decode(ShortOpts(opts)) != Meaning(opts)
  {
    var rest := ShortOpts(opts[1..]);
    var s := ShortOpts(opts);
    assert s == [opts[0].val] + Colons(opts[0]) + rest;
    assert rest[0] == ':';
    var n := 1 + |Colons(opts[0])|;
    assert s[n] == rest[0];
    assert Decode(s)[0].1 != Colons(opts[0]);
  }

  /** getopt reads the options that were meant exactly when none of them is a colon that the one
      before would swallow; so it does when no option is a colon. */
  lemma {:induction false} ShortOptsDecode(opts: seq<LongOption>)
    ensures Decode(ShortOpts(opts)) == Meaning(opts) <==> Unambiguous(opts)
    ensures (forall o :: o in opts ==> o.val != ':') ==> Unambiguous(opts)
  {
    if opts != [] {
      ShortOptsDecode(opts[1..]);
      if |opts| > 1 && opts[1].val == ':' && opts[0].hasArg != OptionalArgument {
        SwallowedColon(opts);
        assert opts[1] in opts;
      } else {
        DecodeHead(opts);
        assert Meaning(opts)[1..] == Meaning(opts[1..]);
        assert Decode(ShortOpts(opts))[1..] == Decode(ShortOpts(opts[1..]));
      }
    }
  }

  /** What a reader of a terminated string sees. */
  function CString(s: string): string {
    if s == "" || s[0] == '\0' then "" else [s[0]] + CString(s[1..])
  }

  lemma {:induction false} CStringWhole(s: string, rest: string)
    ensures CString(s + ['\0'] + rest) == s <==> '\0' !in s
  {
    var t := s + ['\0'] + rest;
    if s != "" {
      assert t[1..] == s[1..] + ['\0'] + rest;
      CStringWhole(s[1..], rest);
      if s[0] != '\0' {
        assert CString(t) == [s[0]] + CString(t[1..]);
        assert CString(t)[1..] == CString(t[1..]);
      } else {
        assert '\0' in s;
      }
    }
  }

  lemma {:induction false} NulInShortOpts(opts: seq<LongOption>)
    ensures '\0' in ShortOpts(opts) <==> exists o :: o in opts && o.val == '\0'
  {
    if opts != [] {
      NulInShortOpts(opts[1..]);
      assert '\0' !in Colons(opts[0]);
      assert forall o :: o in opts <==> o == opts[0] || o in opts[1..];
      var s := [opts[0].val] + Colons(opts[0]);
      assert ShortOpts(opts) == s + ShortOpts(opts[1..]);
    }
  }

  /** The terminator added by BuildShortOpts is the first one, so that all options are read, exactly
      when no option value is NUL. */
  lemma AllOptionsRead(opts: seq<LongOption>, rest: string)
    ensures CString(ShortOpts(opts) + ['\0'] + rest) == ShortOpts(opts) <==> forall o :: o in opts ==> o.val != '\0'
  {
    CStringWhole(ShortOpts(opts), rest);
    NulInShortOpts(opts);
  }
}
