/** Splitting a managed upstream's command line when it runs `node` directly. */
module NodeArgv {
  import opened Wrappers
  import opened Text

  /** The scanner: tokens so far, the token being read, and whether inside single quotes. */
  datatype Scanner = Scanner(args: seq<string>, cur: string, inSingle: bool)

  function Pushed(sc: Scanner): seq<string> {
    if sc.cur != "" then sc.args + [sc.cur] else sc.args
  }

  function Next(sc: Scanner, c: char): Scanner {
    if c == '\'' then sc.(inSingle := !sc.inSingle)
    else if c == ' ' && !sc.inSingle then sc.(args := Pushed(sc), cur := "")
    else sc.(cur := sc.cur + [c])
  }

  function Scan(sc: Scanner, s: string): Scanner
    decreases |s|
  {
    if s == "" then sc else Scan(Next(sc, s[0]), s[1..])
  }

  const FRESH: Scanner := Scanner([], "", false)

  function Tokens(command: string): seq<string> {
    Pushed(Scan(FRESH, command))
  }

  function Split(command: string): Option<seq<string>> {
    var args := Tokens(command);
    if args == [] || args[0] != "node" then None else Some(args)
  }

  method SplitNodeArgv(command: string) returns (r: Option<seq<string>>)
    ensures r == Split(command)
  {
    var args: seq<string>, cur, inSingle := [], "", false;
    for i := 0 to |command|
      invariant Scan(Scanner(args, cur, inSingle), command[i..]) == Scan(FRESH, command)
    {
      var c := command[i];
      assert command[i..][0] == c && command[i..][1..] == command[i + 1..];
      if c == '\'' && !inSingle {
        inSingle := true;
      } else if c == '\'' && inSingle {
        inSingle := false;
      } else if c == ' ' && !inSingle {
        if |cur| > 0 {
          args := args + [cur];
          cur := "";
        }
      } else {
        cur := cur + [c];
      }
    }
    if |cur| > 0 {
      args := args + [cur];
    }
    if |args| == 0 || args[0] != "node" {
      return None;
    }
    return Some(args);
  }

  // ---------------------------------------------------------------- nothing is lost or made up

  function Concat(ts: seq<string>): string {
    if ts == [] then "" else ts[0] + Concat(ts[1..])
  }

  /** The command without its quotes and without the spaces outside them. */
  function Kept(s: string, inSingle: bool): string {
    if s == "" then ""
    else if s[0] == '\'' then Kept(s[1..], !inSingle)
    else if s[0] == ' ' && !inSingle then Kept(s[1..], inSingle)
    else [s[0]] + Kept(s[1..], inSingle)
  }

  lemma {:induction false} ConcatAppend(ts: seq<string>, t: string)
    ensures Concat(ts + [t]) == Concat(ts) + t
  {
    if ts == [] {
      assert ts + [t] == [t];
      assert Concat([t]) == t + Concat([]);
    } else {
      assert (ts + [t])[0] == ts[0] && (ts + [t])[1..] == ts[1..] + [t];
      ConcatAppend(ts[1..], t);
    }
  }

  /** What the scanner has read so far. */
  function Read(sc: Scanner): string {
    Concat(sc.args) + sc.cur
  }

  function KeptOf(c: char, inSingle: bool): string {
    if c == '\'' || (c == ' ' && !inSingle) then "" else [c]
  }

  lemma NextReads(sc: Scanner, c: char)
    ensures Read(Next(sc, c)) == Read(sc) + KeptOf(c, sc.inSingle)
  {
    ConcatAppend(sc.args, sc.cur);
  }

  lemma PushedReads(sc: Scanner)
    ensures Concat(Pushed(sc)) == Read(sc)
  {
    ConcatAppend(sc.args, sc.cur);
  }

  lemma KeptStep(s: string, sc: Scanner)
    requires s != ""
    ensures Kept(s, sc.inSingle) == KeptOf(s[0], sc.inSingle) + Kept(s[1..], Next(sc, s[0]).inSingle)
  {
  }

  lemma Regroup(a: string, b: string, c: string)
    ensures (a + b) + c == a + (b + c)
  {
  }

  lemma {:induction false} ScanKeeps(sc: Scanner, s: string)
    ensures Concat(Pushed(Scan(sc, s))) == Read(sc) + Kept(s, sc.inSingle)
    decreases |s|
  {
    if s == "" {
      PushedReads(sc);
    } else {
      var next := Next(sc, s[0]);
      NextReads(sc, s[0]);
      KeptStep(s, sc);
      Regroup(Read(sc), KeptOf(s[0], sc.inSingle), Kept(s[1..], next.inSingle));
      ScanKeeps(next, s[1..]);
    }
  }

  predicate NoneEmpty(ts: seq<string>) {
    forall i :: 0 <= i < |ts| ==> ts[i] != ""
  }

  lemma {:induction false} ScanNoneEmpty(sc: Scanner, s: string)
    requires NoneEmpty(sc.args)
    ensures NoneEmpty(Pushed(Scan(sc, s)))
    decreases |s|
  {
    if s != "" {
      ScanNoneEmpty(Next(sc, s[0]), s[1..]);
    }
  }

  /** The tokens of any command, none empty, are together the command without quotes and unquoted spaces. */
  lemma TokensConserve(command: string)
    ensures Concat(Tokens(command)) == Kept(command, false)
    ensures NoneEmpty(Tokens(command))
  {
    ScanKeeps(FRESH, command);
    ScanNoneEmpty(FRESH, command);
  }

  // ---------------------------------------------------------------- quoting and splitting

  function Quote(a: string): string {
    "'" + a + "'"
  }

  function Quoted(args: seq<string>): string {
    if args == [] then ""
    else if |args| == 1 then Quote(args[0])
    else Quote(args[0]) + " " + Quoted(args[1..])
  }

  /** The arguments that are not empty. */
  function Filled(args: seq<string>): seq<string> {
    if args == [] then [] else OneIfFilled(args[0]) + Filled(args[1..])
  }

  function OneIfFilled(a: string): seq<string> {
    if a == "" then [] else [a]
  }

  predicate Quotable(args: seq<string>) {
    forall i :: 0 <= i < |args| ==> '\'' !in args[i]
  }

  lemma {:induction false} ScanAppend(sc: Scanner, a: string, b: string)
    ensures Scan(sc, a + b) == Scan(Scan(sc, a), b)
    decreases |a|
  {
    if a == "" {
      assert a + b == b;
    } else {
      assert (a + b)[0] == a[0] && (a + b)[1..] == a[1..] + b;
      ScanAppend(Next(sc, a[0]), a[1..], b);
    }
  }

  lemma {:induction false} ScanInside(args: seq<string>, cur: string, a: string)
    requires '\'' !in a
    ensures Scan(Scanner(args, cur, true), a) == Scanner(args, cur + a, true)
    decreases |a|
  {
    if a == "" {
      assert cur + a == cur;
    } else {
      assert a[0] in a && forall c :: c in a[1..] ==> c in a;
      ScanInside(args, cur + [a[0]], a[1..]);
      assert cur + [a[0]] + a[1..] == cur + a;
    }
  }

  lemma ScanQuote(args: seq<string>, a: string)
    requires '\'' !in a
    ensures Scan(Scanner(args, "", false), Quote(a)) == Scanner(args, a, false)
  {
    ScanAppend(Scanner(args, "", false), "'" + a, "'");
    ScanAppend(Scanner(args, "", false), "'", a);
    ScanInside(args, "", a);
    assert "" + a == a;
    ScanOne(Scanner(args, "", false), '\'');
    ScanOne(Scanner(args, a, true), '\'');
  }

  lemma ScanOne(sc: Scanner, c: char)
    ensures Scan(sc, [c]) == Next(sc, c)
  {
  }

  lemma PushedOne(before: seq<string>, a: string)
    ensures Pushed(Scanner(before, a, false)) == before + OneIfFilled(a)
  {
  }

  lemma {:induction false} ScanQuoted(before: seq<string>, args: seq<string>)
    requires Quotable(args)
    ensures Pushed(Scan(Scanner(before, "", false), Quoted(args))) == before + Filled(args)
    decreases |args|
  {
    if args != [] {
      var a, rest := args[0], args[1..];
      PushedOne(before, a);
      var here := before + OneIfFilled(a);
      assert here + Filled(rest) == before + Filled(args);
      if |args| == 1 {
        ScanQuote(before, a);
      } else {
        ScanQuoteSpace(before, a, Quoted(rest));
        ScanQuoted(here, rest);
      }
    }
  }

  lemma ScanQuoteSpace(before: seq<string>, a: string, rest: string)
    requires '\'' !in a
    ensures Scan(Scanner(before, "", false), Quote(a) + " " + rest)
            == Scan(Scanner(Pushed(Scanner(before, a, false)), "", false), rest)
  {
    ScanQuote(before, a);
    ScanAppend(Scanner(before, "", false), Quote(a) + " ", rest);
    ScanAppend(Scanner(before, "", false), Quote(a), " ");
    ScanOne(Scanner(before, a, false), ' ');
  }

  lemma {:induction false} FilledIs(args: seq<string>)
    ensures |Filled(args)| <= |args|
    ensures Filled(args) == args <==> NoneEmpty(args)
  {
    if args != [] {
      FilledIs(args[1..]);
      assert args == [args[0]] + args[1..];
      if args[0] != "" {
        assert Filled(args)[1..] == Filled(args[1..]);
      }
    }
  }

  /** Arguments without quotes come back from their quoted form exactly when none is empty and the first is `node`. */
  lemma QuoteRoundTripExactly(args: seq<string>)
    requires Quotable(args)
    ensures Tokens(Quoted(args)) == Filled(args)
    ensures Split(Quoted(args)) == Some(args)
            <==> args != [] && args[0] == "node" && NoneEmpty(args)
  {
    ScanQuoted([], args);
    FilledIs(args);
  }

  // ---------------------------------------------------------------- how the process is started

  datatype Invocation = Direct(argv: seq<string>) | Shell(command: string)

  function Invoke(command: string): Invocation {
    var argv := Split(TrimSpace(command));
    if argv.Some? then Direct(argv.value) else Shell(command)
  }

  lemma {:induction false} QuotedEnds(args: seq<string>)
    requires args != []
    ensures Quoted(args) != "" && Quoted(args)[0] == '\'' && Quoted(args)[|Quoted(args)| - 1] == '\''
  {
    if |args| > 1 {
      QuotedEnds(args[1..]);
    }
  }

  /** A quoted `node` command, however padded, runs with exactly the arguments that were quoted. */
  lemma QuotedNodeRunsDirectly(args: seq<string>, before: string, after: string)
    requires Quotable(args) && args != [] && args[0] == "node" && NoneEmpty(args)
    requires All(before, Space) && All(after, Space)
    ensures Invoke(before + Quoted(args) + after) == Direct(args)
  {
    QuotedEnds(args);
    TrimPad(before, Quoted(args), after, Space);
    QuoteRoundTripExactly(args);
  }

  /** Any other command goes to the shell as it is. */
  lemma OthersGoToTheShell(command: string)
    ensures Invoke(command).Shell? <==> Tokens(TrimSpace(command)) == [] || Tokens(TrimSpace(command))[0] != "node"
    ensures Invoke(command).Shell? ==> Invoke(command).command == command
    ensures Invoke(command).Direct? ==> Invoke(command).argv == Tokens(TrimSpace(command))
  {
  }

  predicate Simple(args: seq<string>) {
    forall i :: 0 <= i < |args| ==> args[i] != "" && ' ' !in args[i] && '\'' !in args[i]
  }

  function Spaced(args: seq<string>): string {
    if args == [] then "" else args[0] + " " + Spaced(args[1..])
  }

  lemma {:induction false} ScanPlain(args: seq<string>, cur: string, a: string)
    requires ' ' !in a && '\'' !in a
    ensures Scan(Scanner(args, cur, false), a) == Scanner(args, cur + a, false)
    decreases |a|
  {
    if a == "" {
      assert cur + a == cur;
    } else {
      assert a[0] in a && forall c :: c in a[1..] ==> c in a;
      ScanPlain(args, cur + [a[0]], a[1..]);
      assert cur + [a[0]] + a[1..] == cur + a;
    }
  }

  lemma {:induction false} ScanSpaced(before: seq<string>, args: seq<string>)
    requires Simple(args)
    ensures Pushed(Scan(Scanner(before, "", false), Spaced(args))) == before + args
    decreases |args|
  {
    if args != [] {
      var a, rest := args[0], args[1..];
      ScanAppend(Scanner(before, "", false), a + " ", Spaced(rest));
      ScanAppend(Scanner(before, "", false), a, " ");
      ScanPlain(before, "", a);
      assert "" + a == a;
      ScanOne(Scanner(before, a, false), ' ');
      ScanSpaced(before + [a], rest);
      assert before + [a] + rest == before + args;
    }
  }

  /** Words without quotes or spaces in them need no quoting. */
  lemma SimpleRoundTrip(args: seq<string>)
    requires Simple(args)
    ensures Tokens(Spaced(args)) == args
  {
    ScanSpaced([], args);
  }
}
