/** The command interpreter of `main`: a loop over input lines, each split on `,` into
    commands and each command on `=` into a key and a value, that updates the seven
    display parameters, runs `disp`, or quits. */
module Repl {
  import opened Text

  datatype Option<T> = None | Some(value: T)

  /** Python's `float()` on a string: a number, or None where it raises ValueError. */
  type Parser = string -> Option<real>

  /** The parameters `main` passes to `disp`: Gaussian centre and sigma, number of
      components, and the k and x plot ranges. */
  datatype Params = Params(cen: real, wid: real, num: real, klo: real, khi: real, xlo: real, xhi: real)

  /** The values `main` starts with. */
  const Initial: Params := Params(10.0, 1.0, 11.0, 5.0, 15.0, -5.0, 5.0)

  /** The seven parameters a command can set. */
  datatype Field = Cen | Sig | Num | Klo | Khi | Xlo | Xhi

  /** The key that sets a field. */
  function KeyOf(f: Field): string
  {
    match f
    case Cen => "cen"
    case Sig => "sig"
    case Num => "num"
    case Klo => "klo"
    case Khi => "khi"
    case Xlo => "xlo"
    case Xhi => "xhi"
  }

  /** The field a key sets, if any. */
  function FieldOf(key: string): Option<Field>
  {
    if key == "cen" then Some(Cen)
    else if key == "sig" then Some(Sig)
    else if key == "num" then Some(Num)
    else if key == "klo" then Some(Klo)
    else if key == "khi" then Some(Khi)
    else if key == "xlo" then Some(Xlo)
    else if key == "xhi" then Some(Xhi)
    else None
  }

  /** Keys and fields correspond one to one; `go` and `bye` are not field keys. */
  lemma FieldKeys(key: string, f: Field)
    ensures FieldOf(KeyOf(f)) == Some(f)
    ensures FieldOf(key) == Some(f) <==> key == KeyOf(f)
    ensures FieldOf("go") == None && FieldOf("bye") == None && FieldOf("") == None
  {
  }

  function Get(p: Params, f: Field): real
  {
    match f
    case Cen => p.cen
    case Sig => p.wid
    case Num => p.num
    case Klo => p.klo
    case Khi => p.khi
    case Xlo => p.xlo
    case Xhi => p.xhi
  }

  /** p with field f replaced by v and every other field kept. */
  function Set(p: Params, f: Field, v: real): Params
  {
    match f
    case Cen => p.(cen := v)
    case Sig => p.(wid := v)
    case Num => p.(num := v)
    case Klo => p.(klo := v)
    case Khi => p.(khi := v)
    case Xlo => p.(xlo := v)
    case Xhi => p.(xhi := v)
  }

  /** Setting a field changes that field to the new value and no other. */
  lemma GetSet(p: Params, f: Field, v: real, g: Field)
    ensures Get(Set(p, f, v), g) == if g == f then v else Get(p, g)
  {
  }

  /** What the interpreter shows: the status block before each prompt, a call of `disp`
      with the current parameters, and its three messages. */
  datatype Event = Status(p: Params) | Display(p: Params) | NotANumber | Invalid | Farewell

  /** The two exceptions that end the program: `pair[1]` on a command without `=`
      (IndexError), and `input()` with no line left (EOFError). */
  datatype Failure = MissingValue | EndOfInput

  datatype State = State(p: Params, done: bool)

  /** The state reached, the events shown on the way, and the exception, if one ended it. */
  datatype Trace = Trace(st: State, out: seq<Event>, failure: Option<Failure>)

  // ---------------------------------------------------------------- reset

  /** `reset(orig, new)`: the parsed value, or the old one and a complaint. */
  function Reset(parse: Parser, orig: real, text: string): (r: (real, seq<Event>))
    ensures parse(text).Some? ==> r.0 == parse(text).value && r.1 == []
    ensures parse(text).None? ==> r.0 == orig && r.1 == [NotANumber]
  {
    match parse(text)
    case Some(v) => (v, [])
    case None => (orig, [NotANumber])
  }

  // ---------------------------------------------------------------- tokenising

  /** Every piece stripped. */
  function StripAll(parts: seq<string>): (r: seq<string>)
    ensures |r| == |parts| && forall i :: 0 <= i < |r| ==> r[i] == Strip(parts[i])
  {
    if parts == [] then [] else [Strip(parts[0])] + StripAll(parts[1..])
  }

  /** The commands of a line: its comma-separated pieces, stripped. */
  function Tokens(line: string): seq<string>
  {
    StripAll(Split(line, ','))
  }

  /** The parts of a command: its `=`-separated pieces, stripped. */
  function Pair(tok: string): (r: seq<string>)
    ensures |r| >= 1
  {
    StripAll(Split(tok, '='))
  }

  /** The loop `for j in range(len(xs)): xs[j] = xs[j].strip()`, which strips a list in place. */
  method StripEach(parts: seq<string>) returns (r: seq<string>)
    ensures r == StripAll(parts)
  {
    r := parts;
    for j := 0 to |r|
      invariant |r| == |parts|
      invariant forall t :: 0 <= t < j ==> r[t] == Strip(parts[t])
      invariant forall t :: j <= t < |r| ==> r[t] == parts[t]
    {
      r := r[j := Strip(r[j])];
    }
  }

  // ---------------------------------------------------------------- the dispatch as functions

  /** What a command asks for. Only its first part decides; a field key takes the second
      part as its value, and has none when the command has no `=`. */
  datatype Command = Go | Assign(f: Field, value: Option<string>) | Bye | Unknown

  function Classify(pair: seq<string>): (r: Command)
    requires |pair| >= 1
    ensures r == Go <==> pair[0] == "go"
    ensures r == Bye <==> pair[0] == "bye"
    ensures r.Assign? <==> FieldOf(pair[0]).Some?
    ensures r.Assign? ==> KeyOf(r.f) == pair[0] && r.value == (if |pair| >= 2 then Some(pair[1]) else None)
    ensures r == Unknown <==> pair[0] != "go" && pair[0] != "bye" && FieldOf(pair[0]).None?
  {
    var key := pair[0];
    if key == "go" then Go
    else if FieldOf(key).Some? then Assign(FieldOf(key).value, if |pair| >= 2 then Some(pair[1]) else None)
    else if key == "bye" then Bye
    else Unknown
  }

  /** The command a piece of input stands for. */
  function CommandOf(tok: string): Command
  {
    Classify(Pair(tok))
  }

  /** The commands that a list of pieces stands for, in order. */
  function Commands(toks: seq<string>): (r: seq<Command>)
    ensures |r| == |toks|
    ensures forall k {:trigger CommandOf(toks[k])} :: 0 <= k < |toks| ==> r[k] == CommandOf(toks[k])
  {
    seq(|toks|, k requires 0 <= k < |toks| => CommandOf(toks[k]))
  }

  /** The commands of a line, in order. */
  function LineCommands(line: string): seq<Command>
  {
    Commands(Tokens(line))
  }

  /** The commands of every line, line by line. */
  function Script(lines: seq<string>): (r: seq<seq<Command>>)
    ensures |r| == |lines|
    ensures forall k {:trigger LineCommands(lines[k])} :: 0 <= k < |lines| ==> r[k] == LineCommands(lines[k])
  {
    seq(|lines|, k requires 0 <= k < |lines| => LineCommands(lines[k]))
  }

  /** One command: `go` shows the parameters, a field key with a value resets its field,
      a field key without one raises IndexError, `bye` sets `done`, and anything else is
      rejected. */
  function Exec(parse: Parser, st: State, cmd: Command): (r: Trace)
    ensures r.failure.Some? <==> cmd.Assign? && cmd.value.None?
    ensures r.failure.Some? ==> r.failure == Some(MissingValue) && r.st == st && r.out == []
    ensures r.st.done == (st.done || cmd == Bye)
    ensures forall g :: (cmd.Assign? ==> g != cmd.f) ==> Get(r.st.p, g) == Get(st.p, g)
    ensures |r.out| <= 1
  {
    match cmd
    case Go => Trace(st, [Display(st.p)], None)
    case Assign(f, None) => Trace(st, [], Some(MissingValue))
    case Assign(f, Some(v)) =>
      var r := Reset(parse, Get(st.p, f), v);
      Trace(State(Set(st.p, f, r.0), st.done), r.1, None)
    case Bye => Trace(State(st.p, true), [Farewell], None)
    case Unknown => Trace(st, [Invalid], None)
  }

  /** The commands of one line, in order, up to the first failure. */
  function ExecAll(parse: Parser, st: State, cmds: seq<Command>): (r: Trace)
    ensures st.done ==> r.st.done
    ensures r.failure != Some(EndOfInput)
    ensures |r.out| <= |cmds|
    decreases |cmds|
  {
    if cmds == [] then Trace(st, [], None)
    else
      var t := Exec(parse, st, cmds[0]);
      if t.failure.Some? then t
      else
        var rest := ExecAll(parse, t.st, cmds[1..]);
        Trace(rest.st, t.out + rest.out, rest.failure)
  }

  /** The `while not done` loop: show the status, read a line, run its commands. */
  function Session(parse: Parser, st: State, script: seq<seq<Command>>): (r: Trace)
    ensures r.failure.None? ==> r.st.done
    ensures r.failure == Some(EndOfInput) ==> !r.st.done
    ensures !st.done ==> |r.out| >= 1 && r.out[0] == Status(st.p)
    decreases |script|
  {
    if st.done then Trace(st, [], None)
    else if script == [] then Trace(st, [Status(st.p)], Some(EndOfInput))
    else
      var t := ExecAll(parse, st, script[0]);
      if t.failure.Some? then Trace(t.st, [Status(st.p)] + t.out, t.failure)
      else
        var rest := Session(parse, t.st, script[1..]);
        Trace(rest.st, [Status(st.p)] + t.out + rest.out, rest.failure)
  }

  // ---------------------------------------------------------------- properties of the dispatch

  /** Only the part before the first `=` decides: `go=5`, `go = x` and `go==` are all `go`. */
  lemma GoWithValue(key: string, rest: string)
    requires '=' !in key && Strip(key) == "go"
    ensures CommandOf(key + ['='] + rest) == Go
  {
    SplitPrefix(key, '=', rest);
  }

  /** `go` shows the current parameters and changes nothing. */
  lemma GoShows(parse: Parser, st: State, tok: string)
    requires Pair(tok)[0] == "go"
    ensures Exec(parse, st, CommandOf(tok)) == Trace(st, [Display(st.p)], None)
  {
  }

  /** A field key with a value sets that field (to the parsed value, or keeps it when the
      value does not parse) and leaves the other fields and `done` alone. */
  lemma FieldCommand(parse: Parser, st: State, tok: string, f: Field)
    requires Pair(tok)[0] == KeyOf(f) && |Pair(tok)| >= 2
    ensures var t := Exec(parse, st, CommandOf(tok)); var v := Pair(tok)[1];
      t.failure == None && t.st.done == st.done &&
      (forall g :: g != f ==> Get(t.st.p, g) == Get(st.p, g)) &&
      Get(t.st.p, f) == (if parse(v).Some? then parse(v).value else Get(st.p, f)) &&
      t.out == (if parse(v).Some? then [] else [NotANumber])
  {
    FieldKeys(Pair(tok)[0], f);
    forall g | true
      ensures Get(Exec(parse, st, CommandOf(tok)).st.p, g) == if g == f then Reset(parse, Get(st.p, f), Pair(tok)[1]).0 else Get(st.p, g)
    {
      GetSet(st.p, f, Reset(parse, Get(st.p, f), Pair(tok)[1]).0, g);
    }
  }

  /** A field key without `=` ends the program with IndexError, changing nothing. */
  lemma KeyWithoutValue(parse: Parser, st: State, tok: string)
    requires FieldOf(Pair(tok)[0]).Some? && '=' !in tok
    ensures Exec(parse, st, CommandOf(tok)) == Trace(st, [], Some(MissingValue))
  {
    SplitCount(tok, '=');
  }

  /** Anything that is not a known key changes nothing. */
  lemma UnknownKey(parse: Parser, st: State, tok: string)
    requires var key := Pair(tok)[0]; key != "go" && key != "bye" && FieldOf(key).None?
    ensures Exec(parse, st, CommandOf(tok)) == Trace(st, [Invalid], None)
  {
  }

  /** A blank command is the empty key, so it is rejected as invalid. */
  lemma BlankCommand(tok: string)
    requires forall i :: 0 <= i < |tok| ==> IsSpace(tok[i])
    ensures CommandOf(tok) == Unknown
  {
    assert '=' !in tok by {
      forall i | 0 <= i < |tok|
        ensures tok[i] != '='
      {
        assert IsSpace(tok[i]);
      }
    }
    SplitPiece(tok, '=');
    StripBlank(tok);
  }

  /** `bye` sets `done` but does not end the line: the commands after it still run. */
  lemma ByeContinues(parse: Parser, st: State, cmds: seq<Command>)
    requires cmds != [] && cmds[0] == Bye
    ensures var rest := ExecAll(parse, State(st.p, true), cmds[1..]);
      ExecAll(parse, st, cmds) == Trace(rest.st, [Farewell] + rest.out, rest.failure)
  {
  }

  /** A line without field assignments leaves the parameters as they were. */
  lemma {:induction false} LineKeepsParams(parse: Parser, st: State, cmds: seq<Command>)
    requires forall i :: 0 <= i < |cmds| ==> !cmds[i].Assign?
    ensures ExecAll(parse, st, cmds).st.p == st.p
    decreases |cmds|
  {
    if cmds != [] {
      var t := Exec(parse, st, cmds[0]);
      if t.failure.None? {
        LineKeepsParams(parse, t.st, cmds[1..]);
      }
    }
  }

  /** A line of `go` commands shows the parameters it started with once per command. */
  lemma {:induction false} GoLine(parse: Parser, st: State, cmds: seq<Command>)
    requires forall i :: 0 <= i < |cmds| ==> cmds[i] == Go
    ensures ExecAll(parse, st, cmds) == Trace(st, seq(|cmds|, _ => Display(st.p)), None)
    decreases |cmds|
  {
    if cmds != [] {
      GoLine(parse, st, cmds[1..]);
      assert [Display(st.p)] + seq(|cmds| - 1, _ => Display(st.p)) == seq(|cmds|, _ => Display(st.p));
    }
  }

  // ---------------------------------------------------------------- the interpreter

  /** The local variables of `main`, and what it has shown so far. */
  class Interpreter {
    var cen: real
    var wid: real
    var num: real
    var klo: real
    var khi: real
    var xlo: real
    var xhi: real
    var done: bool
    var out: seq<Event>
    var failure: Option<Failure>
    const parse: Parser

    function Current(): State
      reads this
    {
      State(Params(cen, wid, num, klo, khi, xlo, xhi), done)
    }

    constructor (parse: Parser)
      ensures Current() == State(Initial, false) && out == [] && failure == None
      ensures this.parse == parse
    {
      cen, wid, num, klo, khi, xlo, xhi := 10.0, 1.0, 11.0, 5.0, 15.0, -5.0, 5.0;
      done := false;
      out, failure := [], None;
      this.parse := parse;
    }

    /** The body of the `for i in range(len(inps))` loop: the i-th command, split on `=`,
        its parts stripped, then dispatched. */
    method ApplyToken(inps: seq<string>, i: nat, ghost cmds: seq<Command>)
      requires failure == None && i < |inps| == |cmds|
      requires forall k {:trigger CommandOf(inps[k])} :: 0 <= k < |inps| ==> cmds[k] == CommandOf(inps[k])
      modifies this
      ensures var t := Exec(parse, old(Current()), cmds[i]);
        Current() == t.st && out == old(out) + t.out && failure == t.failure
    {
      var pair := StripEach(Split(inps[i], '='));
      assert cmds[i] == CommandOf(inps[i]);
      Dispatch(pair);
    }

    /** The `if pair[0] == ... elif ...` chain: only the first part is examined. */
    method Dispatch(pair: seq<string>)
      requires failure == None && |pair| >= 1
      modifies this
      ensures var t := Exec(parse, old(Current()), Classify(pair));
        Current() == t.st && out == old(out) + t.out && failure == t.failure
    {
      if pair[0] == "go" {
        out := out + [Display(Current().p)];
      } else if pair[0] == "cen" {
        if |pair| < 2 { failure := Some(MissingValue); return; }
        var r := Reset(parse, cen, pair[1]);
        cen, out := r.0, out + r.1;
      } else if pair[0] == "sig" {
        if |pair| < 2 { failure := Some(MissingValue); return; }
        var r := Reset(parse, wid, pair[1]);
        wid, out := r.0, out + r.1;
      } else if pair[0] == "num" {
        if |pair| < 2 { failure := Some(MissingValue); return; }
        var r := Reset(parse, num, pair[1]);
        num, out := r.0, out + r.1;
      } else if pair[0] == "klo" {
        if |pair| < 2 { failure := Some(MissingValue); return; }
        var r := Reset(parse, klo, pair[1]);
        klo, out := r.0, out + r.1;
      } else if pair[0] == "khi" {
        if |pair| < 2 { failure := Some(MissingValue); return; }
        var r := Reset(parse, khi, pair[1]);
        khi, out := r.0, out + r.1;
      } else if pair[0] == "xlo" {
        if |pair| < 2 { failure := Some(MissingValue); return; }
        var r := Reset(parse, xlo, pair[1]);
        xlo, out := r.0, out + r.1;
      } else if pair[0] == "xhi" {
        if |pair| < 2 { failure := Some(MissingValue); return; }
        var r := Reset(parse, xhi, pair[1]);
        xhi, out := r.0, out + r.1;
      } else if pair[0] == "bye" {
        out := out + [Farewell];
        done := true;
      } else {
        out := out + [Invalid];
      }
    }

    /** One input line of the `while not done` loop: split on `,`, stripped, and its
        commands run in order. */
    method ApplyLine(lines: seq<string>, j: nat, ghost script: seq<seq<Command>>)
      requires failure == None && j < |lines| == |script|
      requires forall k {:trigger LineCommands(lines[k])} :: 0 <= k < |lines| ==> script[k] == LineCommands(lines[k])
      modifies this
      ensures var t := ExecAll(parse, old(Current()), script[j]);
        Current() == t.st && out == old(out) + t.out && failure == t.failure
    {
      var inps := StripEach(Split(lines[j], ','));
      assert script[j] == LineCommands(lines[j]);
      ApplyTokens(inps, script[j]);
    }

    /** The `for i in range(len(inps))` loop over the stripped pieces of a line. */
    method ApplyTokens(inps: seq<string>, ghost cmds: seq<Command>)
      requires failure == None && |inps| == |cmds|
      requires forall k {:trigger CommandOf(inps[k])} :: 0 <= k < |inps| ==> cmds[k] == CommandOf(inps[k])
      modifies this
      ensures var t := ExecAll(parse, old(Current()), cmds);
        Current() == t.st && out == old(out) + t.out && failure == t.failure
    {
      ghost var goal := ExecAll(parse, Current(), cmds);
      var i := 0;
      while i < |inps|
        invariant 0 <= i <= |inps| && failure == None
        invariant var r := ExecAll(parse, Current(), cmds[i..]);
          goal.st == r.st && old(out) + goal.out == out + r.out && goal.failure == r.failure
      {
        assert cmds[i..][1..] == cmds[i + 1..];
        ApplyToken(inps, i, cmds);
        if failure.Some? {
          return;
        }
        i := i + 1;
      }
    }

    /** `main` reading the given lines: the `while not done` loop. */
    method Run(lines: seq<string>)
      requires failure == None
      modifies this
      ensures var t := Session(parse, old(Current()), Script(lines));
        Current() == t.st && out == old(out) + t.out && failure == t.failure
    {
      MainLoop(lines, Script(lines));
    }

    /** The `while not done` loop, over the lines and the commands they stand for. */
    method MainLoop(lines: seq<string>, ghost script: seq<seq<Command>>)
      requires failure == None && |lines| == |script|
      requires forall k {:trigger LineCommands(lines[k])} :: 0 <= k < |lines| ==> script[k] == LineCommands(lines[k])
      modifies this
      ensures var t := Session(parse, old(Current()), script);
        Current() == t.st && out == old(out) + t.out && failure == t.failure
    {
      ghost var goal := Session(parse, Current(), script);
      var j := 0;
      while !done
        invariant 0 <= j <= |lines| && failure == None
        invariant var r := Session(parse, Current(), script[j..]);
          goal.st == r.st && old(out) + goal.out == out + r.out && goal.failure == r.failure
        decreases |lines| - j
      {
        Pass(lines, j, script);
        if failure.Some? {
          return;
        }
        j := j + 1;
      }
    }

    /** One pass of the loop: the status, then one line read and run, or EOFError. */
    method Pass(lines: seq<string>, j: nat, ghost script: seq<seq<Command>>)
      requires failure == None && !done && j <= |lines| == |script|
      requires forall k {:trigger LineCommands(lines[k])} :: 0 <= k < |lines| ==> script[k] == LineCommands(lines[k])
      modifies this
      ensures var r := Session(parse, old(Current()), script[j..]);
        failure.Some? ==> Current() == r.st && out == old(out) + r.out && failure == r.failure
      ensures failure.None? ==> j < |lines|
      ensures failure.None? ==>
        var r, r2 := Session(parse, old(Current()), script[j..]), Session(parse, Current(), script[j + 1..]);
        r.st == r2.st && old(out) + r.out == out + r2.out && r.failure == r2.failure
    {
      out := out + [Status(Current().p)];
      if j == |lines| {
        failure := Some(EndOfInput);
        return;
      }
      assert script[j..][1..] == script[j + 1..];
      ApplyLine(lines, j, script);
    }
  }
}
