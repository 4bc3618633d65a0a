/**
The list of resources printed by `tofu state list`: one name a line, taken apart by
splitting at newlines and dropping the last piece.
*/
module StateList {

  /** strings.Split(s, "\n"): the pieces between newlines, never an empty list. */
  function Split(s: string): (r: seq<string>)
    ensures |r| >= 1
  {
    if s == "" then [""]
    else if s[0] == '\n' then [""] + Split(s[1..])
    else
      var rest := Split(s[1..]);
      [[s[0]] + rest[0]] + rest[1..]
  }

  function Parse(out: string): seq<string> {
    var pieces := Split(out);
    pieces[..|pieces| - 1]
  }

  /** What tofu prints for a list of resource names. */
  function Print(names: seq<string>): string {
    if names == [] then "" else names[0] + "\n" + Print(names[1..])
  }

  predicate OneLine(name: string) {
    '\n' !in name
  }

  function Newlines(s: string): nat {
    if s == "" then 0 else (if s[0] == '\n' then 1 else 0) + Newlines(s[1..])
  }

  lemma {:induction false} SplitCount(s: string)
    ensures |Split(s)| == Newlines(s) + 1
  {
    if s != "" {
      SplitCount(s[1..]);
    }
  }

  lemma {:induction false} SplitLine(line: string, rest: string)
    requires OneLine(line)
    ensures Split(line + "\n" + rest) == [line] + Split(rest)
  {
    var s := line + "\n" + rest;
    if line == "" {
      assert s[1..] == rest;
    } else {
      assert s[1..] == line[1..] + "\n" + rest;
      SplitLine(line[1..], rest);
      assert [line[0]] + line[1..] == line;
    }
  }

  lemma {:induction false} NewlinesAppend(a: string, b: string)
    ensures Newlines(a + b) == Newlines(a) + Newlines(b)
  {
    if a == "" {
      assert a + b == b;
    } else {
      assert (a + b)[1..] == a[1..] + b;
      NewlinesAppend(a[1..], b);
    }
  }

  /** Parsing undoes printing, for every list of names without newlines. */
  lemma {:induction false} ParseInvertsPrint(names: seq<string>)
    requires forall i :: 0 <= i < |names| ==> OneLine(names[i])
    ensures Parse(Print(names)) == names
  {
    if names != [] {
      ParseInvertsPrint(names[1..]);
      SplitLine(names[0], Print(names[1..]));
      var tail := Split(Print(names[1..]));
      var pieces := Split(Print(names));
      assert pieces == [names[0]] + tail;
      assert pieces[..|pieces| - 1] == [names[0]] + tail[..|tail| - 1];
    }
  }

  /** Every piece is free of newlines. */
  lemma {:induction false} PiecesAreLines(out: string)
    ensures forall i :: 0 <= i < |Split(out)| ==> OneLine(Split(out)[i])
  {
    if out != "" {
      PiecesAreLines(out[1..]);
    }
  }

  lemma PrintCons(name: string, names: seq<string>)
    ensures Print([name] + names) == name + "\n" + Print(names)
  {
    assert ([name] + names)[1..] == names;
  }

  lemma AppendAssociative(a: string, b: string, c: string)
    ensures a + b + c == a + (b + c)
  {
  }

  lemma PrintGrow(c: char, names: seq<string>)
    requires names != []
    ensures Print([[c] + names[0]] + names[1..]) == [c] + Print(names)
  {
    var first, rest := names[0], Print(names[1..]);
    PrintCons([c] + first, names[1..]);
    AppendAssociative([c], first, "\n");
    AppendAssociative([c], first + "\n", rest);
  }

  /** The output that these pieces came from. */
  function Joined(pieces: seq<string>): string
    requires pieces != []
  {
    Print(pieces[..|pieces| - 1]) + pieces[|pieces| - 1]
  }

  lemma JoinedNewline(pieces: seq<string>)
    requires pieces != []
    ensures Joined([""] + pieces) == "\n" + Joined(pieces)
  {
    var names, last := pieces[..|pieces| - 1], pieces[|pieces| - 1];
    assert ([""] + pieces)[..|pieces|] == [""] + names;
    PrintCons("", names);
    AppendAssociative("\n", Print(names), last);
    assert "" + "\n" == "\n";
  }

  lemma JoinedChar(c: char, pieces: seq<string>)
    requires pieces != []
    ensures Joined([[c] + pieces[0]] + pieces[1..]) == [c] + Joined(pieces)
  {
    var n := |pieces| - 1;
    var grown := [[c] + pieces[0]] + pieces[1..];
    if n == 0 {
      assert grown == [[c] + pieces[0]];
    } else {
      var names := pieces[..n];
      assert grown[..n] == [[c] + names[0]] + names[1..];
      PrintGrow(c, names);
      AppendAssociative([c], Print(names), pieces[n]);
    }
  }

  /** Printing what was parsed gives the output back, but for an unfinished last line. */
  lemma {:induction false} PrintInvertsParse(out: string)
    ensures Print(Parse(out)) + Split(out)[|Split(out)| - 1] == out
  {
    if out != "" {
      PrintInvertsParse(out[1..]);
      var rest := Split(out[1..]);
      assert Joined(rest) == out[1..];
      if out[0] == '\n' {
        JoinedNewline(rest);
      } else {
        JoinedChar(out[0], rest);
      }
      assert out == [out[0]] + out[1..];
      assert Joined(Split(out)) == out;
    }
  }

  /** One name for every newline: nothing is listed exactly when nothing ended a line. */
  lemma ParseLength(out: string)
    ensures |Parse(out)| == Newlines(out)
    ensures Parse(out) == [] <==> '\n' !in out
  {
    SplitCount(out);
    NoNewlines(out);
  }

  lemma {:induction false} NoNewlines(s: string)
    ensures Newlines(s) == 0 <==> '\n' !in s
  {
    if s != "" {
      NoNewlines(s[1..]);
      assert s == [s[0]] + s[1..];
    }
  }

  /** Whatever the names look like, the parsed list is empty only for an empty state. */
  lemma EmptyOnlyForEmptyState(names: seq<string>)
    ensures Parse(Print(names)) == [] <==> names == []
  {
    ParseLength(Print(names));
    if names != [] {
      NewlinesAppend(names[0] + "\n", Print(names[1..]));
      NewlinesAppend(names[0], "\n");
      assert Newlines("\n") == 1;
    }
  }
}
