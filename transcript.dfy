/**
 * The text side of the conversation transcript: Python's `str.join` and
 * `str.split("\n")` on strings, and the rendering of the history into the
 * single string handed to the retrieval chain (app.py line 66).
 */
module Transcript {

  /** The marker the rendered transcript ends with, prompting the model's turn. */
  const AssistantCue: string := "Assistant:"

  /** True when `t` fits on one line of the rendered transcript. */
  predicate SingleLine(t: string) {
    '\n' !in t
  }

  /** True when every turn of `turns` fits on one line. */
  predicate AllSingleLine(turns: seq<string>) {
    forall i :: 0 <= i < |turns| ==> SingleLine(turns[i])
  }

  /** Python's `sep.join(parts)`: the parts with `sep` between neighbours. */
  function Join(parts: seq<string>, sep: string): string
  {
    if |parts| == 0 then ""
    else if |parts| == 1 then parts[0]
    else parts[0] + sep + Join(parts[1..], sep)
  }

  /** Python's `s.split("\n")`: the maximal newline-free pieces of `s`, in order. */
  function Lines(s: string): (r: seq<string>)
    ensures |r| >= 1
    ensures AllSingleLine(r)
    decreases |s|
  {
    if |s| == 0 then [""]
    else
      var rest := Lines(s[1..]);
      if s[0] == '\n' then [""] + rest
      else [[s[0]] + rest[0]] + rest[1..]
  }

  /** The chain input for a history: every turn on its own line, then the cue line. */
  function Render(history: seq<string>): string
  {
    Join(history, "\n") + "\n" + AssistantCue
  }

  /** Joining one more part at the end puts one separator before it. */
  lemma {:induction false} JoinSnoc(parts: seq<string>, sep: string, last: string)
    requires |parts| > 0
    ensures Join(parts + [last], sep) == Join(parts, sep) + sep + last
  {
    if |parts| > 1 {
      assert (parts + [last])[1..] == parts[1..] + [last];
      JoinSnoc(parts[1..], sep, last);
    }
  }

  /** A newline-free string is a single line. */
  lemma {:induction false} LinesOfSingleLine(t: string)
    requires SingleLine(t)
    ensures Lines(t) == [t]
  {
    if |t| > 0 {
      LinesOfSingleLine(t[1..]);
      assert [t[0]] + t[1..] == t;
    }
  }

  /** Splitting at the first newline yields the newline-free head as the first line. */
  lemma {:induction false} LinesCons(a: string, b: string)
    requires SingleLine(a)
    ensures Lines(a + "\n" + b) == [a] + Lines(b)
  {
    var s := a + "\n" + b;
    if |a| == 0 {
      assert s[1..] == b;
    } else {
      assert s[1..] == a[1..] + "\n" + b;
      LinesCons(a[1..], b);
      assert [a[0]] + a[1..] == a;
    }
  }

  /** Splitting undoes joining when no part contains the separator. */
  lemma {:induction false} LinesOfJoin(parts: seq<string>)
    requires |parts| > 0
    requires AllSingleLine(parts)
    ensures Lines(Join(parts, "\n")) == parts
  {
    if |parts| == 1 {
      LinesOfSingleLine(parts[0]);
    } else {
      LinesCons(parts[0], Join(parts[1..], "\n"));
      LinesOfJoin(parts[1..]);
      assert [parts[0]] + parts[1..] == parts;
    }
  }

  /** Joining undoes splitting, for every string. */
  lemma {:induction false} JoinOfLines(s: string)
    ensures Join(Lines(s), "\n") == s
    decreases |s|
  {
    if |s| > 0 {
      JoinOfLines(s[1..]);
      var rest := Lines(s[1..]);
      if s[0] == '\n' {
        assert ([""] + rest)[1..] == rest;
      } else {
        var r := [[s[0]] + rest[0]] + rest[1..];
        if |rest| > 1 {
          assert r[1..] == rest[1..];
        }
      }
      assert [s[0]] + s[1..] == s;
    }
  }

  /** The rendered input is the transcript with the cue as one more line. */
  lemma RenderAsJoin(history: seq<string>)
    requires |history| > 0
    ensures Render(history) == Join(history + [AssistantCue], "\n")
  {
    JoinSnoc(history, "\n", AssistantCue);
  }

  /**
   * Reading the rendered input line by line gives back every turn, in order,
   * followed by the cue line. An empty history renders as an empty line and the cue.
   */
  lemma RenderLines(history: seq<string>)
    requires AllSingleLine(history)
    ensures Lines(Render(history)) == (if |history| == 0 then [""] else history) + [AssistantCue]
  {
    if |history| == 0 {
      assert Render(history) == "" + "\n" + AssistantCue;
      LinesCons("", AssistantCue);
      LinesOfSingleLine(AssistantCue);
    } else {
      RenderAsJoin(history);
      LinesOfJoin(history + [AssistantCue]);
    }
  }

  /** Two non-empty histories of one-line turns render alike only when they are equal. */
  lemma RenderInjective(h1: seq<string>, h2: seq<string>)
    requires |h1| > 0 && |h2| > 0
    requires AllSingleLine(h1) && AllSingleLine(h2)
    ensures Render(h1) == Render(h2) ==> h1 == h2
  {
    RenderLines(h1);
    RenderLines(h2);
    if Render(h1) == Render(h2) {
      assert h1 == (h1 + [AssistantCue])[..|h1|];
      assert h2 == (h2 + [AssistantCue])[..|h2|];
    }
  }

  /** The rendered input starts with the joined transcript and ends with the cue. */
  lemma RenderShape(history: seq<string>)
    ensures var r := Render(history);
      |r| >= |AssistantCue| + 1 &&
      r[..|Join(history, "\n")|] == Join(history, "\n") &&
      r[|r| - |AssistantCue|..] == AssistantCue
  {
  }
}
