/** The L-system builder: the state string is rewritten character by
    character through `rules`, and a turtle with a bracket stack interprets a
    state, characters first mapped through `drawRules`. The line geometry
    (sin/cos of the heading) is left abstract as the functions `sin`, `cos`. */
module LSystems {
  import Cursor
  import opened Wrappers

  /** The replacement of one character: `rules[c]` when it is truthy (present
      and not the empty string), otherwise the character itself. */
  function Expand(rules: map<char, string>, c: char): string
  {
    if c in rules && rules[c] != "" then rules[c] else [c]
  }

  /** One rewriting step: the replacements of the characters, concatenated in
      order (the loop of nextIteration appends them from left to right). */
  function Rewrite(rules: map<char, string>, s: string): string
  {
    if s == [] then [] else Rewrite(rules, s[..|s| - 1]) + Expand(rules, s[|s| - 1])
  }

  /** Rewriting is a homomorphism: it distributes over concatenation. */
  lemma {:induction false} RewriteConcat(rules: map<char, string>, a: string, b: string)
    ensures Rewrite(rules, a + b) == Rewrite(rules, a) + Rewrite(rules, b)
    decreases |b|
  {
    if b == [] {
      assert a + b == a;
    } else {
      var b' := b[..|b| - 1];
      assert (a + b)[..|a + b| - 1] == a + b';
      RewriteConcat(rules, a, b');
    }
  }

  /** The length the new state must have: the sum over the characters of the
      replacement length, an unmatched character counting 1. */
  function ReplacedLength(rules: map<char, string>, s: string): nat
  {
    if s == [] then 0
    else (if s[0] in rules && rules[s[0]] != "" then |rules[s[0]]| else 1) + ReplacedLength(rules, s[1..])
  }

  lemma {:induction false} RewriteLength(rules: map<char, string>, s: string)
    ensures |Rewrite(rules, s)| == ReplacedLength(rules, s)
    decreases |s|
  {
    if s != [] {
      assert s == [s[0]] + s[1..];
      RewriteConcat(rules, [s[0]], s[1..]);
      RewriteLength(rules, s[1..]);
    }
  }

  /** With no applicable rule (every character absent from `rules` or mapped to
      the falsy empty string), rewriting is the identity. */
  lemma {:induction false} RewriteIdentity(rules: map<char, string>, s: string)
    requires forall i :: 0 <= i < |s| ==> s[i] !in rules || rules[s[i]] == ""
    ensures Rewrite(rules, s) == s
    decreases |s|
  {
    if s != [] {
      RewriteIdentity(rules, s[..|s| - 1]);
      assert s[..|s| - 1] + [s[|s| - 1]] == s;
    }
  }

  /** Each character contributes exactly its own replacement. */
  lemma RewriteSingle(rules: map<char, string>, c: char)
    ensures Rewrite(rules, [c]) == (if c in rules && rules[c] != "" then rules[c] else [c])
  {
    assert [c][..0] == [];
  }

  // ---------------------------------------------------------------- turtle

  datatype Turtle = Turtle(x: real, y: real, rot: real)
  datatype Segment = Segment(x0: real, y0: real, x1: real, y1: real)

  /** What the turtle needs from the builder: the turn angle, the step length
      (lengthFun), the abstract sin/cos, and the drawing rules. */
  datatype Pen = Pen(angle: real, length: real, sin: real -> real, cos: real -> real,
                     drawRules: map<char, string>)

  /** The symbol drawState switches on: `drawRules[c]` when truthy, else `c`. */
  function Symbol(drawRules: map<char, string>, c: char): string
  {
    if c in drawRules && drawRules[c] != "" then drawRules[c] else [c]
  }

  /** The turtle after drawing, its stack, the segments drawn, and whether the
      string was interpreted to the end (false: `]` met an empty stack). */
  datatype Outcome = Outcome(t: Turtle, stack: seq<Turtle>, lines: seq<Segment>, ok: bool)

  function Then(lines: seq<Segment>, o: Outcome): Outcome
  {
    Outcome(o.t, o.stack, lines + o.lines, o.ok)
  }

  lemma ThenThen(a: seq<Segment>, b: seq<Segment>, o: Outcome)
    ensures Then(a + b, o) == Then(a, Then(b, o))
  {
    assert (a + b) + o.lines == a + (b + o.lines);
  }

  /** An `F`: the turtle moves by (sin(heading), cos(heading)) * length. */
  function Forward(t: Turtle, pen: Pen): Turtle
  {
    Turtle(t.x + pen.sin(t.rot) * pen.length, t.y + pen.cos(t.rot) * pen.length, t.rot)
  }

  /** The turtle's interpretation of a string, one symbol at a time. */
  function Run(t: Turtle, stack: seq<Turtle>, s: string, pen: Pen): Outcome
    decreases |s|
  {
    if s == [] then Outcome(t, stack, [], true)
    else
      var c := Symbol(pen.drawRules, s[0]);
      if c == "F" then
        var t' := Forward(t, pen);
        Then([Segment(t.x, t.y, t'.x, t'.y)], Run(t', stack, s[1..], pen))
      else if c == "+" then Run(t.(rot := t.rot + pen.angle), stack, s[1..], pen)
      else if c == "-" then Run(t.(rot := t.rot - pen.angle), stack, s[1..], pen)
      else if c == "[" then Run(t, stack + [t], s[1..], pen)
      else if c == "]" then
        if stack == [] then Outcome(t, stack, [], false)
        else Run(stack[|stack| - 1], stack[..|stack| - 1], s[1..], pen)
      else Run(t, stack, s[1..], pen)
  }

  /** Interpreting a concatenation is interpreting the parts in turn. */
  lemma {:induction false} RunConcat(t: Turtle, stack: seq<Turtle>, a: string, b: string, pen: Pen)
    ensures Run(t, stack, a + b, pen) ==
      (var r := Run(t, stack, a, pen); if r.ok then Then(r.lines, Run(r.t, r.stack, b, pen)) else r)
    decreases |a|
  {
    if a == [] {
      assert a + b == b;
    } else {
      assert (a + b)[0] == a[0] && (a + b)[1..] == a[1..] + b;
      var c := Symbol(pen.drawRules, a[0]);
      if c == "F" {
        RunConcat(Forward(t, pen), stack, a[1..], b, pen);
      } else if c == "+" {
        RunConcat(t.(rot := t.rot + pen.angle), stack, a[1..], b, pen);
      } else if c == "-" {
        RunConcat(t.(rot := t.rot - pen.angle), stack, a[1..], b, pen);
      } else if c == "[" {
        RunConcat(t, stack + [t], a[1..], b, pen);
      } else if c == "]" {
        if stack != [] {
          RunConcat(stack[|stack| - 1], stack[..|stack| - 1], a[1..], b, pen);
        }
      } else {
        RunConcat(t, stack, a[1..], b, pen);
      }
    }
  }

  /** No `]` of `s` finds the stack empty, starting from a stack of `depth`. */
  predicate NeverUnderflows(s: string, depth: nat, drawRules: map<char, string>)
    decreases |s|
  {
    s == [] ||
    var c := Symbol(drawRules, s[0]);
    if c == "[" then NeverUnderflows(s[1..], depth + 1, drawRules)
    else if c == "]" then depth > 0 && NeverUnderflows(s[1..], depth - 1, drawRules)
    else NeverUnderflows(s[1..], depth, drawRules)
  }

  /** A drawing runs to the end exactly when no `]` pops an empty stack; the
      source fails at the first such `]` (`pos` is undefined there). */
  lemma {:induction false} RunCompletes(t: Turtle, stack: seq<Turtle>, s: string, pen: Pen)
    ensures Run(t, stack, s, pen).ok <==> NeverUnderflows(s, |stack|, pen.drawRules)
    decreases |s|
  {
    if s != [] {
      var c := Symbol(pen.drawRules, s[0]);
      if c == "F" {
        RunCompletes(Forward(t, pen), stack, s[1..], pen);
      } else if c == "+" {
        RunCompletes(t.(rot := t.rot + pen.angle), stack, s[1..], pen);
      } else if c == "-" {
        RunCompletes(t.(rot := t.rot - pen.angle), stack, s[1..], pen);
      } else if c == "[" {
        RunCompletes(t, stack + [t], s[1..], pen);
      } else if c == "]" {
        if stack != [] {
          RunCompletes(stack[|stack| - 1], stack[..|stack| - 1], s[1..], pen);
        }
      } else {
        RunCompletes(t, stack, s[1..], pen);
      }
    }
  }

  /** `s`, started `depth` levels deep, never pops below its start and ends back
      at depth 0. */
  predicate Closes(s: string, depth: nat, drawRules: map<char, string>)
    decreases |s|
  {
    if s == [] then depth == 0
    else
      var c := Symbol(drawRules, s[0]);
      if c == "[" then Closes(s[1..], depth + 1, drawRules)
      else if c == "]" then depth > 0 && Closes(s[1..], depth - 1, drawRules)
      else Closes(s[1..], depth, drawRules)
  }

  /** A string that closes the `top` part of the stack pops exactly that part. */
  lemma {:induction false} ClosesPops(t: Turtle, base: seq<Turtle>, top: seq<Turtle>, s: string, pen: Pen)
    requires Closes(s, |top|, pen.drawRules)
    ensures Run(t, base + top, s, pen).ok && Run(t, base + top, s, pen).stack == base
    decreases |s|
  {
    if s == [] {
      assert base + top == base;
    } else {
      var c := Symbol(pen.drawRules, s[0]);
      if c == "F" {
        ClosesPops(Forward(t, pen), base, top, s[1..], pen);
      } else if c == "+" {
        ClosesPops(t.(rot := t.rot + pen.angle), base, top, s[1..], pen);
      } else if c == "-" {
        ClosesPops(t.(rot := t.rot - pen.angle), base, top, s[1..], pen);
      } else if c == "[" {
        assert base + top + [t] == base + (top + [t]);
        ClosesPops(t, base, top + [t], s[1..], pen);
      } else if c == "]" {
        var st := base + top;
        assert st[|st| - 1] == top[|top| - 1];
        assert st[..|st| - 1] == base + top[..|top| - 1];
        ClosesPops(top[|top| - 1], base, top[..|top| - 1], s[1..], pen);
      } else {
        ClosesPops(t, base, top, s[1..], pen);
      }
    }
  }

  /** A balanced `[ ... ]` segment leaves the turtle and its stack as they were
      before the `[`. */
  lemma BracketRestores(t: Turtle, stack: seq<Turtle>, s: string, pen: Pen)
    requires |s| >= 2
    requires Symbol(pen.drawRules, s[0]) == "[" && Symbol(pen.drawRules, s[|s| - 1]) == "]"
    requires Closes(s[1..|s| - 1], 0, pen.drawRules)
    ensures var o := Run(t, stack, s, pen); o.ok && o.t == t && o.stack == stack
  {
    var w, last := s[1..|s| - 1], s[|s| - 1];
    assert s[1..] == w + [last];
    ClosesPops(t, stack + [t], [], w, pen);
    assert stack + [t] + [] == stack + [t];
    RunConcat(t, stack + [t], w, [last], pen);
    var r := Run(t, stack + [t], w, pen);
    assert Run(r.t, r.stack, [last], pen) == Outcome(t, stack, [], true) by {
      assert r.stack[..|r.stack| - 1] == stack;
    }
  }

  /** Symbols other than F, +, -, [ and ] leave the turtle and the stack alone
      and draw nothing. */
  lemma {:induction false} UnknownSymbolsInert(t: Turtle, stack: seq<Turtle>, s: string, pen: Pen)
    requires forall i :: 0 <= i < |s| ==> Symbol(pen.drawRules, s[i]) !in {"F", "+", "-", "[", "]"}
    ensures Run(t, stack, s, pen) == Outcome(t, stack, [], true)
    decreases |s|
  {
    if s != [] {
      assert Symbol(pen.drawRules, s[0]) !in {"F", "+", "-", "[", "]"};
      UnknownSymbolsInert(t, stack, s[1..], pen);
    }
  }

  /** `+` turns by `angle`, `-` turns back by it; neither moves the turtle. */
  lemma TurnsCancel(t: Turtle, stack: seq<Turtle>, pen: Pen)
    requires Symbol(pen.drawRules, '+') == "+" && Symbol(pen.drawRules, '-') == "-"
    ensures Run(t, stack, "+", pen).t == t.(rot := t.rot + pen.angle)
    ensures Run(t, stack, "-", pen).t == t.(rot := t.rot - pen.angle)
    ensures Run(t, stack, "+-", pen) == Outcome(t, stack, [], true)
  {
    assert "+-"[1..] == "-";
    assert t.(rot := t.rot + pen.angle).(rot := t.rot + pen.angle - pen.angle) == t;
  }

  // ---------------------------------------------------------------- builder

  /** Math.PI / 2, the default heading. */
  const HalfPi: real := 1.5707963267948966

  class LSystem {
    var states: seq<string>
    var iteration: nat
    var dirty: bool

    const angle: real
    const rules: map<char, string>
    const drawRules: map<char, string>
    const length: real
    const sin: real -> real
    const cos: real -> real
    const offsetX: real
    const offsetY: real
    const defaultRotation: real

    var rotation: real
    var turtleX: real
    var turtleY: real

    ghost predicate Valid()
      reads this
    {
      iteration < |states|
    }

    ghost function Hist(): Cursor.History<string>
      reads this
    {
      Cursor.History(states, iteration)
    }

    function P(): Pen
    {
      Pen(angle, length, sin, cos, drawRules)
    }

    /** `offset` holds x, y and optionally the heading; `lengthFun` is the step
        length the caller's length function gives, None for the default 10. */
    constructor (offset: seq<real>, initial: string, rules: map<char, string>,
                 drawRules: map<char, string>, angle: real, lengthFun: Option<real>,
                 sin: real -> real, cos: real -> real)
      requires |offset| >= 2
      ensures Valid() && Hist() == Cursor.Start(initial) && !dirty
      ensures defaultRotation == (if |offset| == 3 then offset[2] else HalfPi)
      ensures rotation == defaultRotation
      ensures length == (if lengthFun.Some? then lengthFun.value else 10.0)
      ensures this.rules == rules && this.drawRules == drawRules && this.angle == angle
      ensures offsetX == offset[0] && offsetY == offset[1]
    {
      states := [initial];
      dirty := false;
      iteration := 0;
      this.angle := angle;
      this.rules := rules;
      this.drawRules := drawRules;
      length := if lengthFun.Some? then lengthFun.value else 10.0;
      defaultRotation := if |offset| == 3 then offset[2] else HalfPi;
      rotation := if |offset| == 3 then offset[2] else HalfPi;
      offsetX := offset[0];
      offsetY := offset[1];
      this.sin := sin;
      this.cos := cos;
    }

    method NextIteration()
      requires Valid()
      modifies this`states, this`iteration, this`dirty
      ensures Valid() && dirty
      ensures Hist() == Cursor.Next(old(Hist()), Rewrite(rules, old(states[iteration])))
    {
      if iteration == |states| - 1 {
        var prevState := states[iteration];
        var result := "";
        var i := 0;
        while i < |prevState|
          invariant 0 <= i <= |prevState|
          invariant result == Rewrite(rules, prevState[..i])
        {
          if prevState[i] in rules && rules[prevState[i]] != "" {
            result := result + rules[prevState[i]];
          } else {
            result := result + [prevState[i]];
          }
          assert prevState[..i + 1][..i] == prevState[..i];
          i := i + 1;
        }
        assert prevState[..i] == prevState;
        states := states + [result];
      }
      iteration := iteration + 1;
      dirty := true;
    }

    method PrevIteration()
      requires Valid()
      modifies this`iteration, this`dirty
      ensures Valid()
      ensures Hist() == Cursor.Prev(old(Hist()))
      ensures dirty == (old(dirty) || old(iteration) > 0)
    {
      if iteration > 0 {
        iteration := iteration - 1;
        dirty := true;
      }
    }

    /** rotate: counter-clockwise adds `angle`, clockwise subtracts it. */
    method Rotate(clockwise: bool)
      modifies this`rotation
      ensures rotation == if clockwise then old(rotation) - angle else old(rotation) + angle
    {
      rotation := rotation + angle * (if clockwise then -1.0 else 1.0);
    }

    /** lineDraw: the turtle moves by (sin(heading), cos(heading)) * len and the
        segment it covers is drawn. */
    method LineDraw(len: real) returns (line: Segment)
      modifies this`turtleX, this`turtleY, this`dirty
      ensures turtleX == old(turtleX) + sin(rotation) * len
      ensures turtleY == old(turtleY) + cos(rotation) * len
      ensures line == Segment(old(turtleX), old(turtleY), turtleX, turtleY)
      ensures dirty
    {
      var deltaX := sin(rotation) * len;
      var deltaY := cos(rotation) * len;
      line := Segment(turtleX, turtleY, turtleX + deltaX, turtleY + deltaY);
      turtleX := turtleX + deltaX;
      turtleY := turtleY + deltaY;
      dirty := true;
    }

    /** drawState: the turtle starts at the offset with the default heading and
        interprets `state`; the result is what Run describes, including the
        failure at a `]` on an empty stack. */
    method DrawState(state: string) returns (lines: seq<Segment>, ok: bool)
      modifies this`turtleX, this`turtleY, this`rotation, this`dirty
      ensures var o := Run(Turtle(offsetX, offsetY, defaultRotation), [], state, P());
        Turtle(turtleX, turtleY, rotation) == o.t && lines == o.lines && ok == o.ok
      ensures dirty == (old(dirty) || lines != [])
    {
      var statesStack: seq<Turtle> := [];
      turtleX, turtleY := offsetX, offsetY;
      rotation := defaultRotation;
      lines, ok := [], true;
      ghost var goal := Run(Turtle(offsetX, offsetY, defaultRotation), [], state, P());
      var i := 0;
      while i < |state|
        invariant 0 <= i <= |state|
        invariant Then(lines, Run(Turtle(turtleX, turtleY, rotation), statesStack, state[i..], P())) == goal
        invariant dirty == (old(dirty) || lines != [])
      {
        assert state[i..] == [state[i]] + state[i + 1..];
        var drawn;
        statesStack, drawn, ok := DrawSymbol(state[i], state[i + 1..], statesStack);
        if !ok {
          return;
        }
        ThenThen(lines, drawn, Run(Turtle(turtleX, turtleY, rotation), statesStack, state[i + 1..], P()));
        lines := lines + drawn;
        i := i + 1;
      }
    }

    /** One symbol of drawState: on success the turtle, the stack and the
        segments drawn are one step of Run; on `]` with an empty stack nothing
        changes and the interpretation stops. */
    method DrawSymbol(symbol: char, ghost rest: string, stack: seq<Turtle>)
        returns (stack': seq<Turtle>, drawn: seq<Segment>, ok: bool)
      modifies this`turtleX, this`turtleY, this`rotation, this`dirty
      ensures var before := Run(old(Turtle(turtleX, turtleY, rotation)), stack, [symbol] + rest, P());
        if ok then before == Then(drawn, Run(Turtle(turtleX, turtleY, rotation), stack', rest, P()))
        else before == Outcome(Turtle(turtleX, turtleY, rotation), stack, [], false) && drawn == []
      ensures dirty == (old(dirty) || drawn != [])
    {
      var c := Symbol(drawRules, symbol);
      assert ([symbol] + rest)[0] == symbol && ([symbol] + rest)[1..] == rest;
      stack', drawn, ok := stack, [], true;
      if c == "F" {
        ghost var t0 := Turtle(turtleX, turtleY, rotation);
        var line := LineDraw(length);
        assert Turtle(turtleX, turtleY, rotation) == Forward(t0, P());
        drawn := [line];
      } else if c == "+" {
        Rotate(false);
      } else if c == "-" {
        Rotate(true);
      } else if c == "[" {
        stack' := stack + [Turtle(turtleX, turtleY, rotation)];
      } else if c == "]" {
        if stack == [] {
          ok := false;
        } else {
          var pos := stack[|stack| - 1];
          turtleX, turtleY, rotation := pos.x, pos.y, pos.rot;
          stack' := stack[..|stack| - 1];
        }
      }
    }
  }
}
