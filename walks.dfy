/** The two renderers of src/index.js that walk the cause chain with a loop:
    the `fullStack` getter of MoyalError and the free function
    `printCauseChain`. Each is a method with the source's loop, proved
    against a specification function over `Chain`. */
module CauseWalks {
  import opened Text
  import opened MoyalErrors

  // ---------------------------------------------------------------------------
  // fullStack (src/index.js:172-180)

  /** `this.stack || ""`: the receiver's stack, never its message. */
  function StackText(stack: Option<string>): string
  {
    match stack
    case Some(s) => s
    case None => ""
  }

  /** `${current.stack || current.message}` */
  function StackOrMessage(v: Value): string
  {
    if PropTruthy(StackOf(v)) then StackOf(v).value else PropText(MessageOf(v))
  }

  /** The text one cause link contributes to `fullStack`. */
  function Segment(v: Value): string
  {
    "\nCaused by: " + StackOrMessage(v)
  }

  /** The segments the walk from `v` appends: one per truthy link. */
  function CausedBy(v: Value): string
    decreases Size(v)
  {
    if Truthy(v) then Segment(v) + CausedBy(CauseOf(v)) else ""
  }

  /** One turn of the loop of `fullStack` keeps the text built so far followed
      by the segments still to come equal to the whole text. */
  lemma FullStackStep(output: string, current: Value, e: MoyalRec)
    requires Truthy(current) && output + CausedBy(current) == StackText(e.stack) + CausedBy(Cause(e))
    ensures (output + Segment(current)) + CausedBy(CauseOf(current)) == StackText(e.stack) + CausedBy(Cause(e))
    ensures Size(CauseOf(current)) < Size(current)
  {
    assert CausedBy(current) == Segment(current) + CausedBy(CauseOf(current));
    CauseOfShrinks(current);
  }

  /** The `fullStack` getter: the receiver's stack followed by the segments of
      its cause chain. */
  method FullStack(e: MoyalRec) returns (output: string)
    ensures output == StackText(e.stack) + CausedBy(Cause(e))
  {
    output := StackText(e.stack);
    var current := Cause(e);
    while Truthy(current)
      invariant output + CausedBy(current) == StackText(e.stack) + CausedBy(Cause(e))
      decreases Size(current)
    {
      FullStackStep(output, current, e);
      output := output + Segment(current);
      current := CauseOf(current);
    }
    assert output + "" == output;
  }

  /** The segments of `links`, one per link, in order. */
  function Segments(links: seq<Value>): (r: seq<string>)
    ensures |r| == |links|
  {
    seq(|links|, k requires 0 <= k < |links| => Segment(links[k]))
  }

  /** What the walk appends is exactly one segment per link of the chain, in
      chain order. */
  lemma {:induction false} CausedByIsPerLink(v: Value)
    ensures CausedBy(v) == Concat(Segments(Chain(v)))
    decreases Size(v)
  {
    if Truthy(v) {
      var c := CauseOf(v);
      CauseOfShrinks(v);
      CausedByIsPerLink(c);
      ChainStep(v);
      assert Segments(Chain(v))[0] == Segment(v);
      assert Segments(Chain(v))[1..] == Segments(Chain(c));
    } else {
      assert Segments(Chain(v)) == [];
    }
  }

  /** Link `k`'s segment sits between the segments of the links before it
      and those of the links after it. */
  lemma FullStackSegments(e: MoyalRec, k: nat)
    requires k < |Chain(Cause(e))|
    ensures var parts := Segments(Chain(Cause(e)));
      CausedBy(Cause(e)) == Concat(parts[..k]) + Segment(Chain(Cause(e))[k]) + Concat(parts[k + 1..])
  {
    var parts := Segments(Chain(Cause(e)));
    assert CausedBy(Cause(e)) == Concat(parts) by {
      CausedByIsPerLink(Cause(e));
    }
    ConcatAt(parts, k);
  }

  /** Every cause's stack (or message, when it has no stack) shows up in
      `fullStack`, after "Caused by: ". */
  lemma FullStackMentionsEveryCause(e: MoyalRec, k: nat)
    requires k < |Chain(Cause(e))|
    ensures IsSubstring("\nCaused by: " + StackOrMessage(Chain(Cause(e))[k]), StackText(e.stack) + CausedBy(Cause(e)))
  {
    var parts := Segments(Chain(Cause(e)));
    var before := Concat(parts[..k]);
    var after := Concat(parts[k + 1..]);
    var seg := Segment(Chain(Cause(e))[k]);
    var text := StackText(e.stack) + CausedBy(Cause(e));
    assert text == (StackText(e.stack) + before) + seg + after by {
      FullStackSegments(e, k);
    }
    assert IsSubstring(seg, text) by {
      SubstringOfConcat(StackText(e.stack) + before, seg, after);
    }
    assert seg == "\nCaused by: " + StackOrMessage(Chain(Cause(e))[k]);
  }

  // ---------------------------------------------------------------------------
  // printCauseChain (src/index.js:189-198)

  /** `${error.name ?? 'Error'}: ${error.message ?? '(no message)'}` */
  function Label(v: Value): string
  {
    OrElse(NameOf(v), "Error") + ": " + OrElse(MessageOf(v), "(no message)")
  }

  /** The line pushed for `v` at the given depth. */
  function Line(v: Value, depth: nat): string
  {
    Indent(depth) + Label(v)
  }

  /** What a walk from `v` produces when it turns each link into
      `line(link, depth)`, the first link at the given depth. */
  function Walk(v: Value, depth: nat, line: (Value, nat) -> string): seq<string>
    decreases Size(v)
  {
    if Truthy(v) then [line(v, depth)] + Walk(CauseOf(v), depth + 1, line) else []
  }

  /** One step of a walk. */
  lemma WalkStep(v: Value, depth: nat, line: (Value, nat) -> string)
    requires Truthy(v)
    ensures Walk(v, depth, line) == [line(v, depth)] + Walk(CauseOf(v), depth + 1, line)
  {
  }

  /** A walk produces one string per link of the chain. */
  lemma {:induction false} WalkLength(v: Value, depth: nat, line: (Value, nat) -> string)
    ensures |Walk(v, depth, line)| == |Chain(v)|
    decreases Size(v)
  {
    if Truthy(v) {
      CauseOfShrinks(v);
      WalkLength(CauseOf(v), depth + 1, line);
    }
  }

  /** The string for link `d` is made at depth `depth + d`. */
  lemma {:induction false} WalkAt(v: Value, depth: nat, line: (Value, nat) -> string, d: nat)
    requires d < |Chain(v)|
    ensures d < |Walk(v, depth, line)| && Walk(v, depth, line)[d] == line(Chain(v)[d], depth + d)
    decreases d
  {
    var c := CauseOf(v);
    ChainStep(v);
    WalkStep(v, depth, line);
    if d > 0 {
      WalkAt(c, depth + 1, line, d - 1);
    }
  }

  /** The lines `printCauseChain` collects for `v`. */
  function CauseLines(v: Value): seq<string>
  {
    Walk(v, 0, Line)
  }

  /** One turn of the loop of `printCauseChain` keeps the lines pushed so far
      followed by the lines still to come equal to all the lines. */
  lemma PrintStep(lines: seq<string>, current: Value, depth: nat, error: Value)
    requires Truthy(current) && lines + Walk(current, depth, Line) == CauseLines(error)
    ensures (lines + [Line(current, depth)]) + Walk(CauseOf(current), depth + 1, Line) == CauseLines(error)
    ensures Size(CauseOf(current)) < Size(current)
  {
    WalkStep(current, depth, Line);
    CauseOfShrinks(current);
  }

  /** `printCauseChain(error)`: the lines of the chain joined by newlines. */
  method PrintCauseChain(error: Value) returns (s: string)
    ensures s == Join(CauseLines(error), "\n")
  {
    var lines: seq<string> := [];
    var depth: nat := 0;
    var current := error;
    while Truthy(current)
      invariant lines + Walk(current, depth, Line) == CauseLines(error)
      decreases Size(current)
    {
      PrintStep(lines, current, depth, error);
      lines := lines + [Line(current, depth)];
      current := CauseOf(current);
      depth := depth + 1;
    }
    assert lines + [] == lines;
    s := Join(lines, "\n");
  }

  /** One line per link: the line at depth `d` is exactly `2 * d` spaces
      followed by that link's label, a falsy input gives the empty text, and
      when no label holds a newline, splitting the output on newlines gives
      the lines back. */
  lemma CauseLinesShape(v: Value)
    ensures |CauseLines(v)| == |Chain(v)|
    ensures forall d :: 0 <= d < |CauseLines(v)| ==>
      |CauseLines(v)[d]| >= 2 * d && CauseLines(v)[d][..2 * d] == Indent(d)
      && CauseLines(v)[d][2 * d..] == Label(Chain(v)[d])
    ensures !Truthy(v) ==> Join(CauseLines(v), "\n") == ""
    ensures Truthy(v) && (forall d :: 0 <= d < |Chain(v)| ==> '\n' !in Label(Chain(v)[d])) ==>
      SplitLines(Join(CauseLines(v), "\n")) == CauseLines(v)
  {
    var lines := CauseLines(v);
    WalkLength(v, 0, Line);
    forall d | 0 <= d < |lines|
      ensures lines[d] == Indent(d) + Label(Chain(v)[d])
    {
      WalkAt(v, 0, Line, d);
    }
    if Truthy(v) && (forall d :: 0 <= d < |Chain(v)| ==> '\n' !in Label(Chain(v)[d])) {
      forall d | 0 <= d < |lines|
        ensures '\n' !in lines[d]
      {
        assert lines[d] == Indent(d) + Label(Chain(v)[d]);
        IndentIsSpaces(d);
      }
      SplitJoin(lines);
    }
  }

  /** `??` replaces only `null` and `undefined`: a value with no name or
      message is labelled "Error: (no message)", an error with an empty
      message keeps the empty text. */
  lemma LabelFallbacks(v: Value)
    ensures !IsError(v) ==> Label(v) == "Error: (no message)"
    ensures IsError(v) ==> Label(v) == NameOf(v).value + ": " + MessageOf(v).value
    ensures v.Moyal? && v.err.message == "" ==> Label(v) == v.err.name + ": "
  {
  }
}
