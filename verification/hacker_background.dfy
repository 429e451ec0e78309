/**
 * The typewriter code lines drawn behind the page
 * (components/ui/hacker-background.jsx).
 *
 * Each CodeLine reveals its snippet one character per update, provided
 * more than 50 ms have passed since the last character; once every
 * character is shown, the next due update marks it complete. Every frame
 * the background adds a line below the last one while there are fewer
 * than 8 and the new line fits above the bottom margin, empties the list
 * once every line in it is complete, and then updates each line.
 *
 * The clock is the `now` parameter; the snippet a new line types is a
 * parameter as well (the source picks one at random).
 */
module HackerBackground {

  /** At most this many lines are on screen. */
  const MaxLines: nat := 8
  const LineHeight: int := 20
  /** Milliseconds that must pass (strictly) before the next character appears. */
  const TypingSpeed: int := 50
  /** The y of the first line, and the margin kept free at the bottom. */
  const Margin: int := 50

  /** The mutable typing state of one line. */
  datatype Typing = Typing(charIndex: nat, lastUpdate: int, complete: bool)

  /** The typing state is consistent with a text of length `len`. */
  predicate TypingOk(t: Typing, len: nat) {
    t.charIndex <= len && (t.complete ==> t.charIndex == len)
  }

  /** `CodeLine.update` on the typing state of a line whose text has length `len`. */
  function Tick(t: Typing, len: nat, now: int): (r: Typing)
    ensures TypingOk(t, len) ==> TypingOk(r, len)
    ensures t.complete || now - t.lastUpdate <= TypingSpeed ==> r == t
    ensures r.lastUpdate != t.lastUpdate ==>
      r.lastUpdate == now && r.charIndex == t.charIndex + 1 && !r.complete
    ensures r.lastUpdate == t.lastUpdate ==> r.charIndex == t.charIndex
    ensures r.complete != t.complete ==> r.complete && t.charIndex >= len
  {
    if t.complete || now - t.lastUpdate <= TypingSpeed then t
    else if t.charIndex < len then Typing(t.charIndex + 1, now, false)
    else Typing(t.charIndex, t.lastUpdate, true)
  }

  /** The typing state after one update at each of the given times, in order. */
  function TickAt(t: Typing, len: nat, times: seq<int>): Typing
    decreases |times|
  {
    if times == [] then t else TickAt(Tick(t, len, times[0]), len, times[1..])
  }

  /** The times are more than 50 ms apart, and the first is more than 50 ms after `start`. */
  predicate Spaced(start: int, times: seq<int>) {
    (times != [] ==> times[0] - start > TypingSpeed)
    && forall i :: 0 <= i < |times| - 1 ==> times[i + 1] - times[i] > TypingSpeed
  }

  /**
   * Updated often enough, a line types one character per update and is
   * complete after one more: from an incomplete state with `charIndex`
   * characters shown, `len - charIndex + 1` updates spaced more than 50 ms
   * apart show the whole text and complete the line.
   */
  lemma {:induction false} TypingFinishes(t: Typing, len: nat, times: seq<int>)
    requires TypingOk(t, len) && !t.complete
    requires Spaced(t.lastUpdate, times)
    requires |times| == len - t.charIndex + 1
    ensures TickAt(t, len, times).charIndex == len
    ensures TickAt(t, len, times).complete
    decreases |times|
  {
    var next := Tick(t, len, times[0]);
    if t.charIndex < len {
      assert next == Typing(t.charIndex + 1, times[0], false);
      assert Spaced(next.lastUpdate, times[1..]) by {
        forall i | 0 <= i < |times[1..]| - 1
          ensures times[1..][i + 1] - times[1..][i] > TypingSpeed
        {
          assert times[1..][i + 1] == times[i + 2] && times[1..][i] == times[i + 1];
        }
      }
      TypingFinishes(next, len, times[1..]);
    } else {
      assert next == Typing(len, t.lastUpdate, true);
      assert times[1..] == [];
    }
  }

  /** The value of one line: its text, its y and its typing state. */
  datatype Line = Line(text: string, y: int, typing: Typing)

  /** A line as `new CodeLine(y)` creates it at time `now`. */
  function Fresh(text: string, y: int, now: int): (l: Line)
    ensures TypingOk(l.typing, |l.text|) && !l.typing.complete && l.typing.charIndex == 0
  {
    Line(text, y, Typing(0, now, false))
  }

  /** `update` on a whole line. */
  function TickLine(l: Line, now: int): Line {
    Line(l.text, l.y, Tick(l.typing, |l.text|, now))
  }

  /** Where the next line goes: 50 for the first, otherwise two line heights below the last. */
  function NextY(ls: seq<Line>): int {
    if |ls| > 0 then ls[|ls| - 1].y + LineHeight * 2 else Margin
  }

  /** Whether a new line is added this frame. */
  predicate Room(ls: seq<Line>, height: int) {
    |ls| < MaxLines && NextY(ls) < height - Margin
  }

  predicate AllComplete(ls: seq<Line>) {
    forall k :: 0 <= k < |ls| ==> ls[k].typing.complete
  }

  /** The list after the first part of a frame: a line is added where there is room. */
  function Grow(ls: seq<Line>, height: int, text: string, now: int): (r: seq<Line>)
    ensures |r| == |ls| + (if Room(ls, height) then 1 else 0)
    ensures r[..|ls|] == ls
  {
    if Room(ls, height) then ls + [Fresh(text, NextY(ls), now)] else ls
  }

  /** The list after the second part: emptied when it is non-empty and every line is complete. */
  function Clear(ls: seq<Line>): (r: seq<Line>)
    ensures r == [] || r == ls
    ensures r == [] <==> ls == [] || AllComplete(ls)
  {
    if AllComplete(ls) && |ls| > 0 then [] else ls
  }

  /** Every line updated at `now`. */
  function TickLines(ls: seq<Line>, now: int): (r: seq<Line>)
    ensures |r| == |ls|
    ensures forall k :: 0 <= k < |ls| ==> r[k] == TickLine(ls[k], now)
  {
    seq(|ls|, k requires 0 <= k < |ls| => TickLine(ls[k], now))
  }

  /** One call of `animate` on the list of lines. */
  function Step(ls: seq<Line>, height: int, text: string, now: int): seq<Line> {
    TickLines(Clear(Grow(ls, height, text, now)), now)
  }

  /**
   * The layout every reachable list has: at most 8 lines, the k-th at
   * y = 50 + 40k, each with a consistent typing state.
   */
  predicate Layout(ls: seq<Line>) {
    |ls| <= MaxLines
    && (forall k :: 0 <= k < |ls| ==> ls[k].y == Margin + 2 * LineHeight * k)
    && (forall k :: 0 <= k < |ls| ==> TypingOk(ls[k].typing, |ls[k].text|))
  }

  /** Adding a line keeps the layout: the new line goes 40 below the last and the count stays within 8. */
  lemma GrowKeepsLayout(ls: seq<Line>, height: int, text: string, now: int)
    requires Layout(ls)
    ensures Layout(Grow(ls, height, text, now))
  {
    var g := Grow(ls, height, text, now);
    if Room(ls, height) {
      assert forall k :: 0 <= k < |ls| ==> g[k] == ls[k];
    }
  }

  /** A frame keeps the layout: never more than 8 lines, evenly spaced, each consistent. */
  lemma StepKeepsLayout(ls: seq<Line>, height: int, text: string, now: int)
    requires Layout(ls)
    ensures Layout(Step(ls, height, text, now))
  {
    GrowKeepsLayout(ls, height, text, now);
  }

  /** Updating every line keeps the layout. */
  lemma TickLinesKeepLayout(ls: seq<Line>, now: int)
    requires Layout(ls)
    ensures Layout(TickLines(ls, now))
  {
  }

  /**
   * A frame adds a line exactly when there is room, and then nothing is
   * cleared; so a frame that adds one ends with one more line than before,
   * every old line updated and the new one last.
   */
  lemma StepAdds(ls: seq<Line>, height: int, text: string, now: int)
    requires Room(ls, height)
    ensures Step(ls, height, text, now) ==
      TickLines(ls, now) + [TickLine(Fresh(text, NextY(ls), now), now)]
  {
    var g := Grow(ls, height, text, now);
    assert !g[|ls|].typing.complete;
    assert Clear(g) == g;
  }

  /**
   * A non-empty list is emptied by a frame exactly when every line in it
   * is complete and there is no room for a new one (which would be
   * incomplete).
   */
  lemma StepClears(ls: seq<Line>, height: int, text: string, now: int)
    requires ls != []
    ensures Step(ls, height, text, now) == [] <==> AllComplete(ls) && !Room(ls, height)
  {
    var g := Grow(ls, height, text, now);
    if Room(ls, height) {
      assert !g[|ls|].typing.complete;
    }
  }

  /** A frame that does not empty the list keeps every line, updated, in order. */
  lemma StepKeeps(ls: seq<Line>, height: int, text: string, now: int)
    requires !AllComplete(ls)
    ensures |Step(ls, height, text, now)| >= |ls|
    ensures forall k :: 0 <= k < |ls| ==> Step(ls, height, text, now)[k] == TickLine(ls[k], now)
  {
    var g := Grow(ls, height, text, now);
    assert !AllComplete(g) by {
      var k :| 0 <= k < |ls| && !ls[k].typing.complete;
      assert g[k] == ls[k];
    }
  }

  /** One animated line of code. */
  class CodeLine {
    const text: string
    const y: int
    var displayText: string
    var charIndex: nat
    var lastUpdate: int
    var complete: bool

    /** What is shown is always the first `charIndex` characters of the text. */
    ghost predicate Valid()
      reads this
    {
      charIndex <= |text| && displayText == text[..charIndex]
      && (complete ==> charIndex == |text|)
    }

    /** The line's value. */
    function State(): Line
      reads this
    {
      Line(text, y, Typing(charIndex, lastUpdate, complete))
    }

    constructor (text: string, y: int, now: int)
      ensures Valid()
      ensures State() == Fresh(text, y, now) && displayText == ""
    {
      this.text := text;
      this.y := y;
      displayText := "";
      charIndex := 0;
      lastUpdate := now;
      complete := false;
    }

    /** `update`: reveal the next character if more than 50 ms have passed, or mark the line complete. */
    method Update(now: int)
      requires Valid()
      modifies this
      ensures Valid()
      ensures State() == TickLine(old(State()), now)
    {
      if complete {
        return;
      }
      if now - lastUpdate > TypingSpeed {
        if charIndex < |text| {
          displayText := displayText + [text[charIndex]];
          charIndex := charIndex + 1;
          lastUpdate := now;
        } else {
          complete := true;
        }
      }
    }
  }

  /** The values of a list of lines. */
  ghost function Values(ls: seq<CodeLine>): (r: seq<Line>)
    reads set l | l in ls
    ensures |r| == |ls|
    ensures forall k :: 0 <= k < |ls| ==> r[k] == ls[k].State()
  {
    seq(|ls|, k requires 0 <= k < |ls| reads set l | l in ls => ls[k].State())
  }

  lemma ValuesSnoc(ls: seq<CodeLine>, l: CodeLine)
    ensures Values(ls + [l]) == Values(ls) + [l.State()]
  {
    assert forall k :: 0 <= k < |ls| ==> (ls + [l])[k] == ls[k];
  }

  /** The canvas and its list of lines. */
  class Background {
    var lines: seq<CodeLine>
    var height: int

    /** The lines are distinct objects, each consistent, laid out as Layout says. */
    ghost predicate Valid()
      reads this, set l | l in lines
    {
      (forall i, j :: 0 <= i < j < |lines| ==> lines[i] != lines[j])
      && (forall k :: 0 <= k < |lines| ==> lines[k].Valid())
      && Layout(Values(lines))
    }

    constructor (height: int)
      ensures Valid() && lines == [] && this.height == height
    {
      lines := [];
      this.height := height;
    }

    /** The window was resized: only the height matters to the line logic. */
    method Resize(h: int)
      requires Valid()
      modifies this
      ensures Valid() && height == h && lines == old(lines)
    {
      height := h;
    }

    /** One call of `animate`: add, clear, then update every line. */
    method Animate(text: string, now: int)
      requires Valid()
      modifies this, set l | l in lines
      ensures Valid() && height == old(height)
      ensures Values(lines) == Step(old(Values(lines)), height, text, now)
    {
      AddLine(text, now);
      ClearIfDone();
      UpdateAll(now);
    }

    /** Push a new line below the last one while there are fewer than 8 and it fits. */
    method AddLine(text: string, now: int)
      requires Valid()
      modifies this
      ensures Valid() && height == old(height)
      ensures Values(lines) == Grow(old(Values(lines)), height, text, now)
      ensures forall l :: l in lines ==> l in old(lines) || fresh(l)
    {
      ghost var start := Values(lines);
      GrowKeepsLayout(start, height, text, now);
      if |lines| < MaxLines {
        var newY := if |lines| > 0 then lines[|lines| - 1].y + LineHeight * 2 else Margin;
        assert newY == NextY(start);
        if newY < height - Margin {
          var l := new CodeLine(text, newY, now);
          assert forall k :: 0 <= k < |lines| ==> lines[k] != l;
          assert Values(lines) == start;
          ValuesSnoc(lines, l);
          lines := lines + [l];
          assert Values(lines) == start + [Fresh(text, newY, now)];
        }
      }
    }

    /** `lines.every(line => line.complete)` on a non-empty list empties it. */
    method ClearIfDone()
      requires Valid()
      modifies this
      ensures Valid() && height == old(height)
      ensures Values(lines) == Clear(old(Values(lines)))
      ensures lines == old(lines) || lines == []
    {
      var allComplete := true;
      var j := 0;
      while j < |lines|
        invariant 0 <= j <= |lines|
        invariant allComplete <==> forall k :: 0 <= k < j ==> lines[k].complete
      {
        allComplete := allComplete && lines[j].complete;
        j := j + 1;
      }
      if allComplete && |lines| > 0 {
        lines := [];
      }
    }

    /** `lines.forEach(line => line.update())`. */
    method UpdateAll(now: int)
      requires Valid()
      modifies set l | l in lines
      ensures Valid() && lines == old(lines)
      ensures Values(lines) == TickLines(old(Values(lines)), now)
    {
      ghost var before := Values(lines);
      var ls := lines;
      var i := 0;
      while i < |ls|
        invariant 0 <= i <= |ls|
        invariant forall k :: 0 <= k < |ls| ==> ls[k].Valid()
        invariant forall k :: 0 <= k < i ==> ls[k].State() == TickLine(before[k], now)
        invariant forall k :: i <= k < |ls| ==> ls[k].State() == before[k]
      {
        ls[i].Update(now);
        i := i + 1;
      }
      TickLinesKeepLayout(before, now);
    }
  }
}
