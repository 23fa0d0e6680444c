/** The typewriter of src/components/TypingText.tsx: one timer tick at a
    time it types the next character of the current line, moves on to the
    next line, or stops once every line is consumed.

    displayedLines is a JavaScript array: writing slot k past its end
    leaves unwritten slots ("holes") before k. The next tick's copy
    `[...prev]` turns a hole into an explicit `undefined` entry; None stands
    for both. Since an empty line is never written, its slot is a hole (later
    `undefined`), or is missing altogether when no later line is written. */
module Typing {
  import opened Options

  /** `newLines[k] = v` on a copy of `a`: slot k holds v, the other slots
      keep their values, and slots added before k are holes. */
  function SetSlot(a: seq<Option<string>>, k: nat, v: string): (r: seq<Option<string>>)
    ensures |r| == if k < |a| then |a| else k + 1
    ensures r[k] == Some(v)
    ensures forall i :: 0 <= i < |a| && i != k ==> r[i] == a[i]
    ensures forall i :: |a| <= i < k ==> r[i] == None
  {
    if k < |a| then a[k := Some(v)] else a + seq(k - |a|, _ => None) + [Some(v)]
  }

  /** What a fully typed line leaves on screen: the line, or a hole for an
      empty line. */
  function TypedLine(line: string): Option<string>
  {
    if line == "" then None else Some(line)
  }

  /** The displayed lines agree with a typewriter at line `li`, character
      `ci`: the indices are in range; every earlier line is fully typed (a
      non-empty one is present in full); the current line shows its first
      `ci` characters once it has any; nothing past it is written; and the
      last slot is never a hole. */
  ghost predicate Consistent(lines: seq<string>, shown: seq<Option<string>>, li: nat, ci: nat)
  {
    && li <= |lines|
    && (li < |lines| ==> ci <= |lines[li]|)
    && (li == |lines| ==> ci == 0)
    && |shown| <= |lines|
    && |shown| <= li + 1
    && (forall i :: 0 <= i < |shown| && i < li ==> shown[i] == TypedLine(lines[i]))
    && (forall i :: 0 <= i < li && lines[i] != "" ==> i < |shown|)
    && (li < |shown| ==> 0 < ci && shown[li] == Some(lines[li][..ci]))
    && (li < |lines| && 0 < ci ==> |shown| == li + 1)
    && (|shown| > 0 ==> shown[|shown| - 1] != None)
  }

  /** Ticks still to come before the stop: the characters left on the current
      line and on every later line, plus one move to the next line per line. */
  function Remaining(lines: seq<string>, li: nat, ci: nat): nat
    decreases |lines| - li
  {
    if li >= |lines| then 0
    else (if ci <= |lines[li]| then |lines[li]| - ci else 0) + 1 + Remaining(lines, li + 1, 0)
  }

  function TotalLength(lines: seq<string>): nat
  {
    if lines == [] then 0 else |lines[0]| + TotalLength(lines[1..])
  }

  /** Typing a fresh list takes one tick per character and one per line
      before the stop. */
  lemma {:induction false} RemainingFromStart(lines: seq<string>, li: nat)
    requires li <= |lines|
    ensures Remaining(lines, li, 0) == TotalLength(lines[li..]) + (|lines| - li)
    decreases |lines| - li
  {
    if li < |lines| {
      RemainingFromStart(lines, li + 1);
      assert lines[li..][1..] == lines[li + 1..];
    } else {
      assert lines[li..] == [];
    }
  }

  /** Typing one character keeps the display consistent one character further on. */
  lemma TypeCharKeepsConsistent(lines: seq<string>, shown: seq<Option<string>>, li: nat, ci: nat)
    requires Consistent(lines, shown, li, ci)
    requires li < |lines| && ci < |lines[li]|
    ensures Consistent(lines, SetSlot(shown, li, lines[li][..ci + 1]), li, ci + 1)
    ensures Remaining(lines, li, ci + 1) == Remaining(lines, li, ci) - 1
  {
  }

  /** Moving past a fully typed line keeps the display consistent at the
      start of the next line. */
  lemma {:induction false} AdvanceKeepsConsistent(lines: seq<string>, shown: seq<Option<string>>, li: nat, ci: nat)
    requires Consistent(lines, shown, li, ci)
    requires li < |lines| && ci == |lines[li]|
    ensures Consistent(lines, shown, li + 1, 0)
    ensures Remaining(lines, li + 1, 0) == Remaining(lines, li, ci) - 1
  {
    assert lines[li][..ci] == lines[li];
    forall i | 0 <= i < li + 1 && lines[i] != ""
      ensures i < |shown|
    {
      if i == li {
        assert 0 < ci;
      }
    }
  }

  /** Once every line is consumed, each non-empty line is displayed in full,
      and the display is as long as the list exactly when the list is empty
      or its last line is non-empty. */
  lemma FinishedDisplay(lines: seq<string>, shown: seq<Option<string>>)
    requires Consistent(lines, shown, |lines|, 0)
    ensures forall i :: 0 <= i < |lines| && lines[i] != "" ==> i < |shown| && shown[i] == Some(lines[i])
    ensures |shown| == |lines| <==> (lines == [] || lines[|lines| - 1] != "")
  {
  }

  /** One TypingText component for a fixed list of lines. */
  class TypingText {
    const lines: seq<string>
    var displayedLines: seq<Option<string>>
    var currentLineIndex: nat
    var currentCharIndex: nat
    var isTyping: bool

    ghost predicate Valid()
      reads this
    {
      Consistent(lines, displayedLines, currentLineIndex, currentCharIndex) &&
      (!isTyping ==> currentLineIndex == |lines|)
    }

    /** Ticks left before typing stops. */
    ghost function Work(): nat
      reads this
    {
      Remaining(lines, currentLineIndex, currentCharIndex) + (if isTyping then 1 else 0)
    }

    constructor (lines: seq<string>)
      ensures Valid() && this.lines == lines
      ensures displayedLines == [] && currentLineIndex == 0 && currentCharIndex == 0 && isTyping
    {
      this.lines := lines;
      displayedLines := [];
      currentLineIndex := 0;
      currentCharIndex := 0;
      isTyping := true;
    }

    /** One run of the effect, with its timer fired: stop when the lines are
        used up; type the next character of the current line; or move to the
        start of the next line. Every tick that does not find typing already
        stopped takes exactly one tick off the work left. */
    method Tick()
      requires Valid()
      modifies this
      ensures Valid()
      ensures old(currentLineIndex) >= |lines| ==>
        !isTyping && displayedLines == old(displayedLines) &&
        currentLineIndex == old(currentLineIndex) && currentCharIndex == old(currentCharIndex)
      ensures old(currentLineIndex) < |lines| && old(currentCharIndex) < |lines[old(currentLineIndex)]| ==>
        displayedLines == SetSlot(old(displayedLines), old(currentLineIndex),
                                  lines[old(currentLineIndex)][..old(currentCharIndex) + 1]) &&
        currentLineIndex == old(currentLineIndex) && currentCharIndex == old(currentCharIndex) + 1 &&
        isTyping == old(isTyping)
      ensures old(currentLineIndex) < |lines| && old(currentCharIndex) == |lines[old(currentLineIndex)]| ==>
        displayedLines == old(displayedLines) &&
        currentLineIndex == old(currentLineIndex) + 1 && currentCharIndex == 0 &&
        isTyping == old(isTyping)
      ensures old(isTyping) ==> Work() == old(Work()) - 1
    {
      if currentLineIndex >= |lines| {
        isTyping := false;
        return;
      }
      var currentLine := lines[currentLineIndex];
      if currentCharIndex < |currentLine| {
        TypeCharKeepsConsistent(lines, displayedLines, currentLineIndex, currentCharIndex);
        displayedLines := SetSlot(displayedLines, currentLineIndex, currentLine[..currentCharIndex + 1]);
        currentCharIndex := currentCharIndex + 1;
      } else {
        AdvanceKeepsConsistent(lines, displayedLines, currentLineIndex, currentCharIndex);
        currentLineIndex := currentLineIndex + 1;
        currentCharIndex := 0;
      }
    }

    /** The blinking cursor inside displayed line i: on the current line, while
        typing, once that line has been written. */
    predicate InlineCursorAt(i: nat)
      reads this
    {
      isTyping && i == currentLineIndex && i < |displayedLines| && displayedLines[i].Some?
    }

    /** The cursor after the text: once typing stopped and the display is as
        long as the list of lines. */
    predicate FinalCursorShown()
      reads this
    {
      !isTyping && |displayedLines| == |lines|
    }

    /** The timers keep firing until typing stops, which takes exactly the
        remaining work in ticks. Then every non-empty line is displayed in full,
        no in-line cursor shows, and the final cursor shows exactly when the
        list is empty or its last line is non-empty. */
    method Run() returns (ticks: nat)
      requires Valid()
      modifies this
      ensures Valid() && !isTyping && currentLineIndex == |lines|
      ensures ticks == old(Work())
      ensures forall i :: 0 <= i < |lines| && lines[i] != "" ==>
        i < |displayedLines| && displayedLines[i] == Some(lines[i])
      ensures forall i: nat :: !InlineCursorAt(i)
      ensures FinalCursorShown() <==> (lines == [] || lines[|lines| - 1] != "")
    {
      ticks := 0;
      while isTyping
        invariant Valid()
        invariant ticks + Work() == old(Work())
        decreases Work()
      {
        Tick();
        ticks := ticks + 1;
      }
      FinishedDisplay(lines, displayedLines);
    }
  }
}
