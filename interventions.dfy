// components/Interventions.tsx — the breathing exercise: numbered lines of the
// generated text shown one per tick, alternating breathing in and out.
module Interventions {
  import JsString

  /** A line kept as an instruction: not blank once trimmed, and starting
      with a digit. */
  predicate IsInstruction(line: string)
  {
    JsString.Trim(line) != [] && line != [] && JsString.IsDigit(line[0])
  }

  /** The blank test adds nothing: a line that starts with a digit is not
      blank. */
  lemma InstructionIffDigitFirst(line: string)
    ensures IsInstruction(line) <==> line != [] && JsString.IsDigit(line[0])
  {
    JsString.TrimEmptyIffAllSpace(line);
    if line != [] && JsString.IsDigit(line[0]) {
      assert !JsString.IsSpace(line[0]);
    }
  }

  function KeepInstructions(lines: seq<string>): (r: seq<string>)
    ensures |r| <= |lines|
    ensures forall x :: x in r <==> x in lines && IsInstruction(x)
  {
    if lines == [] then []
    else (if IsInstruction(lines[0]) then [lines[0]] else []) + KeepInstructions(lines[1..])
  }

  /** Filtering keeps the order of the lines: the filter of two blocks is the
      filter of the first followed by that of the second. */
  lemma {:induction false} KeepInOrder(a: seq<string>, b: seq<string>)
    ensures KeepInstructions(a + b) == KeepInstructions(a) + KeepInstructions(b)
  {
    if a == [] {
      assert a + b == b;
    } else {
      assert (a + b)[1..] == a[1..] + b;
      KeepInOrder(a[1..], b);
    }
  }

  /** `content.split('\n').filter(...)`. */
  function Instructions(content: string): seq<string>
  {
    KeepInstructions(JsString.Split(content, '\n'))
  }

  /** Every instruction is one line of the text and starts with a digit. */
  lemma InstructionLines(content: string, k: nat)
    requires k < |Instructions(content)|
    ensures Instructions(content)[k] in JsString.Split(content, '\n')
    ensures '\n' !in Instructions(content)[k]
    ensures Instructions(content)[k] != [] && JsString.IsDigit(Instructions(content)[k][0])
  {
    assert Instructions(content)[k] in Instructions(content);
    JsString.SplitPiecesFree(content, '\n');
  }

  datatype Breath = In | Out

  /** The circle and its caption: in on even steps, out on odd ones. */
  function Phase(step: nat): (b: Breath)
    ensures b == In <==> step % 2 == 0
  {
    if step % 2 == 0 then In else Out
  }

  datatype Display = RawContent(text: string) | Finished | Line(text: string) | Starting

  class BreathingExercise {
    const content: string
    var step: nat
    var isComplete: bool

    function Count(): nat
      reads this
    {
      |Instructions(content)|
    }

    /** The step never passes the count, and the exercise is complete exactly
        when it has reached a non-zero count. */
    predicate Valid()
      reads this
    {
      step <= Count() && isComplete == (Count() > 0 && step == Count())
    }

    constructor (content: string)
      ensures this.content == content && step == 0 && !isComplete && Valid()
    {
      this.content := content;
      step := 0;
      isComplete := false;
    }

    /** The step effect after one tick: the next line while lines remain,
        and completion on reaching the count; without instructions nothing
        moves. */
    method Tick()
      requires Valid()
      modifies this
      ensures Valid()
      ensures Count() == 0 ==> step == old(step) && isComplete == old(isComplete)
      ensures Count() > 0 && old(step) < Count() ==> step == old(step) + 1
      ensures old(step) == Count() ==> step == old(step)
    {
      var n := |Instructions(content)|;
      if n == 0 {
        return;
      }
      if step < n {
        step := step + 1;
      }
      if step >= n {
        isComplete := true;
      }
    }

    /** What the exercise shows. */
    function Shown(): Display
      reads this
    {
      var ins := Instructions(content);
      if |ins| == 0 then RawContent(content)
      else if isComplete then Finished
      else if step < |ins| && ins[step] != [] then Line(ins[step])
      else Starting
    }

    /** While running, the line shown is the instruction of the current step. */
    lemma ShownWhileRunning()
      requires Valid() && Count() > 0 && !isComplete
      ensures step < Count() && Shown() == Line(Instructions(content)[step])
    {
      InstructionLines(content, step);
    }
  }
}
