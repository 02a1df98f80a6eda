/**
 * The two-step demo workflow: step1 turns the input value into "Step1: <value>", step2
 * appends " -> Step2完了", and each step writes one progress record to the run's writer
 * when there is one.  The writer is an append-only log of the records written to it.
 */
module TestWorkflow {
  import opened Wrappers

  /** A progress record a step writes: `{type, message}`. */
  datatype Progress = Progress(kind: string, message: string)

  const StepProgressType := "step-progress"
  const Step1Prefix := "Step1: "
  const Step2Suffix := " -> Step2完了"
  const Step1Started := Progress(StepProgressType, "step1を開始しました")
  const Step2Finished := Progress(StepProgressType, "step2を終了しました")

  /** The step's writer: every write appends its record to the log. */
  class Writer {
    var log: seq<Progress>

    constructor ()
      ensures log == []
    {
      log := [];
    }

    method Write(record: Progress)
      modifies this
      ensures log == old(log) + [record]
    {
      log := log + [record];
    }
  }

  /** step1's output `result`. */
  function Step1Result(value: string): string {
    Step1Prefix + value
  }

  /** step2's output `finalResult`. */
  function Step2Result(result: string): string {
    result + Step2Suffix
  }

  /** The workflow's output for an input value: step2 applied to step1's output. */
  function WorkflowResult(value: string): string {
    Step2Result(Step1Result(value))
  }

  /** The input step1 was given, read back from its output. */
  function Step1Input(result: string): (value: Option<string>)
    ensures value.Some? ==> Step1Result(value.value) == result
  {
    if Step1Prefix <= result then Some(result[|Step1Prefix|..]) else None
  }

  /** The result step2 was given, read back from its output. */
  function Step2Input(finalResult: string): (result: Option<string>)
    ensures result.Some? ==> Step2Result(result.value) == finalResult
  {
    if |finalResult| >= |Step2Suffix| && finalResult[|finalResult| - |Step2Suffix|..] == Step2Suffix
    then Some(finalResult[..|finalResult| - |Step2Suffix|])
    else None
  }

  /** step1's output determines its input. */
  lemma Step1RoundTrip(value: string)
    ensures Step1Input(Step1Result(value)) == Some(value)
  {
  }

  /** step2's output determines its input. */
  lemma Step2RoundTrip(result: string)
    ensures Step2Input(Step2Result(result)) == Some(result)
  {
  }

  /** The workflow's output reads back through both steps to the input value. */
  function WorkflowInput(finalResult: string): Option<string> {
    match Step2Input(finalResult)
    case None => None
    case Some(result) => Step1Input(result)
  }

  /**
   * The workflow's output is "Step1: <value> -> Step2完了", and it reads back to the
   * input, so distinct inputs give distinct outputs.
   */
  lemma WorkflowRoundTrip(value: string)
    ensures WorkflowResult(value) == "Step1: " + value + " -> Step2完了"
    ensures WorkflowInput(WorkflowResult(value)) == Some(value)
  {
  }

  /** Only an output of the workflow reads back to an input. */
  lemma WorkflowInputSound(finalResult: string)
    ensures WorkflowInput(finalResult).Some? ==> WorkflowResult(WorkflowInput(finalResult).value) == finalResult
  {
  }

  /** step1.execute: writes its progress record first, then returns its result. */
  method Step1(value: string, writer: Writer?) returns (result: string)
    modifies writer
    ensures result == Step1Result(value)
    ensures writer != null ==> writer.log == old(writer.log) + [Step1Started]
  {
    if writer != null {
      writer.Write(Step1Started);
    }
    result := Step1Prefix + value;
  }

  /** step2.execute: computes its result first, then writes its progress record. */
  method Step2(result: string, writer: Writer?) returns (finalResult: string)
    modifies writer
    ensures finalResult == Step2Result(result)
    ensures writer != null ==> writer.log == old(writer.log) + [Step2Finished]
  {
    finalResult := result + Step2Suffix;
    if writer != null {
      writer.Write(Step2Finished);
    }
  }

  /**
   * The committed workflow `.then(step1).then(step2)`: the output is step2's applied to
   * step1's, whatever the writer; a writer gets exactly step1's record, then step2's.
   */
  method RunTestWorkflow(value: string, writer: Writer?) returns (finalResult: string)
    modifies writer
    ensures finalResult == WorkflowResult(value)
    ensures writer != null ==> writer.log == old(writer.log) + [Step1Started, Step2Finished]
  {
    var result := Step1(value, writer);
    finalResult := Step2(result, writer);
  }
}
