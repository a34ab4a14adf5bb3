/**
 * `processFiles`: once every `processPath` promise has settled, decide what
 * is printed and how the process ends.
 */
module Batch {
  import opened JsValues
  import opened CliWorld

  /** `vow.all` fulfils: no promise was rejected. */
  predicate AllFulfilled(settled: seq<Settled>)
    ensures AllFulfilled(settled) <==> forall s :: s in settled ==> !s.Rejected?
  {
    forall i :: 0 <= i < |settled| ==> settled[i].Fulfilled?
  }

  /** The reason `vow.all` rejects with: the first promise to reject. */
  function FirstRejected(settled: seq<Settled>): (r: Option<string>)
    ensures r == None <==> AllFulfilled(settled)
    ensures r.Some? ==>
      exists i :: 0 <= i < |settled| && settled[i] == Rejected(r.value) && AllFulfilled(settled[..i])
    decreases |settled|
  {
    if settled == [] then None
    else if settled[0].Rejected? then
      assert settled[..0] == [];
      Some(settled[0].stack)
    else
      var rest := FirstRejected(settled[1..]);
      assert rest.Some? ==>
        forall i :: 0 <= i < |settled| - 1 ==> settled[..i + 1] == [settled[0]] + settled[1..][..i];
      rest
  }

  /** `'file' + (n === 1 ? '' : 's')` */
  function Noun(n: nat): (s: string)
    ensures 4 <= |s| && s[..4] == "file" && (s == "file" <==> n == 1)
  {
    if n == 1 then "file" else "files"
  }

  /** `n + ' file' + (n === 1 ? '' : 's') + ' ' + verb` */
  function CountLine(n: nat, verb: string): (line: string)
    ensures NatToString(n) <= line && EndsWith(line, " " + verb)
  {
    var digits := NatToString(n);
    var line := digits + " " + Noun(n) + " " + verb;
    assert line == digits + (" " + Noun(n)) + (" " + verb);
    assert line[|line| - |" " + verb|..] == " " + verb;
    line
  }

  /** The number a count line starts with. */
  function CountOf(line: string): nat {
    DecimalValue(LeadingDigits(line))
  }

  /** A count line gives back its count, and says "file" exactly for one file. */
  lemma CountLineReadsBack(n: nat, verb: string)
    ensures CountOf(CountLine(n, verb)) == n
    ensures CountLine(n, verb) == NatToString(n) + " file " + verb <==> n == 1
    ensures n != 1 ==> CountLine(n, verb) == NatToString(n) + " files " + verb
  {
    var digits := NatToString(n);
    var tail := " " + Noun(n) + " " + verb;
    assert CountLine(n, verb) == digits + tail;
    LeadingDigitsOfNumber(digits, tail);
    DecimalRoundTrip(n);
    CountLineNoun(n, verb);
  }

  lemma CountLineNoun(n: nat, verb: string)
    ensures n == 1 ==> CountLine(n, verb) == NatToString(n) + " file " + verb
    ensures n != 1 ==> CountLine(n, verb) == NatToString(n) + " files " + verb
    ensures n != 1 ==> |CountLine(n, verb)| != |NatToString(n) + " file " + verb|
  {
    var digits := NatToString(n);
    var tail := " " + Noun(n) + " " + verb;
    assert CountLine(n, verb) == digits + tail;
    if n == 1 {
      assert tail == " file " + verb;
    } else {
      assert tail == " files " + verb;
    }
  }

  /** The verbose summary: a blank line, the processed and fixed counts, the elapsed time. */
  function Summary(rep: Report): (lines: seq<string>)
    ensures |lines| == 4 && lines[0] == ""
    ensures CountOf(lines[1]) == rep.processed && CountOf(lines[2]) == rep.changed
    ensures lines[1] == CountLine(rep.processed, "processed") && lines[2] == CountLine(rep.changed, "fixed")
    ensures lines[3] == "spent: " + rep.elapsed
  {
    CountLineReadsBack(rep.processed, "processed");
    CountLineReadsBack(rep.changed, "fixed");
    ["", CountLine(rep.processed, "processed"), CountLine(rep.changed, "fixed"), "spent: " + rep.elapsed]
  }

  /**
   * The `.then` and `.fail` handlers of `processFiles(verbose, lint)`: any
   * rejection prints its stack and exits 1; otherwise the verbose summary is
   * printed, and lint mode exits 1 when the engine saw something to change.
   */
  function Finish(rep: Report, verbose: Value, lint: Value): (r: RunResult)
    ensures r.end == Returned || r.end == Exited(1)
    ensures r.end == Returned <==> AllFulfilled(rep.settled) && !(Truthy(lint) && Truthy(rep.tbchanged))
    ensures !AllFulfilled(rep.settled) ==>
      exists i :: 0 <= i < |rep.settled| && rep.settled[i].Rejected? && AllFulfilled(rep.settled[..i]) &&
        r.output == ["stack:  " + rep.settled[i].stack]
    ensures AllFulfilled(rep.settled) ==> r.output == if Truthy(verbose) then Summary(rep) else []
  {
    match FirstRejected(rep.settled)
    case Some(stack) => RunResult(["stack:  " + stack], Exited(1))
    case None =>
      RunResult(
        if Truthy(verbose) then Summary(rep) else [],
        if Truthy(lint) && Truthy(rep.tbchanged) then Exited(1) else Returned)
  }

  /** One failing path fails the whole batch, whatever the others did and whatever the mode. */
  lemma OneFailureFailsBatch(rep: Report, verbose: Value, lint: Value, i: nat)
    requires i < |rep.settled| && rep.settled[i].Rejected?
    ensures Finish(rep, verbose, lint).end == Exited(1)
    ensures |Finish(rep, verbose, lint).output| == 1
  {
  }

  /** Lint mode changes only the exit: with changes to make it exits 1, without lint it returns. */
  lemma LintOnlyDecidesExit(rep: Report, verbose: Value, lint: Value)
    requires AllFulfilled(rep.settled) && Truthy(rep.tbchanged)
    ensures Truthy(lint) ==> Finish(rep, verbose, lint).end == Exited(1)
    ensures !Truthy(lint) ==> Finish(rep, verbose, lint).end == Returned
    ensures Finish(rep, verbose, lint).output == Finish(rep, verbose, Bool(false)).output
  {
  }

  /** Verbose mode changes only what is printed, never how the process ends. */
  lemma VerboseOnlyDecidesOutput(rep: Report, verbose: Value, lint: Value)
    ensures Finish(rep, verbose, lint).end == Finish(rep, Bool(false), lint).end
  {
  }
}
