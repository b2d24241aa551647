/** The submission stream of `call_testflinger_job.py`: every line printed by
    `testflinger submit` is scanned for the job id and for the test verdict,
    and the process exit status is derived from the last verdict seen. */
module Submission {
  import opened Text

  const JobIdTag: string := "job_id: "
  const PassMarker: string := "RESULT=PASS"
  const FailMarker: string := "RESULT=FAIL"

  /** The two variables `main` accumulates over the stream; both start as None. */
  datatype State = State(jobId: Option<string>, result: Option<bool>)

  const Initial: State := State(None, None)

  /** What the pattern `job_id: (.*)\n` matches at `p` with group `id`:
      the tag, then characters other than a newline, then a newline. */
  predicate RegexMatchAt(line: string, p: int, id: string)
  {
    '\n' !in id && OccursAt(line, JobIdTag + id + "\n", p)
  }

  /** `re.search("job_id: (.*)\n", line).group(1)`, or None when the search fails:
      the group runs from the first tag to the next newline. */
  function JobIdMatch(line: string): (r: Option<string>)
    ensures r.Some? ==> '\n' !in r.value && |JobIdTag| + |r.value| < |line|
  {
    match FindFrom(line, JobIdTag, 0)
    case None => None
    case Some(p) =>
      match IndexOf(line, '\n', p + |JobIdTag|)
      case None => None
      case Some(q) => Some(line[p + |JobIdTag|..q])
  }

  /** A found id is a match of the pattern at the leftmost occurrence of the tag. */
  lemma JobIdMatchSound(line: string)
    ensures JobIdMatch(line).Some? ==>
      exists p :: RegexMatchAt(line, p, JobIdMatch(line).value)
                  && forall k :: 0 <= k < p ==> !OccursAt(line, JobIdTag, k)
  {
    if JobIdMatch(line).Some? {
      var p := FindFrom(line, JobIdTag, 0).value;
      var q := IndexOf(line, '\n', p + |JobIdTag|).value;
      var id := line[p + |JobIdTag|..q];
      assert line[p..q + 1] == JobIdTag + id + "\n" by {
        assert line[p..p + |JobIdTag|] == JobIdTag;
        assert line[p..q + 1] == line[p..p + |JobIdTag|] + id + [line[q]];
      }
      assert RegexMatchAt(line, p, id);
    }
  }

  /** The parts of a pattern match: the tag at `p`, the id after it, the newline last. */
  lemma MatchParts(line: string, p: int, id: string)
    requires RegexMatchAt(line, p, id)
    ensures var n := |JobIdTag|;
            && OccursAt(line, JobIdTag, p)
            && line[p] == 'j'
            && line[p + n..p + n + |id|] == id
            && p + n + |id| < |line| && line[p + n + |id|] == '\n'
  {
    var n := |JobIdTag|;
    var w := JobIdTag + id + "\n";
    assert line[p..p + |w|] == w;
    assert w[..n] == JobIdTag;
    assert line[p..p + n] == line[p..p + |w|][..n];
    forall k | 0 <= k < |id|
      ensures line[p + n + k] == id[k]
    {
      assert line[p + n + k] == w[n + k];
    }
    assert line[p + n..p + n + |id|] == id;
    assert line[p] == w[0];
    assert line[p + n + |id|] == w[n + |id|];
  }

  /** A match of the pattern with no earlier tag is the one the search returns. */
  lemma JobIdMatchComplete(line: string, p: int, id: string)
    requires RegexMatchAt(line, p, id)
    requires forall k :: 0 <= k < p ==> !OccursAt(line, JobIdTag, k)
    ensures JobIdMatch(line) == Some(id)
  {
    var n := |JobIdTag|;
    var q := p + n + |id|;
    MatchParts(line, p, id);
    assert FindFrom(line, JobIdTag, 0) == Some(p);
    forall k | p + n <= k < q
      ensures line[k] != '\n'
    {
      assert line[k] == line[p + n..q][k - p - n];
    }
    IndexOfFinds(line, '\n', p + n, q);
  }

  /** The search fails exactly when the pattern matches nowhere in the line. */
  lemma JobIdNoMatch(line: string)
    ensures JobIdMatch(line).None? <==> forall p, id :: !RegexMatchAt(line, p, id)
  {
    JobIdMatchSound(line);
    if exists p, id :: RegexMatchAt(line, p, id) {
      var p, id :| RegexMatchAt(line, p, id);
      var n := |JobIdTag|;
      var q := p + n + |id|;
      MatchParts(line, p, id);
      var first := FindFrom(line, JobIdTag, 0).value;
      assert first <= p && p + n <= q < |line| && line[q] == '\n';
      assert IndexOf(line, '\n', first + n).Some?;
    }
  }

  /** The verdict a line carries: a PASS marker wins over a FAIL marker on the same
      line, and a line without either leaves the verdict alone. */
  function Marker(line: string): (r: Option<bool>)
    ensures r == Some(true) <==> Contains(line, PassMarker)
    ensures r == Some(false) <==> !Contains(line, PassMarker) && Contains(line, FailMarker)
    ensures r.None? <==> !Contains(line, PassMarker) && !Contains(line, FailMarker)
  {
    if Contains(line, PassMarker) then Some(true)
    else if Contains(line, FailMarker) then Some(false)
    else None
  }

  /** One iteration of the loop over the submission output. */
  function Step(st: State, line: string): (r: State)
    ensures Marker(line).Some? ==> r.result == Marker(line)
    ensures Marker(line).None? ==> r.result == st.result
    ensures JobIdMatch(line).Some? ==> r.jobId == JobIdMatch(line)
    ensures JobIdMatch(line).None? ==> r.jobId == st.jobId
    ensures st.result.Some? ==> r.result.Some?
    ensures st.jobId.Some? ==> r.jobId.Some?
  {
    State(if JobIdMatch(line).Some? then JobIdMatch(line) else st.jobId,
          if Marker(line).Some? then Marker(line) else st.result)
  }

  /** The state after the loop has read `lines`. */
  function Reduce(lines: seq<string>): State
  {
    if lines == [] then Initial
    else Step(Reduce(lines[..|lines| - 1]), lines[|lines| - 1])
  }

  /** The verdict is the one of the last line carrying a marker. */
  lemma {:induction false} LastMarkerWins(lines: seq<string>, i: int)
    requires 0 <= i < |lines| && Marker(lines[i]).Some?
    requires forall j :: i < j < |lines| ==> Marker(lines[j]).None?
    ensures Reduce(lines).result == Marker(lines[i])
    decreases |lines|
  {
    if i < |lines| - 1 {
      var init := lines[..|lines| - 1];
      assert forall j :: i < j < |init| ==> init[j] == lines[j];
      LastMarkerWins(init, i);
    }
  }

  /** The verdict stays None exactly when no line carries a marker. */
  lemma {:induction false} NoMarkerNoResult(lines: seq<string>)
    ensures Reduce(lines).result.None? <==> forall i :: 0 <= i < |lines| ==> Marker(lines[i]).None?
    decreases |lines|
  {
    if lines != [] {
      var init := lines[..|lines| - 1];
      NoMarkerNoResult(init);
      assert forall i :: 0 <= i < |init| ==> init[i] == lines[i];
    }
  }

  /** The job id is the one matched on the last line that matches. */
  lemma {:induction false} LastJobIdWins(lines: seq<string>, i: int)
    requires 0 <= i < |lines| && JobIdMatch(lines[i]).Some?
    requires forall j :: i < j < |lines| ==> JobIdMatch(lines[j]).None?
    ensures Reduce(lines).jobId == JobIdMatch(lines[i])
    decreases |lines|
  {
    if i < |lines| - 1 {
      var init := lines[..|lines| - 1];
      assert forall j :: i < j < |init| ==> init[j] == lines[j];
      LastJobIdWins(init, i);
    }
  }

  /** The job id stays None exactly when no line matches the pattern. */
  lemma {:induction false} NoMatchNoJobId(lines: seq<string>)
    ensures Reduce(lines).jobId.None? <==> forall i :: 0 <= i < |lines| ==> JobIdMatch(lines[i]).None?
    decreases |lines|
  {
    if lines != [] {
      var init := lines[..|lines| - 1];
      NoMatchNoJobId(init);
      assert forall i :: 0 <= i < |init| ==> init[i] == lines[i];
    }
  }

  /** `0 if result else 1`: only a True verdict is truthy. */
  function ExitCode(st: State): (code: int)
    ensures code == 0 || code == 1
    ensures code == 0 <==> st.result == Some(true)
  {
    if st.result == Some(true) then 0 else 1
  }

  /** The run succeeds exactly when some line has a PASS marker and no later line
      has any marker. */
  lemma {:induction false} ExitZeroIffLastMarkerPass(lines: seq<string>)
    ensures ExitCode(Reduce(lines)) == 0 <==>
      exists i :: 0 <= i < |lines| && Contains(lines[i], PassMarker)
                  && forall j :: i < j < |lines| ==> Marker(lines[j]).None?
  {
    if ExitCode(Reduce(lines)) == 0 {
      LastMarkerIndexExists(lines);
      var i :| 0 <= i < |lines| && Marker(lines[i]) == Reduce(lines).result
               && forall j :: i < j < |lines| ==> Marker(lines[j]).None?;
    }
    if exists i :: 0 <= i < |lines| && Contains(lines[i], PassMarker)
                  && forall j :: i < j < |lines| ==> Marker(lines[j]).None? {
      var i :| 0 <= i < |lines| && Contains(lines[i], PassMarker)
               && forall j :: i < j < |lines| ==> Marker(lines[j]).None?;
      LastMarkerWins(lines, i);
    }
  }

  /** The index of the last line carrying a marker, when the verdict is set. */
  lemma {:induction false} LastMarkerIndexExists(lines: seq<string>)
    ensures Reduce(lines).result.Some? ==>
      exists i :: 0 <= i < |lines| && Marker(lines[i]) == Reduce(lines).result
                  && forall j :: i < j < |lines| ==> Marker(lines[j]).None?
    decreases |lines|
  {
    if lines != [] && Reduce(lines).result.Some? {
      var init := lines[..|lines| - 1];
      var last := |lines| - 1;
      if Marker(lines[last]).None? {
        LastMarkerIndexExists(init);
        var i :| 0 <= i < |init| && Marker(init[i]) == Reduce(init).result
                 && forall j :: i < j < |init| ==> Marker(init[j]).None?;
        assert Marker(lines[i]) == Reduce(lines).result;
        assert forall j :: i < j < |lines| ==> Marker(lines[j]).None? by {
          forall j | i < j < |lines|
            ensures Marker(lines[j]).None?
          {
            if j < last {
              assert lines[j] == init[j];
            }
          }
        }
      }
    }
  }

  /** The step after the stream: artifact retrieval for the job id, or none. */
  datatype Retrieval =
    | Gathered(jobId: string)  // `testflinger artifacts <id>` and the untar; their own failures are only logged
    | Skipped                  // no job id was seen, so there is nothing to retrieve
    | TypeErrorRaised          // `subprocess.run` was given None in its argument list

  /** How the script ends: the retrieval step and the process exit status. */
  datatype Ending = Ending(retrieval: Retrieval, status: int)

  /** The end of `main` as written: `gather_artifacts(job_id)` runs whatever the
      job id; with None, the TypeError of `subprocess.run` is not caught and the
      interpreter stops with status 1 before `sys.exit` is reached. */
  function FinishAsWritten(st: State): (e: Ending)
    ensures st.jobId.Some? ==> e == Ending(Gathered(st.jobId.value), ExitCode(st))
    ensures st.jobId.None? ==> e == Ending(TypeErrorRaised, 1)
  {
    match st.jobId
    case None => Ending(TypeErrorRaised, 1)
    case Some(id) => Ending(Gathered(id), ExitCode(st))
  }

  /** The intended end of `main`: retrieval only for an observed job id; without
      one, retrieval is skipped and the run is reported as failed. */
  function Finish(st: State): (e: Ending)
    ensures e.retrieval != TypeErrorRaised
    ensures e.retrieval.Gathered? <==> st.jobId.Some?
    ensures e.retrieval.Gathered? ==> e.retrieval.jobId == st.jobId.value
    ensures e.status == 0 || e.status == 1
    ensures e.status == 0 <==> st.jobId.Some? && st.result == Some(true)
  {
    match st.jobId
    case None => Ending(Skipped, 1)
    case Some(id) => Ending(Gathered(id), ExitCode(st))
  }

  /** Over a whole stream, the run succeeds exactly when some line carried a job
      id and the last line with a marker carried `RESULT=PASS`. */
  lemma {:induction false} FinishZeroIff(lines: seq<string>)
    ensures Finish(Reduce(lines)).status == 0 <==>
      (exists k :: 0 <= k < |lines| && JobIdMatch(lines[k]).Some?)
      && exists i :: 0 <= i < |lines| && Contains(lines[i], PassMarker)
                     && forall j :: i < j < |lines| ==> Marker(lines[j]).None?
  {
    ExitZeroIffLastMarkerPass(lines);
    NoMatchNoJobId(lines);
  }

  /** The loop of `main` over the lines printed by `testflinger submit`, then the
      retrieval and the exit status. A non-zero `returnCode` makes the generator
      raise after the last line; the handler only reports it, so the state
      accumulated so far is kept. */
  method RunSubmission(lines: seq<string>, returnCode: int)
    returns (jobId: Option<string>, result: Option<bool>, submissionFailed: bool,
             retrieval: Retrieval, exitCode: int)
    ensures State(jobId, result) == Reduce(lines)
    ensures submissionFailed <==> returnCode != 0
    ensures Ending(retrieval, exitCode) == Finish(Reduce(lines))
    ensures exitCode == FinishAsWritten(Reduce(lines)).status
  {
    jobId := None;
    result := None;
    var i := 0;
    while i < |lines|
      invariant 0 <= i <= |lines|
      invariant State(jobId, result) == Reduce(lines[..i])
    {
      var line := lines[i];
      var searched := JobIdMatch(line);
      if Contains(line, PassMarker) {
        result := Some(true);
      } else if Contains(line, FailMarker) {
        result := Some(false);
      }
      if searched.Some? {
        jobId := searched;
      }
      assert lines[..i + 1][..i] == lines[..i];
      i := i + 1;
    }
    assert lines[..i] == lines;
    submissionFailed := returnCode != 0;
    if jobId.Some? {
      retrieval := Gathered(jobId.value);
      exitCode := if result == Some(true) then 0 else 1;
    } else {
      retrieval := Skipped;
      exitCode := 1;
    }
  }

  /** A passing stream that never printed a job id: as written the script tries
      to retrieve artifacts for None and dies with a TypeError; the intended
      ending skips retrieval. Both report status 1. */
  lemma PassWithoutJobIdCrashes()
    ensures var st := Reduce(["RESULT=PASS\n"]);
            && st.result == Some(true) && st.jobId.None?
            && FinishAsWritten(st) == Ending(TypeErrorRaised, 1)
            && Finish(st) == Ending(Skipped, 1)
  {
    var line := "RESULT=PASS\n";
    assert OccursAt(line, PassMarker, 0);
    assert Reduce([line]) == Step(Initial, line) by {
      var none: seq<string> := [];
      assert [line][..0] == none;
    }
    forall p, id | RegexMatchAt(line, p, id)
      ensures false
    {
      MatchParts(line, p, id);
    }
    JobIdNoMatch(line);
  }

  /** A job id line followed by a verdict line yields that id, retrieval for it
      and the status of the verdict. */
  lemma JobIdThenVerdict(verdict: string)
    requires verdict == "RESULT=PASS\n" || verdict == "RESULT=FAIL\n"
    ensures var st := Reduce(["job_id: abc-123\n", verdict]);
            && st.jobId == Some("abc-123")
            && Finish(st) == Ending(Gathered("abc-123"), if verdict == "RESULT=PASS\n" then 0 else 1)
            && FinishAsWritten(st) == Finish(st)
  {
    var lines := ["job_id: abc-123\n", verdict];
    assert RegexMatchAt(lines[0], 0, "abc-123") by {
      assert lines[0] == JobIdTag + "abc-123" + "\n";
    }
    JobIdMatchComplete(lines[0], 0, "abc-123");
    forall p, id | RegexMatchAt(verdict, p, id)
      ensures false
    {
      MatchParts(verdict, p, id);
    }
    JobIdNoMatch(verdict);
    LastJobIdWins(lines, 0);
    if verdict == "RESULT=PASS\n" {
      assert OccursAt(verdict, PassMarker, 0);
    } else {
      assert OccursAt(verdict, FailMarker, 0);
      assert !Contains(verdict, PassMarker) by {
        forall k | 0 <= k <= |verdict| - |PassMarker|
          ensures !OccursAt(verdict, PassMarker, k)
        {
          assert verdict[k + 7] != PassMarker[7];
        }
      }
    }
    LastMarkerWins(lines, 1);
  }

  /** A FAIL line followed by a PASS line ends with a PASS verdict. */
  lemma FailThenPass()
    ensures ExitCode(Reduce(["RESULT=FAIL\n", "RESULT=PASS\n"])) == 0
  {
    var lines := ["RESULT=FAIL\n", "RESULT=PASS\n"];
    assert OccursAt(lines[1], PassMarker, 0);
    LastMarkerWins(lines, 1);
  }
}
