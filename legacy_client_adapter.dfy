/** The older revision of the adapter. Its request side (prompt wrapping,
    sampling parameters, guided-choice schema, call order) is the same code
    as the current revision's and is taken from `ClientAdapter`; what differs
    is that a bad backend answer raises instead of degrading, and that chat
    completion is a stub. */
module LegacyClientAdapter {
  import opened Python
  import opened Json
  import opened Sequences
  import opened LlamaStack
  import opened OpenAI
  import ClientAdapter

  /** `stop_reason_map[stop_reason]`: the same table as the current revision,
      but a code outside it raises `KeyError`. */
  function StopReason(code: string): (reason: Result<string>)
    ensures reason.Success? <==> code in {"end_of_turn", "end_of_message", "out_of_tokens"}
    ensures reason.Success? ==> reason.value == ClientAdapter.MapStopReason(code)
    ensures reason.Failure? ==> reason.error == KeyError(code)
  {
    if code in ClientAdapter.StopReasonTable then Success(ClientAdapter.StopReasonTable[code])
    else Failure(KeyError(code))
  }

  /** `value[0]` on a parsed JSON value: the first element of a list, the
      first character of a string; an empty one raises `IndexError`, an
      object raises `KeyError` for the integer key `0` (its keys are
      strings), and a number, boolean or null raises `TypeError`. */
  function FirstItem(value: JsonValue): (item: Result<JsonValue>)
    ensures item.Success? <==> (value.JArray? && |value.items| > 0) || (value.JString? && |value.s| > 0)
    ensures value.JArray? && |value.items| > 0 ==> item.value == value.items[0]
    ensures value.JString? && |value.s| > 0 ==> item.value == JString([value.s[0]])
    ensures (value.JArray? && |value.items| == 0) || (value.JString? && |value.s| == 0) ==> item == Failure(IndexError)
    ensures value.JObject? ==> item == Failure(IntKeyError(0))
    ensures value.JNull? || value.JBool? || value.JNumber? ==> item == Failure(TypeError)
  {
    match value
    case JArray(items) => if |items| > 0 then Success(items[0]) else Failure(IndexError)
    case JString(s) => if |s| > 0 then Success(JString([s[0]])) else Failure(IndexError)
    case JObject(_) => Failure(IntKeyError(0))
    case _ => Failure(TypeError)
  }

  /** `json.loads(content)[0]` with no fallback: a parse error raises
      `JSONDecodeError`, otherwise `FirstItem` decides. */
  function DecodeText(content: string, loads: Loads): (text: Result<JsonValue>)
    ensures loads(content).None? ==> text == Failure(JSONDecodeError)
    ensures loads(content).Some? ==> text == FirstItem(loads(content).value)
  {
    match loads(content)
    case None => Failure(JSONDecodeError)
    case Some(value) => FirstItem(value)
  }

  /** The choice for one backend answer, or the exception building it raises:
      the text is decoded first, then the stop reason is looked up. */
  function ChoiceFor(index: int, response: CompletionResponse, guided: bool, loads: Loads): (choice: Result<CompletionChoice>)
    ensures choice.Success? ==> choice.value.index == index && choice.value.finishReason in {"stop", "length"}
    ensures choice.Success? ==> choice.value.finishReason == ClientAdapter.MapStopReason(response.stopReason)
    ensures choice.Success? && !guided ==> choice.value.text == JString(response.content)
    ensures choice.Success? && guided ==> DecodeText(response.content, loads) == Success(choice.value.text)
    ensures guided && loads(response.content).None? ==> choice == Failure(JSONDecodeError)
  {
    var text := if guided then DecodeText(response.content, loads) else Success(JString(response.content));
    if text.Failure? then Failure(text.error)
    else
      var reason := StopReason(response.stopReason);
      if reason.Failure? then Failure(reason.error)
      else Success(CompletionChoice(index, text.value, reason.value))
  }

  /** Building a choice raises exactly when decoding (with guided choice)
      raises or the stop reason is unknown, and a decoding error comes first. */
  lemma {:induction false} ChoiceForRaises(index: int, response: CompletionResponse, guided: bool, loads: Loads)
    ensures ChoiceFor(index, response, guided, loads).Failure? <==>
      (guided && DecodeText(response.content, loads).Failure?) || response.stopReason !in ClientAdapter.StopReasonTable
    ensures guided && DecodeText(response.content, loads).Failure? ==>
      ChoiceFor(index, response, guided, loads) == Failure(DecodeText(response.content, loads).error)
    ensures (!guided || DecodeText(response.content, loads).Success?) && response.stopReason !in ClientAdapter.StopReasonTable ==>
      ChoiceFor(index, response, guided, loads) == Failure(KeyError(response.stopReason))
  {
  }

  /** A well-formed answer: a known stop reason and, with guided choice,
      content that parses to a non-empty list. The older revision also
      accepts other answers (a non-empty JSON string, say); on well-formed
      answers it agrees with the current revision. */
  predicate WellFormedAnswer(response: CompletionResponse, guided: bool, loads: Loads) {
    && response.stopReason in ClientAdapter.StopReasonTable
    && (guided ==> IsNonEmptyList(loads(response.content)))
  }

  /** Every answer to `calls`, the first seen as the client's `pos`-th
      completion call, is well formed. */
  ghost predicate AnswersWellFormed(calls: seq<CompletionCall>, answer: (CompletionCall, nat) -> CompletionResponse,
                                    pos: nat, guided: bool, loads: Loads) {
    forall k :: 0 <= k < |calls| ==> WellFormedAnswer(answer(calls[k], pos + k), guided, loads)
  }

  /** On well-formed answers, the older revision builds exactly the
      choice the current one does. */
  lemma {:induction false} ChoiceAgreesWithCurrent(index: int, response: CompletionResponse, guided: bool, loads: Loads)
    requires WellFormedAnswer(response, guided, loads)
    ensures ChoiceFor(index, response, guided, loads) == Success(ClientAdapter.CompletionChoiceFor(index, response, guided, loads))
  {
  }

  /** Where the two revisions part: content that parses to a non-empty JSON
      string yields its first character here and the raw content in the
      current revision. */
  lemma {:induction false} BareStringTakesFirstCharacter(index: int, response: CompletionResponse, loads: Loads, s: string)
    requires loads(response.content) == Some(JString(s)) && |s| > 0
    requires response.stopReason in ClientAdapter.StopReasonTable
    ensures ChoiceFor(index, response, true, loads).Success?
    ensures ChoiceFor(index, response, true, loads).value.text == JString([s[0]])
    ensures ClientAdapter.CompletionChoiceFor(index, response, true, loads).text == JString(response.content)
  {
  }

  /** The outcome of the first `j` calls of sample `sample`: the `t`-th is
      what `ChoiceFor` makes of the answer to the `t`-th call of `round`,
      which the client sees as its `pos + t`-th completion call. */
  function ChoiceSteps(round: seq<CompletionCall>, answer: (CompletionCall, nat) -> CompletionResponse,
                       pos: nat, sample: nat, guided: bool, loads: Loads, j: nat): (steps: seq<Result<CompletionChoice>>)
    requires j <= |round|
    ensures |steps| == j
  {
    if j == 0 then []
    else
      ChoiceSteps(round, answer, pos, sample, guided, loads, j - 1)
        + [ChoiceFor(sample, answer(round[j - 1], pos + j - 1), guided, loads)]
  }

  lemma {:induction false} ChoiceStepsAt(round: seq<CompletionCall>, answer: (CompletionCall, nat) -> CompletionResponse,
                                         pos: nat, sample: nat, guided: bool, loads: Loads, j: nat, t: nat)
    requires t < j <= |round|
    ensures ChoiceSteps(round, answer, pos, sample, guided, loads, j)[t]
         == ChoiceFor(sample, answer(round[t], pos + t), guided, loads)
  {
    if t < j - 1 {
      ChoiceStepsAt(round, answer, pos, sample, guided, loads, j - 1, t);
    }
  }

  /** One sample: the prompt loop, which stops at the first answer whose
      choice raises. */
  function SampleRun(round: seq<CompletionCall>, answer: (CompletionCall, nat) -> CompletionResponse,
                     pos: nat, sample: nat, guided: bool, loads: Loads): Run<CompletionCall, CompletionChoice> {
    RunUntilRaise(round, ChoiceSteps(round, answer, pos, sample, guided, loads, |round|), |round|)
  }

  /** The prompt loops of the first `samples` samples, each as it runs when
      every sample before it made all its calls. */
  function SampleRuns(round: seq<CompletionCall>, answer: (CompletionCall, nat) -> CompletionResponse,
                      base: nat, samples: nat, guided: bool, loads: Loads): (runs: seq<Run<CompletionCall, CompletionChoice>>)
    ensures |runs| == samples
  {
    if samples == 0 then []
    else
      SampleRuns(round, answer, base, samples - 1, guided, loads)
        + [SampleRun(round, answer, base + |Repeat(round, samples - 1)|, samples - 1, guided, loads)]
  }

  lemma {:induction false} SampleRunsAt(round: seq<CompletionCall>, answer: (CompletionCall, nat) -> CompletionResponse,
                                        base: nat, samples: nat, guided: bool, loads: Loads, s: nat, pos: nat)
    requires s < samples && pos == base + |Repeat(round, s)|
    ensures SampleRuns(round, answer, base, samples, guided, loads)[s] == SampleRun(round, answer, pos, s, guided, loads)
  {
    if s < samples - 1 {
      SampleRunsAt(round, answer, base, samples - 1, guided, loads, s, pos);
    } else {
      assert pos == base + |Repeat(round, samples - 1)|;
    }
  }

  /** The first `samples` samples, the client having seen `base` completion
      calls before the first; a sample that raises ends the run. */
  function LegacyRun(round: seq<CompletionCall>, answer: (CompletionCall, nat) -> CompletionResponse,
                     base: nat, samples: nat, guided: bool, loads: Loads): Run<CompletionCall, CompletionChoice> {
    RunRounds(SampleRuns(round, answer, base, samples, guided, loads), samples)
  }

  /** One sample makes a prefix of its round's calls, all of them when it
      does not raise. */
  lemma {:induction false} SampleRunReachesPrefix(round: seq<CompletionCall>, answer: (CompletionCall, nat) -> CompletionResponse,
                               pos: nat, sample: nat, guided: bool, loads: Loads)
    ensures var run := SampleRun(round, answer, pos, sample, guided, loads);
      IsPrefix(run.reached, round) && (run.outcome.Success? ==> run.reached == round)
  {
    var steps := ChoiceSteps(round, answer, pos, sample, guided, loads, |round|);
    if RunUntilRaise(round, steps, |round|).outcome.Failure? {
      RunUntilRaiseRaisesAtLast(round, steps, |round|);
    } else {
      RunUntilRaiseReturns(round, steps, |round|);
      assert round[..|round|] == round;
    }
  }

  /** A sample that raises does so at the last call it made, with the
      exception building that call's choice raised; the choice for every
      earlier call was built without raising. */
  lemma {:induction false} SampleRunRaisesAt(round: seq<CompletionCall>, answer: (CompletionCall, nat) -> CompletionResponse,
                          pos: nat, sample: nat, guided: bool, loads: Loads)
    requires SampleRun(round, answer, pos, sample, guided, loads).outcome.Failure?
    ensures var run := SampleRun(round, answer, pos, sample, guided, loads);
      && 0 < |run.reached| <= |round|
      && run.reached == round[..|run.reached|]
      && ChoiceFor(sample, answer(round[|run.reached| - 1], pos + |run.reached| - 1), guided, loads)
         == Failure(run.outcome.error)
      && forall t :: 0 <= t < |run.reached| - 1 ==> ChoiceFor(sample, answer(round[t], pos + t), guided, loads).Success?
  {
    var steps := ChoiceSteps(round, answer, pos, sample, guided, loads, |round|);
    RunUntilRaiseRaisesAtLast(round, steps, |round|);
    var run := SampleRun(round, answer, pos, sample, guided, loads);
    ChoiceStepsAt(round, answer, pos, sample, guided, loads, |round|, |run.reached| - 1);
    forall t | 0 <= t < |run.reached| - 1
      ensures ChoiceFor(sample, answer(round[t], pos + t), guided, loads).Success?
    {
      ChoiceStepsAt(round, answer, pos, sample, guided, loads, |round|, t);
    }
  }

  /** The choice for call `t` of a sample that raised at a later call was
      built without raising. */
  lemma {:induction false} SampleRunRaisesAfter(round: seq<CompletionCall>, answer: (CompletionCall, nat) -> CompletionResponse,
                                                pos: nat, sample: nat, guided: bool, loads: Loads, t: nat)
    requires SampleRun(round, answer, pos, sample, guided, loads).outcome.Failure?
    requires t < |SampleRun(round, answer, pos, sample, guided, loads).reached| - 1
    ensures t < |round|
    ensures ChoiceFor(sample, answer(round[t], pos + t), guided, loads).Success?
  {
    var steps := ChoiceSteps(round, answer, pos, sample, guided, loads, |round|);
    RunUntilRaiseRaisesAtLast(round, steps, |round|);
    ChoiceStepsAt(round, answer, pos, sample, guided, loads, |round|, t);
  }

  /** The same, for sample `s` of the first `samples`: it made the calls of
      a prefix of its round. */
  lemma {:induction false} SampleRunsRaiseAt(round: seq<CompletionCall>, answer: (CompletionCall, nat) -> CompletionResponse,
                                             base: nat, samples: nat, guided: bool, loads: Loads, s: nat)
    requires s < samples
    requires SampleRuns(round, answer, base, samples, guided, loads)[s].outcome.Failure?
    ensures var run := SampleRuns(round, answer, base, samples, guided, loads)[s];
      0 < |run.reached| <= |round| && run.reached == round[..|run.reached|]
  {
    var pos := base + |Repeat(round, s)|;
    SampleRunsAt(round, answer, base, samples, guided, loads, s, pos);
    SampleRunRaisesAt(round, answer, pos, s, guided, loads);
  }

  /** In sample `s` of the first `samples`, when it raises, the choice for
      each call before its last was built without raising. */
  lemma {:induction false} SampleRunsRaiseAfter(round: seq<CompletionCall>, answer: (CompletionCall, nat) -> CompletionResponse,
                                                base: nat, samples: nat, guided: bool, loads: Loads, s: nat, t: nat)
    requires s < samples
    requires SampleRuns(round, answer, base, samples, guided, loads)[s].outcome.Failure?
    requires t < |SampleRuns(round, answer, base, samples, guided, loads)[s].reached| - 1
    ensures t < |round|
    ensures ChoiceFor(s, answer(round[t], base + |Repeat(round, s)| + t), guided, loads).Success?
  {
    var pos := base + |Repeat(round, s)|;
    SampleRunsAt(round, answer, base, samples, guided, loads, s, pos);
    SampleRunRaisesAfter(round, answer, pos, s, guided, loads, t);
  }

  /** Samples before the `s`-th do not depend on how many come after. */
  lemma {:induction false} SampleRunsPrefix(round: seq<CompletionCall>, answer: (CompletionCall, nat) -> CompletionResponse,
                                            base: nat, s: nat, samples: nat, guided: bool, loads: Loads)
    requires s <= samples
    ensures forall r :: 0 <= r < s ==>
      SampleRuns(round, answer, base, samples, guided, loads)[r] == SampleRuns(round, answer, base, s, guided, loads)[r]
  {
    if s < samples {
      SampleRunsPrefix(round, answer, base, s, samples - 1, guided, loads);
    }
  }

  /** When the first `s` of `samples` samples return, the choice for each
      of their calls was built without raising. */
  lemma {:induction false} EarlierSamplesBuildChoice(round: seq<CompletionCall>, answer: (CompletionCall, nat) -> CompletionResponse,
                                                     base: nat, samples: nat, guided: bool, loads: Loads, s: nat, k: nat)
    requires s <= samples && k < s * |round|
    requires RunRounds(SampleRuns(round, answer, base, samples, guided, loads), s).outcome.Success?
    ensures ChoiceFor(k / |round|, answer(Repeat(round, s)[k], base + k), guided, loads).Success?
  {
    SampleRunsPrefix(round, answer, base, s, samples, guided, loads);
    RunRoundsAgree(SampleRuns(round, answer, base, samples, guided, loads), SampleRuns(round, answer, base, s, guided, loads), s);
    LegacyRunReturnsChoiceAt(round, answer, base, s, guided, loads, k);
  }

  /** A run that raises built the choice for every call before its last
      one without raising: it stops at the first answer whose choice
      raises. */
  lemma {:induction false} LegacyRunRaisesAtFirstFailure(round: seq<CompletionCall>, answer: (CompletionCall, nat) -> CompletionResponse,
                                                         base: nat, samples: nat, guided: bool, loads: Loads)
    requires LegacyRun(round, answer, base, samples, guided, loads).outcome.Failure?
    ensures var run := LegacyRun(round, answer, base, samples, guided, loads);
      && 0 < |round|
      && forall k :: 0 <= k < |run.reached| - 1 ==>
           ChoiceFor(k / |round|, answer(run.reached[k], base + k), guided, loads).Success?
  {
    var runs := SampleRuns(round, answer, base, samples, guided, loads);
    SampleRunsReachPrefix(round, answer, base, samples, guided, loads);
    var s := RunRoundsRaisesIn(runs, round, samples);
    var run := LegacyRun(round, answer, base, samples, guided, loads);
    SampleRunsRaiseAt(round, answer, base, samples, guided, loads, s);
    forall k | 0 <= k < |run.reached| - 1
      ensures ChoiceFor(k / |round|, answer(run.reached[k], base + k), guided, loads).Success?
    {
      if k < s * |round| {
        EarlierSamplesBuildChoice(round, answer, base, samples, guided, loads, s, k);
        assert run.reached[k] == Repeat(round, s)[k];
      } else {
        var t := k - s * |round|;
        DivModOfRound(s, t, |round|);
        SampleRunsRaiseAfter(round, answer, base, samples, guided, loads, s, t);
        assert run.reached[k] == round[t];
      }
    }
  }

  /** Every sample makes a prefix of its round's calls, all of them when it
      does not raise. */
  lemma {:induction false} SampleRunsReachPrefix(round: seq<CompletionCall>, answer: (CompletionCall, nat) -> CompletionResponse,
                              base: nat, samples: nat, guided: bool, loads: Loads)
    ensures forall s :: 0 <= s < samples ==>
      var run := SampleRuns(round, answer, base, samples, guided, loads)[s];
      IsPrefix(run.reached, round) && (run.outcome.Success? ==> run.reached == round)
  {
    var runs := SampleRuns(round, answer, base, samples, guided, loads);
    forall s | 0 <= s < samples
      ensures IsPrefix(runs[s].reached, round) && (runs[s].outcome.Success? ==> runs[s].reached == round)
    {
      SampleRunsAt(round, answer, base, samples, guided, loads, s, base + |Repeat(round, s)|);
      SampleRunReachesPrefix(round, answer, base + |Repeat(round, s)|, s, guided, loads);
    }
  }

  /** A run makes a prefix of the calls the current revision makes, in the
      same order, and all of them when it does not raise. */
  lemma {:induction false} LegacyRunMakesPrefixOfCalls(round: seq<CompletionCall>, answer: (CompletionCall, nat) -> CompletionResponse,
                                    base: nat, samples: nat, guided: bool, loads: Loads)
    ensures var run := LegacyRun(round, answer, base, samples, guided, loads);
      && IsPrefix(run.reached, Repeat(round, samples))
      && (run.outcome.Success? ==> run.reached == Repeat(round, samples))
  {
    SampleRunsReachPrefix(round, answer, base, samples, guided, loads);
    RunRoundsOfRepeats(SampleRuns(round, answer, base, samples, guided, loads), round, samples);
  }

  /** A run that raises does so with the exception that building the choice
      for its last call raised; that call belongs to sample
      `(|reached| - 1) / |round|`, and it is the first whose choice raised. */
  lemma {:induction false} LegacyRunRaisesAtLastCall(round: seq<CompletionCall>, answer: (CompletionCall, nat) -> CompletionResponse,
                                  base: nat, samples: nat, guided: bool, loads: Loads)
    requires LegacyRun(round, answer, base, samples, guided, loads).outcome.Failure?
    ensures var run := LegacyRun(round, answer, base, samples, guided, loads);
      && 0 < |run.reached|
      && 0 < |round|
      && ChoiceFor((|run.reached| - 1) / |round|, answer(run.reached[|run.reached| - 1], base + |run.reached| - 1),
                   guided, loads) == Failure(run.outcome.error)
      && forall k :: 0 <= k < |run.reached| - 1 ==>
           ChoiceFor(k / |round|, answer(run.reached[k], base + k), guided, loads).Success?
  {
    LegacyRunRaisesAtFirstFailure(round, answer, base, samples, guided, loads);
    var runs := SampleRuns(round, answer, base, samples, guided, loads);
    SampleRunsReachPrefix(round, answer, base, samples, guided, loads);
    var s := RunRoundsRaisesIn(runs, round, samples);
    var run := LegacyRun(round, answer, base, samples, guided, loads);
    var pos := base + |Repeat(round, s)|;
    SampleRunsAt(round, answer, base, samples, guided, loads, s, pos);
    SampleRunRaisesAt(round, answer, pos, s, guided, loads);
    var k := |runs[s].reached|;
    RepeatThenPrefixLast(round, s, k);
    assert run.reached == Repeat(round, s) + round[..k];
    assert (|run.reached| - 1) / |round| == s && run.reached[|run.reached| - 1] == round[k - 1];
    assert base + |run.reached| - 1 == pos + k - 1;
  }

  /** A sample that returns made one choice per call of its round: choice
      `t` is what `ChoiceFor` built, without raising, from the answer to the
      `t`-th call. */
  lemma {:induction false} SampleRunReturnsChoices(round: seq<CompletionCall>, answer: (CompletionCall, nat) -> CompletionResponse,
                                                   pos: nat, sample: nat, guided: bool, loads: Loads)
    requires SampleRun(round, answer, pos, sample, guided, loads).outcome.Success?
    ensures var values := SampleRun(round, answer, pos, sample, guided, loads).outcome.value;
      && |values| == |round|
      && forall t :: 0 <= t < |round| ==> ChoiceFor(sample, answer(round[t], pos + t), guided, loads) == Success(values[t])
  {
    var steps := ChoiceSteps(round, answer, pos, sample, guided, loads, |round|);
    RunUntilRaiseReturns(round, steps, |round|);
    forall t | 0 <= t < |round|
      ensures steps[t] == ChoiceFor(sample, answer(round[t], pos + t), guided, loads)
    {
      ChoiceStepsAt(round, answer, pos, sample, guided, loads, |round|, t);
    }
  }

  /** Choice `t` of a sample that returns is the one built from the answer to
      call `t` of its round. */
  lemma {:induction false} SampleRunReturnsChoiceAt(round: seq<CompletionCall>, answer: (CompletionCall, nat) -> CompletionResponse,
                                                    pos: nat, sample: nat, guided: bool, loads: Loads, t: nat)
    requires SampleRun(round, answer, pos, sample, guided, loads).outcome.Success?
    requires t < |round|
    ensures t < |SampleRun(round, answer, pos, sample, guided, loads).outcome.value|
    ensures ChoiceFor(sample, answer(round[t], pos + t), guided, loads)
         == Success(SampleRun(round, answer, pos, sample, guided, loads).outcome.value[t])
  {
    SampleRunReturnsChoices(round, answer, pos, sample, guided, loads);
  }

  /** The same, for sample `s` of the first `samples`. */
  lemma {:induction false} SampleRunsReturnChoiceAt(round: seq<CompletionCall>, answer: (CompletionCall, nat) -> CompletionResponse,
                                                    base: nat, samples: nat, guided: bool, loads: Loads, s: nat, t: nat)
    requires s < samples && t < |round|
    requires SampleRuns(round, answer, base, samples, guided, loads)[s].outcome.Success?
    ensures t < |SampleRuns(round, answer, base, samples, guided, loads)[s].outcome.value|
    ensures ChoiceFor(s, answer(round[t], base + |Repeat(round, s)| + t), guided, loads)
         == Success(SampleRuns(round, answer, base, samples, guided, loads)[s].outcome.value[t])
  {
    var pos := base + |Repeat(round, s)|;
    SampleRunsAt(round, answer, base, samples, guided, loads, s, pos);
    SampleRunReturnsChoiceAt(round, answer, pos, s, guided, loads, t);
  }

  /** Every sample that returns made one choice per call of its round. */
  lemma {:induction false} SampleRunsReturnOneChoicePerCall(round: seq<CompletionCall>, answer: (CompletionCall, nat) -> CompletionResponse,
                                                            base: nat, samples: nat, guided: bool, loads: Loads)
    ensures forall s :: 0 <= s < samples ==>
      var run := SampleRuns(round, answer, base, samples, guided, loads)[s];
      run.outcome.Success? ==> |run.outcome.value| == |round|
  {
    var runs := SampleRuns(round, answer, base, samples, guided, loads);
    forall s | 0 <= s < samples && runs[s].outcome.Success?
      ensures |runs[s].outcome.value| == |round|
    {
      var pos := base + |Repeat(round, s)|;
      SampleRunsAt(round, answer, base, samples, guided, loads, s, pos);
      SampleRunReturnsChoices(round, answer, pos, s, guided, loads);
    }
  }

  /** Choice `k` of a run that returns is what `ChoiceFor` built, without
      raising, from the answer to call `k`, with the sample number
      `k / |round|` as index. */
  lemma {:induction false} LegacyRunReturnsChoiceAt(round: seq<CompletionCall>, answer: (CompletionCall, nat) -> CompletionResponse,
                                                    base: nat, samples: nat, guided: bool, loads: Loads, k: nat)
    requires LegacyRun(round, answer, base, samples, guided, loads).outcome.Success?
    requires k < samples * |round|
    ensures k < |LegacyRun(round, answer, base, samples, guided, loads).outcome.value|
    ensures ChoiceFor(k / |round|, answer(Repeat(round, samples)[k], base + k), guided, loads)
         == Success(LegacyRun(round, answer, base, samples, guided, loads).outcome.value[k])
  {
    var s, j := LegacyRunReturnsSampleChoice(round, answer, base, samples, guided, loads, k);
    SampleRunsReturnChoiceAt(round, answer, base, samples, guided, loads, s, j);
    ChoiceAtPosition(round, answer, base, samples, guided, loads, k, s, j,
                     LegacyRun(round, answer, base, samples, guided, loads).outcome.value[k]);
  }

  /** Choice `k` of a run that returns is choice `k % |round|` of sample
      `k / |round|`, and that sample returned. */
  lemma {:induction false} LegacyRunReturnsSampleChoice(round: seq<CompletionCall>, answer: (CompletionCall, nat) -> CompletionResponse,
                                                        base: nat, samples: nat, guided: bool, loads: Loads, k: nat)
    returns (s: nat, j: nat)
    requires LegacyRun(round, answer, base, samples, guided, loads).outcome.Success?
    requires k < samples * |round|
    ensures s < samples && j < |round| && k == s * |round| + j && s == k / |round|
    ensures var run := SampleRuns(round, answer, base, samples, guided, loads)[s];
      && run.outcome.Success?
      && k < |LegacyRun(round, answer, base, samples, guided, loads).outcome.value|
      && j < |run.outcome.value|
      && LegacyRun(round, answer, base, samples, guided, loads).outcome.value[k] == run.outcome.value[j]
  {
    var runs := SampleRuns(round, answer, base, samples, guided, loads);
    SampleRunsReturnOneChoicePerCall(round, answer, base, samples, guided, loads);
    s, j := RunRoundsReturnsAt(runs, samples, |round|, k);
  }

  /** Call `k` of a run is call `j` of sample `s`, made at position
      `base + |Repeat(round, s)| + j`. */
  lemma {:induction false} ChoiceAtPosition(round: seq<CompletionCall>, answer: (CompletionCall, nat) -> CompletionResponse,
                                            base: nat, samples: nat, guided: bool, loads: Loads,
                                            k: nat, s: nat, j: nat, choice: CompletionChoice)
    requires s < samples && j < |round| && k == s * |round| + j && s == k / |round|
    requires ChoiceFor(s, answer(round[j], base + |Repeat(round, s)| + j), guided, loads) == Success(choice)
    ensures k < |Repeat(round, samples)|
    ensures ChoiceFor(k / |round|, answer(Repeat(round, samples)[k], base + k), guided, loads) == Success(choice)
  {
    RepeatAt(round, samples, s, j);
  }

  /** A run that returns made one choice per call, whatever the answers:
      choice `k` is what `ChoiceFor` built, without raising, from the answer
      to call `k`, with the sample number `k / |round|` as index. */
  lemma {:induction false} LegacyRunReturnsChoices(round: seq<CompletionCall>, answer: (CompletionCall, nat) -> CompletionResponse,
                                                   base: nat, samples: nat, guided: bool, loads: Loads)
    requires LegacyRun(round, answer, base, samples, guided, loads).outcome.Success?
    ensures var values := LegacyRun(round, answer, base, samples, guided, loads).outcome.value;
      && |values| == samples * |round|
      && forall k :: 0 <= k < samples * |round| ==>
           ChoiceFor(k / |round|, answer(Repeat(round, samples)[k], base + k), guided, loads) == Success(values[k])
  {
    SampleRunsReturnOneChoicePerCall(round, answer, base, samples, guided, loads);
    RunRoundsReturnsLength(SampleRuns(round, answer, base, samples, guided, loads), samples, |round|);
    forall k | 0 <= k < samples * |round|
      ensures ChoiceFor(k / |round|, answer(Repeat(round, samples)[k], base + k), guided, loads)
           == Success(LegacyRun(round, answer, base, samples, guided, loads).outcome.value[k])
    {
      LegacyRunReturnsChoiceAt(round, answer, base, samples, guided, loads, k);
    }
  }

  /** Conversely, a run in which no call's choice raises returns. */
  lemma {:induction false} LegacyRunReturnsWhenNoChoiceRaises(round: seq<CompletionCall>, answer: (CompletionCall, nat) -> CompletionResponse,
                                                             base: nat, samples: nat, guided: bool, loads: Loads)
    requires forall k :: 0 <= k < samples * |round| ==>
      ChoiceFor(k / |round|, answer(Repeat(round, samples)[k], base + k), guided, loads).Success?
    ensures LegacyRun(round, answer, base, samples, guided, loads).outcome.Success?
  {
    var run := LegacyRun(round, answer, base, samples, guided, loads);
    if run.outcome.Failure? {
      LegacyRunRaisesAtLastCall(round, answer, base, samples, guided, loads);
      LegacyRunMakesPrefixOfCalls(round, answer, base, samples, guided, loads);
      assert false;
    }
  }

  /** A sample whose answers are all well formed gives the choices the
      current revision builds for them. */
  lemma {:induction false} SampleRunAgreesWithCurrent(round: seq<CompletionCall>, answer: (CompletionCall, nat) -> CompletionResponse,
                                   pos: nat, sample: nat, guided: bool, loads: Loads)
    requires AnswersWellFormed(round, answer, pos, guided, loads)
    ensures SampleRun(round, answer, pos, sample, guided, loads)
         == Run(round, Success(ClientAdapter.SampleChoices(round, answer, pos, sample, guided, loads)))
  {
    var steps := ChoiceSteps(round, answer, pos, sample, guided, loads, |round|);
    var values := ClientAdapter.SampleChoices(round, answer, pos, sample, guided, loads);
    forall t | 0 <= t < |round|
      ensures steps[t] == Success(values[t])
    {
      var response := answer(round[t], pos + t);
      assert WellFormedAnswer(response, guided, loads);
      ChoiceStepsAt(round, answer, pos, sample, guided, loads, |round|, t);
      ChoiceAgreesWithCurrent(sample, response, guided, loads);
      assert values[t] == ClientAdapter.CompletionChoiceFor(sample, response, guided, loads);
    }
    RunUntilRaiseCompletes(round, steps, values, |round|);
    assert round[..|round|] == round && values[..|round|] == values;
  }

  /** The choices the current revision builds for each of the first
      `samples` samples. */
  function SampleChoicesList(round: seq<CompletionCall>, answer: (CompletionCall, nat) -> CompletionResponse,
                             base: nat, samples: nat, guided: bool, loads: Loads): (parts: seq<seq<CompletionChoice>>)
    ensures |parts| == samples
  {
    if samples == 0 then []
    else
      SampleChoicesList(round, answer, base, samples - 1, guided, loads)
        + [ClientAdapter.SampleChoices(round, answer, base + |Repeat(round, samples - 1)|, samples - 1, guided, loads)]
  }

  lemma {:induction false} SampleChoicesListAt(round: seq<CompletionCall>, answer: (CompletionCall, nat) -> CompletionResponse,
                                               base: nat, samples: nat, guided: bool, loads: Loads, s: nat)
    requires s < samples
    ensures SampleChoicesList(round, answer, base, samples, guided, loads)[s]
         == ClientAdapter.SampleChoices(round, answer, base + |Repeat(round, s)|, s, guided, loads)
  {
    if s < samples - 1 {
      SampleChoicesListAt(round, answer, base, samples - 1, guided, loads, s);
    } else {
      assert base + |Repeat(round, s)| == base + |Repeat(round, samples - 1)|;
    }
  }

  /** The current revision's choices for its first `n` samples are those
      samples' choices one after the other. */
  lemma {:induction false} RunChoicesIsConcat(round: seq<CompletionCall>, answer: (CompletionCall, nat) -> CompletionResponse,
                                              base: nat, samples: nat, guided: bool, loads: Loads, n: nat)
    requires n <= samples
    ensures ClientAdapter.RunChoices(round, answer, base, n, guided, loads)
         == Concat(SampleChoicesList(round, answer, base, samples, guided, loads), n)
  {
    if n > 0 {
      var earlier := ClientAdapter.RunChoices(round, answer, base, n - 1, guided, loads);
      RunChoicesIsConcat(round, answer, base, samples, guided, loads, n - 1);
      SampleChoicesListAt(round, answer, base, samples, guided, loads, n - 1);
      assert base + |earlier| == base + |Repeat(round, n - 1)|;
    }
  }

  /** The answers of one sample are among the answers of the whole run. */
  lemma {:induction false} AnswersWellFormedOfSample(round: seq<CompletionCall>, answer: (CompletionCall, nat) -> CompletionResponse,
                                  base: nat, samples: nat, guided: bool, loads: Loads, s: nat)
    requires s < samples
    requires AnswersWellFormed(Repeat(round, samples), answer, base, guided, loads)
    ensures AnswersWellFormed(round, answer, base + |Repeat(round, s)|, guided, loads)
  {
    forall t | 0 <= t < |round|
      ensures WellFormedAnswer(answer(round[t], base + |Repeat(round, s)| + t), guided, loads)
    {
      RepeatAt(round, samples, s, t);
    }
  }

  /** When every answer is well formed, a run makes
      every call the current revision makes and returns the same choices. */
  lemma {:induction false} WellFormedRunAgreesWithCurrent(round: seq<CompletionCall>, answer: (CompletionCall, nat) -> CompletionResponse,
                                       base: nat, samples: nat, guided: bool, loads: Loads)
    requires AnswersWellFormed(Repeat(round, samples), answer, base, guided, loads)
    ensures LegacyRun(round, answer, base, samples, guided, loads)
         == Run(Repeat(round, samples), Success(ClientAdapter.RunChoices(round, answer, base, samples, guided, loads)))
  {
    var runs := SampleRuns(round, answer, base, samples, guided, loads);
    var parts := SampleChoicesList(round, answer, base, samples, guided, loads);
    forall s | 0 <= s < samples
      ensures runs[s] == Run(round, Success(parts[s]))
    {
      var pos := base + |Repeat(round, s)|;
      SampleRunsAt(round, answer, base, samples, guided, loads, s, pos);
      SampleChoicesListAt(round, answer, base, samples, guided, loads, s);
      AnswersWellFormedOfSample(round, answer, base, samples, guided, loads, s);
      SampleRunAgreesWithCurrent(round, answer, pos, s, guided, loads);
    }
    RunRoundsAllReturn(runs, round, samples, parts);
    RunChoicesIsConcat(round, answer, base, samples, guided, loads, samples);
  }

  /** `Completions` of the older revision. */
  class Completions {
    const client: InferenceClient

    constructor(client: InferenceClient)
      ensures this.client == client
    {
      this.client := client;
    }

    /** `create(**kwargs)`: `model` and `prompt` must be present; then the
        same calls as the current revision, stopping at the first answer
        whose choice raises. */
    method Create(req: CompletionRequest, now: int, loads: Loads) returns (outcome: Result<Completion>)
      modifies client
      ensures client.chatCalls == old(client.chatCalls)
      ensures req.model.Absent? ==>
        outcome == Failure(KeyError("model")) && client.completionCalls == old(client.completionCalls)
      ensures req.model.Present? && req.prompt.Absent? ==>
        outcome == Failure(KeyError("prompt")) && client.completionCalls == old(client.completionCalls)
      ensures req.model.Present? && req.prompt.Present? ==>
        var run := LegacyRun(ClientAdapter.RoundOf(req), client.completionAnswer, |old(client.completionCalls)|,
                             ClientAdapter.SampleCount(req.n), req.guidedChoice != [], loads);
        && client.completionCalls == old(client.completionCalls) + run.reached
        && outcome == if run.outcome.Failure? then Failure(run.outcome.error)
                      else Success(Completion("foo", run.outcome.value, now, req.model.value, "text_completion"))
    {
      if req.model.Absent? {
        return Failure(KeyError("model"));
      }
      var modelId := req.model.value;
      if req.prompt.Absent? {
        return Failure(KeyError("prompt"));
      }
      var prompts := ClientAdapter.NormalizePrompts(req.prompt.value);
      var samplingParams := ClientAdapter.BuildSamplingParams(req.maxTokens, req.temperature);
      var samples := ClientAdapter.SampleCount(req.n);
      var responseFormat := ClientAdapter.GuidedChoiceFormat(req.guidedChoice);
      var guided := req.guidedChoice != [];

      ghost var round := ClientAdapter.SampleRound(modelId, prompts, samplingParams, responseFormat);
      assert round == ClientAdapter.RoundOf(req);
      ghost var base := |client.completionCalls|;
      ghost var runs := SampleRuns(round, client.completionAnswer, base, samples, guided, loads);
      var choices: seq<CompletionChoice> := [];
      var i := 0;
      while i < samples
        invariant 0 <= i <= samples
        invariant client.completionCalls == old(client.completionCalls) + Repeat(round, i)
        invariant client.chatCalls == old(client.chatCalls)
        invariant RunRounds(runs, i) == Run(Repeat(round, i), Success(choices))
      {
        SampleRunsAt(round, client.completionAnswer, base, samples, guided, loads, i, |client.completionCalls|);
        var sample := CreateSample(modelId, prompts, samplingParams, responseFormat, i, guided, loads);
        if sample.Failure? {
          RunRoundsRaisesAt(runs, i, samples, Repeat(round, i), choices);
          AppendAssociative(old(client.completionCalls), Repeat(round, i), runs[i].reached);
          return Failure(sample.error);
        }
        RunRoundsStep(runs, i, Repeat(round, i), choices);
        RepeatStep(old(client.completionCalls), round, i);
        choices := choices + sample.value;
        i := i + 1;
      }
      outcome := Success(Completion("foo", choices, now, modelId, "text_completion"));
    }

    /** The inner loop of `create`: sample `sample` of every prompt, stopping
        at the first answer whose choice raises. */
    method CreateSample(modelId: Option<string>, prompts: seq<Option<string>>, samplingParams: SamplingParams,
                        responseFormat: Option<ResponseFormat>, sample: nat, guided: bool, loads: Loads)
      returns (outcome: Result<seq<CompletionChoice>>)
      modifies client
      ensures var run := SampleRun(ClientAdapter.SampleRound(modelId, prompts, samplingParams, responseFormat),
                                   client.completionAnswer, |old(client.completionCalls)|, sample, guided, loads);
        && client.completionCalls == old(client.completionCalls) + run.reached
        && outcome == run.outcome
        && (outcome.Success? ==> run.reached == ClientAdapter.SampleRound(modelId, prompts, samplingParams, responseFormat))
      ensures client.chatCalls == old(client.chatCalls)
    {
      ghost var round := ClientAdapter.SampleRound(modelId, prompts, samplingParams, responseFormat);
      ghost var base := |client.completionCalls|;
      ghost var steps := ChoiceSteps(round, client.completionAnswer, base, sample, guided, loads, |round|);
      var choices: seq<CompletionChoice> := [];
      for j := 0 to |prompts|
        invariant client.completionCalls == old(client.completionCalls) + round[..j]
        invariant client.chatCalls == old(client.chatCalls)
        invariant RunUntilRaise(round, steps, j) == Run(round[..j], Success(choices))
      {
        AppendSliceExtend(old(client.completionCalls), round, j);
        RunUntilRaiseStep(round, steps, j, choices);
        ChoiceStepsAt(round, client.completionAnswer, base, sample, guided, loads, |round|, j);
        assert round[j] == CompletionCall(modelId, prompts[j], samplingParams, responseFormat);
        var lsResult := client.Completion(CompletionCall(modelId, prompts[j], samplingParams, responseFormat));
        var choice := ChoiceFor(sample, lsResult, guided, loads);
        assert steps[j] == choice;
        if choice.Failure? {
          RunUntilRaiseStops(round, steps, j + 1, |prompts|);
          return Failure(choice.error);
        }
        choices := choices + [choice.value];
      }
      assert round[..|prompts|] == round;
      outcome := Success(choices);
    }
  }

  /** `ChatCompletions` of the older revision: a stub. */
  class ChatCompletions {
    const client: InferenceClient

    constructor(client: InferenceClient)
      ensures this.client == client
    {
      this.client := client;
    }

    /** `create(**kwargs)`: makes no backend call and answers a text
        completion envelope with no choices, whatever it is given. */
    method Create(req: ChatRequest) returns (response: Completion)
      ensures response.choices == [] && response.kind == "text_completion"
      ensures response.id == "foo" && response.model == Some("foo") && response.created == 0
    {
      response := Completion("foo", [], 0, Some("foo"), "text_completion");
    }
  }

  /** `Chat` of the older revision. */
  class Chat {
    const client: InferenceClient
    const completions: ChatCompletions

    constructor(client: InferenceClient)
      ensures this.client == client && completions.client == client
    {
      this.client := client;
      completions := new ChatCompletions(client);
    }
  }

  /** `OpenAIClientAdapter` of the older revision, once its client has been
      checked. */
  class OpenAIClientAdapter {
    const client: InferenceClient
    const completions: Completions
    const chat: Chat

    constructor(client: InferenceClient)
      ensures this.client == client
      ensures completions.client == client && chat.client == client && chat.completions.client == client
    {
      this.client := client;
      completions := new Completions(client);
      chat := new Chat(client);
    }
  }

  /** `OpenAIClientAdapter(llama_stack_client)`: a missing client raises
      `ValueError` before anything is built. */
  method NewOpenAIClientAdapter(client: InferenceClient?) returns (adapter: Result<OpenAIClientAdapter>)
    ensures adapter.Failure? <==> client == null
    ensures adapter.Failure? ==> adapter.error == ValueError("A `llama_stack_client` must be provided.")
    ensures adapter.Success? ==>
      && fresh(adapter.value)
      && adapter.value.client == client
      && adapter.value.completions.client == client
      && adapter.value.chat.completions.client == client
  {
    if client == null {
      return Failure(ValueError("A `llama_stack_client` must be provided."));
    }
    var a := new OpenAIClientAdapter(client);
    adapter := Success(a);
  }
}
