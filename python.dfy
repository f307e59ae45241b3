/** The few Python notions the adapter relies on: optional values, keyword
    arguments that may be absent, truthiness tests and the exceptions it can
    raise. */
module Python {
  import opened Sequences

  datatype Option<+T> = None | Some(value: T)

  /** A computation that either returns a value or raises a Python exception. */
  datatype Result<+R> = Success(value: R) | Failure(error: Exception)

  /** A keyword argument: `Absent` when the caller did not pass the key at all. */
  datatype Kwarg<+T> = Absent | Present(value: T)

  /** `kwargs.get(key, default)`. */
  function Get<T>(arg: Kwarg<T>, default: T): (v: T)
    ensures arg.Present? ==> v == arg.value
    ensures arg.Absent? ==> v == default
  {
    match arg
    case Absent => default
    case Present(x) => x
  }

  /** The exceptions the adapter lets escape to its caller. */
  datatype Exception =
    | KeyError(key: string)
    | IntKeyError(index: int)   // `KeyError` raised for an integer key, as `d[0]` on a dict raises it
    | IndexError
    | TypeError
    | JSONDecodeError
    | ValueError(message: string)

  /** Truthiness of an optional integer: `None` and `0` are falsy. */
  predicate IntTruthy(x: Option<int>) {
    x.Some? && x.value != 0
  }

  /** Truthiness of an optional number: `None` and `0.0` are falsy. */
  predicate RealTruthy(x: Option<real>) {
    x.Some? && x.value != 0.0
  }

  /** A loop over `items` whose body may raise, after some of its steps: the
      items it reached and either the values their steps returned or the
      exception that ended it. */
  datatype Run<+T, +C> = Run(reached: seq<T>, outcome: Result<seq<C>>)

  /** The first `j` steps of a loop over `items` whose step for item `t`
      returns or raises as `steps[t]` says; no step runs after one that
      raises. */
  function RunUntilRaise<T, C>(items: seq<T>, steps: seq<Result<C>>, j: nat): Run<T, C>
    requires j <= |items| && j <= |steps|
  {
    if j == 0 then Run([], Success([]))
    else
      var earlier := RunUntilRaise(items, steps, j - 1);
      if earlier.outcome.Failure? then earlier
      else
        Run(earlier.reached + [items[j - 1]],
            if steps[j - 1].Failure? then Failure(steps[j - 1].error)
            else Success(earlier.outcome.value + [steps[j - 1].value]))
  }

  /** One more step of a loop that has not raised. */
  lemma {:induction false} RunUntilRaiseStep<T, C>(items: seq<T>, steps: seq<Result<C>>, j: nat, values: seq<C>)
    requires j < |items| && j < |steps|
    requires RunUntilRaise(items, steps, j) == Run(items[..j], Success(values))
    ensures RunUntilRaise(items, steps, j + 1)
         == Run(items[..j + 1], if steps[j].Failure? then Failure(steps[j].error) else Success(values + [steps[j].value]))
  {
    assert items[..j + 1] == items[..j] + [items[j]];
  }

  /** Once a step has raised, further items change nothing. */
  lemma {:induction false} RunUntilRaiseStops<T, C>(items: seq<T>, steps: seq<Result<C>>, j: nat, j': nat)
    requires j <= j' <= |items| && j' <= |steps|
    requires RunUntilRaise(items, steps, j).outcome.Failure?
    ensures RunUntilRaise(items, steps, j') == RunUntilRaise(items, steps, j)
  {
    if j < j' {
      RunUntilRaiseStops(items, steps, j, j' - 1);
    }
  }

  /** A loop that raised reached a prefix of its items, raised at the last
      one with that step's exception, and every earlier step returned. */
  lemma {:induction false} RunUntilRaiseRaisesAtLast<T, C>(items: seq<T>, steps: seq<Result<C>>, j: nat)
    requires j <= |items| && j <= |steps|
    requires RunUntilRaise(items, steps, j).outcome.Failure?
    ensures var run := RunUntilRaise(items, steps, j);
      && 0 < |run.reached| <= j
      && run.reached == items[..|run.reached|]
      && steps[|run.reached| - 1] == Failure(run.outcome.error)
      && forall t :: 0 <= t < |run.reached| - 1 ==> steps[t].Success?
  {
    var earlier := RunUntilRaise(items, steps, j - 1);
    if earlier.outcome.Failure? {
      RunUntilRaiseRaisesAtLast(items, steps, j - 1);
    } else {
      RunUntilRaiseReturns(items, steps, j - 1);
      assert items[..j] == items[..j - 1] + [items[j - 1]];
    }
  }

  /** A loop that has not raised reached every item so far, every one of
      those steps returned, and its values are theirs, in order. */
  lemma {:induction false} RunUntilRaiseReturns<T, C>(items: seq<T>, steps: seq<Result<C>>, j: nat)
    requires j <= |items| && j <= |steps|
    requires RunUntilRaise(items, steps, j).outcome.Success?
    ensures RunUntilRaise(items, steps, j).reached == items[..j]
    ensures forall t :: 0 <= t < j ==> steps[t].Success?
    ensures |RunUntilRaise(items, steps, j).outcome.value| == j
    ensures forall t :: 0 <= t < j ==> steps[t] == Success(RunUntilRaise(items, steps, j).outcome.value[t])
  {
    if j > 0 {
      var earlier := RunUntilRaise(items, steps, j - 1);
      RunUntilRaiseReturns(items, steps, j - 1);
      assert items[..j] == items[..j - 1] + [items[j - 1]];
      var values := RunUntilRaise(items, steps, j).outcome.value;
      assert values == earlier.outcome.value + [steps[j - 1].value];
      forall t | 0 <= t < j
        ensures steps[t] == Success(values[t])
      {
        if t < j - 1 {
          assert values[t] == earlier.outcome.value[t];
        }
      }
    }
  }

  /** When no step raises, the loop reaches every item and returns every
      step's value, in order. */
  lemma {:induction false} RunUntilRaiseCompletes<T, C>(items: seq<T>, steps: seq<Result<C>>, values: seq<C>, j: nat)
    requires j <= |items| && j <= |steps| && j <= |values|
    requires forall t :: 0 <= t < j ==> steps[t] == Success(values[t])
    ensures RunUntilRaise(items, steps, j) == Run(items[..j], Success(values[..j]))
  {
    if j > 0 {
      RunUntilRaiseCompletes(items, steps, values, j - 1);
      assert items[..j] == items[..j - 1] + [items[j - 1]];
      assert values[..j] == values[..j - 1] + [values[j - 1]];
    }
  }

  /** An outer loop over inner loops that may raise: round `s` runs as
      `rounds[s]` says, and the first round that raises ends the loop. */
  function RunRounds<T, C>(rounds: seq<Run<T, C>>, samples: nat): Run<T, C>
    requires samples <= |rounds|
  {
    if samples == 0 then Run([], Success([]))
    else
      var earlier := RunRounds(rounds, samples - 1);
      if earlier.outcome.Failure? then earlier
      else
        var last := rounds[samples - 1];
        Run(earlier.reached + last.reached,
            if last.outcome.Failure? then Failure(last.outcome.error)
            else Success(earlier.outcome.value + last.outcome.value))
  }

  /** One more round of an outer loop that has not raised. */
  lemma {:induction false} RunRoundsStep<T, C>(rounds: seq<Run<T, C>>, samples: nat, reached: seq<T>, values: seq<C>)
    requires samples < |rounds|
    requires RunRounds(rounds, samples) == Run(reached, Success(values))
    ensures var last := rounds[samples];
      RunRounds(rounds, samples + 1)
        == Run(reached + last.reached,
               if last.outcome.Failure? then Failure(last.outcome.error) else Success(values + last.outcome.value))
  {
  }

  /** A round that raises after earlier rounds that returned ends the outer
      loop: what it reached is all that is added, and its exception is the
      loop's. */
  lemma {:induction false} RunRoundsRaisesAt<T, C>(rounds: seq<Run<T, C>>, i: nat, samples: nat, reached: seq<T>, values: seq<C>)
    requires i < samples <= |rounds|
    requires RunRounds(rounds, i) == Run(reached, Success(values))
    requires rounds[i].outcome.Failure?
    ensures RunRounds(rounds, samples) == Run(reached + rounds[i].reached, Failure(rounds[i].outcome.error))
  {
    RunRoundsStep(rounds, i, reached, values);
    RunRoundsStops(rounds, i + 1, samples);
  }

  /** Once a round has raised, further rounds change nothing. */
  lemma {:induction false} RunRoundsStops<T, C>(rounds: seq<Run<T, C>>, samples: nat, samples': nat)
    requires samples <= samples' <= |rounds|
    requires RunRounds(rounds, samples).outcome.Failure?
    ensures RunRounds(rounds, samples') == RunRounds(rounds, samples)
  {
    if samples < samples' {
      RunRoundsStops(rounds, samples, samples' - 1);
    }
  }

  /** The first `samples` rounds alone decide the outer loop. */
  lemma {:induction false} RunRoundsAgree<T, C>(rounds: seq<Run<T, C>>, rounds': seq<Run<T, C>>, samples: nat)
    requires samples <= |rounds| && samples <= |rounds'|
    requires forall s :: 0 <= s < samples ==> rounds[s] == rounds'[s]
    ensures RunRounds(rounds, samples) == RunRounds(rounds', samples)
  {
    if samples > 0 {
      RunRoundsAgree(rounds, rounds', samples - 1);
    }
  }

  /** When every round goes over the same items, reaching a prefix of them
      and all of them when it returns, the outer loop reaches a prefix of
      the repeated items, and all of them when it returns. */
  lemma {:induction false} RunRoundsOfRepeats<T, C>(rounds: seq<Run<T, C>>, items: seq<T>, samples: nat)
    requires samples <= |rounds|
    requires forall s :: 0 <= s < samples ==>
      IsPrefix(rounds[s].reached, items) && (rounds[s].outcome.Success? ==> rounds[s].reached == items)
    ensures var run := RunRounds(rounds, samples);
      && IsPrefix(run.reached, Repeat(items, samples))
      && (run.outcome.Success? ==> run.reached == Repeat(items, samples))
  {
    if samples > 0 {
      var earlier := RunRounds(rounds, samples - 1);
      var last := rounds[samples - 1];
      RunRoundsOfRepeats(rounds, items, samples - 1);
      RepeatPrefix(items, samples - 1, samples);
      if earlier.outcome.Failure? {
        PrefixTransitive(earlier.reached, Repeat(items, samples - 1), Repeat(items, samples));
      } else {
        assert Repeat(items, samples) == Repeat(items, samples - 1) + items;
        PrefixOfAppend(Repeat(items, samples - 1), items, |last.reached|);
      }
    }
  }

  /** An outer loop that raises does so in some round `s`, after every
      earlier round returned having reached all of its items. */
  lemma {:induction false} RunRoundsRaisesIn<T, C>(rounds: seq<Run<T, C>>, items: seq<T>, samples: nat) returns (s: nat)
    requires samples <= |rounds|
    requires forall s :: 0 <= s < samples ==> rounds[s].outcome.Success? ==> rounds[s].reached == items
    requires RunRounds(rounds, samples).outcome.Failure?
    ensures s < samples && rounds[s].outcome.Failure?
    ensures RunRounds(rounds, s).outcome.Success?
    ensures RunRounds(rounds, samples) == Run(Repeat(items, s) + rounds[s].reached, rounds[s].outcome)
  {
    var earlier := RunRounds(rounds, samples - 1);
    if earlier.outcome.Failure? {
      s := RunRoundsRaisesIn(rounds, items, samples - 1);
    } else {
      RunRoundsReturnsRepeat(rounds, items, samples - 1);
      s := samples - 1;
    }
  }

  /** An outer loop that returns reached every item of every round. */
  lemma {:induction false} RunRoundsReturnsRepeat<T, C>(rounds: seq<Run<T, C>>, items: seq<T>, samples: nat)
    requires samples <= |rounds|
    requires forall s :: 0 <= s < samples ==> rounds[s].outcome.Success? ==> rounds[s].reached == items
    requires RunRounds(rounds, samples).outcome.Success?
    ensures RunRounds(rounds, samples).reached == Repeat(items, samples)
  {
    if samples > 0 {
      RunRoundsReturnsRepeat(rounds, items, samples - 1);
    }
  }

  /** An outer loop that returns, over rounds that each return `m` values,
      returns `samples * m` values. */
  lemma {:induction false} RunRoundsReturnsLength<T, C>(rounds: seq<Run<T, C>>, samples: nat, m: nat)
    requires samples <= |rounds|
    requires forall s :: 0 <= s < samples ==> rounds[s].outcome.Success? ==> |rounds[s].outcome.value| == m
    requires RunRounds(rounds, samples).outcome.Success?
    ensures |RunRounds(rounds, samples).outcome.value| == samples * m
  {
    if samples > 0 {
      RunRoundsReturnsLength(rounds, samples - 1, m);
      assert samples * m == (samples - 1) * m + m;
    }
  }

  /** Value `k` of an outer loop that returns, over rounds that each return
      `m` values, is value `j` of round `s`, which returned, where `k` is
      `s * m + j`. */
  lemma {:induction false} RunRoundsReturnsAt<T, C>(rounds: seq<Run<T, C>>, samples: nat, m: nat, k: nat)
    returns (s: nat, j: nat)
    requires samples <= |rounds|
    requires forall s :: 0 <= s < samples ==> rounds[s].outcome.Success? ==> |rounds[s].outcome.value| == m
    requires RunRounds(rounds, samples).outcome.Success?
    requires k < samples * m
    ensures s < samples && j < m && k == s * m + j && s == k / m && j == k % m
    ensures rounds[s].outcome.Success?
    ensures k < |RunRounds(rounds, samples).outcome.value|
    ensures RunRounds(rounds, samples).outcome.value[k] == rounds[s].outcome.value[j]
  {
    RunRoundsReturnsLength(rounds, samples - 1, m);
    assert samples * m == (samples - 1) * m + m;
    if k < (samples - 1) * m {
      s, j := RunRoundsReturnsAt(rounds, samples - 1, m, k);
    } else {
      s, j := samples - 1, k - (samples - 1) * m;
      DivModOfRound(s, j, m);
    }
  }

  /** The first `n` parts one after the other. */
  function Concat<C>(parts: seq<seq<C>>, n: nat): seq<C>
    requires n <= |parts|
  {
    if n == 0 then [] else Concat(parts, n - 1) + parts[n - 1]
  }

  /** When every round returns having reached all the items, the outer
      loop returns having reached every item of every round, and its values
      are the rounds' values one after the other. */
  lemma {:induction false} RunRoundsAllReturn<T, C>(rounds: seq<Run<T, C>>, items: seq<T>, samples: nat, parts: seq<seq<C>>)
    requires samples <= |rounds| && samples <= |parts|
    requires forall s :: 0 <= s < samples ==> rounds[s] == Run(items, Success(parts[s]))
    ensures RunRounds(rounds, samples) == Run(Repeat(items, samples), Success(Concat(parts, samples)))
  {
    if samples > 0 {
      RunRoundsAllReturn(rounds, items, samples - 1, parts);
    }
  }
}
