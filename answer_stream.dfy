/** The generator returned by calling a node (`SimpleQuanda.__call__`), as an
    explicit state machine. Each `next()` on the generator is one `Resume`;
    `Run` performs several of them. `Stream` is the reference definition of
    everything one generator produces, and the lemmas connect the two. */
module AnswerStream {
  import opened PyValues

  /** Where the generator body is suspended. */
  datatype Phase =
    | Created                                          // body not entered yet
    | Looping(text: string, pos: nat, answer: string)  // at `yield char`: `pos` characters of `text` taken, `answer` accumulated
    | CachedYielded                                    // at `yield self.A` of the non-lazy branch
    | Finished                                         // returned or raised

  /** What one `next()` does: produce a fragment, end the iteration, or raise. */
  datatype Step = Yield(fragment: string) | StopIteration | Raise(error: PyError)

  /** The generator's phase together with the node's attribute `A`, which is
      the only part of the node the generator writes. */
  datatype State = State(phase: Phase, stored: Option<string>)

  datatype Transition = Transition(next: State, step: Step)

  /** One more turn of `for char in text: answer += char; yield char`, or,
      when `text` is used up, `self.A = answer`. */
  function LoopStep(text: string, pos: nat, answer: string, stored: Option<string>): Transition {
    if pos < |text| then
      Transition(State(Looping(text, pos + 1, answer + [text[pos]]), stored), Yield([text[pos]]))
    else
      Transition(State(Finished, Some(answer)), StopIteration)
  }

  /** One `next()` on the generator of a node whose `lazy` flag and mock
      answer are given. */
  function Resume(lazy: bool, mock: Option<string>, s: State): Transition {
    match s.phase
    case Created =>
      if !lazy then
        if s.stored.Some? then Transition(State(CachedYielded, s.stored), Yield(s.stored.value))
        else Transition(State(Finished, s.stored), Raise(AttributeError))
      else if mock.None? then Transition(State(Finished, s.stored), Raise(TypeError))
      else LoopStep(mock.value, 0, "", s.stored)
    case Looping(text, pos, answer) => LoopStep(text, pos, answer, s.stored)
    case CachedYielded => Transition(State(Finished, s.stored), StopIteration)
    case Finished => Transition(s, StopIteration)
  }

  /** The state after some steps and what each step did, in order. */
  datatype Trace = Trace(final: State, steps: seq<Step>)

  /** `n` calls of `next()` starting from `s`. */
  function Run(lazy: bool, mock: Option<string>, s: State, n: nat): (t: Trace)
    ensures |t.steps| == n
  {
    if n == 0 then Trace(s, [])
    else
      var t := Run(lazy, mock, s, n - 1);
      var tr := Resume(lazy, mock, t.final);
      Trace(tr.next, t.steps + [tr.step])
  }

  /** One Yield per character of `s`, each carrying that character alone. */
  function CharYields(s: string): seq<Step> {
    seq(|s|, i requires 0 <= i < |s| => Yield([s[i]]))
  }

  /** Reference definition: the complete output of one generator, from
      creation to its terminal step. */
  function Stream(lazy: bool, mock: Option<string>, stored: Option<string>): seq<Step> {
    if !lazy then
      if stored.Some? then [Yield(stored.value), StopIteration] else [Raise(AttributeError)]
    else if mock.None? then [Raise(TypeError)]
    else CharYields(mock.value) + [StopIteration]
  }

  /** Reference definition: the attribute `A` once a generator has run to its end. */
  function Drained(lazy: bool, mock: Option<string>, stored: Option<string>): Option<string> {
    if lazy && mock.Some? then mock else stored
  }

  /** The text a consumer sees: the concatenation of all yielded fragments. */
  function Emitted(steps: seq<Step>): string {
    if steps == [] then ""
    else
      var last := steps[|steps| - 1];
      Emitted(steps[..|steps| - 1]) + (if last.Yield? then last.fragment else "")
  }

  /** Every step of a stream but the last yields, and the last one does not. */
  lemma StreamShape(lazy: bool, mock: Option<string>, stored: Option<string>)
    ensures var s := Stream(lazy, mock, stored);
      && |s| >= 1
      && !s[|s| - 1].Yield?
      && forall i :: 0 <= i < |s| - 1 ==> s[i].Yield?
  {
  }

  /** The characters of `m`, yielded one by one, concatenate back to `m`. */
  lemma {:induction false} EmittedChars(m: string)
    ensures Emitted(CharYields(m)) == m
  {
    if m != [] {
      var k := |m| - 1;
      assert CharYields(m)[..k] == CharYields(m[..k]);
      EmittedChars(m[..k]);
      assert m == m[..k] + [m[k]];
    }
  }

  /** A terminal step adds nothing to the emitted text. */
  lemma EmittedStop(steps: seq<Step>, last: Step)
    requires !last.Yield?
    ensures Emitted(steps + [last]) == Emitted(steps)
  {
    assert (steps + [last])[..|steps|] == steps;
  }

  /** Fully draining the generator of a lazy node yields exactly the
      characters of its mock answer, in order, one per fragment. */
  lemma DrainedText(m: string, stored: Option<string>)
    ensures Emitted(Stream(true, Some(m), stored)) == m
    ensures forall i :: 0 <= i < |m| ==> Stream(true, Some(m), stored)[i] == Yield([m[i]])
  {
    EmittedStop(CharYields(m), StopIteration);
    EmittedChars(m);
  }

  /** While a lazy generator is inside its loop, it has yielded the first `k`
      characters, holds them as its partial answer, and has not touched `A`. */
  lemma {:induction false} LoopingRun(m: string, stored: Option<string>, k: nat)
    requires 1 <= k <= |m|
    ensures Run(true, Some(m), State(Created, stored), k)
         == Trace(State(Looping(m, k, m[..k]), stored), CharYields(m)[..k])
  {
    if k == 1 {
      assert "" + [m[0]] == m[..1];
      assert [] + [Yield([m[0]])] == CharYields(m)[..1];
    } else {
      LoopingRun(m, stored, k - 1);
      assert m[..k - 1] + [m[k - 1]] == m[..k];
      assert CharYields(m)[..k - 1] + [Yield([m[k - 1]])] == CharYields(m)[..k];
    }
  }

  /** `n` steps of a fresh generator produce the first `n` steps of its
      stream. Until the stream is over `A` keeps its old value; at the end it
      holds the drained value and the generator is finished. */
  lemma RunFollowsStream(lazy: bool, mock: Option<string>, stored: Option<string>, n: nat)
    requires n <= |Stream(lazy, mock, stored)|
    ensures var t, s := Run(lazy, mock, State(Created, stored), n), Stream(lazy, mock, stored);
      && t.steps == s[..n]
      && (n < |s| ==> t.final.stored == stored)
      && (n == |s| ==> t.final == State(Finished, Drained(lazy, mock, stored)))
  {
    var s := Stream(lazy, mock, stored);
    if n > 0 && lazy && mock.Some? {
      var m := mock.value;
      if n <= |m| {
        LoopingRun(m, stored, n);
        assert s[..n] == CharYields(m)[..n];
      } else if |m| == 0 {
        assert s[..n] == [StopIteration];
      } else {
        LoopingRun(m, stored, |m|);
        assert m[..|m|] == m;
        assert s[..n] == CharYields(m)[..|m|] + [StopIteration];
      }
    } else if n == 2 {
      assert s[..n] == s;
    }
  }

  /** Once finished, a generator stays finished: every further `next()` ends
      the iteration and `A` is left alone. */
  lemma {:induction false} RunAfterEnd(lazy: bool, mock: Option<string>, stored: Option<string>, n: nat)
    ensures Run(lazy, mock, State(Finished, stored), n)
         == Trace(State(Finished, stored), seq(n, _ => StopIteration))
  {
    if n > 0 {
      RunAfterEnd(lazy, mock, stored, n - 1);
      assert seq(n - 1, _ => StopIteration) + [StopIteration] == seq(n, _ => StopIteration);
    }
  }

  /** Running `a` steps and then `b` more is running `a + b` steps: a
      consumer may stop at any point and another may resume the same
      generator where it left off. */
  lemma {:induction false} RunSplit(lazy: bool, mock: Option<string>, s: State, a: nat, b: nat)
    ensures var first := Run(lazy, mock, s, a);
      var rest := Run(lazy, mock, first.final, b);
      Run(lazy, mock, s, a + b) == Trace(rest.final, first.steps + rest.steps)
  {
    if b > 0 {
      RunSplit(lazy, mock, s, a, b - 1);
      var first := Run(lazy, mock, s, a);
      var rest := Run(lazy, mock, first.final, b - 1);
      assert first.steps + rest.steps + [Resume(lazy, mock, rest.final).step]
          == first.steps + (rest.steps + [Resume(lazy, mock, rest.final).step]);
    }
  }

  /** A consumer that stops after `k` fragments and a second one that drains
      the same generator together see the whole mock answer, and `A` ends up
      holding it. */
  lemma PartialResume(m: string, stored: Option<string>, k: nat)
    requires k <= |m|
    ensures var first := Run(true, Some(m), State(Created, stored), k);
      var rest := Run(true, Some(m), first.final, |m| + 1 - k);
      && first.final.stored == stored
      && Emitted(first.steps + rest.steps) == m
      && rest.final == State(Finished, Some(m))
  {
    RunSplit(true, Some(m), State(Created, stored), k, |m| + 1 - k);
    RunFollowsStream(true, Some(m), stored, k);
    RunFollowsStream(true, Some(m), stored, |m| + 1);
    DrainedText(m, stored);
    assert Stream(true, Some(m), stored)[..|m| + 1] == Stream(true, Some(m), stored);
  }
}
