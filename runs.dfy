/**
  The EachPage loop over an arbitrary pass function: a run is a chain of
  continuing passes closed by one stopping pass. Pager runs are runs of this
  kind; PagerProperties instantiates the facts proved here.

  RunWith repeats the recursion of Pagers.Run over an abstract pass. The
  copy is kept on purpose: the inductions below see only the three
  predicates about a pass, not the fetch closures, Advance and NextPageURL
  behind it, which keeps each induction step small.
  PagerProperties.RunIsRunWith proves the two recursions equal once.
 */
module Runs {

  import opened Errors
  import opened Pagers

  /** One pass of the loop: given the single-page flag, the URL to fetch and
      the answer the handler would give, how the pass ends and the flag
      afterwards. */
  type PassFn = (bool, string, Result<bool>) -> (Step, bool)

  /** A pass goes on only when the handler said `(true, nil)`. */
  ghost predicate ContinuesOnYes(pass: PassFn)
  {
    forall c, u, a :: pass(c, u, a).0.Continue? ==> a == Ok(true)
  }

  /** A stopping pass hands at most one page to the handler. */
  ghost predicate HandsAtMostOne(pass: PassFn)
  {
    forall c, u, a :: pass(c, u, a).0.Stop? ==> |pass(c, u, a).0.handled| <= 1
  }

  /** The flag after a pass is the flag before it, or set when the fetch is
      the single-page closure. */
  ghost predicate SetsFlagWhen(pass: PassFn, single: bool)
  {
    forall c, u, a :: pass(c, u, a).1 == (c || single)
  }

  /** The loop from `url` on, with the flag at `consumed` and the handler's
      script at `answers`. */
  ghost function RunWith(pass: PassFn, consumed: bool, url: string, answers: seq<Result<bool>>): Outcome
    requires ContinuesOnYes(pass)
    decreases |answers|
  {
    var step := pass(consumed, url, Answer(answers)).0;
    var consumed' := pass(consumed, url, Answer(answers)).1;
    match step
    case Stop(result, handled) =>
      Outcome(result, [url], handled, if handled == [] then answers else Rest(answers), consumed')
    case Continue(page, next) =>
      Append([url], [page], RunWith(pass, consumed', next, Rest(answers)))
  }

  /** The handler's script after `n` calls. */
  function Drop(answers: seq<Result<bool>>, n: nat): (r: seq<Result<bool>>)
  {
    if n <= |answers| then answers[n..] else []
  }

  /** The flag before pass `i` of a run that started with it at `consumed`. */
  function FlagAt(single: bool, consumed: bool, i: nat): (r: bool)
  {
    if i == 0 then consumed else consumed || single
  }

  /** Pass `i` of a run that started with the flag at `consumed` and the
      script at `answers`, when it fetches `url`. */
  ghost function PassNo(pass: PassFn, single: bool, consumed: bool, answers: seq<Result<bool>>, i: nat, url: string): Step
  {
    pass(FlagAt(single, consumed, i), url, Answer(Drop(answers, i))).0
  }

  /** A continuing first pass puts its URL and page in front of the rest of
      the run. */
  lemma RunWithContinues(pass: PassFn, consumed: bool, url: string, answers: seq<Result<bool>>)
    requires ContinuesOnYes(pass)
    requires pass(consumed, url, Answer(answers)).0.Continue?
    ensures answers != []
    ensures RunWith(pass, consumed, url, answers)
      == Append([url], [pass(consumed, url, Answer(answers)).0.page],
                RunWith(pass, pass(consumed, url, Answer(answers)).1, pass(consumed, url, Answer(answers)).0.next, Rest(answers)))
  {
  }

  /** A run fetches at least once, starts at its URL, and hands over a page
      on every pass but possibly the last. */
  lemma {:induction false} RunWithLengths(pass: PassFn, consumed: bool, url: string, answers: seq<Result<bool>>)
    requires ContinuesOnYes(pass) && HandsAtMostOne(pass)
    ensures var o := RunWith(pass, consumed, url, answers);
      |o.fetched| >= 1 && o.fetched[0] == url && |o.fetched| - 1 <= |o.handled| <= |o.fetched|
    decreases |answers|
  {
    var step := pass(consumed, url, Answer(answers)).0;
    var consumed' := pass(consumed, url, Answer(answers)).1;
    if step.Continue? {
      RunWithContinues(pass, consumed, url, answers);
      RunWithLengths(pass, consumed', step.next, Rest(answers));
    }
  }

  /** Pass `i + 1` of a run whose first pass continues is pass `i` of the
      rest of the run. */
  lemma PassNoShift(pass: PassFn, single: bool, consumed: bool, url: string, answers: seq<Result<bool>>, i: nat, u: string)
    requires SetsFlagWhen(pass, single) && answers != []
    ensures PassNo(pass, single, consumed, answers, i + 1, u)
      == PassNo(pass, single, pass(consumed, url, Answer(answers)).1, Rest(answers), i, u)
  {
    DropRest(answers, i);
    assert FlagAt(single, consumed, i + 1) == FlagAt(single, pass(consumed, url, Answer(answers)).1, i);
  }

  /** Every pass of a run but the last continues: it hands its page to the
      handler and goes on to the next URL fetched. */
  lemma {:induction false} EarlierPassesContinueWith(pass: PassFn, single: bool, consumed: bool, url: string,
                                                     answers: seq<Result<bool>>, i: nat)
    requires ContinuesOnYes(pass) && SetsFlagWhen(pass, single)
    requires i + 1 < |RunWith(pass, consumed, url, answers).fetched|
    ensures var o := RunWith(pass, consumed, url, answers);
      i < |o.handled| && PassNo(pass, single, consumed, answers, i, o.fetched[i]) == Continue(o.handled[i], o.fetched[i + 1])
    decreases |answers|
  {
    var step := pass(consumed, url, Answer(answers)).0;
    var consumed' := pass(consumed, url, Answer(answers)).1;
    assert step.Continue?;
    RunWithContinues(pass, consumed, url, answers);
    var rest := RunWith(pass, consumed', step.next, Rest(answers));
    if i == 0 {
      RunWithStarts(pass, consumed', step.next, Rest(answers));
    } else {
      EarlierPassesContinueWith(pass, single, consumed', step.next, Rest(answers), i - 1);
      EarlierShift(pass, single, consumed, url, answers, RunWith(pass, consumed, url, answers), rest, i);
    }
  }

  lemma EarlierShift(pass: PassFn, single: bool, consumed: bool, url: string, answers: seq<Result<bool>>, o: Outcome, rest: Outcome, i: nat)
    requires SetsFlagWhen(pass, single) && answers != [] && pass(consumed, url, Answer(answers)).0.Continue?
    requires o == Append([url], [pass(consumed, url, Answer(answers)).0.page], rest)
    requires 0 < i < |rest.fetched| && i - 1 < |rest.handled|
    requires PassNo(pass, single, pass(consumed, url, Answer(answers)).1, Rest(answers), i - 1, rest.fetched[i - 1])
      == Continue(rest.handled[i - 1], rest.fetched[i])
    ensures i + 1 < |o.fetched| && i < |o.handled|
    ensures PassNo(pass, single, consumed, answers, i, o.fetched[i]) == Continue(o.handled[i], o.fetched[i + 1])
  {
    PassNoShift(pass, single, consumed, url, answers, i - 1, rest.fetched[i - 1]);
  }

  /** A run's first fetch is of the URL it starts from. */
  lemma RunWithStarts(pass: PassFn, consumed: bool, url: string, answers: seq<Result<bool>>)
    requires ContinuesOnYes(pass)
    ensures var o := RunWith(pass, consumed, url, answers);
      o.fetched != [] && o.fetched[0] == url
  {
  }

  /** The last pass of a run stops with the run's result, having handed the
      pages the run ends with. */
  lemma {:induction false} LastPassStopsWith(pass: PassFn, single: bool, consumed: bool, url: string, answers: seq<Result<bool>>)
    requires ContinuesOnYes(pass) && SetsFlagWhen(pass, single)
    ensures var o := RunWith(pass, consumed, url, answers);
      && |o.fetched| >= 1 && |o.handled| >= |o.fetched| - 1
      && PassNo(pass, single, consumed, answers, |o.fetched| - 1, o.fetched[|o.fetched| - 1]) == Stop(o.result, o.handled[|o.fetched| - 1..])
    decreases |answers|
  {
    var step := pass(consumed, url, Answer(answers)).0;
    var consumed' := pass(consumed, url, Answer(answers)).1;
    if step.Continue? {
      RunWithContinues(pass, consumed, url, answers);
      LastPassStopsWith(pass, single, consumed', step.next, Rest(answers));
      LastShift(pass, single, consumed, url, answers, RunWith(pass, consumed, url, answers), RunWith(pass, consumed', step.next, Rest(answers)));
    } else {
      OnlyPassStops(pass, single, consumed, url, answers);
    }
  }

  /** A run whose first pass stops has that pass as its last. */
  lemma OnlyPassStops(pass: PassFn, single: bool, consumed: bool, url: string, answers: seq<Result<bool>>)
    requires ContinuesOnYes(pass) && pass(consumed, url, Answer(answers)).0.Stop?
    ensures var o := RunWith(pass, consumed, url, answers);
      && |o.fetched| == 1 && o.fetched[0] == url
      && PassNo(pass, single, consumed, answers, 0, url) == Stop(o.result, o.handled[0..])
  {
    assert Drop(answers, 0) == answers;
  }

  lemma LastShift(pass: PassFn, single: bool, consumed: bool, url: string, answers: seq<Result<bool>>, o: Outcome, rest: Outcome)
    requires SetsFlagWhen(pass, single) && answers != [] && pass(consumed, url, Answer(answers)).0.Continue?
    requires o == Append([url], [pass(consumed, url, Answer(answers)).0.page], rest)
    requires |rest.fetched| >= 1 && |rest.handled| >= |rest.fetched| - 1
    requires PassNo(pass, single, pass(consumed, url, Answer(answers)).1, Rest(answers), |rest.fetched| - 1, rest.fetched[|rest.fetched| - 1])
      == Stop(rest.result, rest.handled[|rest.fetched| - 1..])
    ensures |o.fetched| >= 1 && |o.handled| >= |o.fetched| - 1
    ensures PassNo(pass, single, consumed, answers, |o.fetched| - 1, o.fetched[|o.fetched| - 1]) == Stop(o.result, o.handled[|o.fetched| - 1..])
  {
    PassNoShift(pass, single, consumed, url, answers, |rest.fetched| - 1, rest.fetched[|rest.fetched| - 1]);
    DropPastFirst(pass(consumed, url, Answer(answers)).0.page, rest.handled, |rest.fetched| - 1);
  }

  /** Dropping one more element from a sequence with one more in front. */
  lemma DropPastFirst<T>(x: T, s: seq<T>, k: nat)
    requires k <= |s|
    ensures ([x] + s)[k + 1..] == s[k..]
  {
  }

  /** After a run the flag is what it would be before one more pass. */
  lemma {:induction false} RunWithFlag(pass: PassFn, single: bool, consumed: bool, url: string, answers: seq<Result<bool>>)
    requires ContinuesOnYes(pass) && SetsFlagWhen(pass, single)
    ensures var o := RunWith(pass, consumed, url, answers);
      o.consumed == FlagAt(single, consumed, |o.fetched|)
    decreases |answers|
  {
    var step := pass(consumed, url, Answer(answers)).0;
    var consumed' := pass(consumed, url, Answer(answers)).1;
    RunWithStarts(pass, consumed, url, answers);
    if step.Continue? {
      RunWithContinues(pass, consumed, url, answers);
      RunWithFlag(pass, single, consumed', step.next, Rest(answers));
    }
  }

  /** The handler's script is used up one answer per handed page. */
  lemma {:induction false} AnswersLeftWith(pass: PassFn, consumed: bool, url: string, answers: seq<Result<bool>>)
    requires ContinuesOnYes(pass) && HandsAtMostOne(pass)
    ensures var o := RunWith(pass, consumed, url, answers);
      |o.handled| <= |answers| + 1 && o.answersLeft == Drop(answers, |o.handled|)
    decreases |answers|
  {
    var step := pass(consumed, url, Answer(answers)).0;
    var consumed' := pass(consumed, url, Answer(answers)).1;
    if step.Continue? {
      RunWithContinues(pass, consumed, url, answers);
      AnswersLeftWith(pass, consumed', step.next, Rest(answers));
      DropRest(answers, |RunWith(pass, consumed', step.next, Rest(answers)).handled|);
    }
  }

  /** Every call of the handler but the last answered `(true, nil)`. */
  lemma {:induction false} YesBeforeLaterCalls(pass: PassFn, consumed: bool, url: string, answers: seq<Result<bool>>, i: nat)
    requires ContinuesOnYes(pass) && HandsAtMostOne(pass)
    requires i + 1 < |RunWith(pass, consumed, url, answers).handled|
    ensures i < |answers| && answers[i] == Ok(true)
    decreases |answers|
  {
    var step := pass(consumed, url, Answer(answers)).0;
    var consumed' := pass(consumed, url, Answer(answers)).1;
    assert step.Continue?;
    RunWithContinues(pass, consumed, url, answers);
    if i > 0 {
      YesBeforeLaterCalls(pass, consumed', step.next, Rest(answers), i - 1);
      assert answers[i] == Rest(answers)[i - 1];
    }
  }

  /** The script after `n + 1` calls is the rest's script after `n`. */
  lemma DropRest(answers: seq<Result<bool>>, n: nat)
    requires answers != []
    ensures Drop(answers, n + 1) == Drop(Rest(answers), n)
  {
  }
}
