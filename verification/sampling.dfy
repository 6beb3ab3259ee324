/**
  The sequential sampler of class `downsampler` (src/downsample_counts.cpp:29-92).

  It selects `sample` events without replacement out of `total` events that
  arrive as frequency vectors: position `i` of a vector stands for `freqs[i]`
  indistinguishable events. The state can carry over from one vector to the
  next, so one budget can span several vectors.

  The random generator is an explicit sequence of draws, each meant to lie
  in [0, 1). Every considered event consumes exactly one draw from the front
  of the sequence; the operations return the unconsumed rest.
 */
module Sampling {
  import opened WideSum
  import opened Proportions

  /** The four counters of `downsampler` (line 87). */
  datatype Sampler = Sampler(total: nat, sample: nat, processed: nat, selected: nat)

  /** A freshly constructed `downsampler`: every counter is zero. */
  const Fresh := Sampler(0, 0, 0, 0)

  /** What the random generator promises of every draw. */
  predicate ValidDraws(draws: seq<real>)
  {
    forall i :: 0 <= i < |draws| ==> 0.0 <= draws[i] < 1.0
  }

  /**
    The sampler can still meet its budget: it has not selected more than the
    budget, and what remains to select does not exceed what remains to process.
   */
  predicate Consistent(s: Sampler)
  {
    s.selected <= s.sample && s.sample - s.selected <= s.total - s.processed
  }

  /** Events still to select, as a signed difference of the counters. */
  function ToSelect(s: Sampler): int
  {
    s.sample - s.selected
  }

  /** Events still to process, as a signed difference of the counters. */
  function ToProcess(s: Sampler): int
  {
    s.total - s.processed
  }

  /**
    `r * u` for an integer `r`, written as repeated addition so that
    unfolding it stays linear; `TimesIsProduct` shows it is the product.
   */
  function Times(r: int, u: real): real
    decreases if r < 0 then -r else r
  {
    if r == 0 then 0.0
    else if r > 0 then Times(r - 1, u) + u
    else Times(r + 1, u) - u
  }

  lemma {:induction false} TimesIsProduct(r: int, u: real)
    ensures Times(r, u) == r as real * u
    decreases if r < 0 then -r else r
  {
    if r > 0 {
      TimesIsProduct(r - 1, u);
    } else if r < 0 {
      TimesIsProduct(r + 1, u);
    }
  }

  /** Scaling a positive count by a draw below one makes it smaller. */
  lemma {:induction false} TimesBelow(r: int, u: real)
    requires 0 < r && 0.0 <= u < 1.0
    ensures Times(r, u) < r as real
    decreases r
  {
    if r > 1 {
      TimesBelow(r - 1, u);
    }
  }

  /** A count scaled by a proportion in [0, 1] lies between zero and the count. */
  lemma {:induction false} TimesWithin(r: nat, u: real)
    requires 0.0 <= u <= 1.0
    ensures 0.0 <= Times(r, u) <= r as real
    ensures u == 0.0 ==> Times(r, u) == 0.0
    ensures u == 1.0 ==> Times(r, u) == r as real
  {
    if r > 0 {
      TimesWithin(r - 1, u);
    }
  }

  /**
    The budget `round(prop * total)` of `set_num_sample` (lines 89-91),
    rounding halves away from zero as `std::round` does: the budget is the
    one whole number within half an event of `prop * total`, the upper one
    on a tie.
   */
  function Budget(prop: real, total: nat): (n: nat)
    requires ValidProp(prop)
    ensures n <= total
    ensures n as real - 0.5 <= Times(total, prop) < n as real + 0.5
    ensures prop == 0.0 ==> n == 0
    ensures prop == 1.0 ==> n == total
  {
    TimesWithin(total, prop);
    (Times(total, prop) + 0.5).Floor
  }

  /** The budget is `prop * total` rounded: the whole number within half an event of the product. */
  lemma BudgetRounds(prop: real, total: nat)
    requires ValidProp(prop)
    ensures Budget(prop, total) as real - 0.5 <= total as real * prop < Budget(prop, total) as real + 0.5
  {
    TimesIsProduct(total, prop);
  }

  /**
    `set_global` (lines 31-34): installs a new total and its budget. The
    processed and selected counters are left as they are.
   */
  function SetGlobal(s: Sampler, total: nat, prop: real): (r: Sampler)
    requires ValidProp(prop)
    ensures r.total == total && r.sample == Budget(prop, total)
    ensures r.processed == s.processed && r.selected == s.selected
    ensures s == Fresh ==> Consistent(r) && ToProcess(r) == total
  {
    Sampler(total, Budget(prop, total), s.processed, s.selected)
  }

  /**
    The selection rule of line 58: with draw `u`, the next event is kept when
    (total - processed) * u < sample - selected.
   */
  predicate Selects(s: Sampler, u: real)
  {
    Times(ToProcess(s), u) < ToSelect(s) as real
  }

  /** The selection rule is the comparison of line 58: a product against what remains to select. */
  lemma SelectsRule(s: Sampler, u: real)
    ensures Selects(s, u) <==> ToProcess(s) as real * u < ToSelect(s) as real
  {
    TimesIsProduct(ToProcess(s), u);
  }

  /**
    The rule in ratio form: with events left to process, a draw keeps the
    next event exactly when it falls below remaining-to-select over
    remaining-to-process. A uniform draw from [0, 1) therefore keeps it with
    that ratio as its probability.
   */
  lemma SelectsRatio(s: Sampler, u: real)
    requires ToProcess(s) > 0
    ensures Selects(s, u) <==> u < ToSelect(s) as real / ToProcess(s) as real
  {
    SelectsRule(s, u);
    DivideBoth(ToProcess(s) as real, u, ToSelect(s) as real);
  }

  /** Dividing a comparison by a positive number keeps it. */
  lemma DivideBoth(p: real, u: real, q: real)
    requires p > 0.0
    ensures p * u < q <==> u < q / p
  {
    assert q / p * p == q;
    assert u == (p * u) / p;
    assert p * u < p * (q / p) <==> u < q / p;
  }

  /** The sampler after considering one event, kept or not. */
  function Consider(s: Sampler, kept: bool): Sampler
  {
    Sampler(s.total, s.sample, s.processed + 1, if kept then s.selected + 1 else s.selected)
  }

  /** State, number of kept events and next unused draw after one position. */
  datatype Tally = Tally(state: Sampler, hits: nat, next: nat)

  /** State, kept events per position and next unused draw after one vector. */
  datatype Scan = Scan(state: Sampler, picked: seq<nat>, next: nat)

  /**
    The inner loop of lines 55-63: the `freq` events of one position, each
    considered while the budget is not yet met. Draws are taken from
    `draws[at..]`, one per considered event.
   */
  function Events(s: Sampler, freq: nat, draws: seq<real>, at: nat): (r: Tally)
    requires at + freq <= |draws|
    ensures r.state.total == s.total && r.state.sample == s.sample
    ensures s.processed <= r.state.processed <= s.processed + freq
    ensures r.next - at == r.state.processed - s.processed
    ensures r.state.selected == s.selected + r.hits
    ensures r.hits <= r.state.processed - s.processed
    ensures s.selected <= s.sample ==> r.state.selected <= s.sample
    ensures r.state.processed < s.processed + freq ==> r.state.sample <= r.state.selected
    decreases freq
  {
    if freq == 0 || s.sample <= s.selected then Tally(s, 0, at)
    else
      var kept := Selects(s, draws[at]);
      var t := Events(Consider(s, kept), freq - 1, draws, at + 1);
      Tally(t.state, t.hits + if kept then 1 else 0, t.next)
  }

  /**
    The resumable `operator()` of lines 52-69 on one frequency vector.
    `picked[i]` is how often position `i` of the output buffer is incremented.
    The scan stops once the budget is met. The source tests that in its outer
    loop before each position and in its inner loop before each event; the
    outer test is subsumed here, because `Events` on a sampler whose budget is
    met keeps nothing and consumes no draw.
   */
  function Apply(s: Sampler, freqs: seq<nat>, draws: seq<real>, at: nat): (r: Scan)
    requires at + Sum(freqs) <= |draws|
    ensures |r.picked| == |freqs|
    ensures r.state.total == s.total && r.state.sample == s.sample
    ensures s.processed <= r.state.processed <= s.processed + Sum(freqs)
    ensures r.next - at == r.state.processed - s.processed
    ensures r.state.selected == s.selected + Sum(r.picked)
    ensures Sum(r.picked) <= r.state.processed - s.processed
    ensures forall i :: 0 <= i < |freqs| ==> r.picked[i] <= freqs[i]
    ensures s.selected <= s.sample ==> r.state.selected <= s.sample
    ensures r.state.processed < s.processed + Sum(freqs) ==> r.state.sample <= r.state.selected
  {
    if |freqs| == 0 then Scan(s, [], at)
    else
      var n := |freqs| - 1;
      var a := Apply(s, freqs[..n], draws, at);
      var t := Events(a.state, freqs[n], draws, a.next);
      assert Sum(a.picked + [t.hits]) == Sum(a.picked) + t.hits by {
        assert (a.picked + [t.hits])[..n] == a.picked;
      }
      Scan(t.state, a.picked + [t.hits], t.next)
  }

  /**
    The single-vector `operator()` of lines 75-84: the total becomes the sum
    of `freqs`, the budget is derived from `prop`, and both running counters
    restart from zero, so nothing of an earlier unit carries over.
   */
  function ApplySingle(freqs: seq<nat>, prop: real, draws: seq<real>, at: nat): (r: Scan)
    requires ValidProp(prop)
    requires at + Sum(freqs) <= |draws|
    ensures Below(r.picked, freqs)
    ensures Sum(r.picked) <= Budget(prop, Sum(freqs))
    ensures ValidDraws(draws) ==> Sum(r.picked) == Budget(prop, Sum(freqs))
    ensures prop == 0.0 ==> r.picked == Zeros(|freqs|)
    ensures ValidDraws(draws) && prop == 1.0 ==> r.picked == freqs
    ensures at <= r.next <= at + Sum(freqs)
  {
    SingleExact(SetGlobal(Fresh, Sum(freqs), prop), freqs, prop, draws, at);
    SingleNone(SetGlobal(Fresh, Sum(freqs), prop), freqs, prop, draws, at);
    SingleAll(SetGlobal(Fresh, Sum(freqs), prop), freqs, prop, draws, at);
    Apply(SetGlobal(Fresh, Sum(freqs), prop), freqs, draws, at)
  }

  /** A single-vector call with valid draws keeps exactly its budget. */
  lemma SingleExact(s: Sampler, freqs: seq<nat>, prop: real, draws: seq<real>, at: nat)
    requires ValidProp(prop) && at + Sum(freqs) <= |draws| && s == SetGlobal(Fresh, Sum(freqs), prop)
    ensures ValidDraws(draws) ==> Sum(Apply(s, freqs, draws, at).picked) == Budget(prop, Sum(freqs))
  {
    if ValidDraws(draws) {
      ApplyExact(s, freqs, draws, at);
    }
  }

  /** A single-vector call at proportion zero keeps nothing. */
  lemma SingleNone(s: Sampler, freqs: seq<nat>, prop: real, draws: seq<real>, at: nat)
    requires ValidProp(prop) && at + Sum(freqs) <= |draws| && s == SetGlobal(Fresh, Sum(freqs), prop)
    ensures prop == 0.0 ==> Apply(s, freqs, draws, at).picked == Zeros(|freqs|)
  {
    SumZeroIsZeros(Apply(s, freqs, draws, at).picked);
  }

  /** A single-vector call at proportion one with valid draws keeps everything. */
  lemma SingleAll(s: Sampler, freqs: seq<nat>, prop: real, draws: seq<real>, at: nat)
    requires ValidProp(prop) && at + Sum(freqs) <= |draws| && s == SetGlobal(Fresh, Sum(freqs), prop)
    ensures ValidDraws(draws) && prop == 1.0 ==> Apply(s, freqs, draws, at).picked == freqs
  {
    if ValidDraws(draws) && prop == 1.0 {
      ApplyTakesAll(s, freqs, draws, at);
    }
  }

  /**
    Considering one event keeps the sampler consistent, and when what
    remains to select equals what remains to process the event is kept.
   */
  lemma ConsiderKeepsConsistent(s: Sampler, u: real)
    requires Consistent(s) && s.selected < s.sample && 0.0 <= u < 1.0
    ensures Consistent(Consider(s, Selects(s, u)))
    ensures ToSelect(s) == ToProcess(s) ==> Selects(s, u)
  {
    TimesBelow(ToProcess(s), u);
  }

  /** One position keeps the sampler consistent. */
  lemma {:induction false} EventsKeepConsistent(s: Sampler, freq: nat, draws: seq<real>, at: nat)
    requires at + freq <= |draws| && ValidDraws(draws) && Consistent(s)
    ensures Consistent(Events(s, freq, draws, at).state)
    decreases freq
  {
    if freq > 0 && s.selected < s.sample {
      ConsiderKeepsConsistent(s, draws[at]);
      EventsKeepConsistent(Consider(s, Selects(s, draws[at])), freq - 1, draws, at + 1);
    }
  }

  /**
    When what remains to select equals what remains to process, every draw
    in [0, 1) selects, and that equality persists.
   */
  lemma {:induction false} EventsTakeAll(s: Sampler, freq: nat, draws: seq<real>, at: nat)
    requires at + freq <= |draws| && ValidDraws(draws)
    requires s.selected <= s.sample && ToSelect(s) == ToProcess(s) && freq <= ToProcess(s)
    ensures Events(s, freq, draws, at).hits == freq
    ensures ToSelect(Events(s, freq, draws, at).state) == ToProcess(Events(s, freq, draws, at).state)
    decreases freq
  {
    if freq > 0 {
      ConsiderKeepsConsistent(s, draws[at]);
      EventsTakeAll(Consider(s, true), freq - 1, draws, at + 1);
    }
  }

  /** A vector keeps the sampler consistent: the budget stays reachable. */
  lemma {:induction false} ApplyKeepsConsistent(s: Sampler, freqs: seq<nat>, draws: seq<real>, at: nat)
    requires at + Sum(freqs) <= |draws| && ValidDraws(draws) && Consistent(s)
    ensures Consistent(Apply(s, freqs, draws, at).state)
  {
    if |freqs| > 0 {
      var n := |freqs| - 1;
      ApplyKeepsConsistent(s, freqs[..n], draws, at);
      var a := Apply(s, freqs[..n], draws, at);
      if a.state.selected < a.state.sample {
        EventsKeepConsistent(a.state, freqs[n], draws, a.next);
      }
    }
  }

  /**
    Exactness: a consistent sampler fed at least as many events as it has
    left to process ends with exactly its budget selected.
   */
  lemma ApplyExact(s: Sampler, freqs: seq<nat>, draws: seq<real>, at: nat)
    requires at + Sum(freqs) <= |draws| && ValidDraws(draws) && Consistent(s)
    requires ToProcess(s) <= Sum(freqs)
    ensures Apply(s, freqs, draws, at).state.selected == s.sample
  {
    ApplyKeepsConsistent(s, freqs, draws, at);
  }

  /**
    When remaining-to-select equals remaining-to-process and the vector holds
    no more events than remain, every event is selected.
   */
  lemma {:induction false} ApplyTakesAll(s: Sampler, freqs: seq<nat>, draws: seq<real>, at: nat)
    requires at + Sum(freqs) <= |draws| && ValidDraws(draws)
    requires s.selected <= s.sample && ToSelect(s) == ToProcess(s) && Sum(freqs) <= ToProcess(s)
    ensures Apply(s, freqs, draws, at).picked == freqs
    ensures ToSelect(Apply(s, freqs, draws, at).state) == ToProcess(Apply(s, freqs, draws, at).state)
  {
    if |freqs| > 0 {
      var n := |freqs| - 1;
      ApplyTakesAll(s, freqs[..n], draws, at);
      var a := Apply(s, freqs[..n], draws, at);
      assert a.state.selected == s.selected + Sum(freqs[..n]);
      assert freqs[n] <= ToProcess(a.state);
      EventsTakeAll(a.state, freqs[n], draws, a.next);
      SplitLast(freqs);
    }
  }

  /** With the budget already met, a vector selects nothing and changes nothing. */
  lemma {:induction false} ApplyTakesNone(s: Sampler, freqs: seq<nat>, draws: seq<real>, at: nat)
    requires at + Sum(freqs) <= |draws| && s.sample <= s.selected
    ensures Apply(s, freqs, draws, at) == Scan(s, Zeros(|freqs|), at)
  {
    if |freqs| > 0 {
      var n := |freqs| - 1;
      SumPrefixMono(freqs, n, |freqs|);
      ApplyTakesNone(s, freqs[..n], draws, at);
      ZerosStep(n);
    }
  }

  /**
    Resumption: scanning `a + b` in one call is the same as scanning `a` and
    then `b` with the state and draws where the first scan left off.
   */
  lemma {:induction false} ApplyConcat(s: Sampler, a: seq<nat>, b: seq<nat>, draws: seq<real>, at: nat)
    requires at + Sum(a + b) <= |draws|
    ensures at + Sum(a) <= |draws|
    ensures Apply(s, a, draws, at).next + Sum(b) <= |draws|
    ensures Apply(s, a + b, draws, at)
         == var x := Apply(s, a, draws, at);
            var y := Apply(x.state, b, draws, x.next);
            Scan(y.state, x.picked + y.picked, y.next)
    decreases |b|
  {
    SumAppend(a, b);
    if |b| == 0 {
      assert a + b == a;
    } else {
      var m := |b| - 1;
      assert (a + b)[..|a + b| - 1] == a + b[..m];
      assert (a + b)[|a + b| - 1] == b[m];
      SumAppend(a, b[..m]);
      ApplyConcat(s, a, b[..m], draws, at);
      var x := Apply(s, a, draws, at);
      var y := Apply(x.state, b[..m], draws, x.next);
      var t := Events(y.state, b[m], draws, y.next);
      AppendLast(x.picked, y.picked, t.hits);
    }
  }

  /** Appending one count after two vectors is the same however they are grouped. */
  lemma AppendLast(p: seq<nat>, q: seq<nat>, e: nat)
    ensures p + (q + [e]) == (p + q) + [e]
  {
  }

  /**
    Once the budget is met the scan stops: later positions are left
    untouched and no further draw is consumed.
   */
  lemma ApplyStopsAtBudget(s: Sampler, a: seq<nat>, b: seq<nat>, draws: seq<real>, at: nat)
    requires at + Sum(a + b) <= |draws|
    requires at + Sum(a) <= |draws| && Apply(s, a, draws, at).state.sample <= Apply(s, a, draws, at).state.selected
    ensures Apply(s, a + b, draws, at).picked == Apply(s, a, draws, at).picked + Zeros(|b|)
    ensures Apply(s, a + b, draws, at).next == Apply(s, a, draws, at).next
  {
    ApplyConcat(s, a, b, draws, at);
    var x := Apply(s, a, draws, at);
    ApplyTakesNone(x.state, b, draws, x.next);
  }
}
