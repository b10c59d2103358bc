/** A single-chain random-walk Metropolis sampler over a real state.

    The sampler's random inputs are explicit: every accept/reject iteration
    consumes one Draw, whose z scales the normal proposal
    (current + stepSize * z) and whose logU is the log of the uniform draw
    the proposal is tested against. With the draws fixed, every operation is
    a deterministic function of the sampler's state, stated below as the
    specification functions Trajectory, EndState, AcceptCount and Tune. */
module Metropolis {
  import opened Wrappers
  import SampleStats
  import opened RealArith

  /** The random inputs one iteration consumes. */
  datatype Draw = Draw(z: real, logU: real)

  /** A normal proposal centred on the current state with scale stepSize. */
  function Proposal(current: real, stepSize: real, z: real): real
  {
    current + stepSize * z
  }

  /** The Metropolis test: accept iff log(u) < logTarget(proposal) - logTarget(current). */
  predicate Accepts(logTarget: real -> real, current: real, proposal: real, logU: real)
  {
    logU < logTarget(proposal) - logTarget(current)
  }

  /** The state after one iteration: the proposal if accepted, else the current state. */
  function NextState(logTarget: real -> real, current: real, stepSize: real, d: Draw): real
  {
    var proposal := Proposal(current, stepSize, d.z);
    if Accepts(logTarget, current, proposal, d.logU) then proposal else current
  }

  /** The values appended to the history by running one iteration per draw
      at a fixed step size, starting from `current`. */
  function Trajectory(logTarget: real -> real, current: real, stepSize: real, draws: seq<Draw>): (t: seq<real>)
    ensures |t| == |draws|
    decreases |draws|
  {
    if draws == [] then []
    else
      var next := NextState(logTarget, current, stepSize, draws[0]);
      [next] + Trajectory(logTarget, next, stepSize, draws[1..])
  }

  /** The state the chain is in after those iterations. */
  function EndState(logTarget: real -> real, current: real, stepSize: real, draws: seq<Draw>): real
    decreases |draws|
  {
    if draws == [] then current
    else EndState(logTarget, NextState(logTarget, current, stepSize, draws[0]), stepSize, draws[1..])
  }

  /** How many of those iterations accepted their proposal. */
  function AcceptCount(logTarget: real -> real, current: real, stepSize: real, draws: seq<Draw>): (k: nat)
    ensures k <= |draws|
    decreases |draws|
  {
    if draws == [] then 0
    else
      var proposal := Proposal(current, stepSize, draws[0].z);
      var accepted := Accepts(logTarget, current, proposal, draws[0].logU);
      (if accepted then 1 else 0) +
      AcceptCount(logTarget, NextState(logTarget, current, stepSize, draws[0]), stepSize, draws[1..])
  }

  /** Each appended value is the proposal of its iteration when that
      proposal is accepted, and a copy of the previous state when it is
      rejected. */
  lemma {:induction false} TrajectoryStep(logTarget: real -> real, current: real, stepSize: real, draws: seq<Draw>, i: nat)
    requires i < |draws|
    decreases |draws|
    ensures var t := Trajectory(logTarget, current, stepSize, draws);
            var prev := if i == 0 then current else t[i - 1];
            var proposal := Proposal(prev, stepSize, draws[i].z);
            t[i] == if Accepts(logTarget, prev, proposal, draws[i].logU) then proposal else prev
  {
    if i > 0 {
      var next := NextState(logTarget, current, stepSize, draws[0]);
      TrajectoryStep(logTarget, next, stepSize, draws[1..], i - 1);
      if i == 1 {
        assert Trajectory(logTarget, current, stepSize, draws)[0] == next;
      }
    }
  }

  /** The last appended value is the state the chain ends in. */
  lemma {:induction false} TrajectoryEnds(logTarget: real -> real, current: real, stepSize: real, draws: seq<Draw>)
    requires draws != []
    decreases |draws|
    ensures Trajectory(logTarget, current, stepSize, draws)[|draws| - 1] == EndState(logTarget, current, stepSize, draws)
  {
    if |draws| > 1 {
      TrajectoryEnds(logTarget, NextState(logTarget, current, stepSize, draws[0]), stepSize, draws[1..]);
    }
  }

  /** Running one more iteration after a run extends its trajectory by
      that iteration's value, and its end state and count accordingly. */
  lemma {:induction false} RunSnoc(logTarget: real -> real, current: real, stepSize: real, draws: seq<Draw>, d: Draw)
    decreases |draws|
    ensures var end := EndState(logTarget, current, stepSize, draws);
            var proposal := Proposal(end, stepSize, d.z);
            && Trajectory(logTarget, current, stepSize, draws + [d])
               == Trajectory(logTarget, current, stepSize, draws) + [NextState(logTarget, end, stepSize, d)]
            && EndState(logTarget, current, stepSize, draws + [d]) == NextState(logTarget, end, stepSize, d)
            && AcceptCount(logTarget, current, stepSize, draws + [d])
               == AcceptCount(logTarget, current, stepSize, draws) + if Accepts(logTarget, end, proposal, d.logU) then 1 else 0
  {
    if draws == [] {
      assert [] + [d] == [d];
    } else {
      assert (draws + [d])[0] == draws[0] && (draws + [d])[1..] == draws[1..] + [d];
      RunSnoc(logTarget, NextState(logTarget, current, stepSize, draws[0]), stepSize, draws[1..], d);
    }
  }

  /** A run in which no proposal was accepted only repeats its start state. */
  lemma {:induction false} NoAcceptsStays(logTarget: real -> real, current: real, stepSize: real, draws: seq<Draw>)
    requires AcceptCount(logTarget, current, stepSize, draws) == 0
    decreases |draws|
    ensures forall i :: 0 <= i < |draws| ==> Trajectory(logTarget, current, stepSize, draws)[i] == current
    ensures EndState(logTarget, current, stepSize, draws) == current
  {
    if draws != [] {
      NoAcceptsStays(logTarget, current, stepSize, draws[1..]);
    }
  }

  /** The number of iterations a block of the given length runs
      (a range over a non-positive length is empty). */
  function Iterations(blockLength: int): nat
  {
    if blockLength > 0 then blockLength else 0
  }

  /** The number of iterations all the blocks run together. */
  function TotalIterations(blockLengths: seq<int>): nat
  {
    if blockLengths == [] then 0
    else Iterations(blockLengths[0]) + TotalIterations(blockLengths[1..])
  }

  /** x times 2 to the power k, for any integer k. */
  function Rescale(x: real, k: int): (r: real)
    ensures x > 0.0 ==> r > 0.0
    decreases if k < 0 then -k else k
  {
    if k == 0 then x
    else if k > 0 then Rescale(x, k - 1) * 2.0
    else Rescale(x, k + 1) / 2.0
  }

  /** One more power of two doubles the value, whatever the sign of k. */
  lemma RescaleStep(x: real, k: int)
    ensures Rescale(x, k + 1) == Rescale(x, k) * 2.0
  {
  }

  /** Rescaling by 2^j and then by 2^k is rescaling by 2^(j + k). */
  lemma {:induction false} RescaleCompose(x: real, j: int, k: int)
    ensures Rescale(Rescale(x, j), k) == Rescale(x, j + k)
    decreases if k < 0 then -k else k
  {
    if k > 0 {
      RescaleCompose(x, j, k - 1);
      RescaleStep(x, j + k - 1);
    } else if k < 0 {
      RescaleCompose(x, j, k + 1);
      RescaleStep(x, j + k);
    }
  }

  /** The step size after a block with the given acceptance fraction:
      halved below 0.1, doubled above 0.6, otherwise kept. */
  function NewStepSize(stepSize: real, rate: real): (r: real)
    ensures stepSize > 0.0 ==> r > 0.0
    ensures stepSize > 0.0 ==> (r < stepSize <==> rate < 0.1)
    ensures stepSize > 0.0 ==> (r > stepSize <==> rate > 0.6)
  {
    if rate < 0.1 then stepSize / 2.0
    else if rate > 0.6 then stepSize * 2.0
    else stepSize
  }

  /** The new step size is the old one times 2^j for j in {-1, 0, 1}. */
  lemma NewStepSizeScale(stepSize: real, rate: real) returns (j: int)
    ensures -1 <= j <= 1
    ensures NewStepSize(stepSize, rate) == Rescale(stepSize, j)
  {
    j := if rate < 0.1 then -1 else if rate > 0.6 then 1 else 0;
    assert Rescale(stepSize, 1) == Rescale(stepSize, 0) * 2.0;
    assert Rescale(stepSize, -1) == Rescale(stepSize, 0) / 2.0;
  }

  /** A higher acceptance fraction never yields a smaller step size. */
  lemma NewStepSizeMonotone(stepSize: real, rate1: real, rate2: real)
    requires stepSize > 0.0 && rate1 <= rate2
    ensures NewStepSize(stepSize, rate1) <= NewStepSize(stepSize, rate2)
  {
  }

  /** The acceptance fraction of one block of nonzero length. */
  function BlockRate(logTarget: real -> real, current: real, stepSize: real, blockLength: int, draws: seq<Draw>): (r: real)
    requires blockLength != 0 && |draws| == Iterations(blockLength)
    ensures 0.0 <= r <= 1.0
  {
    var accepts := AcceptCount(logTarget, current, stepSize, draws);
    if blockLength > 0 then
      DivBounds(accepts as real, blockLength as real, 0.0, 1.0);
      accepts as real / blockLength as real
    else
      assert accepts == 0;
      accepts as real / blockLength as real
  }

  /** The outcome of an adaptation run: whether every block completed (a
      zero-length block stops the run with a division by zero), the state,
      step size and history reached, and the acceptance fraction of the last
      completed block. */
  datatype Tuning = Tuning(ok: bool, current: real, stepSize: real, samples: seq<real>, rate: real)

  /** Blocks run in order, each at the step size the previous one left and
      each appending its trajectory to the history `samples`; `rate` is the
      fraction reported if no further block completes. */
  function Tune(logTarget: real -> real, current: real, stepSize: real, rate: real, samples: seq<real>,
                blockLengths: seq<int>, draws: seq<Draw>): Tuning
    requires |draws| == TotalIterations(blockLengths)
    decreases |blockLengths|
  {
    if blockLengths == [] then Tuning(true, current, stepSize, samples, rate)
    else if blockLengths[0] == 0 then Tuning(false, current, stepSize, samples, rate)
    else
      var n := Iterations(blockLengths[0]);
      var blockRate := BlockRate(logTarget, current, stepSize, blockLengths[0], draws[..n]);
      Tune(logTarget, EndState(logTarget, current, stepSize, draws[..n]), NewStepSize(stepSize, blockRate),
           blockRate, samples + Trajectory(logTarget, current, stepSize, draws[..n]), blockLengths[1..], draws[n..])
  }

  /** Adaptation completes exactly when no block has length zero. */
  lemma {:induction false} TuneOk(logTarget: real -> real, current: real, stepSize: real, rate: real,
                                  samples: seq<real>, blockLengths: seq<int>, draws: seq<Draw>)
    requires |draws| == TotalIterations(blockLengths)
    decreases |blockLengths|
    ensures Tune(logTarget, current, stepSize, rate, samples, blockLengths, draws).ok
            <==> forall i :: 0 <= i < |blockLengths| ==> blockLengths[i] != 0
  {
    if blockLengths != [] && blockLengths[0] != 0 {
      var n := Iterations(blockLengths[0]);
      var blockRate := BlockRate(logTarget, current, stepSize, blockLengths[0], draws[..n]);
      TuneOk(logTarget, EndState(logTarget, current, stepSize, draws[..n]), NewStepSize(stepSize, blockRate),
             blockRate, samples + Trajectory(logTarget, current, stepSize, draws[..n]), blockLengths[1..], draws[n..]);
      assert forall i :: 1 <= i < |blockLengths| ==> blockLengths[i] == blockLengths[1..][i - 1];
    }
  }

  /** Adaptation only appends to the history: a completed run appends one
      value per iteration of every block, an interrupted one no more. */
  lemma {:induction false} TuneHistory(logTarget: real -> real, current: real, stepSize: real, rate: real,
                                       samples: seq<real>, blockLengths: seq<int>, draws: seq<Draw>)
    requires |draws| == TotalIterations(blockLengths)
    decreases |blockLengths|
    ensures var t := Tune(logTarget, current, stepSize, rate, samples, blockLengths, draws);
            && |samples| <= |t.samples| <= |samples| + TotalIterations(blockLengths)
            && t.samples[..|samples|] == samples
            && (t.ok ==> |t.samples| == |samples| + TotalIterations(blockLengths))
  {
    if blockLengths != [] && blockLengths[0] != 0 {
      var n := Iterations(blockLengths[0]);
      var blockRate := BlockRate(logTarget, current, stepSize, blockLengths[0], draws[..n]);
      var extended := samples + Trajectory(logTarget, current, stepSize, draws[..n]);
      TuneHistory(logTarget, EndState(logTarget, current, stepSize, draws[..n]), NewStepSize(stepSize, blockRate),
                  blockRate, extended, blockLengths[1..], draws[n..]);
      var t := Tune(logTarget, current, stepSize, rate, samples, blockLengths, draws);
      assert t.samples[..|samples|] == t.samples[..|extended|][..|samples|] == extended[..|samples|];
    }
  }

  /** If the history ends with the current state, the history adaptation
      leaves ends with the state it reaches. */
  lemma {:induction false} TuneEnds(logTarget: real -> real, current: real, stepSize: real, rate: real,
                                    samples: seq<real>, blockLengths: seq<int>, draws: seq<Draw>)
    requires |draws| == TotalIterations(blockLengths)
    requires samples != [] && samples[|samples| - 1] == current
    decreases |blockLengths|
    ensures var t := Tune(logTarget, current, stepSize, rate, samples, blockLengths, draws);
            t.samples != [] && t.samples[|t.samples| - 1] == t.current
  {
    if blockLengths != [] && blockLengths[0] != 0 {
      var n := Iterations(blockLengths[0]);
      var end := EndState(logTarget, current, stepSize, draws[..n]);
      var blockRate := BlockRate(logTarget, current, stepSize, blockLengths[0], draws[..n]);
      var extended := samples + Trajectory(logTarget, current, stepSize, draws[..n]);
      if n > 0 {
        TrajectoryEnds(logTarget, current, stepSize, draws[..n]);
      }
      assert extended[|extended| - 1] == end;
      TuneEnds(logTarget, end, NewStepSize(stepSize, blockRate), blockRate, extended, blockLengths[1..], draws[n..]);
    }
  }

  /** Over the whole run the step size is multiplied by 2^k with
      |k| no larger than the number of blocks, so it stays positive. */
  lemma {:induction false} TuneStepSize(logTarget: real -> real, current: real, stepSize: real, rate: real,
                                        samples: seq<real>, blockLengths: seq<int>, draws: seq<Draw>) returns (k: int)
    requires |draws| == TotalIterations(blockLengths)
    decreases |blockLengths|
    ensures -|blockLengths| <= k <= |blockLengths|
    ensures Tune(logTarget, current, stepSize, rate, samples, blockLengths, draws).stepSize == Rescale(stepSize, k)
    ensures stepSize > 0.0 ==> Tune(logTarget, current, stepSize, rate, samples, blockLengths, draws).stepSize > 0.0
  {
    if blockLengths == [] || blockLengths[0] == 0 {
      k := 0;
    } else {
      var n := Iterations(blockLengths[0]);
      var blockRate := BlockRate(logTarget, current, stepSize, blockLengths[0], draws[..n]);
      var next := NewStepSize(stepSize, blockRate);
      var j := NewStepSizeScale(stepSize, blockRate);
      var k' := TuneStepSize(logTarget, EndState(logTarget, current, stepSize, draws[..n]), next, blockRate,
                             samples + Trajectory(logTarget, current, stepSize, draws[..n]), blockLengths[1..], draws[n..]);
      RescaleCompose(stepSize, j, k');
      k := j + k';
    }
  }

  /** The reported fraction lies in [0, 1]. */
  lemma {:induction false} TuneRate(logTarget: real -> real, current: real, stepSize: real, rate: real,
                                    samples: seq<real>, blockLengths: seq<int>, draws: seq<Draw>)
    requires |draws| == TotalIterations(blockLengths)
    requires 0.0 <= rate <= 1.0
    decreases |blockLengths|
    ensures 0.0 <= Tune(logTarget, current, stepSize, rate, samples, blockLengths, draws).rate <= 1.0
  {
    if blockLengths != [] && blockLengths[0] != 0 {
      var n := Iterations(blockLengths[0]);
      var blockRate := BlockRate(logTarget, current, stepSize, blockLengths[0], draws[..n]);
      TuneRate(logTarget, EndState(logTarget, current, stepSize, draws[..n]), NewStepSize(stepSize, blockRate),
               blockRate, samples + Trajectory(logTarget, current, stepSize, draws[..n]), blockLengths[1..], draws[n..]);
    }
  }

  lemma {:induction false} TotalIterationsAppend(xs: seq<int>, ys: seq<int>)
    ensures TotalIterations(xs + ys) == TotalIterations(xs) + TotalIterations(ys)
  {
    if xs == [] {
      assert xs + ys == ys;
    } else {
      assert (xs + ys)[0] == xs[0] && (xs + ys)[1..] == xs[1..] + ys;
      TotalIterationsAppend(xs[1..], ys);
    }
  }

  /** Running two lists of blocks one after the other is running their
      concatenation: the second starts from the state, step size, rate and
      history the first leaves, and nothing runs after an interrupted first
      part. */
  lemma {:induction false} TuneCompose(logTarget: real -> real, current: real, stepSize: real, rate: real,
                                       samples: seq<real>, first: seq<int>, second: seq<int>,
                                       draws1: seq<Draw>, draws2: seq<Draw>)
    requires |draws1| == TotalIterations(first) && |draws2| == TotalIterations(second)
    decreases |first|
    ensures TotalIterations(first + second) == |draws1 + draws2|
    ensures var t1 := Tune(logTarget, current, stepSize, rate, samples, first, draws1);
            Tune(logTarget, current, stepSize, rate, samples, first + second, draws1 + draws2)
              == if t1.ok then Tune(logTarget, t1.current, t1.stepSize, t1.rate, t1.samples, second, draws2) else t1
  {
    TotalIterationsAppend(first, second);
    if first == [] {
      assert first + second == second && draws1 + draws2 == draws2;
    } else {
      var blocks, draws := first + second, draws1 + draws2;
      assert blocks[0] == first[0] && blocks[1..] == first[1..] + second;
      if first[0] != 0 {
        var n := Iterations(first[0]);
        assert draws[..n] == draws1[..n];
        assert draws[n..] == draws1[n..] + draws2;
        var end := EndState(logTarget, current, stepSize, draws1[..n]);
        var blockRate := BlockRate(logTarget, current, stepSize, first[0], draws1[..n]);
        var next := NewStepSize(stepSize, blockRate);
        var extended := samples + Trajectory(logTarget, current, stepSize, draws1[..n]);
        assert Tune(logTarget, current, stepSize, rate, samples, first, draws1)
            == Tune(logTarget, end, next, blockRate, extended, first[1..], draws1[n..]);
        assert Tune(logTarget, current, stepSize, rate, samples, blocks, draws)
            == Tune(logTarget, end, next, blockRate, extended, blocks[1..], draws[n..]);
        TuneCompose(logTarget, end, next, blockRate, extended, first[1..], second, draws1[n..], draws2);
      }
    }
  }

  /** Only the last block's acceptance fraction is reported, and the last
      block alone decides the final step size from the one it started with. */
  lemma TuneLastBlock(logTarget: real -> real, current: real, stepSize: real, rate: real, samples: seq<real>,
                      blockLengths: seq<int>, blockLength: int, draws: seq<Draw>, lastDraws: seq<Draw>)
    requires |draws| == TotalIterations(blockLengths) && |lastDraws| == Iterations(blockLength)
    requires blockLength != 0
    requires Tune(logTarget, current, stepSize, rate, samples, blockLengths, draws).ok
    ensures TotalIterations(blockLengths + [blockLength]) == |draws + lastDraws|
    ensures var before := Tune(logTarget, current, stepSize, rate, samples, blockLengths, draws);
            var after := Tune(logTarget, current, stepSize, rate, samples, blockLengths + [blockLength], draws + lastDraws);
            var blockRate := BlockRate(logTarget, before.current, before.stepSize, blockLength, lastDraws);
            after.ok && after.rate == blockRate && after.stepSize == NewStepSize(before.stepSize, blockRate)
  {
    TuneCompose(logTarget, current, stepSize, rate, samples, blockLengths, [blockLength], draws, lastDraws);
    assert lastDraws[..Iterations(blockLength)] == lastDraws;
  }

  /** The sampler. Its history `samples` is never empty and ends with the
      current state, and its step size is positive. */
  class Sampler {
    const logTarget: real -> real
    var currentState: real
    var stepSize: real
    var samples: seq<real>
    var acceptanceRate: Option<real>

    ghost predicate Valid()
      reads this
    {
      |samples| > 0 && samples[|samples| - 1] == currentState && stepSize > 0.0
    }

    constructor (logTarget: real -> real, initialState: real)
      ensures Valid()
      ensures this.logTarget == logTarget && currentState == initialState
      ensures stepSize == 1.0 && samples == [initialState] && acceptanceRate == None
    {
      this.logTarget := logTarget;
      currentState := initialState;
      stepSize := 1.0;
      samples := [initialState];
      acceptanceRate := None;
    }

    /** One accept/reject decision on the given proposal. */
    method Accept(proposal: real, logU: real) returns (accepted: bool)
      requires Valid()
      modifies this`currentState, this`samples
      ensures Valid()
      ensures accepted <==> Accepts(logTarget, old(currentState), proposal, logU)
      ensures currentState == if accepted then proposal else old(currentState)
      ensures samples == old(samples) + [currentState]
      ensures stepSize == old(stepSize) && acceptanceRate == old(acceptanceRate)
    {
      var logRatio := logTarget(proposal) - logTarget(currentState);
      if logU < logRatio {
        currentState := proposal;
        samples := samples + [proposal];
        accepted := true;
      } else {
        samples := samples + [currentState];
        accepted := false;
      }
    }

    /** Runs one iteration at the current step size on draw d. */
    method Step(d: Draw) returns (accepted: bool)
      requires Valid()
      modifies this`currentState, this`samples
      ensures Valid()
      ensures accepted <==> Accepts(logTarget, old(currentState), Proposal(old(currentState), stepSize, d.z), d.logU)
      ensures currentState == NextState(logTarget, old(currentState), stepSize, d)
      ensures samples == old(samples) + [currentState]
      ensures stepSize == old(stepSize) && acceptanceRate == old(acceptanceRate)
    {
      var proposal := Proposal(currentState, stepSize, d.z);
      accepted := Accept(proposal, d.logU);
    }

    /** Runs nSamples iterations (none when nSamples <= 0) at the current
        step size, one per draw. */
    method Sample(nSamples: int, draws: seq<Draw>)
      requires Valid()
      requires |draws| == Iterations(nSamples)
      modifies this`currentState, this`samples
      ensures Valid()
      ensures samples == old(samples) + Trajectory(logTarget, old(currentState), stepSize, draws)
      ensures |samples| == |old(samples)| + Iterations(nSamples)
      ensures currentState == EndState(logTarget, old(currentState), stepSize, draws)
      ensures stepSize == old(stepSize) && acceptanceRate == old(acceptanceRate)
    {
      var i := 0;
      while i < nSamples
        invariant 0 <= i <= |draws|
        invariant Valid()
        invariant samples == old(samples) + Trajectory(logTarget, old(currentState), stepSize, draws[..i])
        invariant currentState == EndState(logTarget, old(currentState), stepSize, draws[..i])
      {
        RunSnoc(logTarget, old(currentState), stepSize, draws[..i], draws[i]);
        assert draws[..i + 1] == draws[..i] + [draws[i]];
        var _ := Step(draws[i]);
        i := i + 1;
      }
      assert draws[..i] == draws;
    }

    /** Runs one adaptation block of the given length (no iterations when
        it is not positive) and counts the accepted proposals. */
    method RunBlock(blockLength: int, draws: seq<Draw>) returns (accepts: nat)
      requires Valid()
      requires |draws| == Iterations(blockLength)
      modifies this`currentState, this`samples
      ensures Valid()
      ensures samples == old(samples) + Trajectory(logTarget, old(currentState), stepSize, draws)
      ensures currentState == EndState(logTarget, old(currentState), stepSize, draws)
      ensures accepts == AcceptCount(logTarget, old(currentState), stepSize, draws)
      ensures stepSize == old(stepSize) && acceptanceRate == old(acceptanceRate)
    {
      accepts := 0;
      var i := 0;
      while i < blockLength
        invariant 0 <= i <= |draws|
        invariant Valid()
        invariant samples == old(samples) + Trajectory(logTarget, old(currentState), stepSize, draws[..i])
        invariant currentState == EndState(logTarget, old(currentState), stepSize, draws[..i])
        invariant accepts == AcceptCount(logTarget, old(currentState), stepSize, draws[..i])
      {
        RunSnoc(logTarget, old(currentState), stepSize, draws[..i], draws[i]);
        assert draws[..i + 1] == draws[..i] + [draws[i]];
        var accepted := Step(draws[i]);
        if accepted {
          accepts := accepts + 1;
        }
        i := i + 1;
      }
      assert draws[..i] == draws;
    }

    /** Runs one block and retunes the step size from its acceptance
        fraction; a zero-length block fails at the division instead. */
    method AdaptBlock(blockLength: int, draws: seq<Draw>) returns (ok: bool, rate: real)
      requires Valid()
      requires |draws| == Iterations(blockLength)
      modifies this`currentState, this`samples, this`stepSize
      ensures Valid()
      ensures samples == old(samples) + Trajectory(logTarget, old(currentState), old(stepSize), draws)
      ensures currentState == EndState(logTarget, old(currentState), old(stepSize), draws)
      ensures ok <==> blockLength != 0
      ensures ok ==> rate == BlockRate(logTarget, old(currentState), old(stepSize), blockLength, draws)
      ensures stepSize == if ok then NewStepSize(old(stepSize), rate) else old(stepSize)
      ensures acceptanceRate == old(acceptanceRate)
    {
      var accepts := RunBlock(blockLength, draws);
      if blockLength == 0 {
        return false, 0.0;
      }
      rate := accepts as real / blockLength as real;
      if rate < 0.1 {
        stepSize := stepSize / 2.0;
      } else if rate > 0.6 {
        stepSize := stepSize * 2.0;
      }
      ok := true;
    }

    /** Runs the blocks in order; after each block the step size is halved
        if the block's acceptance fraction is below 0.1 and doubled if it is
        above 0.6. Only the last block's fraction is kept (0 when there are
        no blocks). A zero-length block stops the run (ok is false) with the
        earlier blocks' effects kept and acceptanceRate untouched. */
    method Adapt(blockLengths: seq<int>, draws: seq<Draw>) returns (ok: bool)
      requires Valid()
      requires |draws| == TotalIterations(blockLengths)
      modifies this
      ensures Valid()
      ensures var t := Tune(logTarget, old(currentState), old(stepSize), 0.0, old(samples), blockLengths, draws);
              && ok == t.ok
              && currentState == t.current
              && stepSize == t.stepSize
              && samples == t.samples
              && acceptanceRate == (if t.ok then Some(t.rate) else old(acceptanceRate))
    {
      ghost var whole := Tune(logTarget, currentState, stepSize, 0.0, samples, blockLengths, draws);
      var rate := 0.0;
      var remaining, pending := blockLengths, draws;
      while remaining != []
        modifies this`currentState, this`samples, this`stepSize
        invariant |pending| == TotalIterations(remaining)
        invariant Valid()
        invariant whole == Tune(logTarget, currentState, stepSize, rate, samples, remaining, pending)
        decreases |remaining|
      {
        var blockLength := remaining[0];
        var n := Iterations(blockLength);
        var blockOk, blockRate := AdaptBlock(blockLength, pending[..n]);
        if !blockOk {
          return false;
        }
        rate := blockRate;
        remaining, pending := remaining[1..], pending[n..];
      }
      acceptanceRate := Some(rate);
      ok := true;
    }

    /** The mean and the 2.5th and 97.5th percentiles of the whole history. */
    function Summary(): (s: SampleStats.Summary)
      reads this
      requires Valid()
      ensures SampleStats.Min(samples) <= s.mean <= SampleStats.Max(samples)
      ensures SampleStats.Min(samples) <= s.c025 <= s.c975 <= SampleStats.Max(samples)
    {
      SampleStats.Summarize(samples)
    }
  }
}
