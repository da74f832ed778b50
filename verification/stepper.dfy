/** The heat sample's `_tmain` (`Main.cpp`): the hot point, and the
    double-buffered loop that runs an x pass, swaps the input and output
    images, runs a y pass, and repeats until `read_and_verify` reports
    convergence.  Each pass's binding and dispatch statuses and each
    round's verification result are oracles; `F` stands for `cl_float`. */
module Stepper {
  import opened Basics
  import opened ClStatus
  import opened Dispatch

  const PLATE_WIDTH: nat := 16
  const PLATE_HEIGHT: nat := 16

  /** `(array_width / 2, array_height / 2)` in unsigned arithmetic. */
  function HotPoint(width: nat, height: nat): (p: (nat, nat))
    ensures width > 0 ==> p.0 < width
    ensures height > 0 ==> p.1 < height
    ensures 2 * p.0 <= width < 2 * p.0 + 2 && 2 * p.1 <= height < 2 * p.1 + 2
  {
    (width / 2, height / 2)
  }

  /** The two image handles the kernel reads from and writes to. */
  datatype Images = Images(input: Handle, output: Handle)

  /** The three-line swap through `aux`. */
  function Swap(images: Images): (r: Images)
    ensures r.input == images.output && r.output == images.input
  {
    Images(images.output, images.input)
  }

  /** Swapping twice restores the original assignment. */
  lemma SwapTwice(images: Images)
    ensures Swap(Swap(images)) == images
  {
  }

  /** The assignment after `n` swaps. */
  function SwapN(images: Images, n: nat): (r: Images)
    ensures n % 2 == 0 ==> r == images
    ensures n % 2 == 1 ==> r == Swap(images)
  {
    if n == 0 then images else Swap(SwapN(images, n - 1))
  }

  /** The oracles of one `set_kernel_arguments` + `execute_add_kernel` pass. */
  datatype PassOracle<!F> = PassOracle(setStatus: (nat, KernelArg<F>) -> ClInt, enqueueStatus: ClInt, finishStatus: ClInt)

  /** The oracles of one loop round: two passes and the verification result. */
  datatype Round<!F> = Round(x: PassOracle<F>, y: PassOracle<F>, converged: bool)

  /** A pass succeeds when all six `clSetKernelArg` calls, the enqueue and
      `clFinish` succeed; `PassSucceedsIffCodesZero` shows this is exactly
      when `set_kernel_arguments` and then `execute_add_kernel` return 0. */
  predicate PassSucceeds<F>(images: Images, axis: char, temperature: F, pass: PassOracle<F>) {
    && (forall k | 0 <= k < 6 ::
          pass.setStatus(k, HeatArgs(images.input, images.output, PLATE_WIDTH, PLATE_HEIGHT, temperature, axis)[k]) == CL_SUCCESS)
    && pass.enqueueStatus == CL_SUCCESS
    && pass.finishStatus == CL_SUCCESS
  }

  /** The two `if (CL_SUCCESS != ...) return -1;` tests of a pass both fall
      through exactly when `PassSucceeds` holds. */
  lemma PassSucceedsIffCodesZero<F>(images: Images, axis: char, temperature: F, pass: PassOracle<F>)
    ensures PassSucceeds(images, axis, temperature, pass) <==>
      && SetHeatKernelArguments(images.input, images.output, PLATE_WIDTH, PLATE_HEIGHT, temperature, axis, pass.setStatus).0 == 0
      && ExecuteKernel(PLATE_WIDTH, PLATE_HEIGHT, pass.enqueueStatus, pass.finishStatus).0 == 0
  {
  }

  /** Both passes of a round succeed: x on `images`, then y on the swapped pair. */
  predicate RoundSucceeds<F>(images: Images, round: Round<F>, temperature: F) {
    PassSucceeds(images, 'x', temperature, round.x) && PassSucceeds(Swap(images), 'y', temperature, round.y)
  }

  /** What the loop did: a pass on the given images, or a verification. */
  datatype Event = Pass(axis: char, images: Images) | Verify(images: Images)

  /** The loop's result: `exit` is -1 after a failed pass, 0 after
      convergence, and `None` while the rounds supplied ran out first. */
  datatype LoopOutcome = LoopOutcome(exit: Option<int>, images: Images, rounds: nat, events: seq<Event>)

  /** The `do { ... } while (false == read_and_verify(...))` loop over the
      rounds the oracle supplies. */
  function StepLoop<F>(images: Images, rounds: seq<Round<F>>, temperature: F): (r: LoopOutcome)
    ensures r.rounds <= |rounds|
    ensures r.exit == None || r.exit == Some(0) || r.exit == Some(-1)
    // the loop exits normally only in a round whose verification said
    // converged, and every earlier round said not converged
    ensures r.exit == Some(0) ==> r.rounds > 0 && rounds[r.rounds - 1].converged
    ensures forall k | 0 <= k < r.rounds - 1 :: !rounds[k].converged
    ensures r.exit.None? ==> r.rounds == |rounds| && forall k | 0 <= k < |rounds| :: !rounds[k].converged
    // every round before the last one run had both passes succeed
    ensures forall k | 0 <= k < r.rounds - 1 :: RoundSucceeds(SwapN(images, k), rounds[k], temperature)
    // -1 exactly when a pass of the last round run failed
    ensures r.exit == Some(-1) <==>
      r.rounds > 0 && !RoundSucceeds(SwapN(images, r.rounds - 1), rounds[r.rounds - 1], temperature)
    // a round whose passes succeed and which converged ends the loop with 0
    ensures (r.rounds > 0 && RoundSucceeds(SwapN(images, r.rounds - 1), rounds[r.rounds - 1], temperature)
             && rounds[r.rounds - 1].converged) ==> r.exit == Some(0)
    // each completed round swaps the images once
    ensures r.exit != Some(-1) ==> r.images == SwapN(images, r.rounds)
    decreases |rounds|
  {
    if |rounds| == 0 then LoopOutcome(None, images, 0, [])
    else
      var round := rounds[0];
      if !PassSucceeds(images, 'x', temperature, round.x) then
        LoopOutcome(Some(-1), images, 1, [Pass('x', images)])
      else
        var swapped := Swap(images);
        if !PassSucceeds(swapped, 'y', temperature, round.y) then
          LoopOutcome(Some(-1), swapped, 1, [Pass('x', images), Pass('y', swapped)])
        else
          var events := [Pass('x', images), Pass('y', swapped), Verify(swapped)];
          if round.converged then LoopOutcome(Some(0), swapped, 1, events)
          else
            var rest := StepLoop(swapped, rounds[1..], temperature);
            SwapNShift(images, rest.rounds);
            LoopOutcome(rest.exit, rest.images, rest.rounds + 1, events + rest.events)
  }

  lemma SwapNShift(images: Images, n: nat)
    ensures SwapN(Swap(images), n) == SwapN(images, n + 1)
  {
  }

  /** Each round runs the x pass on the current images, then the y pass on
      the swapped ones, and verifies the swapped ones. */
  lemma {:induction false} RoundShape<F>(images: Images, rounds: seq<Round<F>>, temperature: F)
    requires |rounds| > 0
    requires PassSucceeds(images, 'x', temperature, rounds[0].x)
    requires PassSucceeds(Swap(images), 'y', temperature, rounds[0].y)
    ensures StepLoop(images, rounds, temperature).events[..3] == [Pass('x', images), Pass('y', Swap(images)), Verify(Swap(images))]
  {
    var r := StepLoop(images, rounds, temperature);
    var events := [Pass('x', images), Pass('y', Swap(images)), Verify(Swap(images))];
    if !rounds[0].converged {
      var rest := StepLoop(Swap(images), rounds[1..], temperature);
      assert r.events == events + rest.events;
      assert (events + rest.events)[..3] == events;
    }
  }

  /** A failed pass is the last thing the loop does. */
  lemma {:induction false} FailureIsFinal<F>(images: Images, rounds: seq<Round<F>>, temperature: F)
    requires StepLoop(images, rounds, temperature).exit == Some(-1)
    ensures var r := StepLoop(images, rounds, temperature);
      |r.events| > 0 && r.events[|r.events| - 1].Pass?
    decreases |rounds|
  {
    var round := rounds[0];
    if PassSucceeds(images, 'x', temperature, round.x) && PassSucceeds(Swap(images), 'y', temperature, round.y) {
      FailureIsFinal(Swap(images), rounds[1..], temperature);
    }
  }

  /** The stages of `_tmain` that were reached. */
  datatype Stage = StartOpenCl | AllocateHost | FillPlate | MakeImages | MakeKernel | Loop

  datatype MainOutcome = MainOutcome(exit: Option<int>, stages: seq<Stage>, loop: Option<LoopOutcome>)

  /** `_tmain` of `Main.cpp`, given the statuses of `setup_open_cl`,
      `create_buffer_arguments` and `setup_ocl_kernel`. */
  function Run<F>(
    setupStatus: ClInt, inputAllocated: bool, outputAllocated: bool, buffersStatus: ClInt, kernelStatus: ClInt,
    images: Images, rounds: seq<Round<F>>, airTemperature: F): (r: MainOutcome)
    // a failed host allocation returns -1 before any device image is created
    ensures setupStatus == CL_SUCCESS && !(inputAllocated && outputAllocated) ==>
      r.exit == Some(-1) && MakeImages !in r.stages
    // the loop is entered only once every setup step has succeeded
    ensures r.loop.Some? <==>
      setupStatus == CL_SUCCESS && inputAllocated && outputAllocated && buffersStatus == CL_SUCCESS && kernelStatus == CL_SUCCESS
    ensures r.loop.Some? ==> r.exit == r.loop.value.exit && r.loop.value == StepLoop(images, rounds, airTemperature)
    ensures r.loop.None? ==> r.exit == Some(-1)
  {
    if setupStatus != CL_SUCCESS then MainOutcome(Some(-1), [StartOpenCl], None)
    else if !(inputAllocated && outputAllocated) then MainOutcome(Some(-1), [StartOpenCl, AllocateHost], None)
    else if buffersStatus != CL_SUCCESS then MainOutcome(Some(-1), [StartOpenCl, AllocateHost, FillPlate, MakeImages], None)
    else if kernelStatus != CL_SUCCESS then MainOutcome(Some(-1), [StartOpenCl, AllocateHost, FillPlate, MakeImages, MakeKernel], None)
    else
      var loop := StepLoop(images, rounds, airTemperature);
      MainOutcome(loop.exit, [StartOpenCl, AllocateHost, FillPlate, MakeImages, MakeKernel, Loop], Some(loop))
  }
}
