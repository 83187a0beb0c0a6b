/**
 * The order-status stepper of the staff dashboard: an order's status string is
 * projected onto the fixed fulfilment stages PENDING, ACCEPTED, PACKED, SHIPPED,
 * DELIVERED, or onto a separate terminal marker for CANCELLED and RETURNED.
 * Everything here is a pure function of the status.
 */
module OrderTracking {
  import opened Options

  /** The linear fulfilment stages, in order. */
  const Steps: seq<string> := ["PENDING", "ACCEPTED", "PACKED", "SHIPPED", "DELIVERED"]

  const Cancelled: string := "CANCELLED"
  const Returned: string := "RETURNED"

  /** `xs.indexOf(x)`: the position of the first element equal to `x`, or -1 when there is none. */
  function IndexOf(xs: seq<string>, x: string): (r: int)
    ensures -1 <= r < |xs|
    ensures r >= 0 ==> xs[r] == x && forall j :: 0 <= j < r ==> xs[j] != x
    ensures r == -1 <==> x !in xs
  {
    if xs == [] then -1
    else if xs[0] == x then 0
    else
      var k := IndexOf(xs[1..], x);
      assert xs == [xs[0]] + xs[1..];
      if k < 0 then -1 else k + 1
  }

  /** Every stage name starts with P, A, S or D; the terminal statuses start with C and R. */
  lemma StageInitials()
    ensures forall k :: 0 <= k < |Steps| ==> Steps[k][0] in {'P', 'A', 'S', 'D'}
    ensures Cancelled !in Steps && Returned !in Steps
  {
  }

  /** `isCancelled`; CANCELLED is not one of the stages. */
  predicate IsCancelled(status: string)
    ensures IsCancelled(status) ==> status !in Steps
  {
    StageInitials();
    status == Cancelled
  }

  /** `isReturned`; RETURNED is not one of the stages. */
  predicate IsReturned(status: string)
    ensures IsReturned(status) ==> status !in Steps
  {
    StageInitials();
    status == Returned
  }

  /** A terminal status has no stage index. */
  predicate IsTerminal(status: string)
    ensures IsTerminal(status) ==> CurrentIndex(status) == -1
  {
    IsCancelled(status) || IsReturned(status)
  }

  /** `currentIndex`: the stage position of `status`, compared exactly and case-sensitively, or -1. */
  function CurrentIndex(status: string): (r: int)
    ensures -1 <= r < |Steps|
    ensures r >= 0 ==> Steps[r] == status
    ensures r == -1 <==> status !in Steps
  {
    IndexOf(Steps, status)
  }

  /**
   * `progressPercent`: `currentIndex / (STEPS.length - 1) * 100` for a recognised stage, 0 otherwise.
   * The source computes it in floating point; for the indices 0..4 the value is exact, so it is an integer here.
   */
  function ProgressPercent(status: string): (p: int)
    ensures 0 <= p <= 100
    ensures CurrentIndex(status) >= 0 ==> p == 25 * CurrentIndex(status)
    ensures CurrentIndex(status) < 0 ==> p == 0
  {
    var i := CurrentIndex(status);
    assert |Steps| - 1 == 4;
    if i >= 0 then
      ExactQuarter(i);
      i * 100 / (|Steps| - 1)
    else 0
  }

  /** For the stage indices, dividing by 4 loses nothing. */
  lemma ExactQuarter(i: int)
    requires 0 <= i <= 4
    ensures i * 100 / 4 == 25 * i
  {
    assert i == 0 || i == 1 || i == 2 || i == 3 || i == 4;
  }

  /** What a stage circle shows: a check mark once completed, otherwise its one-based number. */
  datatype Badge = Check | Number(n: nat)

  datatype StepView = StepView(name: string, completed: bool, current: bool, badge: Badge)

  datatype TerminalKind = CancelledMarker | ReturnedMarker

  /** The marker drawn after the stages for a terminal order, labelled with the status itself. */
  datatype TerminalView = TerminalView(kind: TerminalKind, caption: string)

  /**
   * The rendered stepper: the stage circles, the orange progress line (absent or its width in percent),
   * the truck (absent or its position in percent) and the terminal marker (absent or present).
   */
  datatype TrackingView = TrackingView(
    steps: seq<StepView>,
    progressLine: Option<int>,
    truck: Option<int>,
    terminal: Option<TerminalView>)

  /** One entry of `STEPS.map((step, index) => ...)`. */
  function StepAt(status: string, index: nat): (v: StepView)
    requires index < |Steps|
    ensures v.name == Steps[index]
    ensures v.completed <==> CurrentIndex(status) >= index
    ensures v.current <==> CurrentIndex(status) == index
    ensures v.current ==> v.completed
    ensures v.badge == if v.completed then Check else Number(index + 1)
  {
    var completed := !IsCancelled(status) && !IsReturned(status) && CurrentIndex(status) >= index;
    var current := !IsCancelled(status) && !IsReturned(status) && CurrentIndex(status) == index;
    StepView(Steps[index], completed, current, if completed then Check else Number(index + 1))
  }

  /** The whole stepper for one status. */
  function Track(status: string): (v: TrackingView)
    ensures |v.steps| == |Steps|
    ensures forall i :: 0 <= i < |Steps| ==> v.steps[i] == StepAt(status, i)
  {
    var linear := !IsCancelled(status) && !IsReturned(status);
    TrackingView(
      seq(|Steps|, i requires 0 <= i < |Steps| => StepAt(status, i)),
      if linear then Some(ProgressPercent(status)) else None,
      if linear && CurrentIndex(status) >= 0 then Some(ProgressPercent(status)) else None,
      if IsCancelled(status) then Some(TerminalView(CancelledMarker, status))
      else if IsReturned(status) then Some(TerminalView(ReturnedMarker, status))
      else None)
  }

  /** The three ways a status string can be read. */
  datatype Phase = Linear(index: nat) | Terminal | Unrecognised

  /** Which of the three exclusive cases a status falls into. */
  function Classify(status: string): (ph: Phase)
    ensures ph.Linear? <==> status in Steps
    ensures ph.Linear? ==> ph.index < |Steps| && Steps[ph.index] == status
    ensures ph.Terminal? <==> IsTerminal(status)
    ensures ph.Unrecognised? <==> status !in Steps && !IsTerminal(status)
  {
    var i := CurrentIndex(status);
    if i >= 0 then Linear(i) else if IsTerminal(status) then Terminal else Unrecognised
  }

  /** The five stages are pairwise distinct, so a stage's position is unique. */
  lemma StepsDistinct()
    ensures forall i, j :: 0 <= i < j < |Steps| ==> Steps[i] != Steps[j]
  {
    assert Steps[0][0] != Steps[1][0] && Steps[0][1] != Steps[2][1];
    assert Steps[0][0] != Steps[3][0] && Steps[0][0] != Steps[4][0];
    assert Steps[1][0] != Steps[2][0] && Steps[1][0] != Steps[3][0] && Steps[1][0] != Steps[4][0];
    assert Steps[2][0] != Steps[3][0] && Steps[2][0] != Steps[4][0];
    assert Steps[3][0] != Steps[4][0];
  }

  /** Each stage's index is its zero-based position in the stage list. */
  lemma StageIndexIsPosition(i: nat)
    requires i < |Steps|
    ensures CurrentIndex(Steps[i]) == i
    ensures Classify(Steps[i]) == Linear(i)
  {
    StepsDistinct();
  }

  /** The terminal statuses are not stages. */
  lemma TerminalIsNotAStage(status: string)
    requires IsTerminal(status)
    ensures CurrentIndex(status) == -1
  {
  }

  /** Exactly one of: a linear stage (index at least 0), a terminal status, an unrecognised status. */
  lemma ExactlyOneCase(status: string)
    ensures Classify(status).Linear? <==> CurrentIndex(status) >= 0
    ensures Classify(status).Terminal? <==> IsTerminal(status)
    ensures Classify(status).Unrecognised? <==> CurrentIndex(status) < 0 && !IsTerminal(status)
    ensures !(CurrentIndex(status) >= 0 && IsTerminal(status))
  {
    if IsTerminal(status) {
      TerminalIsNotAStage(status);
    }
  }

  /** PENDING starts the line at 0 and DELIVERED takes it to 100. */
  lemma ProgressEnds()
    ensures ProgressPercent("PENDING") == 0
    ensures ProgressPercent("DELIVERED") == 100
  {
    StageIndexIsPosition(0);
    StageIndexIsPosition(4);
  }

  /** Every stage has the percentage 25 times its index, so the percentage strictly increases from stage to stage. */
  lemma ProgressStrictlyIncreasing(i: nat)
    requires i + 1 < |Steps|
    ensures ProgressPercent(Steps[i]) == 25 * i
    ensures ProgressPercent(Steps[i]) < ProgressPercent(Steps[i + 1])
  {
    StageIndexIsPosition(i);
    StageIndexIsPosition(i + 1);
  }

  /**
   * Stage `i` is completed exactly when the order is at a linear stage at or after `i`,
   * and current exactly when it is at stage `i`.
   */
  lemma StepFlags(status: string, i: nat)
    requires i < |Steps|
    ensures Track(status).steps[i].completed <==> Classify(status).Linear? && i <= Classify(status).index
    ensures Track(status).steps[i].current <==> Classify(status) == Linear(i)
    ensures Track(status).steps[i].badge == if Track(status).steps[i].completed then Check else Number(i + 1)
  {
    if IsTerminal(status) {
      TerminalIsNotAStage(status);
    }
  }

  /** The completed stages form a prefix of the stage list. */
  lemma CompletedStepsFormPrefix(status: string, i: nat, j: nat)
    requires i <= j < |Steps|
    requires Track(status).steps[j].completed
    ensures Track(status).steps[i].completed
  {
    StepFlags(status, i);
    StepFlags(status, j);
  }

  /** At most one stage is current, and the current stage is the last completed one. */
  lemma AtMostOneCurrent(status: string, i: nat, j: nat)
    requires i < |Steps| && j < |Steps|
    requires Track(status).steps[i].current && Track(status).steps[j].current
    ensures i == j
    ensures Track(status).steps[i].completed
    ensures forall k :: i < k < |Steps| ==> !Track(status).steps[k].completed
  {
    StepFlags(status, i);
    StepFlags(status, j);
    forall k | i < k < |Steps| ensures !Track(status).steps[k].completed {
      StepFlags(status, k);
    }
  }

  /** CANCELLED and RETURNED: no stage completed or current, no line, no truck, and the terminal marker. */
  lemma TerminalStatusView(status: string)
    requires IsTerminal(status)
    ensures forall i :: 0 <= i < |Steps| ==> !Track(status).steps[i].completed && !Track(status).steps[i].current
    ensures Track(status).progressLine == None && Track(status).truck == None
    ensures Track(status).terminal ==
      Some(TerminalView(if status == Cancelled then CancelledMarker else ReturnedMarker, status))
  {
  }

  /**
   * An unrecognised status draws like an order that has not started: nothing completed,
   * the line at 0, no truck, and no terminal marker.
   */
  lemma UnrecognisedView(status: string)
    requires Classify(status) == Unrecognised
    ensures forall i :: 0 <= i < |Steps| ==> !Track(status).steps[i].completed && !Track(status).steps[i].current
    ensures Track(status).progressLine == Some(0)
    ensures Track(status).truck == None && Track(status).terminal == None
  {
  }

  /** A linear stage `k`: stages up to `k` completed, `k` current, line and truck at 25k percent, no terminal marker. */
  lemma LinearView(k: nat)
    requires k < |Steps|
    ensures forall i :: 0 <= i < |Steps| ==> (Track(Steps[k]).steps[i].completed <==> i <= k)
    ensures forall i :: 0 <= i < |Steps| ==> (Track(Steps[k]).steps[i].current <==> i == k)
    ensures Track(Steps[k]).progressLine == Some(25 * k) && Track(Steps[k]).truck == Some(25 * k)
    ensures Track(Steps[k]).terminal == None
  {
    StageIndexIsPosition(k);
    StageIsNotTerminal(Steps[k]);
  }

  /** A stage name is never a terminal status. */
  lemma StageIsNotTerminal(status: string)
    requires status in Steps
    ensures !IsTerminal(status)
  {
    if IsTerminal(status) {
      TerminalIsNotAStage(status);
    }
  }

  /** The truck is drawn exactly for a linear stage, and then at the end of the progress line. */
  lemma TruckIff(status: string)
    ensures Track(status).truck.Some? <==> !IsTerminal(status) && CurrentIndex(status) >= 0
    ensures Track(status).truck.Some? ==> Track(status).truck == Track(status).progressLine
    ensures Track(status).truck.Some? <==> Classify(status).Linear?
  {
    if IsTerminal(status) {
      TerminalIsNotAStage(status);
    }
  }
}
