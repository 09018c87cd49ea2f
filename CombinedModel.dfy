/** The `CombinedModel` component of the 3D viewer: which table top it renders,
    and the two state slots it keeps, the height at which the top sits
    (`tableHeight`) and whether it has been placed (`isPositioned`).

    The height is decided by timer callbacks that measure the bounding box of
    the base. Measuring belongs to the 3D library, so each measurement is an
    input: an empty box, a box whose top is at `maxY`, or an exception. The
    timers themselves are not modelled; what is kept is the order in which
    their callbacks run, as a stage of the component. */
module CombinedModel {
  import opened JsBuiltins
  import opened ViewerProps

  /** What measuring the base's bounding box gives. */
  datatype Measurement = EmptyBox | BoxTop(maxY: real) | Throws

  /** The three things the component can show as its table top. */
  datatype TopKind = LoadedModel | GeneratedModel | Placeholder

  /** The component's choice of table top: a loaded model when there is a
      model path; else a generated top when there is a shape and a non-empty
      dimensions object; else the placeholder box. */
  function ChooseTop(tableTopPath: Option<string>, shape: Option<string>, dims: Option<Dimensions>): (k: TopKind)
    ensures k == LoadedModel <==> Truthy(tableTopPath)
    ensures k == GeneratedModel <==> !Truthy(tableTopPath) && Truthy(shape) && dims.Some? && HasAnyKey(dims.value)
  {
    if Truthy(tableTopPath) then LoadedModel
    else if Truthy(shape) && dims.Some? && HasAnyKey(dims.value) then GeneratedModel
    else Placeholder
  }

  /** The thickness handed to a generated top: `thickness || 0.02`. */
  function TopThickness(thickness: Option<real>): (t: real)
    ensures thickness.Some? && thickness.value != 0.0 ==> t == thickness.value
    ensures thickness.None? || thickness.value == 0.0 ==> t == 0.02
  {
    NumberOr(thickness, 0.02)
  }

  /** Half the top's thickness: the height at which a top resting on the
      ground has its bottom face at zero. */
  function HalfThickness(thickness: Option<real>): real {
    TopThickness(thickness) / 2.0
  }

  const DefaultHeight: real := 0.3

  /** The positioning code takes its generated-top branch when there is no
      model path and there is a shape, whether or not a generated top is
      actually rendered. */
  predicate PositionsAsGenerated(tableTopPath: Option<string>, shape: Option<string>) {
    !Truthy(tableTopPath) && Truthy(shape)
  }

  /** A rendered generated top is always positioned as one, and a loaded
      model never is. */
  lemma RenderAndPositioningAgree(tableTopPath: Option<string>, shape: Option<string>, dims: Option<Dimensions>)
    ensures ChooseTop(tableTopPath, shape, dims) == GeneratedModel ==> PositionsAsGenerated(tableTopPath, shape)
    ensures ChooseTop(tableTopPath, shape, dims) == LoadedModel ==> !PositionsAsGenerated(tableTopPath, shape)
  {
  }

  /** Without a shape and without a model path the placeholder is shown but
      the positioning still follows the loaded-model rules. */
  lemma PlaceholderPositionsAsLoaded(dims: Option<Dimensions>)
    ensures ChooseTop(None, None, dims) == Placeholder
    ensures !PositionsAsGenerated(None, None)
  {
  }

  /** The height the top ends at once every timer of one model change has
      fired, written as a table of outcomes: no base rests the top on the
      ground; a measured box puts it exactly on the base; an exception on the
      first measurement gives the default height (plus half the thickness for
      a loaded model); an empty box is measured once more, where an exception
      rests the top on the ground and a second empty box leaves the height as
      it was. */
  function FinalHeight(generated: bool, hasBase: bool, thickness: Option<real>,
                       first: Measurement, retry: Measurement, previous: real): real
  {
    if !hasBase then HalfThickness(thickness)
    else match first
      case BoxTop(y) => y
      case Throws => if generated then DefaultHeight else DefaultHeight + HalfThickness(thickness)
      case EmptyBox =>
        match retry
        case BoxTop(y) => y
        case Throws => HalfThickness(thickness)
        case EmptyBox => previous
  }

  /** The height left behind by an earlier model matters exactly when there
      is a base and both measurements find an empty box. */
  lemma HeightDependsOnPreviousIff(generated: bool, hasBase: bool, thickness: Option<real>,
                                   first: Measurement, retry: Measurement)
    ensures (forall p: real, q: real :: FinalHeight(generated, hasBase, thickness, first, retry, p) ==
                                        FinalHeight(generated, hasBase, thickness, first, retry, q))
            <==> !(hasBase && first.EmptyBox? && retry.EmptyBox?)
  {
    if hasBase && first.EmptyBox? && retry.EmptyBox? {
      assert FinalHeight(generated, hasBase, thickness, first, retry, 0.0) !=
             FinalHeight(generated, hasBase, thickness, first, retry, 1.0);
    }
  }

  /** A base whose box can be measured carries the top at its own top, for
      both kinds of table top. */
  lemma MeasuredBaseCarriesTop(generated: bool, thickness: Option<real>, first: Measurement,
                               retry: Measurement, previous: real)
    requires first.BoxTop? || (first.EmptyBox? && retry.BoxTop?)
    ensures FinalHeight(generated, true, thickness, first, retry, previous) ==
            (if first.BoxTop? then first.maxY else retry.maxY)
  {
  }

  /** Where a first measurement throws, a loaded model sits exactly half a
      thickness above a generated top. */
  lemma ThrowOffsetsByHalfThickness(thickness: Option<real>, retry: Measurement, previous: real)
    ensures FinalHeight(false, true, thickness, Throws, retry, previous) ==
            FinalHeight(true, true, thickness, Throws, retry, previous) + HalfThickness(thickness)
  {
  }

  /** Which timer callback the component waits for. A loaded model whose
      first box is empty waits for the retry and then for the positioning
      timer, which is scheduled after it with the same delay. */
  datatype Stage = Idle | AwaitMeasure | AwaitRetry | AwaitPosition | Settled

  /** The component's state slots. `generated` and `thickness` are what the
      callbacks of the current model change captured. */
  class CombinedModelState {
    var tableHeight: real
    var isPositioned: bool
    var stage: Stage
    var generated: bool
    var thickness: Option<real>

    /** `isPositioned` is true exactly when the last callback that sets it
        has run: after settling, and for a generated top already while the
        retry is pending. */
    ghost predicate Valid()
      reads this
    {
      (stage == Idle ==> !isPositioned) &&
      (stage == AwaitMeasure ==> !isPositioned) &&
      (stage == AwaitRetry ==> isPositioned == generated) &&
      (stage == AwaitPosition ==> !isPositioned && !generated) &&
      (stage == Settled ==> isPositioned)
    }

    /** The initial `useState` values. */
    constructor ()
      ensures Valid()
      ensures tableHeight == DefaultHeight && !isPositioned && stage == Idle
    {
      tableHeight := DefaultHeight;
      isPositioned := false;
      stage := Idle;
      generated := false;
      thickness := None;
    }

    /** One run of the positioning effect. Its dependencies include the
        `onPositioned` callback, which the viewer recreates on every render,
        so it runs on every render of the viewer, not only when the base,
        the model path or the shape changes; it may be called at any time.
        It clears `isPositioned`; without a base it rests the top
        on the ground and sets `isPositioned` again at once, with a base it
        schedules the first measurement and leaves the height as it was. */
    method ModelsChanged(tableTopPath: Option<string>, basePath: Option<string>,
                         shape: Option<string>, thickness: Option<real>)
      modifies this
      ensures Valid()
      ensures generated == PositionsAsGenerated(tableTopPath, shape) && this.thickness == thickness
      ensures Truthy(basePath) ==>
                stage == AwaitMeasure && !isPositioned && tableHeight == old(tableHeight)
      ensures !Truthy(basePath) ==>
                stage == Settled && isPositioned && tableHeight == HalfThickness(thickness)
    {
      isPositioned := false;
      generated := PositionsAsGenerated(tableTopPath, shape);
      this.thickness := thickness;
      if Truthy(basePath) {
        stage := AwaitMeasure;
      } else {
        tableHeight := HalfThickness(thickness);
        isPositioned := true;
        stage := Settled;
      }
    }

    /** The first measuring callback (50 ms for a generated top, 200 ms for a
        loaded model). A generated top is placed whatever the measurement,
        except that an empty box schedules a retry; a loaded model is placed
        at once only when measuring throws, otherwise by a later timer. */
    method MeasureTimer(m: Measurement)
      requires Valid() && stage == AwaitMeasure
      modifies this`tableHeight, this`isPositioned, this`stage
      ensures Valid()
      ensures tableHeight == match m
                case BoxTop(y) => y
                case EmptyBox => old(tableHeight)
                case Throws => if generated then DefaultHeight else DefaultHeight + HalfThickness(thickness)
      ensures stage == (if m.EmptyBox? then AwaitRetry
                        else if generated || m.Throws? then Settled
                        else AwaitPosition)
      ensures isPositioned == (generated || m.Throws?)
    {
      match m {
        case BoxTop(y) =>
          tableHeight := y;
        case EmptyBox =>
        case Throws =>
          tableHeight := if generated then DefaultHeight else DefaultHeight + HalfThickness(thickness);
      }
      if generated {
        isPositioned := true;
        stage := if m.EmptyBox? then AwaitRetry else Settled;
      } else if m.Throws? {
        isPositioned := true;
        stage := Settled;
      } else {
        stage := if m.EmptyBox? then AwaitRetry else AwaitPosition;
      }
    }

    /** The retry after an empty box (100 ms, or 150 ms for a loaded model):
        a box puts the top on it, an exception rests it on the ground, and a
        second empty box changes nothing. */
    method RetryTimer(m: Measurement)
      requires Valid() && stage == AwaitRetry
      modifies this`tableHeight, this`stage
      ensures Valid()
      ensures tableHeight == match m
                case BoxTop(y) => y
                case EmptyBox => old(tableHeight)
                case Throws => HalfThickness(thickness)
      ensures stage == if generated then Settled else AwaitPosition
    {
      match m {
        case BoxTop(y) =>
          tableHeight := y;
        case EmptyBox =>
        case Throws =>
          tableHeight := HalfThickness(thickness);
      }
      stage := if generated then Settled else AwaitPosition;
    }

    /** The positioning timer of a loaded model (150 ms after measuring). */
    method PositionTimer()
      requires Valid() && stage == AwaitPosition
      modifies this`isPositioned, this`stage
      ensures Valid()
      ensures isPositioned && stage == Settled
    {
      isPositioned := true;
      stage := Settled;
    }

    /** Runs the callbacks of one pending measurement in the order their timers
        fire, handing the retry its own measurement when there is one. The
        top ends where `FinalHeight` says, and is placed. */
    method FireTimers(first: Measurement, retry: Measurement)
      requires Valid() && stage == AwaitMeasure
      modifies this`tableHeight, this`isPositioned, this`stage
      ensures Valid() && stage == Settled && isPositioned
      ensures tableHeight == FinalHeight(generated, true, thickness, first, retry, old(tableHeight))
    {
      MeasureTimer(first);
      if stage == AwaitRetry {
        RetryTimer(retry);
      }
      if stage == AwaitPosition {
        PositionTimer();
      }
    }

    /** A model change followed by all of its timers: the top ends at the
        height the outcome table gives and is placed. */
    method ShowModels(tableTopPath: Option<string>, basePath: Option<string>, shape: Option<string>,
                      thickness: Option<real>, first: Measurement, retry: Measurement)
      modifies this
      ensures Valid() && stage == Settled && isPositioned
      ensures tableHeight == FinalHeight(PositionsAsGenerated(tableTopPath, shape), Truthy(basePath),
                                         thickness, first, retry, old(tableHeight))
    {
      ModelsChanged(tableTopPath, basePath, shape, thickness);
      if stage == AwaitMeasure {
        FireTimers(first, retry);
      }
    }
  }
}
