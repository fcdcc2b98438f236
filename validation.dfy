/**
 * The stock-event validation pipeline as its integration test pins it down:
 * fourteen validators, three of them found through the extension manager by
 * point id, invoked one after another on the same event, stopping at the
 * first one that throws.
 *
 * The pipeline's own implementation class is not part of this model, so the
 * order of the validators is a parameter: any order holding each of the
 * fourteen stages once, with the approved-orderable check before the lot
 * check, as the fail-fast test demands.
 */
module Validation {
  import opened Types
  import opened ReferenceData

  datatype Validator =
    | StockEventVvm
    | ApprovedOrderable
    | SourceDestinationAssignment
    | SourceDestinationGeoLevelAffinity
    | MandatoryFields
    | ReceiveIssueReason
    | Quantity
    | LotCheck
    | ReasonExistence
    | OrderableLotDuplication
    | PhysicalInventoryAdjustmentReasons
    | DefaultAdjustmentReason
    | DefaultFreeText
    | DefaultUnpackKit

  datatype ExtensionPointId = AdjustmentReasonPoint | FreeTextPoint | UnpackKitPoint

  /** One entry of the pipeline: a fixed validator, or whatever the extension manager answers. */
  datatype Stage = Fixed(validator: Validator) | Extension(point: ExtensionPointId)

  /** `extensionManager.getExtension(pointId, ...)`. */
  type Registry = ExtensionPointId -> Validator

  /** The extension manager of the test: each point answers its default implementation. */
  function DefaultRegistry(p: ExtensionPointId): Validator
  {
    match p
    case AdjustmentReasonPoint => DefaultAdjustmentReason
    case FreeTextPoint => DefaultFreeText
    case UnpackKitPoint => DefaultUnpackKit
  }

  /** The fourteen stages, each once. */
  const AllStages: seq<Stage> := [
    Fixed(StockEventVvm), Fixed(ApprovedOrderable), Fixed(SourceDestinationAssignment),
    Fixed(SourceDestinationGeoLevelAffinity), Fixed(MandatoryFields), Fixed(ReceiveIssueReason),
    Fixed(Quantity), Fixed(LotCheck), Fixed(ReasonExistence), Fixed(OrderableLotDuplication),
    Fixed(PhysicalInventoryAdjustmentReasons), Extension(AdjustmentReasonPoint),
    Extension(FreeTextPoint), Extension(UnpackKitPoint)]

  /** The validator a stage invokes, resolved at call time. */
  function Resolve(s: Stage, registry: Registry): Validator
  {
    match s
    case Fixed(v) => v
    case Extension(p) => registry(p)
  }

  predicate Distinct<T(==)>(s: seq<T>)
  {
    forall i, j :: 0 <= i < j < |s| ==> s[i] != s[j]
  }

  /**
   * A pipeline: every stage once, nothing else, and the approved-orderable
   * check ahead of the lot check.
   */
  predicate WellFormed(pipeline: seq<Stage>)
  {
    && Distinct(pipeline)
    && |pipeline| == |AllStages|
    && (forall s :: s in AllStages ==> s in pipeline)
    && (forall s :: s in pipeline ==> s in AllStages)
    && (forall i, j :: 0 <= i < |pipeline| && 0 <= j < |pipeline| &&
          pipeline[i] == Fixed(ApprovedOrderable) && pipeline[j] == Fixed(LotCheck)
          ==> i < j)
  }

  /** One call of `validate(event)` on one validator. */
  datatype Invocation = Invocation(validator: Validator, event: StockEvent)

  /** What a run leaves behind: the calls made, and the validator whose exception propagated. */
  datatype Validation = Validation(log: seq<Invocation>, error: Option<Validator>)

  /**
   * The run of `stages` on `event`: each stage's validator is invoked in
   * order until one fails; that one is the last invocation and its error is
   * the result.
   */
  function Run(stages: seq<Stage>, registry: Registry, fails: Validator -> bool, event: StockEvent)
    : (r: Validation)
    ensures |r.log| <= |stages|
    ensures forall i :: 0 <= i < |r.log| ==>
      r.log[i] == Invocation(Resolve(stages[i], registry), event)
    ensures r.error.None? <==> forall i :: 0 <= i < |stages| ==> !fails(Resolve(stages[i], registry))
    ensures r.error.None? ==> |r.log| == |stages|
    ensures r.error.Some? ==>
      && |r.log| > 0
      && r.error.value == r.log[|r.log| - 1].validator
      && fails(r.error.value)
      && forall i :: 0 <= i < |r.log| - 1 ==> !fails(r.log[i].validator)
  {
    if stages == [] then Validation([], None)
    else
      var v := Resolve(stages[0], registry);
      if fails(v) then Validation([Invocation(v, event)], Some(v))
      else
        var rest := Run(stages[1..], registry, fails, event);
        Validation([Invocation(v, event)] + rest.log, rest.error)
  }

  /** `validate(event)`: the loop over the pipeline with its invocation log. */
  method Validate(pipeline: seq<Stage>, registry: Registry, fails: Validator -> bool,
                  event: StockEvent)
    returns (log: seq<Invocation>, error: Option<Validator>)
    ensures Validation(log, error) == Run(pipeline, registry, fails, event)
  {
    log := [];
    var i := 0;
    while i < |pipeline|
      invariant 0 <= i <= |pipeline|
      invariant var rest := Run(pipeline[i..], registry, fails, event);
        Run(pipeline, registry, fails, event) == Validation(log + rest.log, rest.error)
    {
      var v := Resolve(pipeline[i], registry);
      assert pipeline[i..][1..] == pipeline[i + 1..];
      log := log + [Invocation(v, event)];
      if fails(v) {
        return log, Some(v);
      }
      i := i + 1;
    }
    assert log + [] == log;
    error := None;
  }

  /** With the test's extension manager, distinct stages of a pipeline invoke distinct validators. */
  lemma ResolveInjective(s: Stage, t: Stage)
    requires s in AllStages && t in AllStages
    requires Resolve(s, DefaultRegistry) == Resolve(t, DefaultRegistry)
    ensures s == t
  {
  }

  /**
   * When no validator fails, every one of the fourteen is invoked exactly
   * once, with the given event, and nothing propagates.
   */
  lemma {:induction false} AllValidatorsRunOnce(pipeline: seq<Stage>, fails: Validator -> bool,
                                                event: StockEvent)
    requires WellFormed(pipeline)
    requires forall v :: !fails(v)
    ensures var r := Run(pipeline, DefaultRegistry, fails, event);
      && r.error.None?
      && |r.log| == 14
      && (forall v :: exists i :: 0 <= i < |r.log| && r.log[i] == Invocation(v, event))
      && (forall i, j :: 0 <= i < j < |r.log| ==> r.log[i] != r.log[j])
  {
    var r := Run(pipeline, DefaultRegistry, fails, event);
    forall v
      ensures exists i :: 0 <= i < |r.log| && r.log[i] == Invocation(v, event)
    {
      var s := StageOf(v);
      assert s in AllStages;
      var i :| 0 <= i < |pipeline| && pipeline[i] == s;
      assert r.log[i] == Invocation(v, event);
    }
    forall i, j | 0 <= i < j < |r.log|
      ensures r.log[i] != r.log[j]
    {
      if r.log[i] == r.log[j] {
        ResolveInjective(pipeline[i], pipeline[j]);
      }
    }
  }

  /** The stage through which the test's extension manager reaches each validator. */
  function StageOf(v: Validator): (s: Stage)
    ensures s in AllStages && Resolve(s, DefaultRegistry) == v
  {
    match v
    case DefaultAdjustmentReason => Extension(AdjustmentReasonPoint)
    case DefaultFreeText => Extension(FreeTextPoint)
    case DefaultUnpackKit => Extension(UnpackKitPoint)
    case _ => Fixed(v)
  }

  /**
   * Fail fast: when the validator at position `k` is the first to fail, it
   * is the last one invoked, and no later position is invoked at all.
   */
  lemma FailureStops(pipeline: seq<Stage>, registry: Registry, fails: Validator -> bool,
                     event: StockEvent, k: nat)
    requires k < |pipeline| && fails(Resolve(pipeline[k], registry))
    requires forall i :: 0 <= i < k ==> !fails(Resolve(pipeline[i], registry))
    ensures var r := Run(pipeline, registry, fails, event);
      |r.log| == k + 1 && r.error == Some(Resolve(pipeline[k], registry))
  {
    var r := Run(pipeline, registry, fails, event);
    assert r.error.Some? by {
      assert !(forall i :: 0 <= i < |pipeline| ==> !fails(Resolve(pipeline[i], registry)));
    }
    assert r.log[|r.log| - 1].validator == Resolve(pipeline[|r.log| - 1], registry);
  }

  /**
   * The test's second case: only the approved-orderable check throws. Its
   * exception propagates, it was invoked exactly once, and the lot check
   * never ran.
   */
  lemma ApprovedOrderableFailureSkipsLot(pipeline: seq<Stage>, fails: Validator -> bool,
                                         event: StockEvent)
    requires WellFormed(pipeline)
    requires forall v :: fails(v) <==> v == ApprovedOrderable
    ensures var r := Run(pipeline, DefaultRegistry, fails, event);
      && r.error == Some(ApprovedOrderable)
      && (forall i, j :: 0 <= i < j < |r.log| ==>
            r.log[i] == Invocation(ApprovedOrderable, event) ==>
            r.log[j] != Invocation(ApprovedOrderable, event))
      && (forall i :: 0 <= i < |r.log| ==> r.log[i].validator != LotCheck)
  {
    assert Fixed(ApprovedOrderable) in AllStages;
    var k :| 0 <= k < |pipeline| && pipeline[k] == Fixed(ApprovedOrderable);
    forall i | 0 <= i < k
      ensures !fails(Resolve(pipeline[i], DefaultRegistry))
    {
      if fails(Resolve(pipeline[i], DefaultRegistry)) {
        ResolveInjective(pipeline[i], pipeline[k]);
      }
    }
    FailureStops(pipeline, DefaultRegistry, fails, event, k);
    var r := Run(pipeline, DefaultRegistry, fails, event);
    assert Fixed(LotCheck) in AllStages;
    var l :| 0 <= l < |pipeline| && pipeline[l] == Fixed(LotCheck);
    forall i | 0 <= i < |r.log|
      ensures r.log[i].validator != LotCheck
    {
      if r.log[i].validator == LotCheck {
        ResolveInjective(pipeline[i], pipeline[l]);
      }
    }
  }
}
