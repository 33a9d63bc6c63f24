/** The DCA section of the strategy validator (`dslValidator.ts`). */
module DslValidator {
  import opened Wrappers
  import opened DcaPlanning

  /** The `dca` object as it arrives: any field may be missing or not a number. */
  datatype RawDca = RawDca(
    baseOrderSizeUsd: Option<real>,
    maxSafetyOrders: Option<int>,
    priceStepPct: Option<real>,
    stepScale: Option<real>,
    volumeScale: Option<real>,
    takeProfitPct: Option<real>
  )

  datatype DslError =
    | NeedsVersion2
    | CapRequired
    | DeviationReaches(pct: real)
    | ExposureExceeds(exposure: real, cap: real)

  function ConfigOf(dca: RawDca): DcaConfig {
    DcaConfig(dca.baseOrderSizeUsd.Else(0.0), dca.maxSafetyOrders.Else(0), dca.priceStepPct.Else(0.0),
              dca.stepScale.Else(1.0), dca.volumeScale.Else(1.0), dca.takeProfitPct.Else(0.0))
  }

  /** The ranges the JSON schema imposes before the semantic checks run. */
  ghost predicate InSchema(dca: RawDca) {
    && dca.baseOrderSizeUsd.Some? && dca.baseOrderSizeUsd.value > 0.0
    && dca.maxSafetyOrders.Some? && 1 <= dca.maxSafetyOrders.value <= 50
    && dca.priceStepPct.Some? && 0.0 < dca.priceStepPct.value <= 50.0
    && dca.stepScale.Some? && 1.0 <= dca.stepScale.value <= 10.0
    && dca.volumeScale.Some? && 1.0 <= dca.volumeScale.value <= 10.0
    && dca.takeProfitPct.Some? && 0.0 < dca.takeProfitPct.value <= 100.0
  }

  /** The domain checks run only on configurations with something to check. */
  predicate Checked(config: DcaConfig) {
    config.baseOrderSizeUsd > 0.0 && config.maxSafetyOrders > 0 && config.priceStepPct > 0.0
  }

  /** What "no errors" amounts to. */
  ghost predicate Accepted(dslVersion: int, dca: RawDca, cap: Option<real>) {
    var config := ConfigOf(dca);
    && dslVersion != 1
    && cap.Some?
    && (Checked(config) ==>
          && Deviation(config, config.maxSafetyOrders) < 100.0
          && Exposure(config, config.maxSafetyOrders) <= cap.value)
  }

  method ValidateDca(dslVersion: int, dca: Option<RawDca>, maxPositionSizeUsd: Option<real>)
    returns (errors: seq<DslError>)
    ensures dca == None ==> errors == []
    ensures dca.Some? ==> (errors == [] <==> Accepted(dslVersion, dca.value, maxPositionSizeUsd))
    ensures dca.Some? ==>
      var config, cap := ConfigOf(dca.value), maxPositionSizeUsd;
      && (NeedsVersion2 in errors <==> dslVersion == 1)
      && (CapRequired in errors <==> cap == None)
      && (forall d :: DeviationReaches(d) in errors <==>
            Checked(config) && d == Deviation(config, config.maxSafetyOrders) >= 100.0)
      && (forall e, c :: ExposureExceeds(e, c) in errors <==>
            Checked(config) && cap == Some(c) && e == Exposure(config, config.maxSafetyOrders) > c)
  {
    errors := [];
    if dca.Some? {
      if dslVersion == 1 { errors := errors + [NeedsVersion2]; }
      if maxPositionSizeUsd == None { errors := errors + [CapRequired]; }
      var config := ConfigOf(dca.value);
      if Checked(config) {
        var maxDev := CalculateMaxDeviation(config);
        if maxDev >= 100.0 { errors := errors + [DeviationReaches(maxDev)]; }
        if maxPositionSizeUsd.Some? {
          var totalExposure := CalculateMaxExposure(config);
          if totalExposure > maxPositionSizeUsd.value {
            errors := errors + [ExposureExceeds(totalExposure, maxPositionSizeUsd.value)];
          }
        }
      }
    }
  }

  /** However many safety orders have filled, the capital committed stays within `cap`. */
  ghost predicate WithinCap(config: DcaConfig, cap: real) {
    forall k: nat :: k <= config.maxSafetyOrders ==> Exposure(config, k) <= cap
  }

  /**
   * For schema-conforming input, acceptance means exactly: version 2, a cap, a valid ladder, and every
   * prefix of the ladder within the cap.
   */
  lemma AcceptanceCapsExposure(dslVersion: int, dca: RawDca, cap: Option<real>)
    requires InSchema(dca)
    ensures Accepted(dslVersion, dca, cap) <==>
      var config := ConfigOf(dca);
      && dslVersion != 1
      && cap.Some?
      && ValidConfig(config)
      && WithinCap(config, cap.value)
  {
    var config := ConfigOf(dca);
    var n: nat := config.maxSafetyOrders;
    ChecksDecideValidity(config);
    assert FirstProblem(config) == None <==> Deviation(config, n) < 100.0;
    forall k: nat | k <= n
      ensures Exposure(config, k) <= Exposure(config, n)
    {
      LadderMonotone(config, k, n);
    }
    assert cap.Some? ==> (Exposure(config, n) <= cap.value <==> WithinCap(config, cap.value));
  }

  /**
   * Fields that are missing or not positive switch the ladder's checks off; missing scales count as one. Otherwise
   * no errors means exactly version 2, a cap, a last deviation below 100%, and the whole ladder within the cap.
   */
  lemma AcceptedExactly(dslVersion: int, dca: RawDca, cap: Option<real>)
    ensures
      var RawDca(base, orders, step, stepScale, volumeScale, target) := dca;
      Accepted(dslVersion, dca, cap) <==>
        && dslVersion != 1 && cap.Some?
        && (base.Some? && base.value > 0.0 && orders.Some? && orders.value > 0 && step.Some? && step.value > 0.0 ==>
              var config := DcaConfig(base.value, orders.value, step.value,
                                      if stepScale.Some? then stepScale.value else 1.0,
                                      if volumeScale.Some? then volumeScale.value else 1.0,
                                      if target.Some? then target.value else 0.0);
              Deviation(config, orders.value) < 100.0 && Exposure(config, orders.value) <= cap.value)
  {
  }

  /**
   * Without the schema's lower bound of one safety order the cap is not checked at all: a ladder without
   * safety orders is accepted whatever its base order, so acceptance implies the cap exactly when there is
   * a safety order or the base order happens to fit.
   */
  lemma NoSafetyOrdersEscapeTheCap(dca: RawDca, cap: real)
    requires ValidConfig(ConfigOf(dca))
    ensures var config := ConfigOf(dca);
      (Accepted(2, dca, Some(cap)) ==> Exposure(config, config.maxSafetyOrders) <= cap)
      <==> config.maxSafetyOrders > 0 || config.baseOrderSizeUsd <= cap
  {
  }

  /** A base order of 1000 USD passes under a cap of 100 USD. */
  lemma EscapeExample()
    ensures var dca := RawDca(Some(1000.0), Some(0), Some(1.0), Some(1.0), Some(1.0), Some(1.0));
      Accepted(2, dca, Some(100.0)) && Exposure(ConfigOf(dca), 0) > 100.0
  {
  }
}
