/**
 * `_get_operation_coins_return_threshold`: the yellow-coin level at which a
 * coin task hands control back to CL1, derived from the CL1 preserve value
 * and the optional OperationCoinsReturnThreshold.
 */
module Threshold {
  import opened Wrappers

  /** Default of OpsiHazard1Leveling.OperationCoinsPreserve when the key is absent. */
  const DefaultPreserve: int := 100000

  /** `cross_get(...OperationCoinsPreserve, default=100000)`. */
  function Preserve(preserveSetting: Option<int>): int {
    preserveSetting.GetOr(DefaultPreserve)
  }

  /** The pair `(return_threshold, cl1_preserve)`; None stands for Python's None. */
  datatype ThresholdPair = ThresholdPair(threshold: Option<int>, preserve: Option<int>)

  /**
   * `returnSetting` is OperationCoinsReturnThreshold: None when unset or null.
   * Four cases: CL1 off, check disabled by 0, unset (twice the preserve), explicit margin.
   */
  function Resolve(cl1Enabled: bool, preserveSetting: Option<int>, returnSetting: Option<int>): (r: ThresholdPair)
    ensures !cl1Enabled ==> r == ThresholdPair(None, None)
    ensures cl1Enabled ==> r.preserve == Some(Preserve(preserveSetting))
    ensures cl1Enabled && returnSetting == Some(0) ==> r.threshold.None?
    ensures cl1Enabled && returnSetting.None? ==> r.threshold == Some(2 * Preserve(preserveSetting))
    ensures cl1Enabled && returnSetting.Some? && returnSetting.value != 0 ==>
      r.threshold == Some(Preserve(preserveSetting) + returnSetting.value)
  {
    if !cl1Enabled then ThresholdPair(None, None)
    else
      var preserve := Preserve(preserveSetting);
      if returnSetting == Some(0) then ThresholdPair(None, Some(preserve))
      else
        var margin := if returnSetting.None? then preserve else returnSetting.value;
        ThresholdPair(Some(preserve + margin), Some(preserve))
  }

  /** The revert check of `_check_yellow_coins_and_return_to_cl1` fires for this balance. */
  predicate RevertFires(cl1Enabled: bool, preserveSetting: Option<int>, returnSetting: Option<int>, coins: int) {
    var r := Resolve(cl1Enabled, preserveSetting, returnSetting);
    cl1Enabled && r.threshold.Some? && coins >= r.threshold.value
  }

  /** With all defaults, CL1 comes back at 200000 coins and not one coin earlier. */
  lemma DefaultThreshold(coins: int)
    ensures Resolve(true, None, None) == ThresholdPair(Some(200000), Some(100000))
    ensures RevertFires(true, None, None, coins) <==> coins >= 200000
  {
  }

  /**
   * With a non-negative margin (and a non-negative preserve when the margin is
   * unset) the revert never fires below the preserve floor: a task handed to CL1
   * always leaves CL1 at least its reserve.
   */
  lemma RevertAbovePreserve(preserveSetting: Option<int>, returnSetting: Option<int>, coins: int)
    requires returnSetting.Some? ==> returnSetting.value >= 0
    requires returnSetting.None? ==> Preserve(preserveSetting) >= 0
    requires RevertFires(true, preserveSetting, returnSetting, coins)
    ensures coins >= Preserve(preserveSetting)
  {
  }

  /** Raising the balance never turns a fired revert back off. */
  lemma RevertMonotone(cl1Enabled: bool, preserveSetting: Option<int>, returnSetting: Option<int>, coins: int, more: int)
    requires RevertFires(cl1Enabled, preserveSetting, returnSetting, coins) && coins <= more
    ensures RevertFires(cl1Enabled, preserveSetting, returnSetting, more)
  {
  }
}
