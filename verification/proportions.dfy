/**
  Validation of the downsampling proportion and choice between global and
  per-unit mode (`check_downsampling_mode`, src/downsample_counts.cpp:94-114).
  Every failure the source throws is an `Err` here, so callers can show that
  no sampling happens after a rejected proportion.
 */
module Proportions {

  /** The runtime errors the core throws, one constructor per message. */
  datatype Error =
    | PropLength     // per-unit proportions whose count differs from the number of units
    | PropRange      // a proportion below zero or above one
    | PropNotScalar  // a global proportion list that does not hold exactly one value
    | ReadsLength    // run lengths whose total differs from the number of read counts

  datatype Result<+T> = Ok(value: T) | Err(error: Error)

  /** A proportion the sampler accepts. */
  predicate ValidProp(p: real)
  {
    0.0 <= p <= 1.0
  }

  predicate AllValid(props: seq<real>)
  {
    forall i :: 0 <= i < |props| ==> ValidProp(props[i])
  }

  /** The per-value loop of lines 102-106: false as soon as one value is out of range. */
  function RangeScan(props: seq<real>): (ok: bool)
    ensures ok <==> AllValid(props)
  {
    if |props| == 0 then true
    else if props[|props| - 1] < 0.0 || props[|props| - 1] > 1.0 then false
    else RangeScan(props[..|props| - 1])
  }

  /**
    Returns whether per-unit mode applies, after checking that `prop` fits
    that mode: one value per unit when `byUnit`, a single value otherwise,
    every value in [0, 1]. The length is checked before the values.
   */
  function CheckMode(units: nat, prop: seq<real>, byUnit: bool): (r: Result<bool>)
    ensures r.Ok? <==>
              if byUnit then |prop| == units && AllValid(prop)
              else |prop| == 1 && ValidProp(prop[0])
    ensures r.Ok? ==> r.value == byUnit
    ensures byUnit && |prop| != units ==> r == Err(PropLength)
    ensures !byUnit && |prop| != 1 ==> r == Err(PropNotScalar)
    ensures byUnit && |prop| == units && !AllValid(prop) ==> r == Err(PropRange)
    ensures !byUnit && |prop| == 1 && !ValidProp(prop[0]) ==> r == Err(PropRange)
    ensures r.Err? && r.error == PropRange ==> exists i :: 0 <= i < |prop| && !ValidProp(prop[i])
  {
    if byUnit then
      if |prop| != units then Err(PropLength)
      else if !RangeScan(prop) then Err(PropRange)
      else Ok(true)
    else
      if |prop| != 1 then Err(PropNotScalar)
      else if prop[0] < 0.0 || prop[0] > 1.0 then Err(PropRange)
      else Ok(false)
  }
}
