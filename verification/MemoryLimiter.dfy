/**
 `BundleMemoryLimiter` (src/core/asset_execution.rs): estimated bundle bytes
 rounded up to one-mebibyte semaphore units and clamped to the limit.
 */
module MemoryLimiter {
  import opened Common

  const UNIT_BYTES: nat := 1024 * 1024
  const U32_MAX: nat := 0xFFFF_FFFF

  datatype Limiter = Off | On(limitUnits: nat)

  /** The smallest number of units, but at least one, that covers the bytes. */
  function BytesToUnits(bytes: nat): (units: nat)
    ensures units >= 1 && bytes <= units * UNIT_BYTES
    ensures units > 1 ==> (units - 1) * UNIT_BYTES < bytes
  {
    Max((bytes + UNIT_BYTES - 1) / UNIT_BYTES, 1)
  }

  function FromConfig(limitBytes: nat): (l: Limiter)
    ensures l.Off? <==> limitBytes == 0
    ensures l.On? ==> 1 <= l.limitUnits <= U32_MAX
    ensures l.On? && l.limitUnits < U32_MAX ==> limitBytes <= l.limitUnits * UNIT_BYTES
    ensures l.On? && l.limitUnits > 1 ==> (l.limitUnits - 1) * UNIT_BYTES < limitBytes
  {
    if limitBytes == 0 then Off else On(Max(Min(BytesToUnits(limitBytes), U32_MAX), 1))
  }

  /** Units one acquisition asks for; nothing when the limiter is off. */
  function Need(l: Limiter, bytes: nat): (units: nat)
    requires l.On? ==> l.limitUnits >= 1
    ensures l.On? ==> 1 <= units <= l.limitUnits
    ensures l.On? && bytes > l.limitUnits * UNIT_BYTES ==> units == l.limitUnits
    ensures l.On? && bytes <= l.limitUnits * UNIT_BYTES ==> bytes <= units * UNIT_BYTES
    ensures l.On? && units > 1 ==> (units - 1) * UNIT_BYTES < bytes
    ensures l.Off? ==> units == 0
  {
    if l.Off? then 0 else Max(Min(BytesToUnits(bytes), l.limitUnits), 1)
  }
}
