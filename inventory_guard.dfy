/**
 * `shouldSkipInventoryStep`: an inventory step is skipped when no inventory
 * service is registered in the container, with a warning naming the step.
 */
module InventoryGuard {

  import opened Wrappers

  datatype Service = Service(name: string)

  /** The dependency container, reduced to the services registered under each name. */
  datatype Container = Container(registrations: map<string, Service>)

  const InventoryServiceName: string := "inventoryService"

  /** `container.resolve(name)`: the service registered under `name`, if any. */
  function Resolve(c: Container, name: string): Option<Service>
  {
    if name in c.registrations then Some(c.registrations[name]) else None
  }

  /** The text logged through `logger.warn` when the step is skipped. */
  function SkipWarning(stepName: string): string
  {
    "Inventory service not found. You should install the @medusajs/inventory package to use inventory. The '"
      + stepName + "' will be skipped."
  }

  /** Whether to skip, and the warning emitted on the way (none when not skipping). */
  datatype GuardResult = GuardResult(skip: bool, warning: Option<string>)

  function ShouldSkipInventoryStep(c: Container, stepName: string): (r: GuardResult)
    ensures r.skip <==> InventoryServiceName !in c.registrations
    ensures r.warning.Some? <==> r.skip
    ensures r.warning.Some? ==> r.warning.value == SkipWarning(stepName)
  {
    match Resolve(c, InventoryServiceName)
    case None => GuardResult(true, Some(SkipWarning(stepName)))
    case Some(_) => GuardResult(false, None)
  }

  /** The warning quotes the name of the step being skipped. */
  lemma SkipWarningNamesStep(stepName: string)
    ensures var w := SkipWarning(stepName);
      var k := |w| - |stepName| - |"' will be skipped."|;
      0 <= k && w[k..k + |stepName|] == stepName
  {
    var prefix := "Inventory service not found. You should install the @medusajs/inventory package to use inventory. The '";
    var suffix := "' will be skipped.";
    assert SkipWarning(stepName) == prefix + stepName + suffix;
    assert (prefix + stepName + suffix)[|prefix|..|prefix| + |stepName|] == stepName;
  }
}
