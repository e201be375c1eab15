/** What the pipeline sends to and receives from the Azure SDK. The SDK calls themselves are
    function-typed parameters of the operations that make them. */
module Azure {
  import opened Wrappers
  import opened Text
  import opened Values

  /** One entry of `SubscriptionClient.subscriptions.list()`. */
  datatype Subscription = Subscription(id: string, displayName: Option<string>, state: string)

  /** `sub.state.lower() == "enabled"`. */
  predicate IsEnabled(sub: Subscription) {
    Lower(sub.state) == "enabled"
  }

  /** The API version every generic resource call uses. */
  const ApiVersion := "2021-04-01"

  /** The arguments of `resources.get` / `resources.begin_delete` (the parent resource path is
      always empty). */
  datatype ResourceRef = ResourceRef(
    subscriptionId: Value, resourceGroup: Value, namespace: string, typeName: string,
    name: Value, apiVersion: string)

  /** The arguments of `resources.list_by_resource_group`; `filter` is absent for an
      unfiltered listing. */
  datatype ListQuery = ListQuery(subscriptionId: Value, resourceGroup: Value, filter: Option<string>)

  /** Where a deployment goes: a resource group, or the subscription itself at a location. */
  datatype DeployTarget = ResourceGroupScope(resourceGroup: Value) | SubscriptionScope(location: Value)

  /** The arguments of `deployments.begin_create_or_update[_at_subscription_scope]`. */
  datatype DeploymentRequest = DeploymentRequest(
    subscriptionId: Value, target: DeployTarget, mode: string, template: Value, parameters: Value)

  /** The outcome of a provider call whose result the pipeline ignores. */
  datatype Completion = Completed | Failed(error: string)
}
