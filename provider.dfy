/** The provider's responses, as the tool reads them. Only the fields the tool looks at are kept;
    every call to the provider becomes either one of these records or one of the lookup functions
    below, given to the operations as a parameter. */
module Provider {
  import opened Common

  datatype Tag = Tag(key: string, value: string)

  /** One entry of the volume listing (already restricted to status "available" by the request).
      `tags` is `None` when the record has no `Tags` key at all. `createTime` is in seconds. */
  datatype Volume = Volume(volumeId: string, createTime: int, tags: Option<seq<Tag>>)

  /** One compute instance. `privateIp` is the address as the tool renders it (`"None"` when the
      instance has none). `tags` is `None` when the instance has no tag list. */
  datatype Instance = Instance(id: string, instanceType: string, state: string, privateIp: string,
                               tags: Option<seq<Tag>>)

  /** One classic load balancer description, with the ids of its registered instances. */
  datatype LoadBalancer = LoadBalancer(name: string, subnets: seq<string>, zones: seq<string>,
                                       instanceIds: seq<string>)

  /** One Trusted Advisor check, as listed. */
  datatype Check = Check(id: string, name: string, category: string)

  /** One flagged resource of a check result: positional, check-specific metadata strings. */
  datatype FlaggedResource = FlaggedResource(metadata: seq<string>)

  /** The result of one check. `costOptimizing` carries `estimatedMonthlySavings` when the result
      has a `categorySpecificSummary` with a `costOptimizing` part, and is `None` otherwise. */
  datatype CheckResult = CheckResult(status: string, costOptimizing: Option<real>,
                                     flagged: seq<FlaggedResource>)

  /** What describing one instance by id comes to: it is described, the provider reports an
      `InvalidInstanceID.NotFound` error, or the provider reports any other error. */
  datatype Lookup = Found | NotFound | OtherError

  /** The Trusted Advisor service: the result of the check with the given id. */
  type Advisor = string -> CheckResult

  /** The provider account the load-balancer audit reads: check results, the registered instances
      of a load balancer by name (`None` when describing it raises), and instance lookups. */
  datatype Account = Account(advisor: Advisor,
                             registered: string -> Option<seq<string>>,
                             instance: string -> Lookup)
}
