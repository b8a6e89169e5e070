/** The records that travel between the Service Manager (SM), the proxy and the platform. */
module Types {
  datatype Option<+T> = None | Some(value: T)

  function Back<T>(s: seq<T>): T
    requires s != []
  {
    s[|s| - 1]
  }

  type Labels = map<string, seq<string>>

  /** A broker as both sides list it. For a broker that SM lists, `guid` is its SM id; for one that the
      platform lists, `guid` is the id the platform gave it. */
  datatype ServiceBroker = ServiceBroker(guid: string, name: string, url: string)

  datatype ServiceOffering = ServiceOffering(id: string, brokerID: string)

  datatype ServicePlan = ServicePlan(id: string, catalogID: string, offeringID: string)

  /** A service plan together with the SM broker that offers it. */
  datatype BrokerPlan = BrokerPlan(plan: ServicePlan, broker: ServiceBroker)

  datatype SMVisibility = SMVisibility(planID: string, platformID: string, labels: Labels)

  /** A visibility in the platform's terms. */
  datatype Visibility = Visibility(public: bool, planID: string, brokerName: string, labels: map<string, string>)

  /** What the platform stores for one registered broker. */
  datatype Registration = Registration(name: string, url: string)

  datatype Audience = Everyone | Holder(key: string, value: string)

  /** One access right on the platform: who may see which catalog plan of which registered broker. */
  datatype Grant = Grant(brokerName: string, planID: string, audience: Audience)

  /** The settings of the proxy. `platformName` is what the platform makes of a broker name; the identity for a
      platform that does not constrain names. */
  datatype Config = Config(
    smPath: string,
    legacyPath: string,
    brokerPrefix: string,
    platformName: string -> string,
    scopeKey: string,
    brokerBlacklist: seq<string>,
    takeoverEnabled: bool,
    credentialsEnabled: bool,
    catalogFetcher: bool,
    defaultUser: string,
    defaultPassword: string
  )
}
