/** The records of common/models that the API returns, as values. */
module Models {

  /** models.Toaster */
  datatype Toaster = Toaster(
    id: string,
    ownerId: string,
    cryptoSecure: bool,
    buildCmd: seq<string>,
    exeCmd: seq<string>,
    env: seq<string>,
    joinableForSec: int,
    maxConcurrentJoiners: int,
    timeoutSec: int,
    name: string,
    readme: string,
    keywords: seq<string>,
    version: int)

  /** models.ToasterStats, without its floating-point fields (RAM, NetIngress,
      NetEgress). */
  datatype ToasterStats = ToasterStats(aggregatedDurationMs: int, cpuSeconds: int)

  /** models.CustomDomain */
  datatype CustomDomain = CustomDomain(
    rootDomain: string,
    domains: seq<string>,
    id: string,
    userId: string,
    enabled: bool,
    ssl: bool,
    sslError: string,
    verificationToken: string,
    linkedToaster: map<string, string>)

  /** models.User */
  datatype User = User(id: string, email: string, activeBilling: bool)
}
