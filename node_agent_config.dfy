/*
 * na.NewConfig of security/cmd/node_agent/na/config.go: the node agent's
 * configuration with the certificate-signing-request defaults and every
 * other field at its zero value.
 */
module NodeAgentConfig {
  /** time.Duration: nanoseconds. */
  type Duration = int

  const SECOND: Duration := 1_000_000_000

  const DEFAULT_CSR_INITIAL_RETRIAL_INTERVAL: Duration := 5 * SECOND
  const DEFAULT_CSR_MAX_RETRIES := 5
  const DEFAULT_CSR_GRACE_PERIOD_PERCENTAGE := 50

  /** platform.ClientConfig{}: the platform settings are not part of this model, so only the empty value exists. */
  datatype ClientConfig = ClientConfig

  /** na.Config without LoggingOptions. */
  datatype Config = Config(
    istioCAAddress: string,
    serviceIdentityOrg: string,
    workloadCertTTL: Duration,
    rsaKeySize: int,
    env: string,
    csrInitialRetrialInterval: Duration,
    csrMaxRetries: int,
    csrGracePeriodPercentage: int,
    platformConfig: ClientConfig)

  /** NewConfig: five seconds between the first retries, five retries, renewal at half the TTL, all else zero. */
  function NewConfig(): (c: Config)
    ensures c.csrInitialRetrialInterval == 5 * SECOND
    ensures c.csrMaxRetries == 5
    ensures c.csrGracePeriodPercentage == 50
    ensures c.istioCAAddress == "" && c.serviceIdentityOrg == "" && c.env == ""
    ensures c.workloadCertTTL == 0 && c.rsaKeySize == 0
    ensures c.platformConfig == ClientConfig
  {
    Config("", "", 0, 0, "",
           DEFAULT_CSR_INITIAL_RETRIAL_INTERVAL, DEFAULT_CSR_MAX_RETRIES, DEFAULT_CSR_GRACE_PERIOD_PERCENTAGE,
           ClientConfig)
  }
}
