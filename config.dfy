/**
 * The configuration records read from config.json (backend/main.go).
 *
 * `CredentialConfig` carries the issuer, credential and attribute names that
 * backend/irma_client.go and backend/session_handlers.go read; the declaration
 * in backend/main.go lacks those three fields.
 */
module Config {

  /** `RedisConfig`. */
  datatype RedisConfig = RedisConfig(host: string, port: int, password: string, namespace: string)

  /** `StorageConfig`: `storageType` is the JSON field `type`, "redis" or "inmemory". */
  datatype StorageConfig = StorageConfig(storageType: string, redis: RedisConfig)

  /** `CredentialConfig`, with the attribute triple the handlers use. */
  datatype CredentialConfig = CredentialConfig(
    privateKeyPath: string,
    irmaServerUrl: string,
    requestorId: string,
    issuerId: string,
    credential: string,
    attribute: string)
}
