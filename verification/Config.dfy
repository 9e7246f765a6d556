/** The effective configuration (crates/resticpal-core/src/config.rs) and the part of it that names a repository. */
module Config {
  import opened Common

  datatype RepositoryMode = Standard | AppendOnly

  datatype SecretVariable =
    | ResticPassword
    | AwsAccessKeyId
    | AwsSecretAccessKey
    | AwsSessionToken
    | AzureAccountKey
    | B2AccountKey
    | GoogleApplicationCredentials
    | RcloneConfigPassword

  function ReferencePrefix(variable: SecretVariable): string {
    match variable
    case ResticPassword => "restic-password"
    case AwsAccessKeyId => "aws-access-key-id"
    case AwsSecretAccessKey => "aws-secret-access-key"
    case AwsSessionToken => "aws-session-token"
    case AzureAccountKey => "azure-account-key"
    case B2AccountKey => "b2-account-key"
    case GoogleApplicationCredentials => "google-credentials"
    case RcloneConfigPassword => "rclone-config-password"
  }

  datatype RepositoryConfig = RepositoryConfig(
    displayName: Option<string>,
    url: Option<string>,
    mode: RepositoryMode,
    options: map<string, string>,
    secretRefs: map<SecretVariable, string>)

  datatype ScheduleConfig = ScheduleConfig(
    intervalHours: nat,
    wakeGraceSeconds: nat,
    wakeLockTimeoutSeconds: nat,
    allowOnBattery: bool,
    allowMeteredNetwork: bool)

  datatype RetentionConfig = RetentionConfig(
    daily: nat, weekly: nat, monthly: nat, yearly: nat, pruneIntervalDays: nat)

  datatype EffectiveConfig = EffectiveConfig(
    paths: seq<string>,
    exclusions: seq<string>,
    repository: RepositoryConfig,
    schedule: ScheduleConfig,
    retention: RetentionConfig,
    automaticInstall: bool)

  predicate IsConfigured(config: EffectiveConfig) {
    config.repository.url.Some? && config.paths != []
  }

  /** What a successful validation or initialization vouches for (apps/resticpal-service/src/state.rs). */
  datatype RepositoryIdentity = RepositoryIdentity(
    url: Option<string>, options: map<string, string>, secretRefs: map<SecretVariable, string>)

  function IdentityOf(config: EffectiveConfig): RepositoryIdentity {
    RepositoryIdentity(config.repository.url, config.repository.options, config.repository.secretRefs)
  }
}
