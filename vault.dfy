/** The Vault container mutator of vault.go: from the webhook's Vault configuration it
    derives the environment variables and volume mounts that let the in-container agent
    reach Vault, and appends them to a container specification. */
module Vault {
  import opened K8s

  /* Defined outside vault.go. Their values are not part of this model: every property
     below holds whatever strings they are. */
  const VolumeMountGoogleCloudKeyPath: string
  const VaultTLSMountPath: string
  const VaultTLSVolumeName: string

  /** The in-container path of the GCP service-account key, fixed in vault.go. */
  const GoogleCredentialsFile := "/var/run/secret/cloud.google.com/service-account.json"

  /** The `config` record of the `vault` struct. enabled, vaultCAKey and authPath are
      part of the record but never read by the mutator. */
  datatype Config = Config(
    enabled: bool,
    addr: string,
    tlsSecretName: string,
    vaultCACert: string,
    vaultCAKey: string,
    path: string,
    role: string,
    tokenPath: string,
    authPath: string,
    backend: string,
    useSecretNamesAsKeys: bool,
    gcpServiceAccountKeySecretName: string,
    version: string)

  /** The `vault` struct: the receiver of both operations, which only read it. */
  datatype Vault = Vault(config: Config)

  // ---------------------------------------------------------------------------
  // Specification: what the two operations append, as optional segments in order
  // ---------------------------------------------------------------------------

  /** The segment xs when cond holds, and nothing otherwise. */
  function When<T>(cond: bool, xs: seq<T>): seq<T>
  {
    if cond then xs else []
  }

  /** The variables setEnvVars emits for c: the three Vault coordinates, then the GCP
      backend marker and its credentials file, then the token path. */
  function EnvVarsOf(c: Config): seq<EnvVar>
  {
    [EnvVar("VAULT_ADDR", c.addr), EnvVar("VAULT_PATH", c.path), EnvVar("VAULT_ROLE", c.role)]
    + When(c.backend == "gcp", [EnvVar("VAULT_BACKEND", "gcp")])
    + When(c.backend == "gcp" && c.gcpServiceAccountKeySecretName != "",
           [EnvVar("GOOGLE_APPLICATION_CREDENTIALS", GoogleCredentialsFile)])
    + When(c.tokenPath != "", [EnvVar("TOKEN_PATH", c.tokenPath)])
  }

  /** Where the CA certificate is mounted: the TLS mount directory, "/", the file name. */
  function CACertPath(c: Config): string
  {
    VaultTLSMountPath + "/" + c.vaultCACert
  }

  /** The one TLS variable: the CA certificate's path when a TLS secret is configured,
      otherwise the instruction to skip verification. */
  function TlsEnvVar(c: Config): EnvVar
  {
    if c.tlsSecretName != "" then EnvVar("VAULT_CACERT", CACertPath(c))
    else EnvVar("VAULT_SKIP_VERIFY", "true")
  }

  /** The mount that projects only the CA certificate file of the TLS volume. */
  function TlsMount(c: Config): VolumeMount
  {
    VolumeMount(VaultTLSVolumeName, CACertPath(c), c.vaultCACert)
  }

  /** The mount of the GCP service-account key volume. */
  function GoogleCloudKeyMount(): VolumeMount
  {
    VolumeMount("google-cloud-key", VolumeMountGoogleCloudKeyPath, "")
  }

  /** Everything mutateContainer appends to the container's environment, in order. */
  function AddedEnv(c: Config): seq<EnvVar>
  {
    EnvVarsOf(c)
    + When(c.useSecretNamesAsKeys, [EnvVar("VAULT_USE_SECRET_NAMES_AS_KEYS", "true")])
    + When(c.version != "", [EnvVar("VAULT_SECRET_VERSION", c.version)])
    + [TlsEnvVar(c)]
  }

  /** Everything mutateContainer appends to the container's volume mounts, in order. */
  function AddedMounts(c: Config): seq<VolumeMount>
  {
    When(c.gcpServiceAccountKeySecretName != "", [GoogleCloudKeyMount()])
    + When(c.tlsSecretName != "", [TlsMount(c)])
  }

  // ---------------------------------------------------------------------------
  // The operations, step by step as vault.go performs them
  // ---------------------------------------------------------------------------

  /** setEnvVars: builds the variable list by successive appends. */
  method SetEnvVars(v: Vault) returns (envVars: seq<EnvVar>)
    ensures envVars == EnvVarsOf(v.config)
  {
    envVars := [];
    envVars := envVars + [
      EnvVar("VAULT_ADDR", v.config.addr),
      EnvVar("VAULT_PATH", v.config.path),
      EnvVar("VAULT_ROLE", v.config.role)
    ];

    if v.config.backend == "gcp" {
      envVars := envVars + [EnvVar("VAULT_BACKEND", "gcp")];

      if v.config.gcpServiceAccountKeySecretName != "" {
        envVars := envVars + [EnvVar("GOOGLE_APPLICATION_CREDENTIALS", GoogleCredentialsFile)];
      }
    }

    if v.config.tokenPath != "" {
      envVars := envVars + [EnvVar("TOKEN_PATH", v.config.tokenPath)];
    }
  }

  /** mutateContainer: appends to the by-value container's Env and VolumeMounts and
      returns it. What was there before is kept, in place and in order, and nothing else
      about the container changes. */
  method MutateContainer<Rest>(v: Vault, container: Container<Rest>) returns (result: Container<Rest>)
    ensures result.env == container.env + AddedEnv(v.config)
    ensures result.volumeMounts == container.volumeMounts + AddedMounts(v.config)
    ensures container.env <= result.env && container.volumeMounts <= result.volumeMounts
    ensures result.rest == container.rest
  {
    result := container;
    var envVars := SetEnvVars(v);
    result := result.(env := result.env + envVars);

    if v.config.useSecretNamesAsKeys {
      result := result.(env := result.env + [EnvVar("VAULT_USE_SECRET_NAMES_AS_KEYS", "true")]);
    }

    if v.config.version != "" {
      result := result.(env := result.env + [EnvVar("VAULT_SECRET_VERSION", v.config.version)]);
    }

    // Mount the GCP service-account key if one is given.
    if v.config.gcpServiceAccountKeySecretName != "" {
      result := result.(volumeMounts := result.volumeMounts +
        [VolumeMount("google-cloud-key", VolumeMountGoogleCloudKeyPath, "")]);
    }

    if v.config.tlsSecretName != "" {
      var mountPath := VaultTLSMountPath + "/" + v.config.vaultCACert;
      var volumeName := VaultTLSVolumeName;
      result := result.(env := result.env + [EnvVar("VAULT_CACERT", mountPath)]);
      result := result.(volumeMounts := result.volumeMounts +
        [VolumeMount(volumeName, mountPath, v.config.vaultCACert)]);
    } else {
      result := result.(env := result.env + [EnvVar("VAULT_SKIP_VERIFY", "true")]);
    }
  }

  // ---------------------------------------------------------------------------
  // Properties of setEnvVars
  // ---------------------------------------------------------------------------

  /** The list always starts with the address, the secret path and the role, in that
      order; the GCP marker comes next when present, the credentials file right after
      it, and the token path, when present, is last. Between 3 and 6 variables. */
  lemma EnvVarsOfLayout(c: Config)
    ensures 3 <= |EnvVarsOf(c)| <= 6
    ensures |EnvVarsOf(c)| == 3 + (if c.backend == "gcp" then 1 else 0)
                                + (if c.backend == "gcp" && c.gcpServiceAccountKeySecretName != "" then 1 else 0)
                                + (if c.tokenPath != "" then 1 else 0)
    ensures EnvVarsOf(c)[..3] ==
      [EnvVar("VAULT_ADDR", c.addr), EnvVar("VAULT_PATH", c.path), EnvVar("VAULT_ROLE", c.role)]
    ensures c.backend == "gcp" ==> EnvVarsOf(c)[3] == EnvVar("VAULT_BACKEND", "gcp")
    ensures c.backend == "gcp" && c.gcpServiceAccountKeySecretName != "" ==>
      EnvVarsOf(c)[4] == EnvVar("GOOGLE_APPLICATION_CREDENTIALS", GoogleCredentialsFile)
    ensures c.tokenPath != "" ==>
      EnvVarsOf(c)[|EnvVarsOf(c)| - 1] == EnvVar("TOKEN_PATH", c.tokenPath)
  {
  }

  /** Occurrences of one name in a conditional singleton segment. */
  lemma OccurrencesWhen(cond: bool, e: EnvVar, name: string)
    ensures Occurrences(When(cond, [e]), name) == if cond && e.name == name then 1 else 0
  {
  }

  /** Occurrences of one name in the three unconditional variables. */
  lemma OccurrencesCoordinates(c: Config, name: string)
    ensures Occurrences([EnvVar("VAULT_ADDR", c.addr), EnvVar("VAULT_PATH", c.path), EnvVar("VAULT_ROLE", c.role)], name)
         == (if name == "VAULT_ADDR" then 1 else 0) + (if name == "VAULT_PATH" then 1 else 0)
          + (if name == "VAULT_ROLE" then 1 else 0)
  {
    var a, p, r := EnvVar("VAULT_ADDR", c.addr), EnvVar("VAULT_PATH", c.path), EnvVar("VAULT_ROLE", c.role);
    assert [a, p, r] == [a] + [p] + [r];
    OccurrencesAppend([a] + [p], [r], name);
    OccurrencesAppend([a], [p], name);
    OccurrencesWhen(true, a, name);
    OccurrencesWhen(true, p, name);
    OccurrencesWhen(true, r, name);
  }

  /** Which names setEnvVars emits, and that it emits none twice: the coordinates always,
      VAULT_BACKEND exactly when the backend is "gcp", GOOGLE_APPLICATION_CREDENTIALS
      exactly when moreover a service-account secret is named, TOKEN_PATH exactly when a
      token path is set, and no other name. */
  lemma EnvVarsOfNames(c: Config, name: string)
    ensures Occurrences(EnvVarsOf(c), name) <= 1
    ensures Occurrences(EnvVarsOf(c), "VAULT_ADDR") == 1
    ensures Occurrences(EnvVarsOf(c), "VAULT_PATH") == 1
    ensures Occurrences(EnvVarsOf(c), "VAULT_ROLE") == 1
    ensures Occurrences(EnvVarsOf(c), "VAULT_BACKEND") == if c.backend == "gcp" then 1 else 0
    ensures Occurrences(EnvVarsOf(c), "GOOGLE_APPLICATION_CREDENTIALS") ==
      if c.backend == "gcp" && c.gcpServiceAccountKeySecretName != "" then 1 else 0
    ensures Occurrences(EnvVarsOf(c), "TOKEN_PATH") == if c.tokenPath != "" then 1 else 0
    ensures name !in {"VAULT_ADDR", "VAULT_PATH", "VAULT_ROLE", "VAULT_BACKEND",
                      "GOOGLE_APPLICATION_CREDENTIALS", "TOKEN_PATH"} ==>
      Occurrences(EnvVarsOf(c), name) == 0
  {
    EnvVarsOfCount(c, name);
    EnvVarsOfCount(c, "VAULT_ADDR");
    EnvVarsOfCount(c, "VAULT_PATH");
    EnvVarsOfCount(c, "VAULT_ROLE");
    EnvVarsOfCount(c, "VAULT_BACKEND");
    EnvVarsOfCount(c, "GOOGLE_APPLICATION_CREDENTIALS");
    EnvVarsOfCount(c, "TOKEN_PATH");
  }

  /** The count of one name in EnvVarsOf(c), segment by segment. */
  lemma EnvVarsOfCount(c: Config, n: string)
    ensures Occurrences(EnvVarsOf(c), n) ==
      (if n == "VAULT_ADDR" then 1 else 0) + (if n == "VAULT_PATH" then 1 else 0)
      + (if n == "VAULT_ROLE" then 1 else 0)
      + (if c.backend == "gcp" && n == "VAULT_BACKEND" then 1 else 0)
      + (if c.backend == "gcp" && c.gcpServiceAccountKeySecretName != ""
            && n == "GOOGLE_APPLICATION_CREDENTIALS" then 1 else 0)
      + (if c.tokenPath != "" && n == "TOKEN_PATH" then 1 else 0)
  {
    var core := [EnvVar("VAULT_ADDR", c.addr), EnvVar("VAULT_PATH", c.path), EnvVar("VAULT_ROLE", c.role)];
    var backend := When(c.backend == "gcp", [EnvVar("VAULT_BACKEND", "gcp")]);
    var creds := When(c.backend == "gcp" && c.gcpServiceAccountKeySecretName != "",
                      [EnvVar("GOOGLE_APPLICATION_CREDENTIALS", GoogleCredentialsFile)]);
    var token := When(c.tokenPath != "", [EnvVar("TOKEN_PATH", c.tokenPath)]);
    OccurrencesAppend(core + backend + creds, token, n);
    OccurrencesAppend(core + backend, creds, n);
    OccurrencesAppend(core, backend, n);
    OccurrencesCoordinates(c, n);
    OccurrencesWhen(c.backend == "gcp", EnvVar("VAULT_BACKEND", "gcp"), n);
    OccurrencesWhen(c.backend == "gcp" && c.gcpServiceAccountKeySecretName != "",
                    EnvVar("GOOGLE_APPLICATION_CREDENTIALS", GoogleCredentialsFile), n);
    OccurrencesWhen(c.tokenPath != "", EnvVar("TOKEN_PATH", c.tokenPath), n);
  }

  /** setEnvVars reads neither enabled, nor the CA key, nor the auth path. */
  lemma EnvVarsOfIgnoresUnreadFields(c: Config, enabled: bool, vaultCAKey: string, authPath: string)
    ensures EnvVarsOf(c.(enabled := enabled, vaultCAKey := vaultCAKey, authPath := authPath)) == EnvVarsOf(c)
  {
  }

  // ---------------------------------------------------------------------------
  // Properties of mutateContainer
  // ---------------------------------------------------------------------------

  /** The appended variables are setEnvVars' list, then the secret-names-as-keys flag when
      set, then the version pin when one is given, then exactly one TLS variable, last:
      VAULT_CACERT naming the certificate under the TLS mount directory when a TLS secret
      is configured, VAULT_SKIP_VERIFY=true otherwise. */
  lemma AddedEnvLayout(c: Config)
    ensures |AddedEnv(c)| == |EnvVarsOf(c)| + (if c.useSecretNamesAsKeys then 1 else 0)
                                            + (if c.version != "" then 1 else 0) + 1
    ensures AddedEnv(c)[..|EnvVarsOf(c)|] == EnvVarsOf(c)
    ensures c.useSecretNamesAsKeys ==>
      AddedEnv(c)[|EnvVarsOf(c)|] == EnvVar("VAULT_USE_SECRET_NAMES_AS_KEYS", "true")
    ensures c.version != "" ==>
      AddedEnv(c)[|AddedEnv(c)| - 2] == EnvVar("VAULT_SECRET_VERSION", c.version)
    ensures AddedEnv(c)[|AddedEnv(c)| - 1] ==
      if c.tlsSecretName != "" then EnvVar("VAULT_CACERT", VaultTLSMountPath + "/" + c.vaultCACert)
      else EnvVar("VAULT_SKIP_VERIFY", "true")
  {
  }

  /** Which names mutateContainer appends: none twice; VAULT_USE_SECRET_NAMES_AS_KEYS
      exactly when the flag is set; VAULT_SECRET_VERSION exactly when a version is given;
      and exactly one of VAULT_CACERT (when a TLS secret is configured) and
      VAULT_SKIP_VERIFY (when it is not). */
  lemma AddedEnvNames(c: Config, name: string)
    ensures Occurrences(AddedEnv(c), name) <= 1
    ensures Occurrences(AddedEnv(c), "VAULT_USE_SECRET_NAMES_AS_KEYS") ==
      if c.useSecretNamesAsKeys then 1 else 0
    ensures Occurrences(AddedEnv(c), "VAULT_SECRET_VERSION") == if c.version != "" then 1 else 0
    ensures Occurrences(AddedEnv(c), "VAULT_CACERT") == if c.tlsSecretName != "" then 1 else 0
    ensures Occurrences(AddedEnv(c), "VAULT_SKIP_VERIFY") == if c.tlsSecretName != "" then 0 else 1
    ensures Occurrences(AddedEnv(c), "VAULT_CACERT") + Occurrences(AddedEnv(c), "VAULT_SKIP_VERIFY") == 1
  {
    AddedEnvCount(c, name);
    AddedEnvCount(c, "VAULT_USE_SECRET_NAMES_AS_KEYS");
    AddedEnvCount(c, "VAULT_SECRET_VERSION");
    AddedEnvCount(c, "VAULT_CACERT");
    AddedEnvCount(c, "VAULT_SKIP_VERIFY");
  }

  /** The count of one name in AddedEnv(c), segment by segment. */
  lemma AddedEnvCount(c: Config, n: string)
    ensures Occurrences(AddedEnv(c), n) ==
      Occurrences(EnvVarsOf(c), n)
      + (if c.useSecretNamesAsKeys && n == "VAULT_USE_SECRET_NAMES_AS_KEYS" then 1 else 0)
      + (if c.version != "" && n == "VAULT_SECRET_VERSION" then 1 else 0)
      + (if c.tlsSecretName != "" && n == "VAULT_CACERT" then 1 else 0)
      + (if c.tlsSecretName == "" && n == "VAULT_SKIP_VERIFY" then 1 else 0)
    ensures Occurrences(EnvVarsOf(c), n) ==
      (if n == "VAULT_ADDR" then 1 else 0) + (if n == "VAULT_PATH" then 1 else 0)
      + (if n == "VAULT_ROLE" then 1 else 0)
      + (if c.backend == "gcp" && n == "VAULT_BACKEND" then 1 else 0)
      + (if c.backend == "gcp" && c.gcpServiceAccountKeySecretName != ""
            && n == "GOOGLE_APPLICATION_CREDENTIALS" then 1 else 0)
      + (if c.tokenPath != "" && n == "TOKEN_PATH" then 1 else 0)
  {
    var env := EnvVarsOf(c);
    var flag := When(c.useSecretNamesAsKeys, [EnvVar("VAULT_USE_SECRET_NAMES_AS_KEYS", "true")]);
    var version := When(c.version != "", [EnvVar("VAULT_SECRET_VERSION", c.version)]);
    OccurrencesAppend(env + flag + version, [TlsEnvVar(c)], n);
    OccurrencesAppend(env + flag, version, n);
    OccurrencesAppend(env, flag, n);
    EnvVarsOfCount(c, n);
    OccurrencesWhen(c.useSecretNamesAsKeys, EnvVar("VAULT_USE_SECRET_NAMES_AS_KEYS", "true"), n);
    OccurrencesWhen(c.version != "", EnvVar("VAULT_SECRET_VERSION", c.version), n);
    OccurrencesWhen(true, TlsEnvVar(c), n);
  }

  /** The appended mounts, in order: the google-cloud-key mount exactly when a GCP
      service-account secret is named (whatever the backend), then the TLS mount exactly
      when a TLS secret is configured. The TLS mount sits at the path VAULT_CACERT names
      and projects only the certificate file. At most two mounts are added. */
  lemma AddedMountsLayout(c: Config)
    ensures |AddedMounts(c)| == (if c.gcpServiceAccountKeySecretName != "" then 1 else 0)
                               + (if c.tlsSecretName != "" then 1 else 0)
    ensures |AddedMounts(c)| <= 2
    ensures c.gcpServiceAccountKeySecretName != "" ==>
      AddedMounts(c)[0] == VolumeMount("google-cloud-key", VolumeMountGoogleCloudKeyPath, "")
    ensures c.tlsSecretName != "" ==>
      var m := AddedMounts(c)[|AddedMounts(c)| - 1];
      && m == VolumeMount(VaultTLSVolumeName, VaultTLSMountPath + "/" + c.vaultCACert, c.vaultCACert)
      && m.mountPath == AddedEnv(c)[|AddedEnv(c)| - 1].value
      && AddedEnv(c)[|AddedEnv(c)| - 1].name == "VAULT_CACERT"
  {
  }

  /** mutateContainer reads neither enabled, nor the CA key, nor the auth path. */
  lemma MutationIgnoresUnreadFields(c: Config, enabled: bool, vaultCAKey: string, authPath: string)
    ensures AddedEnv(c.(enabled := enabled, vaultCAKey := vaultCAKey, authPath := authPath)) == AddedEnv(c)
    ensures AddedMounts(c.(enabled := enabled, vaultCAKey := vaultCAKey, authPath := authPath)) == AddedMounts(c)
  {
  }

  // ---------------------------------------------------------------------------
  // Two worked configurations
  // ---------------------------------------------------------------------------

  /** A configuration with only the Vault coordinates set. */
  function PlainConfig(): Config
  {
    Config(false, "http://vault:8200", "", "", "", "secret/app", "app-role", "", "", "", false, "", "")
  }

  /** Without TLS material, verification is skipped and no mount is added. */
  lemma PlainConfigMutation()
    ensures AddedEnv(PlainConfig()) == [
      EnvVar("VAULT_ADDR", "http://vault:8200"), EnvVar("VAULT_PATH", "secret/app"),
      EnvVar("VAULT_ROLE", "app-role"), EnvVar("VAULT_SKIP_VERIFY", "true")]
    ensures AddedMounts(PlainConfig()) == []
  {
  }

  /** With a TLS secret, the certificate is referenced by path and mounted alone. */
  lemma TlsConfigMutation()
    ensures var c := PlainConfig().(tlsSecretName := "vault-tls", vaultCACert := "ca.crt");
      && AddedEnv(c) == [
        EnvVar("VAULT_ADDR", "http://vault:8200"), EnvVar("VAULT_PATH", "secret/app"),
        EnvVar("VAULT_ROLE", "app-role"), EnvVar("VAULT_CACERT", VaultTLSMountPath + "/" + "ca.crt")]
      && AddedMounts(c) == [VolumeMount(VaultTLSVolumeName, VaultTLSMountPath + "/" + "ca.crt", "ca.crt")]
  {
  }
}
