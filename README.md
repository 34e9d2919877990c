# Vault container mutator — a verified Dafny model

This project models the Vault mutator of a Kubernetes admission webhook that injects
secrets. Given the webhook's Vault configuration, the mutator works out the environment
variables and volume mounts that the in-container secret agent needs, and appends them to
a container specification.

- `setEnvVars` always emits `VAULT_ADDR`, `VAULT_PATH` and `VAULT_ROLE`. For the `gcp`
  backend it adds `VAULT_BACKEND=gcp`, and `GOOGLE_APPLICATION_CREDENTIALS` too when a
  service-account secret is named. It adds `TOKEN_PATH` when a token path is set.
- `mutateContainer` appends that list to the container's `Env`. It then appends, in order:
  - `VAULT_USE_SECRET_NAMES_AS_KEYS`, when that flag is set;
  - `VAULT_SECRET_VERSION`, when a version is given;
  - the `google-cloud-key` mount, when a service-account secret is named;
  - one TLS branch: either `VAULT_CACERT` plus a mount of just the CA certificate file,
    or `VAULT_SKIP_VERIFY=true`.

Files:

- `k8s.dfy` (module `K8s`) holds the parts of the container types that the mutator
  touches: `EnvVar`, `VolumeMount` and `Container<Rest>`. `Rest` stands for every other
  container field. It also defines `Occurrences`, which counts the variables of a given
  name.
- `vault.dfy` (module `Vault`) holds the rest:
  - the configuration record `Config`;
  - the two operations, written as imperative methods that reassign local sequences the
    way the Go code reassigns its slices;
  - the specification functions `EnvVarsOf`, `AddedEnv` and `AddedMounts`, which the
    methods are proved against;
  - the lemmas stating what those functions guarantee.

`VolumeMountGoogleCloudKeyPath`, `VaultTLSMountPath` and `VaultTLSVolumeName` are defined
outside vault.go, so they are module constants with no value. Every property holds for
any strings they might be. For that reason the mount properties are stated by position,
not by membership: for some values of these constants the TLS mount could be equal to the
`google-cloud-key` mount.

## Model

| member | source | states |
|---|---|---|
| `Vault.SetEnvVars` | vault.go:85-129 | The list built by successive appends is exactly `EnvVarsOf(config)`: the three coordinates, then the optional GCP marker, the optional credentials file and the optional token path. |
| `Vault.MutateContainer` | vault.go:27-83 | The returned container's `Env` is the input `Env` followed by `AddedEnv(config)`. Its `VolumeMounts` is the input mounts followed by `AddedMounts(config)`. The input sequences are prefixes of the outputs, and every other container field is unchanged. |
| `Vault.EnvVarsOfLayout` | vault.go:87-128 | The list starts with `VAULT_ADDR=addr`, `VAULT_PATH=path`, `VAULT_ROLE=role`, in that order. With the `gcp` backend, `VAULT_BACKEND=gcp` is at index 3 and the credentials file follows right after it. A set token path is the last entry. The length is 3 plus one per enabled option, so between 3 and 6. |
| `Vault.EnvVarsOfNames` | vault.go:87-128 | No name is emitted twice. `VAULT_BACKEND` is emitted iff the backend is `gcp`. `GOOGLE_APPLICATION_CREDENTIALS` is emitted iff the backend is `gcp` and a service-account secret is named. `TOKEN_PATH` is emitted iff the token path is non-empty. No name outside these six is ever emitted. |
| `Vault.EnvVarsOfCount` | vault.go:87-128 | For any name, the number of times it is emitted is the sum of the contributions of the enabled segments. |
| `Vault.EnvVarsOfIgnoresUnreadFields` | vault.go:85-129 | The list does not depend on `enabled`, `VaultCAKey` or `authPath`. |
| `Vault.AddedEnvLayout` | vault.go:28-81 | The appended variables are `setEnvVars`' list, then the names-as-keys flag iff set, then the version pin iff a version is given. The last entry is one TLS variable: `VAULT_CACERT` = TLS mount path + `/` + certificate file when a TLS secret is configured, `VAULT_SKIP_VERIFY=true` otherwise. |
| `Vault.AddedEnvNames` | vault.go:28-81 | No appended name occurs twice. The names-as-keys flag and the version pin each occur iff their option is set. Exactly one of `VAULT_CACERT` and `VAULT_SKIP_VERIFY` is appended: `VAULT_CACERT` iff a TLS secret is configured. |
| `Vault.AddedEnvCount` | vault.go:28-81 | For any name, its count in the appended variables is its count in `setEnvVars`' list plus one for each later append that is enabled and has that name. |
| `Vault.AddedMountsLayout` | vault.go:49-73 | The appended mounts are the `google-cloud-key` mount iff a service-account secret is named, whatever the backend. It is followed by the TLS mount iff a TLS secret is configured. The TLS mount's path equals the value of `VAULT_CACERT`, and its sub-path is the certificate file. At most two mounts are added. |
| `Vault.MutationIgnoresUnreadFields` | vault.go:27-83 | The appended variables and mounts do not depend on `enabled`, `VaultCAKey` or `authPath`. |
| `Vault.PlainConfigMutation` | vault.go:27-129 | With only address, path and role set, the appended variables are the three coordinates plus `VAULT_SKIP_VERIFY=true`, and no mount is added. |
| `Vault.TlsConfigMutation` | vault.go:27-129 | Adding TLS secret `vault-tls` with certificate `ca.crt` replaces the skip flag with `VAULT_CACERT` = TLS mount path + `/ca.crt`. It also adds one mount of the TLS volume at that path with sub-path `ca.crt`. |

## Left out

- The Kubernetes container type beyond the fields the mutator uses: every other field is
  one opaque value of type `Rest`, carried through unchanged. It belongs to a foreign
  library.
- Go slice aliasing: `append` on the by-value container can write into a backing array
  that the caller's slice shares. `Env` and `VolumeMounts` are modelled as value
  sequences, so the model does not capture that in-place effect.
- `fmt.Sprintf("%s/%s", …)` is modelled as string concatenation with `"/"`; the
  formatting library itself is not part of this model.
- The values of `VolumeMountGoogleCloudKeyPath`, `VaultTLSMountPath` and
  `VaultTLSVolumeName`: they are defined outside vault.go and are not part of this model.
  They are constants of unknown value.
- The webhook server, its TLS serving, the Kubernetes API calls and the mutation pipeline
  that calls `mutateContainer`: none of them is in vault.go, and they are I/O plumbing.
