# A Dafny model of the cashu operator

The operator turns a `CashuMint` custom resource into a running mint: Secrets with generated credentials, a
`config.toml`, a Deployment with up to four containers, Services, Ingresses, PVCs, an auto-provisioned postgres
and an optional Orchard dashboard. This project models the parts of it whose correctness is not visible in one
function body, and proves what they are for.

## What is modelled

**Runs of the reconciler** (`Cluster`, `Inventory`, `Runs`, `Rollout`, `Evidence`, `Backing`, `Agreement`, `Rely`,
`Statuses`, `Passes`, `Rest`, `Controller`). The store is one value: the CashuMint with spec, generation, resourceVersion,
finalizer, deletion mark and status, the Secrets, the objects the operator applies, the readiness counts others
report, and the postgres pod with its data directory. Steps of the others (spec edits, deletion, re-creation, status
changes, garbage collection, user Secrets, pod init, start and stop) and steps of the operator act on it. The
operator's memory of a Reconcile is part of the value: the mint it read, the config.toml it applied and notes of the
keys it read, the Secrets it saw and the objects it put in place. `Allowed` is the operator's step-by-step guarantee;
the theorems of `Runs`, `Rollout`, `Evidence`, `Backing` and `Agreement` hold of every run in which each operator step
is allowed, of any length and interleaving. `Controller.Reconciler` is the code of the reconciler, method by method:
before each call to the API server it lets an arbitrary script of others run, and each call may fail before or after
it took effect. Its `Valid()` says that everything it ever did is such a run, so the theorems apply to it. With nobody
interfering the same methods are proved to have an exact effect, which gives idempotence and the exact condition for
convergence. `Inventory` says which objects a mint gets in the fields of its spec alone, and what a ready Deployment
is in replica counts.

**Mnemonic** (`Mnemonic`). The loop that eats one big number eleven bits at a time, a decoder, and both directions
of the round trip, over any table of 2048 distinct words without spaces and any checksum function; the phrase
character by character, and which bit of the entropy goes into which bit of which word.

**config.toml** (`Text`, `Toml`, `TomlDoc`, `TomlLayout`, `ConfigToml`, `ConfigWriter`, `ConfigMeaning`,
`ConfigTables`, `ConfigLines`). The buffer writers, a parser for the TOML subset they emit (TOML v1.0.0, sections
Keys, String, Array, Table), what `%q` does to each character, and an exact condition for reading back what was
meant. Which characters `%q` leaves as they are is a parameter. `ConfigTables` gives every table key by key with the
field of the spec or the default a reader finds there, and `ConfigLines` puts each of them on a line of the text.

**Credential strings** (`Credentials`). The cut of a base64url text (RFC 4648 section 5) as bits, and the database
url that is built twice.

**Admission** (`Defaulting`, `DefaultTables`, `DefaultsKeep`, `Webhook`, `Validation`, `Rules`, `Admission`). The six
in-place passes of Default and the validators, proved against functions and rule sets, and what the two do together.
`DefaultTables` spells out the values Default writes, and `Rules` the specs that are accepted.

**The pod and its surroundings** (`Choices`, `Pod`, `PodClosure`, `PodMounts`, `Env`, `Wiring`, `Network`, `Plan`,
`PodTables`). Volumes and mounts that are generated in different files, settings given twice, the way from an Ingress
to a container port, and the gates in front of the generators. `PodTables` gives every variable, volume, mount, port
and annotation by its name, with where its value comes from.

**Copies** (`DeepCopy`). The generated copies on the heap, down to the objects `reconcileConfigMap` writes to.

## What a run assumes

- Reads see the latest state; a write of the CashuMint or its status succeeds only on the version that was read, and
  a status write that changes nothing keeps the version. A deletion request bumps the generation.
- A read or delete that answers NotFound, or that the kind is unknown, is truthful. A call that reports any other error may have taken effect.
- Server-side apply overwrites the object, its owner included. Garbage collection removes an object only when its
  owner is gone.
- One Reconcile at a time works on a mint, as the work queue guarantees. Nobody but the operator writes the
  finalizer, the status and the three Secrets the operator creates; anybody may edit the spec, delete and re-create
  the mint, and change or drop other Secrets at any time.

## Where a promise does not hold as it stands

Each of these is proved both ways: the run, input or exact condition under which it fails, and that it holds
otherwise.

- The init container is meant to keep the database password equal to the Secret's. It does whenever the main
  container starts with the Secret the init container saw or on an empty directory, and, in a run that starts without
  a pod and in which no two postgres Secrets have the same password, only then (`PostgresStartsInAgreement`). If the
  mint is deleted and created again between the two containers, it does not (`MainMayStartTooLate`).
- The work queue on its own does not bring every mint to rest: it does exactly if each key the spec names for a
  database url can be read or belongs to a Secret the pass makes, and, for a provisioned config, the name of the
  postgres Secret is not held by a TLS bundle (`Converge`). A spec can ask for a bundle of that name and then be
  edited (`BundleForbidsRest`): every undisturbed pass then ends at the empty password key.
- A deletion request stops creation only for a Reconcile that reads it (`NothingMadeForTheDeleted`); one that is
  under way goes on creating (`MadeAfterTheRequest`).
- config.toml reads back as intended exactly if its values are printing ones (`ConfigRoundTrip`): `%q` writes
  `\a`, `\v` and `\x..` escapes that TOML does not have, and array elements are not escaped at all.
- Default's passes do not commute: `DatabaseBeforeOrchard` and `OrchardBeforeOperational` give the exact cases.
- The pod has a mount without a volume exactly if Orchard is told to use mTLS while the management RPC is off
  (`PodClosed`); the validator refuses that case and no other defect of this kind exists (`ValidatorClosesPod`).
- A sidecar's working directory, written without `.`, `..` or repeated slashes, is hidden by the TLS mount exactly if
  it is the TLS directory or lies under it (`SidecarNothingHidden`).
- A Secret the pod refers to is still there when the Deployment is applied if it has no owner or the living mint as
  owner, and only then is it out of reach of garbage collection (`HeldIsOutOfReach`); one that an earlier mint of the
  same name owns may be found, kept and lost (`SecretMayGo`).
- A credential Secret has its keys exactly unless it is a TLS bundle that a spec gave the same name
  (`DeploymentHasKeys`). For the mnemonic that happens (`KeyMayBeMissing`); with a provisioned config the postgres
  Secret of an applied Deployment is never one (`DeploymentHasPassword`).
- The Redis connection differs between environment and file exactly if it is given in both forms (`RedisAgrees`).
- Default moves the port Orchard dials exactly in the case `DefaultMovesOrchardPort` names.
- An Ingress is ambiguous exactly if another feature is given the API's port number (`IngressReachesMint`).

False as well, and not claimed: that phase Ready means condition Ready=True (a Deployment that stops
being ready flips the condition alone, `internal/controller/cashumint_controller.go:415-421`); that an observed
generation was applied (the spec may change before the status is written, lines 500-507 and 564 of the same file);
that the mint's Service selects mint pods only (`internal/controller/generators/backup.go:51-56`).

## Model

| member | source | states |
|---|---|---|
| `Runs.InvHolds` | internal/controller/cashumint_controller.go:79-577 | the invariant of every run, over every interleaving of Reconciles, failed and half-failed calls, spec edits, deletion and re-creation and pod restarts: uids and versions are never reused, the operator's copy is current whenever its version is, the stored status is sound, the data directory has the password of the Secret it was last set up from, a credential Secret is what is made under its name (a password of thirty-two url-safe letters with its url, a BIP-39 phrase, or a TLS bundle), and the mint a building Reconcile works on is there |
| `Runs.OperatorKeepsSecrets` | internal/controller/cashumint_controller.go:239-268 | no step of the operator changes an existing Secret; the only one it ever removes is the postgres Secret of a mint whose deletion was requested |
| `Runs.SecretCreatedOnce` | internal/controller/cashumint_controller.go:583-609 | in every run a mnemonic, postgres or management TLS Secret that has existed since some moment held the same data at that moment, also when the reply to its creation was lost |
| `Runs.CredentialsSurvive` | internal/controller/cashumint_controller.go:334-367 | as long as the mint lives and its deletion is not requested, its three credentials stay exactly what they are, whatever fails and whatever is edited |
| `Runs.FinalizerRemovedSafely` | internal/controller/cashumint_controller.go:138-182 | a live mint loses its finalizer only by the operator's own step, only while it is being deleted, and only in a state where the postgres Secret its spec provisioned is absent |
| `Runs.NothingMadeForTheDeleted` | internal/controller/cashumint_controller.go:96-99 | in a Reconcile that read a deletion timestamp no step creates or applies anything |
| `Rollout.MadeAfterTheRequest` | internal/controller/cashumint_controller.go:96-99 | the limit of that: a run in which the deletion is requested after the read, and the same Reconcile still creates a Secret |
| `Runs.StatusMovesForward` | internal/controller/cashumint_controller.go:210-234 | between any two moments in the life of a mint the observed generation does not fall, and a phase once set is never again empty or Pending |
| `Runs.StatusAlwaysSound` | internal/controller/cashumint_controller.go:497-577 | in every run Ready=True comes with phase Ready, Updating with an observed generation, and the observed generation is at most the generation |
| `Runs.UpdatingComesLater` | internal/controller/cashumint_controller.go:226-233 | an observed generation, and with it the phase Updating, is preceded by a status write of the operator that took effect on this very mint |
| `Rollout.ReadyHasEvidence` | internal/controller/cashumint_controller.go:391-423 | whenever the stored Ready condition turns true there was a moment in the same Reconcile at which every object its spec asks for, feature by feature, was there for it and the ready, updated and available counts of the Deployment were each the replicas of the spec, one where it names none |
| `Rollout.NoRolloutWithoutConfig` | internal/controller/cashumint_controller.go:295-332 | every PVC, Deployment, Service, PodMonitor, Ingress or Certificate that is applied comes after a config.toml applied in the same Reconcile, and a Deployment carries the hash of exactly that file |
| `Rollout.ConfigHasURL` | internal/controller/cashumint_controller.go:709-755 | every config.toml ever applied for an admitted postgres mint is a well-formed file with one main database url, which is not empty; a provisioned one carries the non-empty password of the Secret |
| `Rollout.ConfigKeepsPassword` | internal/controller/cashumint_controller.go:717-733 | every config.toml applied since the present postgres Secret was created was generated from the password that Secret holds now |
| `Rollout.ConfigURLIsSecretURL` | internal/controller/cashumint_controller.go:717-733 | in every reachable state the url a provisioned config.toml gives mintd is the database-url the Secret holds for Orchard |
| `Backing.CredentialsComplete` | internal/controller/cashumint_controller.go:583-609 | in every run in which no spec gives the management TLS Secret the name of a credential, the Secret `<name>-postgres-secret` has under `password` thirty-two letters of the base64url alphabet and under `database-url` the url made of them, and `<name>-mnemonic` a phrase that the BIP-39 decoder accepts |
| `Backing.SecretURLReadsBack` | internal/controller/generators/postgres.go:62-107 | in every such run the `database-url` of the Secret splits into user cdk, the `password` beside it, host `<name>-postgres`, port 5432, database cdk_mintd and sslmode=disable |
| `Evidence.URLWasRead` | internal/controller/cashumint_controller.go:734-742 | the main url of every applied config.toml is the value the key the user named held at an earlier moment of the same Reconcile |
| `Evidence.AuthURLWasRead` | internal/controller/cashumint_controller.go:745-756 | the same for the url of the auth database |
| `Evidence.FileHasURLRead` | internal/controller/cashumint_controller.go:734-742 | and it is that value the file gives as url of [database.postgres], for every spec with engine postgres, not provisioned and with a reference |
| `Evidence.FileHasAuthURLRead` | internal/controller/cashumint_controller.go:745-756 | and as url of [auth_database.postgres], for every enabled auth block with a reference |
| `Evidence.FileHasPassword` | internal/controller/cashumint_controller.go:717-733 | a provisioned file gives as url of [database.postgres] the text made of the value that `<name>-postgres-secret` holds under `password` when the file is applied |
| `Evidence.ConfigNeedsCredential` | internal/controller/cashumint_controller.go:713-756 | a config.toml is applied only after each of the credentials it needs was readable in the same Reconcile |
| `Evidence.NothingWithoutCredentials` | internal/controller/cashumint_controller.go:295-332 | if a credential the mint needs can be read at no moment of a Reconcile, that Reconcile applies no config.toml, PVC, Deployment, Service, PodMonitor, Ingress or Certificate |
| `Backing.DeploymentHasObjects` | internal/controller/cashumint_controller.go:295-332 | the ConfigMap and every claim the pod mounts were applied earlier in the same Reconcile and are there, for the spec that was read, when the Deployment is applied |
| `Backing.DeploymentHasSecrets` | internal/controller/cashumint_controller.go:188-202 | every operator Secret the pod refers to was there at an earlier moment of the same Reconcile, and one that was held then is there, with the same data, when the Deployment is applied |
| `Backing.DeploymentHasKeys` | internal/controller/generators/deployment.go:376-393 | so are the keys its environment reads, exactly unless the Secret is a TLS bundle a spec gave that name |
| `Backing.DeploymentHasPassword` | internal/controller/cashumint_controller.go:713-733 | with a provisioned config there is no exception: whenever the Deployment is applied the postgres Secret is there, without an owner and so beyond everybody else's reach, with a password that is not empty and the url made of it |
| `Backing.KeyMayBeMissing` | internal/controller/cashumint_controller.go:334-367 | the mnemonic has the exception: from a store without Secrets a run makes a TLS bundle under the name of the mnemonic Secret, keeps it after an edit and applies a Deployment whose pod reads a key that is not there |
| `Backing.HeldIsOutOfReach` | internal/controller/cashumint_controller.go:239-268 | a Secret is held, by having no owner or the living mint as owner, exactly if no step of anybody else can change or remove it |
| `Backing.SecretMayGo` | internal/controller/cashumint_controller.go:239-268 | the condition is needed: a run in which the mnemonic Secret of an earlier mint is found, kept and collected before the Deployment that reads it is applied |
| `Agreement.PostgresStartsInAgreement` | internal/controller/generators/postgres.go:38-49 | whenever the postgres main container starts after its init container, the data directory has the password of the Secret if the init container is up to date with the Secret or the directory is empty; and exactly then, in every run that starts without a pod and never has two postgres Secrets with the same password |
| `Agreement.DirectoryIsSetUp` | internal/controller/generators/postgres.go:38-49 | in a run that starts without a pod, an initialised data directory beside a pod has the password which the Secret the pod was last set up from held at some earlier moment |
| `Agreement.EnvKeepsAgreement` | internal/controller/generators/postgres.go:38-49 | no step of anybody else ends that agreement: pod restarts, edits, deletion requests, garbage collection |
| `Agreement.OpKeepsAgreement` | internal/controller/cashumint_controller.go:583-609 | no step of the operator ends it but its own deletion of the Secret |
| `Agreement.MainMayStartTooLate` | internal/controller/generators/postgres.go:38-49 | the condition is needed: a run in which the mint is deleted and created again between the init and the main container, and the database keeps the old password |
| `Controller.Reconciler.IsARun` | internal/controller/cashumint_controller.go:79-577 | whatever the methods below have done, interleaved with whatever the others did, is a run in which the operator kept its guarantee, so the theorems above are about this code |
| `Controller.Reconciler.Interfere` | internal/controller/cashumint_controller.go:79-135 | between two calls anything may happen to the store; what the operator relies on (its live mint, owned objects, Secrets) survives it |
| `Controller.Reconciler.Reconcile` | internal/controller/cashumint_controller.go:79-135 | one call by the work queue, under any interference and faults: a mint that is not being deleted is always requeued or an error returned; a deletion that reports success leaves no mint and no provisioned Secret; undisturbed, the exact next store |
| `Controller.Reconciler.Proceed` | internal/controller/cashumint_controller.go:96-134 | the branch taken after the read: deletion, finalizer, first status, full pass, each with its exact effect when undisturbed |
| `Controller.Reconciler.HandleDeletion` | internal/controller/cashumint_controller.go:138-182 | succeeds only with the mint gone and its provisioned Secret gone; a retry from any intermediate state gets there |
| `Controller.Reconciler.CleanUp` | internal/controller/cashumint_controller.go:147-168 | the provisioned Secret is absent when the cleanup succeeds, whether it was deleted now or was gone before |
| `Controller.Reconciler.HandleError` | internal/controller/cashumint_controller.go:456-491 | a conflict is retried after 1 ms and a missing dependency after 10 000 ms, both without a write; any other error stores phase Failed and Ready=False and is returned |
| `Controller.Reconciler.UpdateStatusFromCluster` | internal/controller/cashumint_controller.go:497-577 | writes the worked-out status over a fresh read; the write is allowed over whatever spec edits came in between, a version conflict is swallowed |
| `Controller.Reconciler.Observe` | internal/controller/cashumint_controller.go:511-562 | what the status copies from the Deployment, Service, Ingress and ConfigMap was so in the store at the moment of each read, the four moments in order; a read that fails copies nothing |
| `Controller.Reconciler.TransitionReconciliationPhase` | internal/controller/cashumint_controller.go:210-234 | a mint whose observed generation is neither 0 nor the present one becomes Updating, else one in phase Pending becomes Provisioning, with condition Ready=False of this generation and the phase as its reason; any other status stays as it is |
| `Controller.Reconciler.ReconcileResources` | internal/controller/cashumint_controller.go:185-208 | the stages in order: after success the store has, for this mint and this spec, the ConfigMap, Deployment and Service, the Service and StatefulSet of a provisioned postgres, and the CronJob, PVCs, PodMonitor, Ingresses, Certificates and Orchard objects under the conditions the spec's own fields give, and the status is the stage-by-stage one; undisturbed, a pass fails exactly if a credential it needs is neither there nor made by it, and where everything is in place it changes nothing |
| `Controller.Reconciler.ReconcileOptionalMnemonic` | internal/controller/cashumint_controller.go:239-268 | after success the mnemonic Secret is there, noted, and holds a BIP-39 phrase unless a spec gave its name to a TLS bundle, under any interference; undisturbed it cannot fail, and an existing one is left alone |
| `Controller.Reconciler.GeneratePhrase` | internal/controller/generators/mnemonic.go:91-126 | the phrase it stores is one the BIP-39 decoder accepts |
| `Controller.Reconciler.ReconcileOptionalPostgreSQL` | internal/controller/cashumint_controller.go:270-281 | after success a provisioned mint has its postgres Secret, and its Service and StatefulSet with this owner and this spec; DatabaseReady tells whether the StatefulSet counts one replica ready, updated and available at that moment |
| `Controller.Reconciler.EnsurePostgresSecret` | internal/controller/cashumint_controller.go:583-609 | creates the Secret only where there is none, AlreadyExists being success; after success it is there and noted |
| `Controller.Reconciler.ReconcileOptionalBackup` | internal/controller/cashumint_controller.go:283-293 | the CronJob in place, and BackupReady telling whether one was generated |
| `Controller.Reconciler.ReconcileManagementRPCTLSSecret` | internal/controller/cashumint_controller.go:334-367 | after success the TLS bundle is there and noted, under any interference; undisturbed it cannot fail, and an existing one is left alone |
| `Controller.Reconciler.ResolveRequiredSecretValue` | internal/controller/cashumint_controller.go:779-797 | an empty reference, a missing Secret or key and an empty value are errors: a value that is returned is not empty, is the value in the store of that key of that Secret at that moment, and is noted as read; undisturbed it succeeds exactly then |
| `Controller.Reconciler.ResolveCredentials` | internal/controller/cashumint_controller.go:713-755 | every credential config.toml needs, read before anything is written: both urls are what was read for them in this Reconcile, none is empty, and the password is still the Secret's when the file is applied |
| `Controller.Reconciler.ReconcileConfigMap` | internal/controller/cashumint_controller.go:709-777 | after success the ConfigMap is the file rendered from the spec with the urls read in this Reconcile and the Secret's password, under any interference; no other object is touched, and with the credentials there it cannot fail undisturbed |
| `Controller.Reconciler.ReconcilePVC` | internal/controller/cashumint_controller.go:800-828 | the PVCs of the spec in place and noted after success, also where the gate skips their generators |
| `Controller.Reconciler.ReconcileDeployment` | internal/controller/cashumint_controller.go:831-857 | may only be called with Secrets, claims and config.toml behind it; after success the Deployment carries the hash of the ConfigMap in the store, which is the one of this Reconcile, under any interference |
| `Controller.Reconciler.ReconcileService` | internal/controller/cashumint_controller.go:860-887 | both Services in place after success; whether it fails or not no other object is touched |
| `Controller.Reconciler.ReconcilePodMonitor` | internal/controller/cashumint_controller.go:890-928 | the PodMonitor in place, or gone when Prometheus is off, where a server that does not know the kind counts as gone |
| `Controller.Reconciler.ReconcileOptionalIngressResources` | internal/controller/cashumint_controller.go:369-389 | Ingresses and Certificates in place, through both gates |
| `Controller.Reconciler.UpdateDeploymentReadiness` | internal/controller/cashumint_controller.go:391-423 | Ready=True and phase Ready exactly if at that moment the ready, updated and available counts of the Deployment are each the replicas of the spec, one where it names none; every object is still in place |
| `Controller.Reconciler.Converge` | internal/controller/cashumint_controller.go:101-134 | undisturbed, from any state of a mint that is not being deleted, after any number of calls from three on the store is at rest exactly if at the start each key the spec names for a database url could be read or belonged to a Secret the pass makes, and no TLS bundle had the name of the postgres Secret a provisioned config needs |
| `Rest.ReconcilableIsWilling` | internal/controller/cashumint_controller.go:713-756 | in every reachable state that condition is what decides whether an undisturbed pass finds its credentials |
| `Rest.RestNeedsCredentials` | internal/controller/cashumint_controller.go:713-756 | a reachable state at rest, however it was reached, has a value that is not empty under each key the user named for a url in use, and for a provisioned config the Secret `<name>-postgres-secret`, which is the operator's own |
| `Passes.WillingDecides` | internal/controller/cashumint_controller.go:713-756 | whether the credentials are readable at the end of an undisturbed pass can be told from its beginning: a key is there then, or belongs to a Secret the pass makes |
| `Passes.RestIsComplete` | internal/controller/cashumint_controller.go:185-208 | a store at rest has every object its spec asks for, said in the spec's own fields, the hash of its ConfigMap on the Deployment and its Secrets under their names; the status is of the present generation, and Ready exactly if all replicas are |
| `Passes.RestIsTold` | internal/controller/cashumint_controller.go:497-577 | and the status names the Deployment, the Service and `<name>-config`, the ready replicas, and for an enabled Ingress whether it has an address and its url with the scheme its TLS asks for |
| `Inventory.PlacedIsComplete` | internal/controller/cashumint_controller.go:185-208 | objects in place are, feature by feature in the spec's own fields, all that a mint gets, and the PodMonitor of one without Prometheus is gone |
| `Inventory.ReadyMeansReplicas` | internal/controller/helpers.go:44-60 | a Deployment in place is ready exactly if its ready, updated and available counts are each the replicas of the spec |
| `Backing.BundleForbidsRest` | internal/controller/cashumint_controller.go:334-367 | the condition is needed: a run from a store without Secrets to a mint with a provisioned config and a TLS bundle under the name of its postgres Secret |
| `Controller.Reconciler.ReconcileAtRest` | internal/controller/cashumint_controller.go:185-208 | at rest one more call changes no object, no Secret and no field of the mint, status and version included |
| `Statuses.PassDrafts` | internal/controller/cashumint_controller.go:185-234 | the status a pass works out keeps the rules of the status machine, and has Ready=True exactly if the Deployment was seen ready |
| `Statuses.PassSaysReady` | internal/controller/cashumint_controller.go:391-423 | phase and Ready condition after a pass: Ready with reason ReconciliationComplete if the Deployment was seen ready, else DeploymentNotReady and Updating, Provisioning or the phase there was, in that order |
| `Statuses.PassSaysStages` | internal/controller/cashumint_controller.go:270-293 | the conditions of the stages with their reasons, each under the condition the spec's own fields give |
| `Statuses.PassLeaves` | internal/controller/cashumint_controller.go:185-208 | a pass leaves every other condition and every other field of the status it started from |
| `Statuses.ObservedSaysIngress` | internal/controller/cashumint_controller.go:528-556 | what the stored status says of an enabled Ingress that was read: its name, whether it has an address, and then the host behind https:// or http://; otherwise nothing changes |
| `Statuses.ObservedIsStep` | internal/controller/cashumint_controller.go:497-577 | such a status may be written over a mint whose spec was edited meanwhile without breaking those rules |
| `Statuses.PassSettles` | internal/controller/cashumint_controller.go:497-577 | the status a pass stores is the one the next pass with the same findings works out again |
| `Plan.GatesSkipNothing` | internal/controller/cashumint_controller.go:425-446 | no gate of the controller skips an object its generator would have produced |
| `Plan.GatesOpenForSomething` | internal/controller/cashumint_controller.go:425-446 | and each gate opens exactly if a generator behind it produces an object |
| `Plan.AskedForBy` | internal/controller/generators/postgres.go:110-157 | each kind of object is generated exactly under a condition in the spec's own fields |
| `Plan.GeneratorsAgree` | internal/controller/generators/orchard.go:530-590 | for the four kinds with a generator method that condition is exactly when the method returns an object |
| `Plan.ValidBackupGenerates` | internal/controller/cashumint_controller.go:283-293 | for an admitted mint the backup gate opens exactly if the CronJob is generated |
| `Mnemonic.TakeWords` | internal/controller/generators/mnemonic.go:105-120 | the loop over one shifting number, which ends at 0: the 24 indices are in range and their bits, most significant first, are the 264 bits of entropy and checksum |
| `Mnemonic.WordBits` | internal/controller/generators/mnemonic.go:105-119 | bit by bit, as quotients of powers of two: bit l of word index j is bit k of byte i of the entropy, or of the checksum behind it, where 8i + k = 11j + l |
| `Mnemonic.GenerateMnemonic` | internal/controller/generators/mnemonic.go:93-123 | the phrase has the letters of its 24 words and 23 characters more; word i stands behind the words before it and one character each; that character is a space, and no other white space occurs; the phrase decodes to the entropy |
| `Mnemonic.JoinIsSentence` | internal/controller/generators/mnemonic.go:122 | the joined words, for any number of them: each stands at the sum of the lengths before it and one space each |
| `Mnemonic.DecodeGenerated` | internal/controller/generators/mnemonic_test.go:102-143 | splitting and decoding a generated phrase gives the entropy back and passes the checksum, for any table of 2048 distinct words without spaces |
| `Mnemonic.AcceptedIsGenerated` | internal/controller/generators/mnemonic_test.go:102-143 | conversely a word list the decoder accepts is the generated phrase of the entropy it recovers |
| `Mnemonic.GenerateTwice` | internal/controller/generators/mnemonic.go:93-123 | two phrases are equal exactly if the entropies are |
| `Mnemonic.BitsOfDigits` | internal/controller/generators/mnemonic.go:105-119 | the big-endian number of a digit string and the digits themselves are the same bits, for any digit width |
| `Mnemonic.NextIndex` | internal/controller/generators/mnemonic.go:113-118 | one turn of the loop: eleven bits leave the number at its low end and become the next index |
| `Mnemonic.FieldsOfJoin` | internal/controller/generators/mnemonic.go:123 | splitting what strings.Join put together gives the words back; what stands between them is `JoinIsSentence` |
| `ConfigWriter.GenerateConfigToml` | internal/controller/generators/configmap.go:69-81 | the buffer the writers fill is the text of the document whose every key `ConfigTables` gives, in order |
| `ConfigWriter.WriteInfoSection` | internal/controller/generators/configmap.go:83-149 | starts the file with [info] and exactly those of its three subtables whose settings are there; the buffer keeps printing the document it records |
| `ConfigWriter.WriteMintInfoSection` | internal/controller/generators/configmap.go:151-189 | keeps what was written and appends [mint_info] with the keys that are set, or nothing when none is |
| `ConfigWriter.WriteDatabaseSection` | internal/controller/generators/configmap.go:191-246 | keeps what was written and appends [database], and independently of each other [database.postgres] (its url from the password, the spec, or absent) and the top-level [auth_database.postgres] |
| `ConfigWriter.WritePaymentBackendSection` | internal/controller/generators/configmap.go:248-277 | keeps what was written and appends [ln], whose four limits are each the field of that name (`ConfigTables.LnTable`), and the table of the one active backend, never two |
| `ConfigWriter.WriteLNDSection` | internal/controller/generators/configmap.go:279-298 | appends [lnd] exactly if LND is configured, nothing otherwise |
| `ConfigWriter.WriteCLNSection` | internal/controller/generators/configmap.go:300-316 | appends [cln] exactly if CLN is configured, nothing otherwise |
| `ConfigWriter.WriteLNBitsSection` | internal/controller/generators/configmap.go:318-334 | appends [lnbits] exactly if LNbits is configured, nothing otherwise |
| `ConfigWriter.WriteFakeWalletSection` | internal/controller/generators/configmap.go:336-365 | appends [fake_wallet] with the values of the spec or the writer's own defaults, which are the webhook's (`Wiring.SameWithoutDefault`) |
| `ConfigWriter.WriteGRPCProcessorSection` | internal/controller/generators/configmap.go:367-381 | appends [grpc_processor] with the values of the spec or the writer's own defaults, which are the webhook's |
| `ConfigToml.GRPCAddress` | internal/controller/generators/configmap.go:383-396 | the processor address always carries a scheme, and one that carries it is left alone |
| `ConfigWriter.WriteLDKNodeSection` | internal/controller/generators/configmap.go:412-466 | appends [ldk_node] exactly if it is enabled, its chain and gossip source keys under their own conditions |
| `ConfigWriter.WriteAuthSection` | internal/controller/generators/configmap.go:468-512 | appends [auth] exactly if it is enabled, with the levels of the spec |
| `ConfigWriter.WriteManagementRPCSection` | internal/controller/generators/configmap.go:514-533 | appends [mint_management_rpc] exactly if it is enabled, with the TLS directory exactly if the pod mounts the bundle |
| `ConfigWriter.WriteLimitsSection` | internal/controller/generators/configmap.go:535-546 | appends [limits] exactly if a limits block is given |
| `ConfigWriter.WritePrometheusSection` | internal/controller/generators/configmap.go:548-564 | appends [prometheus] exactly if it is enabled |
| `ConfigMeaning.ConfigWellFormed` | internal/controller/generators/configmap.go:69-564 | for every spec no table is defined twice, no key repeats in a table and no key is also a table |
| `ConfigMeaning.ConfigRoundTrip` | internal/controller/generators/configmap.go:69-564 | parsing the file gives exactly the intended tables, keys and values if and only if every string is one whose Go quoting TOML reads and every array element is one that needs no quoting |
| `ConfigMeaning.ReaderSees` | internal/controller/generators/configmap.go:69-564 | what the spec puts under a dotted name is what a reader of the file finds there |
| `ConfigMeaning.EqualFilesEqualSettings` | internal/controller/generators/configmap.go:69-564 | equal files mean equal settings |
| `ConfigMeaning.MainDatabaseURL` | internal/controller/generators/configmap.go:195-204 | when the file has a main database url and which one it is; it is never empty |
| `ConfigTables.InfoTable` | internal/controller/generators/configmap.go:83-101 | [info]: which field of the spec or default stands under each key |
| `ConfigTables.QuoteTTLTable` | internal/controller/generators/configmap.go:103-112 | [info.quote_ttl] likewise, absent without its block |
| `ConfigTables.HTTPCacheTable` | internal/controller/generators/configmap.go:114-136 | [info.http_cache] likewise |
| `ConfigTables.LoggingTable` | internal/controller/generators/configmap.go:138-148 | [info.logging] likewise |
| `ConfigTables.NamingKeys` | internal/controller/generators/configmap.go:159-170 | [mint_info]: name, descriptions and message of the day |
| `ConfigTables.ContactKeys` | internal/controller/generators/configmap.go:171-188 | [mint_info]: key, icon, contacts, terms of service and input fee |
| `ConfigTables.PostgresTable` | internal/controller/generators/configmap.go:195-222 | [database.postgres]: the url spelled out with the password of a provisioned database, else the spec's; TLS mode and limits |
| `ConfigTables.AuthPostgresTable` | internal/controller/generators/configmap.go:224-245 | [auth_database.postgres] likewise |
| `ConfigTables.LnTable` | internal/controller/generators/configmap.go:248-263 | [ln]: the name of the one backend, and each of the four limits under its own name |
| `ConfigTables.LNDTable` | internal/controller/generators/configmap.go:279-298 | [lnd]: address, the mounted files where their Secrets are named, fees |
| `ConfigTables.CLNTable` | internal/controller/generators/configmap.go:300-316 | [cln] likewise |
| `ConfigTables.LNBitsTable` | internal/controller/generators/configmap.go:318-334 | [lnbits] likewise |
| `ConfigTables.FakeWalletTable` | internal/controller/generators/configmap.go:336-365 | [fake_wallet] with the writer's own defaults spelled out |
| `ConfigTables.GRPCPlainKeys` | internal/controller/generators/configmap.go:367-410 | [grpc_processor]: port, units and TLS directory with the writer's own defaults |
| `ConfigTables.LDKChainKeys` | internal/controller/generators/configmap.go:418-428 | [ldk_node]: fees, network and chain source |
| `ConfigTables.LDKBitcoinKeys` | internal/controller/generators/configmap.go:429-438 | [ldk_node]: host and port of the bitcoin RPC where it is given, and the directories |
| `ConfigTables.LDKListenKeys` | internal/controller/generators/configmap.go:439-451 | [ldk_node]: listen host and port with the writer's own defaults, announced addresses |
| `ConfigTables.LDKGossipKeys` | internal/controller/generators/configmap.go:452-465 | [ldk_node]: gossip source and web server with the writer's own defaults |
| `ConfigTables.OpenIDKeys` | internal/controller/generators/configmap.go:474-483 | [auth]: the OpenID settings |
| `ConfigTables.MintLevelKeys` | internal/controller/generators/configmap.go:485-499 | [auth]: the levels of minting and melting, each under its own name |
| `ConfigTables.SwapLevelKeys` | internal/controller/generators/configmap.go:500-511 | [auth]: the levels of melt quote checks, swapping, restoring and proof checks, each under its own name |
| `ConfigTables.ManagementRPCTable` | internal/controller/generators/configmap.go:514-533 | [mint_management_rpc] likewise |
| `ConfigTables.LimitsTable` | internal/controller/generators/configmap.go:535-546 | [limits]: inputs and outputs, each under its own name |
| `ConfigTables.PrometheusTable` | internal/controller/generators/configmap.go:548-564 | [prometheus] likewise |
| `ConfigLines.SettingIsLine` | internal/controller/generators/configmap.go:69-564 | whatever a reader finds under a table and a key stands in the text as a line `key = value` of its own, and the table as a line `[table]` |
| `ConfigLines.LimitLines` | internal/controller/generators/configmap.go:252-257 | in particular the smallest amount stands behind min_mint and the largest behind max_mint |
| `ConfigLines.PlainText` | internal/controller/generators/configmap.go:85-97 | a text of printable ASCII without quote and backslash is written between double quotes as it is |
| `ConfigLines.ControlCharacters` | internal/controller/generators/configmap.go:85-97 | and a control character with the letter Go has for it or as two lower-case hexadecimal digits |
| `ConfigLines.SixDecimals` | internal/controller/generators/configmap.go:292-294 | a fee is written with a point and six decimals, each spelled out as a digit of its millionths |
| `TomlDoc.DocRoundTrip` | internal/controller/generators/configmap.go:69-564 | for any well-formed document the printer and the parser of the TOML subset agree exactly if its values are printing values |
| `Toml.ValueRoundTrip` | internal/controller/generators/configmap.go:85-97 | a printed value reads back as itself exactly if it is a printing value |
| `Toml.ReadQuoted` | internal/controller/generators/configmap.go:85-97 | what %q writes reads back as the same string if TOML knows every escape it used, and is an error otherwise |
| `Toml.ArrayNeedsPlain` | internal/controller/generators/configmap.go:352-356 | an array written element by element between bare quotes reads back only if no element needs escaping |
| `Credentials.GenerateSecurePassword` | internal/controller/generators/postgres.go:379-385 | for every length n the slice is in bounds and the result has n characters, all of them of the base64url alphabet (RFC 4648 section 5) |
| `Credentials.EncodedLetters` | internal/controller/generators/postgres.go:384 | the encoding begins with one letter for every whole group of six bits, padding only behind them |
| `Credentials.LetterTable` | internal/controller/generators/postgres.go:384 | the letter of each six-bit group, as RFC 4648 lists them for the url-safe alphabet |
| `Credentials.SextetBits` | internal/controller/generators/postgres.go:384 | those groups are the leading bits of the input |
| `Credentials.PasswordInjective` | internal/controller/generators/postgres.go:379-385 | two passwords of length n are equal exactly if the first 6n random bits are |
| `Credentials.SameURL` | internal/controller/generators/postgres.go:86-87 | the url in the Secret and the one in config.toml are the same text, which is spelled out |
| `Credentials.URLRoundTrip` | internal/controller/generators/configmap.go:198-201 | splitting the url at its delimiters (RFC 3986 section 3.2) recovers user, password, host, port, database and options, for every generated password |
| `Webhook.Mint.Default` | api/v1alpha1/cashumint_webhook.go:42-50 | the six in-place passes one after the other leave the spec that `Defaulting.Defaults` gives, about which `DefaultTables`, the fixed point, the order and the keeping of user values are proved; the engine becomes postgres where it is unset, and an unset Orchard image the postgres one exactly if the engine is then postgres |
| `Webhook.Mint.DefaultMintInfo` | api/v1alpha1/cashumint_webhook.go:52-76 | writes image, replicas and the mint's own settings where they are unset and nothing else |
| `Webhook.Mint.DefaultDatabase` | api/v1alpha1/cashumint_webhook.go:78-90 | writes the engine where it is unset, the postgres block for the engine as it is then, and nothing else |
| `Webhook.Mint.DefaultPostgres` | api/v1alpha1/cashumint_webhook.go:92-117 | writes the TLS mode and the limits of the postgres block and, if it is provisioned, its size and version |
| `Webhook.Mint.DefaultIngress` | api/v1alpha1/cashumint_webhook.go:119-138 | writes the class and the issuer kind of an enabled Ingress where they are unset, and nothing else |
| `Webhook.Mint.DefaultOrchard` | api/v1alpha1/cashumint_webhook.go:140-214 | the Orchard pass, which switches the management RPC on and derives mTLS; an unset image becomes the postgres one for the engine postgres and the sqlite one for any other |
| `Webhook.Mint.DefaultOperational` | api/v1alpha1/cashumint_webhook.go:216-251 | writes the unset fields of the eight operational blocks that are there and nothing else; a block that is missing stays missing |
| `Webhook.DefaultHTTPCache` | api/v1alpha1/cashumint_webhook.go:253-265 | backend and times of the cache block where they are unset, and nothing else |
| `Webhook.DefaultAuth` | api/v1alpha1/cashumint_webhook.go:290-323 | every unset level of an enabled auth block, none of a disabled one |
| `Webhook.Mint.DefaultPaymentBackend` | api/v1alpha1/cashumint_webhook.go:325-365 | writes the blocks of the backends and of LDK that are there and nothing else |
| `Webhook.DefaultFakeWallet` | api/v1alpha1/cashumint_webhook.go:367-388 | the unset fields of the block, an empty unit list counting as unset |
| `Webhook.DefaultGRPCProcessor` | api/v1alpha1/cashumint_webhook.go:390-403 | the unset fields of the block and, if the sidecar is enabled, of the sidecar |
| `Webhook.DefaultLDKNode` | api/v1alpha1/cashumint_webhook.go:405-436 | the unset fields of an enabled LDK block |
| `Defaulting.PassChangesNothing` | api/v1alpha1/cashumint_webhook.go:42-50 | each of the six passes leaves the result of Default as it is |
| `Defaulting.FixedPoint` | api/v1alpha1/cashumint_webhook.go:42-50 | so does any sequence of passes in any order; in particular Default is idempotent |
| `Defaulting.DatabaseBeforeOrchard` | api/v1alpha1/cashumint_webhook.go:78-90 | the order of the database and the Orchard pass matters exactly if both the engine and the Orchard image are left to the defaults |
| `Defaulting.OrchardBeforeOperational` | api/v1alpha1/cashumint_webhook.go:140-214 | the order of the Orchard and the operational pass matters exactly if Orchard has to switch the management RPC on |
| `DefaultsKeep.DefaultKeeps` | api/v1alpha1/cashumint_webhook.go:52-436 | no field the user set is altered |
| `DefaultTables.MintTable` | api/v1alpha1/cashumint_webhook.go:52-65 | what Default leaves in image, replicas and listen address, value by value |
| `DefaultTables.QuoteTTLTable` | api/v1alpha1/cashumint_webhook.go:66-75 | the times of a quote |
| `DefaultTables.EngineTable` | api/v1alpha1/cashumint_webhook.go:79-81 | the engine where it is unset is postgres |
| `DefaultTables.PostgresTable` | api/v1alpha1/cashumint_webhook.go:92-117 | the fields of the postgres block after Default, value by value |
| `DefaultTables.StoreTable` | api/v1alpha1/cashumint_webhook.go:109-116 | size and version of a provisioned database |
| `DefaultTables.SQLiteTable` | api/v1alpha1/cashumint_webhook.go:85-89 | the directory of a sqlite database |
| `DefaultTables.IngressTable` | api/v1alpha1/cashumint_webhook.go:119-138 | class and issuer kind of an enabled Ingress |
| `DefaultTables.OrchardImageTable` | api/v1alpha1/cashumint_webhook.go:145-148 | the image of an Orchard without one: postgres exactly if the engine afterwards is postgres |
| `DefaultTables.OrchardServerTable` | api/v1alpha1/cashumint_webhook.go:149-171 | pull policy, host, port and limits of Orchard |
| `DefaultTables.OrchardPartsTable` | api/v1alpha1/cashumint_webhook.go:172-186 | storage, Service and Ingress of Orchard |
| `DefaultTables.OrchardLinksTable` | api/v1alpha1/cashumint_webhook.go:190-213 | the kinds of the parts Orchard connects to |
| `DefaultTables.OrchardRPCTable` | api/v1alpha1/cashumint_webhook.go:196-207 | the rpc block of Orchard, mTLS from the management RPC |
| `DefaultTables.ManagementRPCTable` | api/v1alpha1/cashumint_webhook.go:187-241 | the management RPC, switched on where Orchard is and it is missing |
| `DefaultTables.LoggingTable` | api/v1alpha1/cashumint_webhook.go:217-224 | level and format of the log |
| `DefaultTables.StoresTable` | api/v1alpha1/cashumint_webhook.go:225-230 | storage size and Service type |
| `DefaultTables.PrometheusTable` | api/v1alpha1/cashumint_webhook.go:267-275 | address and port of the metrics |
| `DefaultTables.CacheTable` | api/v1alpha1/cashumint_webhook.go:253-265 | the cache block |
| `DefaultTables.BackupTable` | api/v1alpha1/cashumint_webhook.go:277-288 | schedule and retention of an enabled backup |
| `DefaultTables.AuthTable` | api/v1alpha1/cashumint_webhook.go:290-323 | the levels of an enabled auth block |
| `DefaultTables.LightningTable` | api/v1alpha1/cashumint_webhook.go:325-355 | the fees of the three lightning backends |
| `DefaultTables.FakeWalletTable` | api/v1alpha1/cashumint_webhook.go:367-388 | the fake wallet |
| `DefaultTables.GRPCTable` | api/v1alpha1/cashumint_webhook.go:390-403 | the processor and its sidecar |
| `DefaultTables.LDKTable` | api/v1alpha1/cashumint_webhook.go:405-436 | an enabled LDK block |
| `Validation.ValidateDatabase` | api/v1alpha1/cashumint_webhook.go:602-634 | reports exactly the broken rules of the database block |
| `Validation.ValidatePaymentBackend` | api/v1alpha1/cashumint_webhook.go:637-708 | reports exactly the broken rules of the backends |
| `Validation.ValidateIngressConfig` | api/v1alpha1/cashumint_webhook.go:553-576 | reports exactly the broken rules of an Ingress |
| `Validation.ValidateResources` | api/v1alpha1/cashumint_webhook.go:716-733 | reports a request above its limit if there is one, whichever order the map is visited in |
| `Validation.ValidateBackup` | api/v1alpha1/cashumint_webhook.go:512-551 | reports exactly the broken rules of the backup |
| `Validation.ValidateOrchard` | api/v1alpha1/cashumint_webhook.go:735-765 | reports exactly the broken rules of Orchard, those of its parts included |
| `Validation.ValidateOrchardMint` | api/v1alpha1/cashumint_webhook.go:767-788 | reports exactly the broken rules of the mint block |
| `Validation.ValidateOrchardBitcoin` | api/v1alpha1/cashumint_webhook.go:790-809 | reports exactly the broken rules of the bitcoin block |
| `Validation.ValidateOrchardLightning` | api/v1alpha1/cashumint_webhook.go:811-840 | reports exactly the broken rules of the lightning block |
| `Validation.ValidateOrchardTaprootAssets` | api/v1alpha1/cashumint_webhook.go:842-861 | reports exactly the broken rules of the taproot block |
| `Validation.ValidateCashuMint` | api/v1alpha1/cashumint_webhook.go:463-509 | a mint is accepted exactly if no part breaks a rule |
| `Rules.ValidMeans` | api/v1alpha1/cashumint_webhook.go:463-870 | the specs that are accepted, written down block by block without the rules: which engine and where its url may come from, exactly one backend with its address, complete Ingress, backup, management RPC and Orchard blocks, and no request above its limit |
| `Rules.OrchardRules` | api/v1alpha1/cashumint_webhook.go:735-870 | the Orchard part of that, over all twenty-two rules |
| `Rules.BackendRules` | api/v1alpha1/cashumint_webhook.go:637-708 | the backend part of that, over all eight rules |
| `Admission.ValidAfterDefault` | api/v1alpha1/cashumint_webhook.go:463-509 | after Default a mint is accepted exactly if it is once the engine, the backup schedule and the management RPC are filled in: no other default, synthesised mTLS included, changes a validator's mind |
| `Admission.DefaultKeepsValid` | api/v1alpha1/cashumint_webhook.go:140-214 | a mint that is accepted as it is stays accepted after Default |
| `Admission.ValidHasBackend` | api/v1alpha1/cashumint_types.go:444-471 | an accepted mint has an active backend and no other is set |
| `MintTypes.FindActiveBackend` | api/v1alpha1/cashumint_types.go:444-471 | the counting scan returns the one backend that is set, and nothing if there is none or another |
| `Pod.GenerateVolumes` | internal/controller/generators/deployment.go:600-704 | grows the slice branch by branch into exactly those candidates whose condition holds, in order |
| `Pod.GenerateOrchardVolumes` | internal/controller/generators/orchard.go:407-485 | the same for Orchard's volumes, none when Orchard is off |
| `Pod.GenerateVolumeMounts` | internal/controller/generators/deployment.go:536-597 | the mounts of the mintd container, each under the condition this file gives it |
| `Pod.GenerateSidecarMounts` | internal/controller/generators/deployment.go:269-285 | the mounts of the processor sidecar: the working directory if given, the TLS directory if both switch and reference are there |
| `Pod.GenerateOrchardVolumeMounts` | internal/controller/generators/orchard.go:323-404 | the mounts of the Orchard container, mTLS as Orchard and not the management RPC sees it |
| `PodClosure.GeneratePodSpec` | internal/controller/generators/deployment.go:92-126 | sidecar, LDK, mintd and Orchard containers as far as they are enabled, and the volumes of both files together |
| `PodClosure.PodVolumeNames` | internal/controller/generators/deployment.go:600-704 | no two volumes of the pod share a name, for every spec |
| `PodClosure.PodClosed` | internal/controller/generators/orchard.go:718-723 | every mount of every container names exactly one declared volume if and only if Orchard is not told to use mTLS while the management RPC is off |
| `PodClosure.ValidatorClosesPod` | api/v1alpha1/cashumint_webhook.go:782-786 | that case is exactly the one rule of the validator |
| `PodClosure.ValidPodClosed` | internal/controller/generators/deployment.go:92-126 | the pod of an admitted mint is closed and its volume names are distinct |
| `PodMounts.MintNothingHidden` | internal/controller/generators/deployment.go:537-553 | in the mintd container no later mount path covers an earlier one |
| `PodMounts.OrchardNothingHidden` | internal/controller/generators/orchard.go:323-404 | nor in the Orchard container |
| `PodMounts.SidecarNothingHidden` | internal/controller/generators/deployment.go:269-285 | in the sidecar this holds, for a working directory written without `.`, `..` or repeated slashes, exactly if it is not the TLS directory and does not lie under it; a parent of it is harmless |
| `Plan.VolumesProvided` | internal/controller/cashumint_controller.go:295-332 | every volume of the pod is an emptyDir, a Secret the user named, or one of the sources `Backing.DeploymentHasObjects` and `Backing.DeploymentHasSecrets` prove to be in place |
| `PodTables.BaseVolumeTable` | internal/controller/generators/deployment.go:600-633 | the volumes config and data: the ConfigMap of this mint, and the PVC exactly for the two local engines |
| `PodTables.LNDVolumeTable` | internal/controller/generators/deployment.go:637-659 | which Secret is behind each LND volume, exactly with LND as the backend |
| `PodTables.ProcessorVolumeTable` | internal/controller/generators/deployment.go:661-701 | which Secret is behind the TLS volumes of processor and sidecar |
| `PodTables.ManagementVolumeTable` | internal/controller/generators/deployment.go:675-684 | which Secret is behind the management TLS volume |
| `PodTables.OrchardVolumeTable` | internal/controller/generators/orchard.go:407-428 | Orchard's claim and its scratch space |
| `PodTables.LightningVolumeTable` | internal/controller/generators/orchard.go:429-463 | which Secret is behind each of Orchard's lightning volumes |
| `PodTables.TaprootVolumeTable` | internal/controller/generators/orchard.go:464-482 | which Secret is behind each of Orchard's taproot volumes |
| `PodTables.MintMountTable` | internal/controller/generators/deployment.go:536-575 | which volume, and which file of it, mintd sees at each path |
| `PodTables.MintTLSMountTable` | internal/controller/generators/deployment.go:577-594 | which TLS directories mintd sees, and when |
| `PodTables.SidecarMountTable` | internal/controller/generators/deployment.go:269-285 | what the sidecar sees: its part of mintd's volume where a working directory is given, and its own certificates |
| `PodTables.OrchardMountTable` | internal/controller/generators/orchard.go:323-346 | which volume Orchard sees at each path |
| `PodTables.LightningMountTable` | internal/controller/generators/orchard.go:347-382 | which file of which Secret Orchard sees at each lightning path |
| `PodTables.TaprootMountTable` | internal/controller/generators/orchard.go:383-401 | which file of which Secret Orchard sees at each taproot path |
| `PodTables.ContainerTable` | internal/controller/generators/deployment.go:140-166 | the ports of mintd and Orchard with their default numbers |
| `PodTables.ExtraContainerTable` | internal/controller/generators/deployment.go:209-285 | the sidecar and the LDK container: when they are there, and their ports |
| `PodTables.OrchardDatabaseTable` | internal/controller/generators/orchard.go:283-321 | where Orchard finds the database: the sqlite file, the key `database-url` of the provisioned Secret, the user's key, or the url |
| `Plan.OwnSecretsProvided` | internal/controller/generators/deployment.go:376-393 | an environment variable of mintd or Orchard that reads a Secret the user did not name reads one of the keys `Backing.DeploymentHasKeys` proves to be there |
| `Plan.ValidOrchardHasDatabase` | internal/controller/generators/orchard.go:283-321 | an admitted mint with Orchard always tells it where the database is |
| `Env.GenerateEnvironmentVariables` | internal/controller/generators/deployment.go:321-331 | the variables whose condition holds, in order, the eight groups one after the other |
| `PodTables.DirectoryVariables` | internal/controller/generators/deployment.go:335-356 | the variables with fixed values |
| `PodTables.BackendVariables` | internal/controller/generators/deployment.go:335-356 | backend and engine |
| `PodTables.AddressVariables` | internal/controller/generators/deployment.go:335-356 | url, listen host and port with their defaults |
| `PodTables.LoggingVariables` | internal/controller/generators/deployment.go:359-376 | the log levels, each from its own field |
| `PodTables.MnemonicVariable` | internal/controller/generators/deployment.go:378-397 | the mnemonic from the user's Secret key, or from the generated one |
| `PodTables.ManagementVariables` | internal/controller/generators/deployment.go:399-423 | the management RPC's four variables with their defaults |
| `PodTables.LNBitsVariables` | internal/controller/generators/deployment.go:444-458 | the admin and the invoice key, each from its own Secret key, exactly with LNbits as the backend |
| `PodTables.ProcessorVariables` | internal/controller/generators/deployment.go:460-487 | the processor's four variables with their defaults |
| `PodTables.LDKVariables` | internal/controller/generators/deployment.go:490-516 | user, password and mnemonic, each from its own Secret key |
| `PodTables.RedisVariable` | internal/controller/generators/deployment.go:518-533 | the Redis connection: the Secret key first, the text where none is named |
| `Env.MintCoreEnvVars` | internal/controller/generators/deployment.go:335-356 | backend, url, listen address, engine and log output, with the defaults this file gives them |
| `Env.MintManagementRPCEnvVars` | internal/controller/generators/deployment.go:399-423 | present exactly if the RPC is on; the TLS directory exactly if TLS is |
| `Env.MintGRPCProcessorEnvVars` | internal/controller/generators/deployment.go:460-487 | units, address, port and TLS directory of the active processor |
| `Env.MintHTTPCacheEnvVars` | internal/controller/generators/deployment.go:518-533 | the Redis variable from the Secret if one is named, else from the spec |
| `Wiring.EnvDistinct` | internal/controller/generators/deployment.go:321-331 | no variable is defined twice, for every spec |
| `Wiring.WiringAgrees` | internal/controller/generators/deployment.go:335-487 | for every spec each of seventeen settings given both as a variable and in config.toml has the same value in both, or is missing from the same side |
| `Wiring.RedisAgrees` | internal/controller/generators/deployment.go:518-533 | the Redis connection agrees too, exactly unless it is given directly and from a Secret at once |
| `Wiring.SameWithoutDefault` | internal/controller/generators/configmap.go:336-410 | the listen, fake_wallet, grpc_processor and prometheus output is the same whether or not Default ran |
| `Wiring.OrchardDialsMintd` | internal/controller/generators/orchard.go:708-716 | the port Orchard dials is the one config.toml tells mintd to listen on exactly unless Orchard's rpc block names another |
| `Wiring.DefaultMovesOrchardPort` | internal/controller/generators/orchard.go:708-716 | Default keeps the port Orchard dials exactly unless its rpc block leaves the port open while the management RPC listens on another than 8086 |
| `Network.GenerateService` | internal/controller/generators/service.go:32-147 | type, load balancer address and exactly the ports of the enabled features, by target name |
| `PodTables.ServicePortTable` | internal/controller/generators/service.go:44-111 | number and target of the ports api, management and metrics with their defaults |
| `PodTables.LDKServicePortTable` | internal/controller/generators/service.go:58-83 | number and target of the two LDK ports |
| `Network.GenerateIngress` | internal/controller/generators/ingress.go:31-140 | nothing unless enabled; host, backend port, merged annotations and TLS with its secret name |
| `Network.MergeAnnotations` | internal/controller/generators/ingress.go:61-74 | the user's annotations win for their keys and the others stay, whichever order the map is visited in |
| `PodTables.IngressTable` | internal/controller/generators/ingress.go:31-140 | class, host, backend and TLS Secret with their defaults |
| `PodTables.AnnotationTable` | internal/controller/generators/ingress.go:48-74 | the operator's annotations key by key, each unless the user gives another |
| `PodTables.IssuerTable` | internal/controller/generators/ingress.go:56-67 | the issuer annotations, exactly with cert-manager switched on |
| `Network.GenerateOrchardService` | internal/controller/generators/orchard.go:530-582 | Orchard's Service, exactly if Orchard is on, with its one port |
| `Network.GenerateOrchardIngress` | internal/controller/generators/orchard.go:585-674 | Orchard's Ingress, exactly if Orchard and its Ingress are on |
| `Network.ServicePortsReach` | internal/controller/generators/service.go:44-111 | each port of the Service but the management RPC's reaches, through its named target, one container port and no other, and that has its number; the management RPC's is the only one that goes by number |
| `Network.ManagementPortUndeclared` | internal/controller/generators/service.go:85-97 | a container declares the number of the management RPC exactly if the API, the metrics, one of the two LDK ports, Orchard or the sidecar was given the same number |
| `Network.IngressReachesMint` | internal/controller/generators/ingress.go:76-117 | the Ingress backend resolves to the API port of the Service and through it to mintd; it is the only port of that number exactly if no other feature was given the API's port |
| `Network.OrchardIngressReaches` | internal/controller/generators/orchard.go:585-674 | Orchard's Ingress resolves to its Service's one port and through it to the Orchard container |
| `DeepCopy.CopyMap` | api/v1alpha1/zz_generated.deepcopy.go:271-277 | the loop over a map, in whatever order: an equal map in a new object |
| `DeepCopy.CopySlice` | api/v1alpha1/zz_generated.deepcopy.go:208-212 | make and copy: equal elements in a new array, nil kept apart from empty |
| `DeepCopy.ResolvedValue` | internal/controller/cashumint_controller.go:734-755 | the graph with the two references resolved stands for the spec the config.toml of a run is rendered from |
| `DeepCopy.PostgresConfig.DeepCopyInto` | api/v1alpha1/zz_generated.deepcopy.go:1106-1128 | every field of the copy is the field of the source, pointers apart, and every pointer leads to a new object with equal fields or is nil on both sides |
| `DeepCopy.AuthDatabaseConfig.DeepCopyInto` | api/v1alpha1/zz_generated.deepcopy.go:55-62 | the same, one level up |
| `DeepCopy.AuthConfig.DeepCopyInto` | api/v1alpha1/zz_generated.deepcopy.go:30-42 | the same, two levels up |
| `DeepCopy.DatabaseConfig.DeepCopyInto` | api/v1alpha1/zz_generated.deepcopy.go:367-379 | the same for the struct inside the spec |
| `DeepCopy.CashuMint.DeepCopyInto` | api/v1alpha1/zz_generated.deepcopy.go:147-153 | the same for the mint with its replicas, pull secrets, node selector, database and auth settings; the two database graphs of the copy share nothing even where those of the source do |
| `DeepCopy.CashuMint.DeepCopy` | api/v1alpha1/zz_generated.deepcopy.go:156-163 | the copy is a new graph equal to the source |
| `DeepCopy.CashuMintList.DeepCopy` | api/v1alpha1/zz_generated.deepcopy.go:174-195 | for a list of any length, nil apart from empty: equal elements in order, all of them new, no two sharing an object |
| `DeepCopy.CashuMint.ConfigCopy` | internal/controller/cashumint_controller.go:709-755 | the writes to the url and its reference in the copy resolve exactly the two references they should (`DeepCopy.ResolvedValue`), and the caller's mint stays as it was |

## Left out

- Manager start-up, flags, metrics and webhook servers, RBAC, events, logs and the texts of error messages.
- Random sources, SHA-256 and X.509: arbitrary bytes, an arbitrary function and five arbitrary files that are not empty.
- The English word list itself: any table of 2048 distinct words that are not empty and hold no space.
- Contents of objects the operator passes through: labels, probes, security contexts, affinity, resource quantities, image pull settings. An applied object is the owner and spec it was generated from, with the text of the ConfigMap and the hash on the Deployment.
- The selector of the mint Service, which is not exclusive to mint pods.
- The restore Job of `internal/controller/generators/backup.go:193-337` and the annotation that starts it: it has a TTL and the annotation stays, so it is not run-once. Cron semantics and the backup scripts.
- Pruning of objects whose feature is switched off: the operator prunes the PodMonitor only, which the model keeps.
- Stale caches: the reads of a run are linearizable.
- Changes to operator-managed objects by hand: a pass overwrites them, but a run of the model has none between passes.
- A second worker on the same mint, and changes to the finalizer or the status by anybody else.
- Orchard's environment variables other than the database reference and the RPC port.
- Fees as floating-point numbers: a fee is an integer number of millionths, the precision `%f` prints.
- Strings that are not valid UTF-8: a string is a sequence of Unicode characters.
- The contents of postgres beyond the password of its role.
- Runs.SecretCreatedOnce: a management TLS Secret under a name the user chose counts as the user's, who may change it; that the operator itself never does is `Runs.OperatorKeepsSecrets`, for every name.
- Controller.Reconciler.UpdateDeploymentReadiness: does not have the NotFound branch of the source, because no run reaches it: the Deployment was applied in the same pass and its owner is still there.
- Controller.Reconciler.ReconcileOptionalBackup: the restore Job of the same stage is not applied, for the reason above; its reason in the BackupReady condition is left out with it.
- Controller.Reconciler.Converge: nobody may interfere, which is what convergence means; a mint that is being deleted is the subject of HandleDeletion.
- Credentials.GenerateSecurePassword: a random source that fails is modelled where the password is asked for, in `Controller.Reconciler.CreatePostgresSecret`.
- Agreement.PostgresStartsInAgreement: that two postgres Secrets of a run have different passwords is a hypothesis of the converse, which random generation makes overwhelmingly likely but not certain.
- Validation.ValidateResources: which of several excessive requests is reported is left open, as the order of a Go map is; quantities are integers in the smallest unit.
- DeepCopy.CashuMint.DeepCopyInto: the graph has the objects from the mint down to its two postgres blocks, sqlite, replicas, imagePullSecrets and nodeSelector; the other pointers of the spec, metadata and status are copied by the same three kinds of statements (allocate and assign, make and copy, a loop over a map) and kept as one value.
- DeepCopy.CashuMint.ConfigCopy: the two urls are parameters; reading them is `Controller.Reconciler.ResolveCredentials`.
