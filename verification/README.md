# zkDeal operations: verified models

A Dafny model of four cores of the zkDeal operations tooling, with proofs that hold for every input, every run
and every crash point the model admits. `dafny verify dfyconfig.toml` checks the whole project.

- **Soak driver and its verifier** (`SoakEvents`, `SoakPlan`, `SoakDriver`, `SoakVerifier`, `SoakInvariant`,
  `SoakClosure`, `SoakTamper`, `SoakBacking`, `SoakCharges`, `SoakBudgets`, `SoakProcess`, `SoakHonest`, `SoakWitness`,
  `Admissions`). A supervisor kills and respawns a worker that keeps two durable files, an append-only journal and a state file. `SoakDriver`
  gives a worker generation as a list of durable actions per timeline slot that can be cut before any of them;
  `SoakProcess` is the same worker as an object with volatile fields, proved to leave exactly those files. The main
  theorem crosses programs: every journal the driver closes is accepted by the independent verifier of
  `scripts/soak.py`. `SoakTamper` says what an accepted file holds and that its closure fits no other file, and
  `SoakBacking` what stands behind its evidence. `SoakHonest` shows only that its hypotheses can be met: for every manifest there is an
  environment, with one operation id and one proof job throughout, in which two generations close the soak.
- **Curve, RLP and transactions** (`ModArith`, `AffineCurve`, `Jacobian`, `Ecdsa`, `EcdsaVerification`, `Bytes`, `Rlp`,
  `Transactions`). Jacobian arithmetic refines the affine group law, signing and recovery are inverse, and what they
  return satisfies the verification equation of SEC 1 for the digest; RLP round-trips and is prefix-free, and a legacy
  transaction names its signer to a receiver written from EIP-155.
- **Fenced failover** (`Lsn`, `FailoverWorld`, `FailoverProvider`, `PromotionController`). A provider object with its
  memory and its state file drives a deployment through commands that may fail, take effect without reporting it,
  or never return. The signer runs only behind the fence.
- **Write-once journals and backups** (`WriteOnce`, `ObjectBundle`, `BackupRestore`). Intent and closure files refine
  a map from key to absent, pending or done; a backup restores exactly what was backed up, when it restores at all.
  `Text` and `Bytes` hold what several of these share.

## What is assumed

- secp256k1: p and n are prime, the affine group law is associative, no curve point has y = 0, and n times the
  generator is infinity (`Ecdsa.Secp256k1Hypotheses`). Everything else about the constants is computed. Keys recovered
  from arbitrary signatures also take that n times every curve point is infinity (`EcdsaVerification.CofactorOne`).
- Soak: appending a line and replacing the state file are atomic; a job's result digest is a function of the job id
  (`World.digest`); the ledger is append-only, numbered from one in entry order, with distinct charges, and one
  answer is a prefix of what follows the cursor, at most 500 entries long (`LedgerOk`, `PageAt`). Nothing is assumed
  of what the other services answer: a bad answer ends the generation like a kill. An exception and a kill leave the
  same files, so both are the same event in the model.
- Failover: stopped workloads stay stopped, only the provider starts the signer, and it starts out stopped. A look at a
  workload shows whether it runs; on Kubernetes the code looks at available or ready replicas, so the model takes "none
  is available" for "none runs".
- SHA-256, Keccak-256 and JSON text are functions on the modelled records, or are left as the record itself where
  only equality matters. Backups (`BackupRestore.Sound`): what is sealed unseals under the same key, nonce and
  associated data; the digest is injective, and it alone is what rules out a changed ciphertext; archive and JSON text
  read back. For one witness, JSON text spends at least its keys, punctuation and paths (`BackupRestore.Spelled`).
  Signing nonces are any sequence of scalars in 1..n-1.

## What came out differently from what one might expect

- Deposits are signed before they are recorded, so "one more than the worker boots" bounds the recorded deposits only.
  Signed ones are as many as the recorded ones exactly when no worker is killed between the two, and at most two for
  each boot (`Admissions.SignedBounded`); there are runs with two at every boot (`Admissions.TwoEachBoot`).
- The wait and deadline budgets are kept in memory. A generation closes the soak exactly when it finishes, the totals
  are right and its own late slots are within the budget (`SoakBudgets.GenerationCloses`), so a soak closes although an
  earlier generation broke the budget (`SoakWitness.SlowSoakCloses`).
- The final ledger check reads one page: a journal that charges exactly the visible ledger passes it if and only if
  that has at most 500 entries (`SoakCharges.OnePageOnly`). After a 501st charge no generation closes the soak
  (`SoakCharges.NeverCloses`), and two generations can get there (`SoakWitness.OverfullSoak`).
- A 65-byte signature with recovery id 2 or 3 is refused although recovery itself takes ids 0 to 3
  (`Transactions.SignatureAddress`).
- RLP strings of 2^64 bytes or more get a list tag (`Rlp.RoundTripExactly`).
- The controller's commit key is the candidate id with seven more characters, so ids of 194 to 200 characters prepare
  but can never commit (`PromotionController.CallsAccepted`).
- Fault control runs an effect at most once per key, not per operation id (`WriteOnce.TwoKeysTwoRuns`).
- A provider save that raises without having written leaves the process ahead of its file. Then, and only then:
  - a prepare that goes on from a target in memory can stop the primary before the file has the target; a new process
    finds neither and can never finish (`FailoverProvider.Provider.PrepareUntilDone`, `Stranded`);
  - after two such saves in a row a commit starts the signer while the file still says PREPARING
    (`FailoverProvider.Provider.Commit`, `LostSaves`).
- A backup is recorded as completed although it cannot be restored if a name has a backslash, which is bundled but
  never extracted, or if the manifest is longer than one mebibyte, which is encrypted but never read
  (`BackupRestore.BackupRestores`). Twenty thousand plainly named files are enough (`BackupRestore.CrowdIsLost`).

## Model

| member | source | states |
|---|---|---|
| `SoakPlan.TimelineShape` | owner-soak-driver/zkdeal_owner_soak.py:2971-2998 | for every duration of at least 43200 s and every schedule of the eight faults: slot keys are exactly the planned ones and unique, setup is first, pulse 0 precedes every fault, every charging slot precedes reconcile, an aggregate precedes the docker restart, and one follows it exactly when the restart is scheduled before `duration - 60` |
| `SoakPlan.PlanFacts` | owner-soak-driver/zkdeal_owner_soak.py:2971-2998 | sorting the appended slots keeps all 51 of them once, ordered by second, order and key, each with the second the plan gives its key |
| `SoakPlan.SlotTimes` | owner-soak-driver/zkdeal_owner_soak.py:2971-2998 | when each slot is due: pulse i at i times a thirty-sixth, the aggregates at a twelfth, a half and seven eighths unless all of them would miss one side of the docker restart, sponsorship and withdrawal at the thirds, faults as scheduled, reconciliation sixty seconds before the end |
| `SoakPlan.SameSecond` | owner-soak-driver/zkdeal_owner_soak.py:2998 | slots of one second run in the order setup, pulses, aggregates, sponsorship, withdrawal, faults, reconciliation |
| `SoakInvariant.SlotCore` | owner-soak-driver/zkdeal_owner_soak.py:2117-2677 | one slot, run to its end or cut at any durable write: journal order, ledger coverage and restart history survive, and a finished slot has left all the evidence the verifier will look for |
| `SoakInvariant.ChargesCore` | owner-soak-driver/zkdeal_owner_soak.py:1842-1870 | journaling a page of ledger entries before moving the cursor keeps "every entry up to the saved cursor is journaled", wherever the kill falls |
| `SoakInvariant.DockerCore` | owner-soak-driver/zkdeal_owner_soak.py:2918-2953 | the docker restart slot: a recovery is written only by a later generation than the announcement and after a finalize line; the generation that announces never finishes the slot |
| `SoakInvariant.SlotsCore` | owner-soak-driver/zkdeal_owner_soak.py:3024-3035 | the pacer, from any slot and under any kill: completed slots stay a prefix of the plan with their evidence, and a finished timeline has done every slot |
| `SoakClosure.EveryRun` | owner-soak-driver/zkdeal_owner_soak.py:3150-3243 | the invariant of the two durable files holds in every state of every crashed and resumed run, starting from no files |
| `SoakClosure.DriverVerifierAgreement` | scripts/soak.py:191-366 | whatever journal the driver closes, under any schedule of kills and respawns, passes every check of `verify_closure`; `SoakTamper` says over the lines what each of these checks rules out |
| `SoakTamper.TamperEvident` | scripts/soak.py:336-353 | two files that are both accepted and end in the same line are the same line for line, or their lines before the end are a collision of the hash; and the manifests they were accepted for have one hash |
| `SoakTamper.ClosureFixesFile` | scripts/soak.py:336-353 | with a hash without collisions, no file that differs anywhere from an accepted one and keeps its last line is accepted |
| `SoakTamper.OnlyTheRunVerifies` | owner-soak-driver/zkdeal_owner_soak.py:302-310 | the closure that a run of the driver writes is accepted at the end of that run's own lines only, up to a collision of the hash |
| `SoakTamper.AcceptedRepeatsNothing` | scripts/soak.py:309-319 | in an accepted file no two broadcasts share a nonce and no two charges an id, something is charged, and the totals are the manifest's |
| `SoakTamper.AcceptedIsOwned` | scripts/soak.py:301-308 | every broadcast of an accepted file is a durable operation of the owner |
| `SoakTamper.AcceptedFaults` | scripts/soak.py:286-294 | every scheduled fault of an accepted file recovered, was announced, and was last announced for the second the manifest names |
| `SoakTamper.AcceptedSealsOnce` | scripts/soak.py:321-333 | an accepted file has one map from outputs to 64-digit digests that every sealing line agrees with, and finalizes an output |
| `SoakTamper.AcceptedKinds` | scripts/soak.py:199-284 | an accepted file shows every lifecycle kind, and the last event of each checked kind has exactly the field values the check demands |
| `SoakTamper.AcceptedCloses` | scripts/soak.py:336-354 | an accepted file ends in the closure of this manifest over the lines before it, with every assertion true, every counter zero and at least the manifest's duration |
| `SoakTamper.AcceptedPersists` | scripts/soak.py:296-299 | an accepted file persists each of the six durable fields |
| `SoakBacking.EvidenceIsBacked` | owner-soak-driver/zkdeal_owner_soak.py:2918-2953 | in the journal of any run there is no settlement, sponsorship, withdrawal, docker-host recovery or closure without a generation whose answers passed every check the code makes before that line: selectors, transaction type, bound members and blobs, applied and failed counts, split of authority, rejected replay, unchanged sealed bytes, no safety event, the wait budget |
| `SoakBacking.EvidenceIsComplete` | owner-soak-driver/zkdeal_owner_soak.py:2117-2677 | in every state of every run a slot on record as done has left all its lines: setup nine rooms, a pulse its lineage, an aggregate those of eight members and its own, six blobs and the settlement |
| `SoakClosure.ExactlyOnce` | owner-soak-driver/zkdeal_owner_soak.py:248-310 | in every reachable state lines are numbered 1..k, no event id repeats, nothing follows a closure, completed slots are a prefix of the sorted plan, and elapsed time is at least the second of every completed slot |
| `SoakClosure.AppendOnly` | owner-soak-driver/zkdeal_owner_soak.py:275-300 | further generations only append to the journal |
| `SoakClosure.ClosureIsFinal` | owner-soak-driver/zkdeal_owner_soak.py:3168-3171 | once closed, no number of further generations changes either file |
| `SoakBudgets.GenerationCloses` | owner-soak-driver/zkdeal_owner_soak.py:3066-3133 | from any state of any run, the next generation writes the closure if and only if it lives through its timeline and the closing actions, nonces, charges, totals, resume flag and safety events are right, and its own wait and its own late slots are within the budgets |
| `SoakBudgets.MissesAreLate` | owner-soak-driver/zkdeal_owner_soak.py:3009-3035 | the miss count of a finished timeline is the number of slots not done when the generation booted that it started more than 300 s late; slots of earlier generations do not count |
| `SoakWitness.SlowSoakCloses` | owner-soak-driver/zkdeal_owner_soak.py:3009-3035 | for every manifest with a budget of at most two misses there is a run whose first generation misses more deadlines than that and whose second closes the soak |
| `SoakHonest.HonestSoakAccepted` | scripts/soak.py:191-366 | satisfiability only: for every manifest some environment lets two generations close the soak, and the verifier accepts their journal |
| `SoakClosure.RestartEvidenceIsReal` | owner-soak-driver/zkdeal_owner_soak.py:2918-2953 | every docker-host recovery was written by a strictly later generation than its announcement and after a finalize line, and no closed journal lacks one |
| `SoakClosure.BodyAccepted` | scripts/soak.py:191-341 | the evidence of a finished timeline together with the asserted totals satisfies every check the verifier makes on the events before the closure |
| `SoakVerifier.LastIndex` | scripts/soak.py:204-208 | `one(kind)`: a kind that is present has a last event |
| `SoakCharges.ChargesConserved` | owner-soak-driver/zkdeal_owner_soak.py:1842-1870 | in every state of every run the journaled charges are distinct ledger entries with their amounts, and include every entry up to the saved cursor |
| `SoakCharges.TotalsConserved` | owner-soak-driver/zkdeal_owner_soak.py:3043-3101 | a journal that charges exactly the entries of a page has the totals of that page, in whatever order the lines were written |
| `SoakCharges.AgreementIsIds` | owner-soak-driver/zkdeal_owner_soak.py:3080-3089 | for a reachable journal the ledger check passes if and only if the charge ids agree: the comparison of totals adds nothing |
| `SoakCharges.ClosedRunConserves` | owner-soak-driver/zkdeal_owner_soak.py:3066-3101 | in every closed run the journal, the ledger page and the manifest carry the same usage and wei totals |
| `SoakCharges.OnePageOnly` | owner-soak-driver/zkdeal_owner_soak.py:3080-3089 | a reachable journal that charges exactly the visible ledger passes the ledger check if and only if the visible ledger fits into one answer of 500 entries |
| `SoakCharges.NeverCloses` | owner-soak-driver/zkdeal_owner_soak.py:1735-1752 | once the 501st charge of the ledger is journaled, no generations that follow can close the soak |
| `SoakWitness.OverfullSoak` | owner-soak-driver/zkdeal_owner_soak.py:1842-1870 | for every manifest and every ledger of more than 500 such entries, two generations journal the 501st charge |
| `SoakCharges.KilledThenRerun` | owner-soak-driver/zkdeal_owner_soak.py:1842-1870 | a charging step killed at any line or before the cursor write, then rerun against the same ledger, leaves the same file lines and cursor as an uninterrupted run, hence the same totals |
| `SoakProcess.Worker.constructor` | owner-soak-driver/zkdeal_owner_soak.py:3150-3175 | a new worker knows nothing but the two files |
| `SoakProcess.Worker.Load` | owner-soak-driver/zkdeal_owner_soak.py:248-273 | loading succeeds exactly on journals that are numbered without gaps and have nothing after a closure, and rebuilds the id set and the closed flag |
| `SoakProcess.Worker.EmitOnce` | owner-soak-driver/zkdeal_owner_soak.py:285-300 | the file gains the line exactly when its id is not known yet, and memory keeps agreeing with the file |
| `SoakProcess.Worker.Close` | owner-soak-driver/zkdeal_owner_soak.py:302-310 | appends the closure over everything before it and marks the journal closed |
| `SoakProcess.Worker.EmitCharges` | owner-soak-driver/zkdeal_owner_soak.py:1842-1870 | the loop over new entries, the cursor save and the count check, killed anywhere, leave the files of the step function |
| `SoakProcess.Worker.RunTimeline` | owner-soak-driver/zkdeal_owner_soak.py:3024-3035 | the pacer's loop refines the step function, deadline misses included |
| `SoakProcess.Worker.Work` | owner-soak-driver/zkdeal_owner_soak.py:3150-3200 | `run_worker` refines one generation of the step function, boot counter included |
| `SoakProcess.Supervise` | owner-soak-driver/zkdeal_owner_soak.py:3203-3243 | worker after worker over the same files: the result is the run of the step functions, satisfies the invariant, and a closed journal is accepted |
| `SoakVerifier.LoadJournal` | scripts/soak.py:174-188 | succeeds exactly on files of objects (blank lines skipped) whose events are numbered from one, and returns those events |
| `SoakVerifier.SealsUnchanged` | scripts/soak.py:321-333 | the dictionary loop accepts exactly when every output keeps one well-formed digest and some output is finalized |
| `Admissions.RecordedBeforeBroadcast` | owner-soak-driver/zkdeal_owner_soak.py:1941-1960 | every broadcast deposit was durably recorded first and not dropped since |
| `Admissions.RebroadcastIdentical` | owner-soak-driver/zkdeal_owner_soak.py:1253-1312 | between refusals, across any kills, a deposit is rebroadcast byte for byte |
| `Admissions.DepositsBounded` | owner-soak-driver/zkdeal_owner_soak.py:1897-1939 | recorded deposits of an admission, the only ones that are broadcast, are at most one more than its refusals, and refusals at most the worker boots |
| `Admissions.SignedBounded` | owner-soak-driver/zkdeal_owner_soak.py:1266-1300 | signed deposits of an admission are at most two for each worker boot and at most the recorded ones plus the boots; they are as many as the recorded ones if and only if no worker was killed between signing and recording |
| `Admissions.TwoEachBoot` | owner-soak-driver/zkdeal_owner_soak.py:1266-1300 | for every n the run of n generations that ask for one admission, are refused, sign again and are killed: it has signed 2n different deposits |
| `Admissions.NoncesDistinct` | owner-soak-driver/zkdeal_owner_soak.py:1872-1880 | no L2 nonce is attached to two recorded requests; they strictly increase |
| `Admissions.AdmittedOnce` | owner-soak-driver/zkdeal_owner_soak.py:1900-1906 | after an admission is issued nothing of it is signed, broadcast, posted or dropped again |
| `Admissions.Worker.EnsureDeposit` | owner-soak-driver/zkdeal_owner_soak.py:1941-1960 | record, broadcast, confirm; cut anywhere it keeps the record and the history in agreement |
| `Admissions.Worker.EnsureAdmission` | owner-soak-driver/zkdeal_owner_soak.py:1897-1939 | two attempts, the second only after a refusal of the first; success means the admission is issued; an admission on record is answered from the record, and the receipt of either attempt is kept and answered by a worker that lives to get it |
| `Admissions.RunGenerations` | owner-soak-driver/zkdeal_owner_soak.py:1872-1960 | over any generations killed anywhere the history obeys these laws: per admission at most one recorded deposit more than generations and at most two signed ones for each, and no nonce twice |
| `ModArith.Fermat` | owner-soak-driver/zkdeal_owner_soak.py:853-859 | the power with exponent p - 1 is one modulo a prime, which is what `pow(z, P - 2, P)` relies on |
| `ModArith.RootByPower` | owner-soak-driver/zkdeal_owner_soak.py:925-932 | for a prime that is 3 modulo 4, the power with exponent (p + 1) / 4 of a square is one of its two roots |
| `AffineCurve.AddOnCurve` | owner-soak-driver/zkdeal_owner_soak.py:811-836 | the chord-and-tangent sum of curve points is a reduced curve point (SEC 1 v2.0, section 2.2.1) |
| `AffineCurve.AddCommutes` | owner-soak-driver/zkdeal_owner_soak.py:811-836 | the affine sum commutes, doubling and opposite points included |
| `AffineCurve.TimesModulo` | owner-soak-driver/zkdeal_owner_soak.py:839-842 | when n times a point is infinity, only the scalar modulo n matters |
| `Jacobian.DoubleRefines` | owner-soak-driver/zkdeal_owner_soak.py:798-808 | doubling a reduced on-curve triple with any z stays reduced and on the curve, and its affine form is the affine double |
| `Jacobian.AddRefines` | owner-soak-driver/zkdeal_owner_soak.py:811-836 | adding two such triples is adding their affine points: infinity, P + P and P + (-P) included |
| `Jacobian.MultiplyRefines` | owner-soak-driver/zkdeal_owner_soak.py:839-850 | double-and-add is k-fold affine addition for every scalar, reduced modulo n |
| `Jacobian.JacobianMultiply` | owner-soak-driver/zkdeal_owner_soak.py:839-850 | the loop terminates and computes the recursive multiplication |
| `Ecdsa.Secp256k1Sound` | owner-soak-driver/zkdeal_owner_soak.py:614-619 | the constants of the code satisfy everything the proofs need of a curve, given the named hypotheses |
| `Ecdsa.KeyIsAffine` | owner-soak-driver/zkdeal_owner_soak.py:872-878 | every key in 1..n-1 has an affine on-curve public key, the key-fold sum of the generator |
| `Ecdsa.SignDigest` | owner-soak-driver/zkdeal_owner_soak.py:900-919 | the loop over nonces computes `Ecdsa.Sign`, which `EcdsaVerification.SignatureVerifies` characterises |
| `Ecdsa.NonceRoundTrip` | owner-soak-driver/zkdeal_owner_soak.py:900-941 | whatever one turn of the signing loop returns is in range, low-s, and recovers the signer's key, the low-s flip and R.x >= n included (SEC 1 v2.0, sections 4.1.3 and 4.1.6) |
| `Ecdsa.SignThenRecover` | owner-soak-driver/zkdeal_owner_soak.py:900-941 | sign then recover is the identity: 0 < s <= n/2 and recovery returns exactly the public key |
| `EcdsaVerification.SignatureVerifies` | owner-soak-driver/zkdeal_owner_soak.py:900-919 | a signature is one of the digest's own number: it is made with the first nonce that gives one, s times that nonce is plus or minus the number plus r times the key, and it passes the verification equation of SEC 1 v2.0, section 4.1.4, over the affine group law; there is none exactly when the digest is not 32 bytes or every nonce has r or s zero |
| `EcdsaVerification.RecoveredVerifies` | owner-soak-driver/zkdeal_owner_soak.py:922-941 | whatever key recovery returns, for any digest and any signature, the signature verifies under it, at the curve point whose abscissa and parity the recovery id names |
| `EcdsaVerification.RecoveryAccepts` | owner-soak-driver/zkdeal_owner_soak.py:922-941 | recovery succeeds if and only if the digest has 32 bytes, r and s are in the scalar field, the id is 0 to 3, the named abscissa is that of a curve point, and the key is not infinity |
| `Transactions.SignedIsReceived` | owner-soak-driver/zkdeal_owner_soak.py:959-981 | every signed transaction that encodes is read back with the nonce, price, gas, recipient, value, data, v, r and s put in |
| `Transactions.SignedTransactionNamesItsSigner` | owner-soak-driver/zkdeal_owner_soak.py:959-981 | EIP-155 end to end, against a receiver that re-encodes the first six received items with the chain id and two zeros: the fields arrive, the rebuilt payload reads as them, the chain id, 0 and 0, the low-s signature verifies for its hash under the signer's key, recovery with `v - 35 - 2 * chainId` returns that key, the recipient has 20 bytes, and the second result is the hash of the first |
| `Transactions.SignsExactly` | owner-soak-driver/zkdeal_owner_soak.py:959-981 | for numbers of at most 32 bytes a transaction is signed if and only if the recipient has 20 bytes, no number is negative, and some nonce signs the hash of the nine-item payload |
| `Transactions.AddressIs` | owner-soak-driver/zkdeal_owner_soak.py:872-874 | the address is the last twenty bytes of the hash of the one 64-byte string whose halves read as the coordinates |
| `Transactions.ReadExactly` | owner-soak-driver/zkdeal_owner_soak.py:944-956 | the 65 bytes are read if and only if the last is 0, 1, 27 or 28 and s is at most half the order, and then as r, s and the id 0 or 1 |
| `Transactions.SignatureAddress` | owner-soak-driver/zkdeal_owner_soak.py:944-956 | the 65-byte form names its signer if and only if the recovery id is 0 or 1 |
| `Transactions.Secp256k1SignatureAddress` | owner-soak-driver/zkdeal_owner_soak.py:944-956 | the same for the constants of the code, given the named hypotheses |
| `Transactions.SignatureBytesRead` | owner-soak-driver/zkdeal_owner_soak.py:944-953 | the 65-byte form is read back exactly for ids 0 and 1 and refused for 2 and 3 |
| `Bytes.BigEndianRoundTrip` | owner-soak-driver/zkdeal_owner_soak.py:774-776 | an integer survives its minimal big-endian bytes |
| `Rlp.RoundTrip` | owner-soak-driver/zkdeal_owner_soak.py:771-795 | a decoder written from the Yellow Paper, Appendix B, inverts the encoder on every carried tree, whatever follows it |
| `Rlp.RoundTripExactly` | owner-soak-driver/zkdeal_owner_soak.py:771-795 | the round trip works if and only if every string is shorter than 2^64 bytes and every list encodes |
| `Rlp.ListIsCarried` | owner-soak-driver/zkdeal_owner_soak.py:785-795 | a list that encodes at all has only parts short enough to round-trip |
| `Rlp.PrefixFree` | owner-soak-driver/zkdeal_owner_soak.py:771-795 | no encoding is a proper prefix of another, and equal encodings mean equal items |
| `Rlp.DecodeThenEncode` | owner-soak-driver/zkdeal_owner_soak.py:771-795 | a decoded item encodes to exactly the bytes it was read from, so each item has one encoding |
| `Lsn.RenderReads` | failover-provider/provider.py:107-111 | an LSN survives its text form |
| `FailoverProvider.Provider.Prepare` | failover-provider/provider.py:716-764 | unless the independence probe passes, at least two witnesses and as many as the request says were polled, none of them saw a working active side and the standby probe passes, the call fails, no target is recorded, the operation stays PREPARING, and only the environment moved the world; refused and conflicting calls and finished calls never reach the driver; an operation becomes PREPARED only with the signer off and the database routed to the standby; the standby leaves recovery only with the primary down and this target applied; nothing recorded is replaced; a finished call leaves the fenced world; while the primary does not die by itself an interrupted one can be repeated by the same process, and by a new process unless memory alone had the target before the call; without a target and a primary no call ever finishes; another operation that could go on still can if its target is not past this one's, or, if it has none yet, exactly while the primary is up |
| `FailoverProvider.Provider.VerifyWitnesses` | failover-provider/provider.py:171-208 | passes exactly when the independence probe does, no polled witness vetoes and their number is at least two and the request's; any veto is answered 409 active-witness-veto, a wrong number 409 witness-count-mismatch |
| `FailoverProvider.RefusalIs` | failover-provider/provider.py:716-727 | a call is let through exactly with a safe key, a safe candidate id and the configured topology, and which of them fails first decides the answer |
| `FailoverWorld.SafeIdIs` | failover-provider/provider.py:32 | the safe ids, letter by letter |
| `FailoverProvider.Provider.Commit` | failover-provider/provider.py:770-809 | nothing happens without a prepared operation or with another key or body; a finished commit is replayed; a finished one has stopped the old side, routed to the standby and measured the RTO from the recorded capture; repeated in a calm environment it finishes; a start of the signer goes unrecorded if and only if the process has the operation bound to its commit and the file does not have it prepared, which takes two lost saves |
| `FailoverProvider.RtoRoundsUp` | failover-provider/provider.py:800-801 | the reported RTO is the least whole number of seconds not shorter than the time since the capture, and zero if the clock went back |
| `FailoverProvider.Provider.CommitUntilDone` | failover-provider/provider.py:770-809 | commit attempted any number of times with the same key and body, by the same process or new ones: the last one, in a calm environment, answers with what is on record if and only if no new process found a file that does not have the operation prepared, and unless that answer was on record before, the old side is stopped, the standby routed and the signer running |
| `FailoverProvider.Provider.DriverPrepare` | failover-provider/provider.py:356-420 | both drivers' prepare, interrupted after any command: the recorded target is never replaced, the primary is stopped only with the target in the file unless memory alone had it before the call, and success means old active and primary stopped, standby out of recovery at or past the target, signer off |
| `FailoverProvider.Provider.DriverCommit` | failover-provider/provider.py:422-441 | both drivers' commit, interrupted after any command, for a prepared operation only: success means the old active is stopped and the application routed |
| `FailoverProvider.Provider.Save` | failover-provider/provider.py:119-133 | the file is replaced atomically or not at all; the process falls behind by exactly the saves that raise without having written, and catches up with the next one that writes |
| `FailoverProvider.Provider.Serve` | failover-provider/provider.py:692-809 | any interleaving of calls, restarts and crashes: if the signer runs, the old active and primary are stopped and the standby is out of recovery; and the file has a prepared operation whose target is replayed unless some commit was called two lost saves after the process last agreed with its file, so always in a run in which no process meets two failing commands |
| `FailoverProvider.Provider.PrepareUntilDone` | failover-provider/provider.py:716-764 | prepare attempted any number of times with the same key and body, by the same process or new ones, with what each attempt found returned: the last one, in a calm environment, finishes in the fenced world with the database on the standby and the signer off, at the target any attempt found in the file, if and only if no new process found a file without a target and the primary down; always when every attempt is a new process |
| `FailoverProvider.Provider.Stranded` | failover-provider/provider.py:752-757 | a lost checkpoint, a retry by the same process and its death before the last save leave a file without a target and the primary down |
| `FailoverProvider.Provider.LostSaves` | failover-provider/provider.py:702-703 | two saves in a row that raise without writing let the signer start while the file still says PREPARING |
| `PromotionController.Monitor` | scripts/promotion_controller.py:309-345 | monitoring trips at the end of the first run of `failure_threshold` consecutive cycles without a healthy witness, within the cycle limit, and remembers the first cycle of that run |
| `PromotionController.Run` | scripts/promotion_controller.py:309-408 | for every trace of answers: prepare is called if and only if such a run occurs within the limit, the controller is armed and the standby ready; each later request follows exactly on a validated answer; promotion means a validated commit within the RTO counted from the first cycle of the run |
| `PromotionController.PrepareIs` | scripts/promotion_controller.py:256-281 | the prepare responses that pass: of the candidate, every assertion true, the two constants, a checkpoint age within the limit, and a replayed position that reads as at least the target |
| `PromotionController.OwnerAndCommitAre` | scripts/promotion_controller.py:284-306 | the one owner promotion and, for a candidate and a standby, the one commit that pass |
| `PromotionController.HealthIs` | scripts/promotion_controller.py:238-253 | the reports of a working active coordinator and of a ready standby |
| `PromotionController.RecordedPrepareValidates` | scripts/promotion_controller.py:256-281 | every prepare response the provider has on record passes the controller's validation |
| `PromotionController.RecordedCommitValidates` | scripts/promotion_controller.py:295-306 | a commit response on record passes exactly when its writer is the controller's standby |
| `PromotionController.CallsAccepted` | scripts/promotion_controller.py:378-386 | the provider takes the controller's prepare, but its commit key only for candidate ids of at most 193 characters |
| `WriteOnce.Journal.Execute` | fault-control/fault_control.py:461-527 | seen as a map from key to absent, pending or done: a used key runs nothing and changes nothing; a done key replays its response for the same request and conflicts otherwise; a pending one is refused; for a new key the answer, the files and the entry are given for every way the intent, the directory, the effect and the closure can end: it runs its effect at most once and after its intent, and an effect that returns with a closure that completes is answered and recorded |
| `WriteOnce.Journal.Begin` | backup-restore-control/backup_restore_control.py:561-594 | a new key: the backup journal also needs its exclusive directory before the effect, and the first step that fails decides the answer |
| `WriteOnce.Journal.Lookup` | fault-control/fault_control.py:529-540 | a stored result is returned exactly when its closure is whole, and only for an operation that ran |
| `WriteOnce.Journal.Serve` | backup-restore-control/backup_restore_control.py:523-594 | over any calls with crashes and torn files effects run at most once per key, and for the backup journal at most once per operation id; entries only move forward |
| `WriteOnce.TwoKeysTwoRuns` | fault-control/fault_control.py:457-459 | fault control runs one operation id twice, under two keys |
| `ObjectBundle.OneListing` | backup-restore-control/backup_restore_control.py:685-697 | a tree has exactly one listing in the order of the code |
| `ObjectBundle.PartsOfJoin` | backup-restore-control/backup_restore_control.py:685-697 | a path survives its relative name |
| `ObjectBundle.TreeManifest` | backup-restore-control/backup_restore_control.py:685-697 | the loop lists every file once, in order: the i-th entry has the relative name, the size and the digest of the i-th file |
| `ObjectBundle.CreateObjectBundle` | backup-restore-control/backup_restore_control.py:699-722 | the loop writes one member per file, in order |
| `ObjectBundle.ExtractObjectBundle` | backup-restore-control/backup_restore_control.py:724-752 | the loop with its set of seen names refines the recursive extraction, refusals included |
| `ObjectBundle.BundleRestores` | backup-restore-control/backup_restore_control.py:699-752 | bundling and extracting gives the tree back if and only if no name has a backslash |
| `ObjectBundle.ExtractedIsLayout` | backup-restore-control/backup_restore_control.py:724-752 | whatever a bundle holds, what extraction accepts is a proper tree below the root |
| `BackupRestore.TakeBackup` | backup-restore-control/backup_restore_control.py:901-955 | a backup is taken exactly when every artifact is within the encryption limit, and is then an honest record of the dump and the tree |
| `BackupRestore.ArtifactAuthentic` | backup-restore-control/backup_restore_control.py:136-204 | whatever a store returns for an honest artifact, what decrypts is the original |
| `BackupRestore.DecryptedIs` | backup-restore-control/backup_restore_control.py:165-204 | for any metadata: exactly what unseals under the label of this candidate, backup, artifact and key decrypts, with a 12-byte nonce and both recorded digests |
| `BackupRestore.CheckedIs` | backup-restore-control/backup_restore_control.py:1013-1023 | exactly the tree that the bundle extracts to passes, if the manifest text is at most 1048576 bytes and lists that tree and the recorded digest is that of the tree |
| `BackupRestore.Restore` | backup-restore-control/backup_restore_control.py:957-1076 | a command reaches the restore target if and only if every artifact, the size and content of the manifest, and the digest have been verified; only the verified dump and tree are written, after both targets were found empty; the commands sent are those up to the first that fails; the restore succeeds if and only if none fails and the restored copies have the recorded, well-formed digests |
| `BackupRestore.BackupRestores` | backup-restore-control/backup_restore_control.py:901-1028 | an honest backup verifies from an intact store if and only if no name has a backslash and the manifest text is at most 1048576 bytes, and from any store what verifies is what was backed up |
| `BackupRestore.HonestObjects` | backup-restore-control/backup_restore_control.py:1012-1025 | the refusals of an honest backup: a backslash in a name, else a manifest over the limit, else none |
| `BackupRestore.CrowdIsLost` | backup-restore-control/backup_restore_control.py:1016-1018 | a tree of twenty thousand files with plain names of twenty characters: any backup of it is refused by every restore |
| `BackupRestore.CrowdBackup` | backup-restore-control/backup_restore_control.py:901-955 | such a backup is taken and recorded whenever the plaintexts are within the encryption limit |

## Left out

- HTTP, TLS, DNS, `docker`, `kubectl`, `psql`, `mc` and chain calls: answers are parameters, and any of them may fail.
- The Keccak-f permutation, SHA-256, HMAC, AES-GCM and RFC 6979: see the assumptions above.
- Regular expressions other than the safe ids, the 64-digit hashes and LSNs; environment parsing, tokens and file modes.
- The manifest checks of both programs, except a duration of at least 43200 s and each of the eight faults scheduled once, before the end.
- Fields of journal lines that neither the driver's later steps nor the verifier reads.
- The retry counters of the fault client and its reference to the last pulse: a failing fault ends the generation.
- Time: the second at which a slot completes is its planned second plus any delay.
- `run_supervisor`'s limit of four respawns: every number of generations is allowed.
- Fault control's Docker verbs, reorganisation scripts and load probe; the acceptance validators, candidate topology and composition scripts.
- Torn directories and fsync: a durable create leaves nothing, a torn file or the whole file.
- Provider.PrepareUntilDone: one candidate calls, from a primary that runs or a target that can be replayed, and the primary does not die by itself; without either no prepare finishes, and what one candidate's prepare leaves of another's is also a clause of `Prepare`.
- Provider.Stranded: it and `LostSaves` go through the steps of the calls rather than through whole calls with explicit answers.
- Transactions.SignsExactly: says nothing of numbers of more than 32 bytes, nor of data within 400 bytes of 2^64; negative numbers and wrong recipients are refused there too.
- Worker.RunTimeline: a slot's requests are the actions of `SoakDriver.Script`, computed when the slot starts; objects inside a request are not modelled.
- Worker.EnsureDeposit: broadcasting and posting are history notes; the bytes are those of the durable record.
- Wei amounts and usage are unbounded natural numbers, as they are in the source.
