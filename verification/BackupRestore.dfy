/**
 Sealed backups and their restore (backup-restore-control/backup_restore_control.py). Encryption,
 hashing, the archive format and JSON are parameters; what is assumed of them is predicate Sound.
 */
module BackupRestore {
  import opened Bytes
  import opened ObjectBundle
  import opened Text

  type Bits = seq<byte>

  datatype Label = Label(candidate: string, backup: string, artifact: string, keyId: string)

  datatype Primitives = Primitives(
    seal: (Bits, Bits, Label, Bits) -> Bits,
    unseal: (Bits, Bits, Label, Bits) -> Option<Bits>,
    sha: Bits -> string,
    pack: seq<Member> -> Bits,
    unpack: Bits -> Option<seq<Member>>,
    write: seq<Entry> -> Bits,
    read: Bits -> Option<seq<Entry>>,
    listing: Tree -> seq<Path>)

  ghost predicate Sound(x: Primitives)
  {
    && (forall k, n, l, p :: x.unseal(k, n, l, x.seal(k, n, l, p)) == Some(p))
    && (forall b, b' :: x.sha(b) == x.sha(b') ==> b == b')
    && (forall m :: x.unpack(x.pack(m)) == Some(m))
    && (forall m :: x.read(x.write(m)) == Some(m))
    && (forall t :: Lists(x.listing(t), t))
  }

  const MAX_ENCRYPT_BYTES: nat := 2 * 1024 * 1024 * 1024
  const MAX_RESPONSE_BYTES: nat := 1024 * 1024

  datatype Meta = Meta(artifact: string, nonce: Bits, plaintextSha: string, encryptedSha: string)

  datatype Topology = Topology(key: Bits, keyId: string, candidate: string)

  // ---- one artifact ----

  function EncryptArtifact(x: Primitives, y: Topology, backup: string, name: string, plaintext: Bits, nonce: Bits)
    : Result<(Meta, Bits)>
  {
    if |plaintext| > MAX_ENCRYPT_BYTES then Err("ENCRYPTION_FAILED") else
      var ciphertext := x.seal(y.key, nonce, Label(y.candidate, backup, name, y.keyId), plaintext);
      Ok((Meta(name, nonce, x.sha(plaintext), x.sha(ciphertext)), ciphertext))
  }

  function DecryptArtifact(x: Primitives, y: Topology, backup: string, name: string, meta: Meta, ciphertext: Bits)
    : Result<Bits>
  {
    if |meta.nonce| != 12 then Err("UNSAFE_BACKUP_ARTIFACT")
    else if x.sha(ciphertext) != meta.encryptedSha then Err("BACKUP_ARTIFACT_TAMPERED")
    else match x.unseal(y.key, meta.nonce, Label(y.candidate, backup, name, y.keyId), ciphertext)
      case None => Err("BACKUP_ARTIFACT_TAMPERED")
      case Some(plaintext) =>
        if x.sha(plaintext) != meta.plaintextSha then Err("BACKUP_ARTIFACT_TAMPERED") else Ok(plaintext)
  }

  // ---- a backup ----

  const DATABASE := "database.dump"
  const BUNDLE := "objects.bundle.tar"
  const MANIFEST := "objects.manifest.json"
  const NAMES := [DATABASE, BUNDLE, MANIFEST]
  const ARTIFACTS: set<string> := {DATABASE, BUNDLE, MANIFEST}

  datatype Backup = Backup(
    id: string, keyId: string, sourceDatabaseDigest: string, sourceObjectDigest: string,
    artifacts: map<string, Meta>)

  function TreeDigest(x: Primitives, t: Tree): string
    requires forall p :: p in x.listing(t) ==> p in t
  {
    x.sha(x.write(ManifestOf(t, x.listing(t), x.sha)))
  }

  /** The plaintext of each artifact. */
  function Plaintext(x: Primitives, name: string, dump: Bits, t: Tree): Bits
    requires forall p :: p in x.listing(t) ==> p in t
  {
    if name == DATABASE then dump
    else if name == BUNDLE then x.pack(BundleOf(t, x.listing(t)))
    else x.write(ManifestOf(t, x.listing(t), x.sha))
  }

  /** What the backup store holds, by artifact name. */
  type Remote = map<string, Bits>

  /** _backup, for a database dump and an object tree that have been taken. */
  method TakeBackup(x: Primitives, y: Topology, id: string, dump: Bits, logical: string, t: Tree,
      nonces: map<string, Bits>)
    returns (r: Result<(Backup, Remote)>)
    requires Sound(x)
    requires forall name :: name in NAMES ==> name in nonces && |nonces[name]| == 12
    ensures r.Ok? <==> forall name :: name in NAMES ==> |Plaintext(x, name, dump, t)| <= 0x8000_0000
    ensures r.Ok? ==> Honest(x, y, dump, logical, t, nonces, r.value.0, r.value.1) && r.value.0.id == id
  {
    var artifacts: map<string, Meta>, remote: Remote := map[], map[];
    for i := 0 to |NAMES|
      invariant artifacts.Keys <= ARTIFACTS
      invariant forall j :: 0 <= j < i ==>
        && |Plaintext(x, NAMES[j], dump, t)| <= MAX_ENCRYPT_BYTES
        && NAMES[j] in artifacts && NAMES[j] in remote
        && EncryptArtifact(x, y, id, NAMES[j], Plaintext(x, NAMES[j], dump, t), nonces[NAMES[j]])
           == Ok((artifacts[NAMES[j]], remote[NAMES[j]]))
    {
      var name := NAMES[i];
      assert name in ARTIFACTS;
      match EncryptArtifact(x, y, id, name, Plaintext(x, name, dump, t), nonces[name])
      case Err(e) => return Err(e);
      case Ok((meta, ciphertext)) =>
        artifacts, remote := artifacts[name := meta], remote[name := ciphertext];
    }
    AllNamed(artifacts.Keys);
    return Ok((Backup(id, y.keyId, logical, TreeDigest(x, t), artifacts), remote));
  }

  lemma AllNamed(names: set<string>)
    requires names <= ARTIFACTS && forall i :: 0 <= i < |NAMES| ==> NAMES[i] in names
    ensures names == ARTIFACTS
  {
    assert NAMES[0] == DATABASE && NAMES[1] == BUNDLE && NAMES[2] == MANIFEST;
  }

  /** A backup and a store made from this dump and this tree. */
  ghost predicate Honest(x: Primitives, y: Topology, dump: Bits, logical: string, t: Tree,
                         nonces: map<string, Bits>, b: Backup, remote: Remote)
    requires Sound(x)
  {
    && b.keyId == y.keyId && b.sourceDatabaseDigest == logical && b.sourceObjectDigest == TreeDigest(x, t)
    && b.artifacts.Keys == ARTIFACTS
    && forall name :: name in NAMES ==>
         && name in nonces && |nonces[name]| == 12 && name in b.artifacts && name in remote
         && EncryptArtifact(x, y, b.id, name, Plaintext(x, name, dump, t), nonces[name])
            == Ok((b.artifacts[name], remote[name]))
  }

  // ---- restoring ----

  /** Download and decrypt one artifact; the store may return anything or nothing. */
  function Fetch(x: Primitives, y: Topology, b: Backup, remote: Remote, name: string): Result<Bits>
  {
    if name !in b.artifacts then Err("UNSAFE_BACKUP_ARTIFACT")
    else if name !in remote then Err("PROCESS_FAILED")
    else DecryptArtifact(x, y, b.id, name, b.artifacts[name], remote[name])
  }

  /** strict_object, for the recorded manifest: a document over the limit is refused before it is read. */
  function ReadManifest(x: Primitives, manifest: Bits): Result<seq<Entry>>
  {
    if |manifest| > MAX_RESPONSE_BYTES then Err("DOCUMENT_TOO_LARGE")
    else match x.read(manifest)
      case None => Err("INVALID_REQUEST")
      case Some(files) => Ok(files)
  }

  /** The object tree a bundle and a recorded manifest agree on. */
  function CheckObjects(x: Primitives, b: Backup, bundle: Bits, manifest: Bits): Result<Tree>
    requires forall t, p :: p in x.listing(t) ==> p in t
  {
    match x.unpack(bundle)
    case None => Err("UNSAFE_BACKUP_ARTIFACT")
    case Some(members) =>
      match ExtractFrom(map[], {}, members)
      case None => Err("UNSAFE_BACKUP_ARTIFACT")
      case Some(t) =>
        match ReadManifest(x, manifest)
        case Err(e) => Err(e)
        case Ok(recorded) =>
          if recorded != ManifestOf(t, x.listing(t), x.sha) || TreeDigest(x, t) != b.sourceObjectDigest
          then Err("BACKUP_HASH_MISMATCH") else Ok(t)
  }

  /** Everything that is checked before a fresh target is touched. */
  ghost predicate Verified(x: Primitives, y: Topology, b: Backup, remote: Remote, t: Tree, dump: Bits)
    requires Sound(x)
  {
    && b.keyId == y.keyId && b.artifacts.Keys == ARTIFACTS
    && Fetch(x, y, b, remote, DATABASE) == Ok(dump)
    && Fetch(x, y, b, remote, BUNDLE).Ok? && Fetch(x, y, b, remote, MANIFEST).Ok?
    && CheckObjects(x, b, Fetch(x, y, b, remote, BUNDLE).value, Fetch(x, y, b, remote, MANIFEST).value) == Ok(t)
  }

  /** Commands against the fresh target. */
  datatype Command =
    | CheckEmptyDatabase | CheckEmptyBucket | RestoreDatabase(dump: Bits) | DumpDatabase
    | UploadObjects(objects: Tree) | DownloadObjects | CheckReady

  /** How the target answers: which command fails, and what the restored copies look like. */
  datatype Target = Target(failsAt: nat, restoredDatabaseDigest: string, restoredObjects: Tree)

  /** _restore; the commands sent to the target are returned in order. */
  method Restore(x: Primitives, y: Topology, b: Backup, remote: Remote, target: Target)
    returns (r: Result<()>, sent: seq<Command>)
    requires Sound(x)
    // no command reaches the target unless every check has passed
    ensures sent != [] <==> exists t, dump :: Verified(x, y, b, remote, t, dump)
    // what is written there is the verified dump and tree, and only into targets found empty
    ensures sent != [] ==> exists t, dump :: Verified(x, y, b, remote, t, dump) && sent == Sent(x, b, target, t, dump)
    ensures forall c :: c in sent ==>
      && (c.RestoreDatabase? ==> Fetch(x, y, b, remote, DATABASE) == Ok(c.dump))
      && (c.UploadObjects? ==> exists dump :: Verified(x, y, b, remote, c.objects, dump))
    ensures forall i :: 0 <= i < |sent| && (sent[i].RestoreDatabase? || sent[i].UploadObjects?) ==>
      CheckEmptyDatabase in sent[..i] && CheckEmptyBucket in sent[..i]
    // success means, and is what follows, when no command fails and the restored copies have the recorded digests
    ensures r.Ok? <==> sent != [] && target.failsAt >= 8 && Restored(x, b, target)
    ensures r.Ok? ==> |sent| == 8
  {
    sent := [];
    if b.keyId != y.keyId { return Err("RESTORE_KEY_ID_MISMATCH"), sent; }
    if b.artifacts.Keys != ARTIFACTS { return Err("UNSAFE_BACKUP_ARTIFACT"), sent; }
    var fetched := FetchPlaintexts(x, y, b, remote);
    if fetched.Err? { return Err(fetched.error), sent; }
    var plaintexts := fetched.value;
    var checked := CheckObjects(x, b, plaintexts[BUNDLE], plaintexts[MANIFEST]);
    if checked.Err? { return Err(checked.error), sent; }
    assert Verified(x, y, b, remote, checked.value, plaintexts[DATABASE]);
    r, sent := Apply(x, b, checked.value, plaintexts[DATABASE], target);
    OnlyVerified(checked.value, plaintexts[DATABASE], sent);
    EmptyFirst(checked.value, plaintexts[DATABASE], sent);
  }

  /** The digests taken of the restored copies are well formed and those on record. */
  ghost predicate Restored(x: Primitives, b: Backup, target: Target)
    requires Sound(x)
  {
    && Hex64(b.sourceDatabaseDigest) && Hex64(b.sourceObjectDigest)
    && target.restoredDatabaseDigest == b.sourceDatabaseDigest
    && TreeDigest(x, target.restoredObjects) == b.sourceObjectDigest
  }

  /** The commands up to the one that fails; the last two only follow if the digests agree. */
  ghost function Sent(x: Primitives, b: Backup, target: Target, t: Tree, dump: Bits): seq<Command>
    requires Sound(x)
  {
    var all := [CheckEmptyDatabase, CheckEmptyBucket, RestoreDatabase(dump), DumpDatabase,
                UploadObjects(t), DownloadObjects, CheckReady, CheckReady];
    if target.failsAt < 6 then all[..target.failsAt + 1]
    else if !Restored(x, b, target) then all[..6]
    else if target.failsAt == 6 then all[..7]
    else all
  }

  lemma EmptyFirst(t: Tree, dump: Bits, sent: seq<Command>)
    requires sent <= Script(t, dump)
    ensures forall i :: 0 <= i < |sent| && (sent[i].RestoreDatabase? || sent[i].UploadObjects?) ==>
      CheckEmptyDatabase in sent[..i] && CheckEmptyBucket in sent[..i]
  {
    forall i | 0 <= i < |sent| && (sent[i].RestoreDatabase? || sent[i].UploadObjects?)
      ensures CheckEmptyDatabase in sent[..i] && CheckEmptyBucket in sent[..i]
    {
      assert i >= 2 && sent[..i][0] == CheckEmptyDatabase && sent[..i][1] == CheckEmptyBucket;
    }
  }

  /** The commands to the target carry the tree and the dump they were given. */
  lemma OnlyVerified(t: Tree, dump: Bits, sent: seq<Command>)
    requires sent <= Script(t, dump)
    ensures forall c :: c in sent ==> (c.RestoreDatabase? ==> c.dump == dump) && (c.UploadObjects? ==> c.objects == t)
  {
    forall c | c in sent
      ensures c in Script(t, dump)
    {
    }
  }

  /** Every artifact is downloaded and decrypted before anything else. */
  method FetchPlaintexts(x: Primitives, y: Topology, b: Backup, remote: Remote) returns (r: Result<map<string, Bits>>)
    ensures r.Ok? <==>
      && Fetch(x, y, b, remote, DATABASE).Ok? && Fetch(x, y, b, remote, BUNDLE).Ok?
        && Fetch(x, y, b, remote, MANIFEST).Ok?
    ensures r.Ok? ==> forall name :: name in {DATABASE, BUNDLE, MANIFEST} ==>
      name in r.value && Fetch(x, y, b, remote, name) == Ok(r.value[name])
  {
    assert NAMES[0] == DATABASE && NAMES[1] == BUNDLE && NAMES[2] == MANIFEST;
    var plaintexts: map<string, Bits> := map[];
    for i := 0 to 3
      invariant forall j :: 0 <= j < i ==>
        NAMES[j] in plaintexts && Fetch(x, y, b, remote, NAMES[j]) == Ok(plaintexts[NAMES[j]])
    {
      match Fetch(x, y, b, remote, NAMES[i])
      case Err(e) => return Err(e);
      case Ok(plaintext) => plaintexts := plaintexts[NAMES[i] := plaintext];
    }
    return Ok(plaintexts);
  }

  /** The target side of restore, once everything is verified. */
  method Apply(x: Primitives, b: Backup, t: Tree, dump: Bits, target: Target)
    returns (r: Result<()>, sent: seq<Command>)
    requires Sound(x)
    ensures sent != [] && sent <= Script(t, dump)
    ensures sent == Sent(x, b, target, t, dump)
    ensures r.Ok? <==> target.failsAt >= 8 && Restored(x, b, target)
  {
    sent := [];
    var script := Script(t, dump);
    for i := 0 to 6
      invariant sent == script[..i] && i <= target.failsAt
    {
      sent := sent + [script[i]];
      assert sent == script[..i + 1];
      if i == target.failsAt { return Err("PROCESS_FAILED"), sent; }
    }
    if !Hex64(b.sourceDatabaseDigest) || !Hex64(b.sourceObjectDigest)
      || target.restoredDatabaseDigest != b.sourceDatabaseDigest
      || TreeDigest(x, target.restoredObjects) != b.sourceObjectDigest {
      return Err("RESTORE_HASH_MISMATCH"), sent;
    }
    for i := 6 to 8
      invariant sent == script[..i] && i <= target.failsAt
    {
      sent := sent + [script[i]];
      assert sent == script[..i + 1];
      if i == target.failsAt { return Err("PROCESS_FAILED"), sent; }
    }
    return Ok(()), sent;
  }

  function Script(t: Tree, dump: Bits): seq<Command>
  {
    [CheckEmptyDatabase, CheckEmptyBucket, RestoreDatabase(dump), DumpDatabase,
     UploadObjects(t), DownloadObjects, CheckReady, CheckReady]
  }

  // ---- honest backups restore, and only what was backed up restores ----

  lemma ArtifactRoundTrip(x: Primitives, y: Topology, backup: string, name: string, plaintext: Bits, nonce: Bits)
    requires Sound(x) && |plaintext| <= MAX_ENCRYPT_BYTES && |nonce| == 12
    ensures var e := EncryptArtifact(x, y, backup, name, plaintext, nonce);
      e.Ok? && DecryptArtifact(x, y, backup, name, e.value.0, e.value.1) == Ok(plaintext)
  {
  }

  /** Whatever a store returns for an honest artifact, what decrypts is the original. */
  lemma ArtifactAuthentic(x: Primitives, y: Topology, backup: string, name: string, plaintext: Bits, nonce: Bits,
                          returned: Bits)
    requires Sound(x)
    requires var e := EncryptArtifact(x, y, backup, name, plaintext, nonce);
      e.Ok? && DecryptArtifact(x, y, backup, name, e.value.0, returned).Ok?
    ensures var e := EncryptArtifact(x, y, backup, name, plaintext, nonce);
      returned == e.value.1 && DecryptArtifact(x, y, backup, name, e.value.0, returned) == Ok(plaintext)
  {
    var e := EncryptArtifact(x, y, backup, name, plaintext, nonce);
    assert x.sha(returned) == x.sha(e.value.1);
  }

  /** Whatever decrypts, for any metadata, is what was sealed under this label, and has both recorded digests. */
  lemma DecryptedIs(x: Primitives, y: Topology, backup: string, name: string, meta: Meta, returned: Bits, p: Bits)
    ensures DecryptArtifact(x, y, backup, name, meta, returned) == Ok(p) <==>
      && |meta.nonce| == 12 && x.sha(returned) == meta.encryptedSha && x.sha(p) == meta.plaintextSha
      && x.unseal(y.key, meta.nonce, Label(y.candidate, backup, name, y.keyId), returned) == Some(p)
  {
  }

  /** Which files the recorded manifest tells apart. */
  lemma CheckedIs(x: Primitives, b: Backup, bundle: Bits, manifest: Bits, t: Tree)
    requires Sound(x)
    ensures CheckObjects(x, b, bundle, manifest) == Ok(t) <==>
      && |manifest| <= 0x10_0000 && TreeDigest(x, t) == b.sourceObjectDigest
      && x.read(manifest) == Some(ManifestOf(t, x.listing(t), x.sha))
      && exists members :: x.unpack(bundle) == Some(members) && ExtractFrom(map[], {}, members) == Some(t)
  {
  }

  lemma HonestFetch(x: Primitives, y: Topology, dump: Bits, logical: string, t: Tree,
                    nonces: map<string, Bits>, b: Backup, remote: Remote, returned: Remote, name: string)
    requires Sound(x) && Honest(x, y, dump, logical, t, nonces, b, remote) && name in NAMES
    ensures returned == remote ==> Fetch(x, y, b, returned, name).Ok?
    ensures Fetch(x, y, b, returned, name).Ok? ==>
      Fetch(x, y, b, returned, name) == Ok(Plaintext(x, name, dump, t))
  {
    var plaintext := Plaintext(x, name, dump, t);
    ArtifactRoundTrip(x, y, b.id, name, plaintext, nonces[name]);
    if Fetch(x, y, b, returned, name).Ok? {
      ArtifactAuthentic(x, y, b.id, name, plaintext, nonces[name], returned[name]);
    }
  }

  /** What an honest bundle and manifest are refused for: a backslash in a name, or a manifest over the limit. */
  lemma HonestObjects(x: Primitives, dump: Bits, t: Tree, b: Backup)
    requires Sound(x) && Layout(t) && b.sourceObjectDigest == TreeDigest(x, t)
    ensures CheckObjects(x, b, Plaintext(x, BUNDLE, dump, t), Plaintext(x, MANIFEST, dump, t))
      == if exists p :: p in t && Backslash(p) then Err("UNSAFE_BACKUP_ARTIFACT")
         else if |Plaintext(x, MANIFEST, dump, t)| > MAX_RESPONSE_BYTES then Err("DOCUMENT_TOO_LARGE")
         else Ok(t)
  {
    var paths := x.listing(t);
    BundleRestores(t, paths);
    assert x.unpack(x.pack(BundleOf(t, paths))) == Some(BundleOf(t, paths));
    assert x.read(x.write(ManifestOf(t, paths, x.sha))) == Some(ManifestOf(t, paths, x.sha));
  }

  /** The trees that a backup accepts and a restore gives back. */
  ghost predicate Restorable(x: Primitives, t: Tree)
    requires Sound(x)
  {
    && (forall p :: p in t ==> !Backslash(p))
    && |x.write(ManifestOf(t, x.listing(t), x.sha))| <= MAX_RESPONSE_BYTES
  }

  /**
   A backup of a tree verifies from an intact store exactly when no name in the tree has a backslash and
   the text of its manifest is at most one mebibyte; and from any store, what verifies is the dump and the
   tree that were backed up.
   */
  lemma BackupRestores(x: Primitives, y: Topology, dump: Bits, logical: string, t: Tree,
                       nonces: map<string, Bits>, b: Backup, remote: Remote, returned: Remote)
    requires Sound(x) && Layout(t) && Honest(x, y, dump, logical, t, nonces, b, remote)
    ensures Verified(x, y, b, remote, t, dump) <==> Restorable(x, t)
    ensures forall t', dump' :: Verified(x, y, b, returned, t', dump') ==> t' == t && dump' == dump
  {
    HonestObjects(x, dump, t, b);
    FetchAll(x, y, dump, logical, t, nonces, b, remote, remote);
    FetchAll(x, y, dump, logical, t, nonces, b, remote, returned);
  }

  lemma FetchAll(x: Primitives, y: Topology, dump: Bits, logical: string, t: Tree,
                 nonces: map<string, Bits>, b: Backup, remote: Remote, returned: Remote)
    requires Sound(x) && Honest(x, y, dump, logical, t, nonces, b, remote)
    ensures forall name :: name in {DATABASE, BUNDLE, MANIFEST} ==>
      && (returned == remote ==> Fetch(x, y, b, returned, name).Ok?)
      && (Fetch(x, y, b, returned, name).Ok? ==>
            Fetch(x, y, b, returned, name) == Ok(Plaintext(x, name, dump, t)))
  {
    assert NAMES[0] == DATABASE && NAMES[1] == BUNDLE && NAMES[2] == MANIFEST;
    HonestFetch(x, y, dump, logical, t, nonces, b, remote, returned, DATABASE);
    HonestFetch(x, y, dump, logical, t, nonces, b, remote, returned, BUNDLE);
    HonestFetch(x, y, dump, logical, t, nonces, b, remote, returned, MANIFEST);
  }

  // ---- a crowd of files: backed up, never restored ----

  /** What JSON spends on the entries of a manifest at least: the keys, the punctuation and the path. */
  function EntriesText(m: seq<Entry>): nat
  {
    if m == [] then 0 else 33 + |m[0].path| + EntriesText(m[1..])
  }

  ghost predicate Spelled(x: Primitives)
  {
    forall m :: |x.write(m)| >= EntriesText(m)
  }

  const CROWD: nat := 20000

  /** Twenty characters, the last of which tells the files apart. */
  function CrowdName(n: nat): string
    requires n < CROWD
  {
    "object-of-the-soak-" + [(0x4000 + n) as char]
  }

  /** n empty files in one directory. */
  function Crowd(n: nat): Tree
    requires n <= CROWD
  {
    if n == 0 then map[] else Crowd(n - 1)[[CrowdName(n - 1)] := []]
  }

  lemma CrowdNameFacts(n: nat)
    requires n < CROWD
    ensures Component(CrowdName(n)) && !Backslash([CrowdName(n)]) && |CrowdName(n)| == 20
    ensures CrowdName(n)[19] == (0x4000 + n) as char
  {
    var stem := "object-of-the-soak-";
    assert |stem| == 19 && '/' !in stem && '\\' !in stem;
    assert CrowdName(n) == stem + [(0x4000 + n) as char];
  }

  lemma {:induction false} CrowdFacts(n: nat)
    requires n <= CROWD
    ensures |Crowd(n)| == n
    ensures forall p :: p in Crowd(n) ==> exists k :: 0 <= k < n && p == [CrowdName(k)]
  {
    if n > 0 {
      CrowdFacts(n - 1);
      var p := [CrowdName(n - 1)];
      CrowdNameFacts(n - 1);
      if p in Crowd(n - 1) {
        var k :| 0 <= k < n - 1 && p == [CrowdName(k)];
        CrowdNameFacts(k);
        assert p[0] == CrowdName(k);
      }
      assert Crowd(n).Keys == Crowd(n - 1).Keys + {p};
    }
  }

  lemma CrowdIsFlat(n: nat, p: Path)
    requires n <= CROWD && p in Crowd(n)
    ensures |p| == 1 && Component(p[0]) && !Backslash(p) && |Join(p)| == 20
  {
    CrowdFacts(n);
    var k :| 0 <= k < n && p == [CrowdName(k)];
    CrowdNameFacts(k);
  }

  lemma FlatLayout(t: Tree)
    requires forall p :: p in t ==> |p| == 1 && Component(p[0])
    ensures Layout(t)
  {
    forall p, q | p in t && q in t && p <= q
      ensures p == q
    {
      assert p[0] == q[0];
    }
  }

  /** Files without a backslash whose names are n characters long. */
  predicate Plain(t: Tree, n: nat)
  {
    forall p :: p in t ==> !Backslash(p) && |Join(p)| == n
  }

  lemma CrowdLayout(n: nat)
    requires n <= CROWD
    ensures Layout(Crowd(n)) && Plain(Crowd(n), 20)
  {
    forall p | p in Crowd(n)
      ensures |p| == 1 && Component(p[0]) && !Backslash(p) && |Join(p)| == 20
    {
      CrowdIsFlat(n, p);
    }
    FlatLayout(Crowd(n));
  }

  lemma {:induction false} ListedFiles(paths: seq<Path>, files: set<Path>)
    requires forall p :: p in files ==> p in paths
    ensures |files| <= |paths|
    decreases |paths|
  {
    if paths == [] {
      assert files == {};
    } else {
      var last := paths[|paths| - 1];
      ListedFiles(paths[..|paths| - 1], files - {last});
    }
  }

  lemma {:induction false} EntriesSpend(m: seq<Entry>, n: nat)
    requires forall i :: 0 <= i < |m| ==> |m[i].path| == n
    ensures EntriesText(m) == (33 + n) * |m|
  {
    if m != [] {
      EntriesSpend(m[1..], n);
    }
  }

  lemma ManifestSpends(t: Tree, paths: seq<Path>, sha: Content -> string, n: nat)
    requires Lists(paths, t) && Plain(t, n)
    ensures EntriesText(ManifestOf(t, paths, sha)) >= (33 + n) * |t|
  {
    ListedFiles(paths, t.Keys);
    assert forall i :: 0 <= i < |paths| ==> paths[i] in t;
    EntriesSpend(ManifestOf(t, paths, sha), n);
    AtLeast(33 + n, |t|, |paths|);
  }

  lemma AtLeast(n: nat, a: nat, b: nat)
    requires a <= b
    ensures n * a <= n * b
  {
  }

  /** A backup of too many files is recorded, and no intact store restores it. */
  lemma ManyFilesAreLost(x: Primitives, y: Topology, t: Tree, n: nat, dump: Bits, logical: string,
                         nonces: map<string, Bits>, b: Backup, remote: Remote)
    requires Layout(t) && Plain(t, n) && (33 + n) * |t| > MAX_RESPONSE_BYTES
    requires Sound(x) && Spelled(x) && Honest(x, y, dump, logical, t, nonces, b, remote)
    ensures forall t', dump' :: !Verified(x, y, b, remote, t', dump')
  {
    ManifestSpends(t, x.listing(t), x.sha, n);
    BackupRestores(x, y, dump, logical, t, nonces, b, remote, remote);
  }

  /** Twenty thousand plainly named files are such a tree. */
  lemma CrowdIsLost(x: Primitives, y: Topology, n: nat, dump: Bits, logical: string, nonces: map<string, Bits>,
                    b: Backup, remote: Remote)
    requires 53 * n > MAX_RESPONSE_BYTES && n <= CROWD
    requires Sound(x) && Spelled(x) && Honest(x, y, dump, logical, Crowd(n), nonces, b, remote)
    ensures Layout(Crowd(n)) && Plain(Crowd(n), 20) && |Crowd(n)| == n
    ensures forall t, dump' :: !Verified(x, y, b, remote, t, dump')
  {
    CrowdFacts(n);
    CrowdLayout(n);
    ManyFilesAreLost(x, y, Crowd(n), 20, dump, logical, nonces, b, remote);
  }

  /** ... and the code takes such a backup, unless a plaintext is over the encryption limit of two gibibytes. */
  method CrowdBackup(x: Primitives, y: Topology, id: string, n: nat, dump: Bits, logical: string,
                     nonces: map<string, Bits>)
    returns (r: Result<(Backup, Remote)>)
    requires 53 * n > MAX_RESPONSE_BYTES && n <= CROWD && Sound(x) && Spelled(x)
    requires forall name :: name in NAMES ==> name in nonces && |nonces[name]| == 12
    ensures r.Ok? <==> forall name :: name in NAMES ==> |Plaintext(x, name, dump, Crowd(n))| <= MAX_ENCRYPT_BYTES
    ensures r.Ok? ==> r.value.0.id == id && forall t, dump' :: !Verified(x, y, r.value.0, r.value.1, t, dump')
  {
    r := TakeBackup(x, y, id, dump, logical, Crowd(n), nonces);
    if r.Ok? { CrowdIsLost(x, y, n, dump, logical, nonces, r.value.0, r.value.1); }
  }
}
