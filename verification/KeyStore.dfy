/** The signing-key store on disk (internal/oidc/keystore.go) under crashes between file steps. A key pair
    is named by its thumbprint, so the directory of a complete pair bears its name. A step is one file
    operation; a crash is a run that stops after any number of them. The file lock keeps operations apart. */
module KeyStore {
  import opened Records

  const YEAR: Time := 365 * 24 * HOUR
  const GRACE: Time := 5 * 60 * SECOND

  // ---------- The disk ----------

  datatype Cert = Cert(pair: Id, notBefore: Time, notAfter: Time)

  /** The pair each file of a key directory belongs to. */
  datatype Dir = Dir(privateKey: Option<Id>, certificate: Option<Cert>)

  datatype KeyRecord = KeyRecord(kid: Id, createdAt: Time, notBefore: Time, notAfter: Time, retired: bool)

  datatype Manifest = Manifest(active: Id, keys: seq<KeyRecord>)

  /** A missing manifest file reads as an empty one. Staging directories are hidden from every reader. */
  datatype Disk = Disk(dirs: map<Id, Dir>, staging: map<Id, Dir>, manifest: Manifest)

  const NO_MANIFEST := Manifest(NONE, [])

  /** `parseKeyFiles` and `toSigningKey` accept the directory. */
  predicate Complete(d: Disk, kid: Id) {
    kid in d.dirs && d.dirs[kid].privateKey == Some(kid) && d.dirs[kid].certificate.Some?
    && d.dirs[kid].certificate.value.pair == kid
  }

  function RecordFor(m: Manifest, kid: Id): Option<KeyRecord> {
    RecordIn(m.keys, kid)
  }

  function RecordIn(keys: seq<KeyRecord>, kid: Id): Option<KeyRecord> {
    if keys == [] then None else if keys[0].kid == kid then Some(keys[0]) else RecordIn(keys[1..], kid)
  }

  function NewCert(kid: Id, now: Time): Cert { Cert(kid, now - GRACE, now + YEAR) }

  /** The record a certificate stands for; a new key's record is its certificate's. */
  function CertRecord(c: Cert): KeyRecord {
    KeyRecord(c.pair, c.notBefore + GRACE, c.notBefore, c.notAfter, false)
  }

  function RecordOf(d: Disk, kid: Id): KeyRecord
    requires Complete(d, kid)
  {
    var r := RecordFor(d.manifest, kid);
    if r.Some? then r.value else CertRecord(d.dirs[kid].certificate.value)
  }

  /** The first loop of `Rotate`: the active key's record is marked retired. */
  function Retired(keys: seq<KeyRecord>, active: Id): (r: seq<KeyRecord>)
    ensures |r| == |keys|
    ensures forall i :: 0 <= i < |keys| ==> r[i] == if keys[i].kid == active then keys[i].(retired := true) else keys[i]
  {
    if keys == [] then []
    else [if keys[0].kid == active then keys[0].(retired := true) else keys[0]] + Retired(keys[1..], active)
  }

  // ---------- Operations that may stop anywhere ----------

  /** After `n` steps of `stageAndCommitKey`: make the staging directory, write the private key, write the
      certificate, rename. */
  function Staged(d: Disk, tmp: Id, c: Cert, n: nat): Disk {
    if n == 0 then d
    else if n == 1 then d.(staging := d.staging[tmp := Dir(None, None)])
    else if n == 2 then d.(staging := d.staging[tmp := Dir(Some(c.pair), None)])
    else if n == 3 then d.(staging := d.staging[tmp := Dir(Some(c.pair), Some(c))])
    else d.(staging := d.staging - {tmp}, dirs := d.dirs[c.pair := Dir(Some(c.pair), Some(c))])
  }

  /** After `n` steps of `writeManifest`: write a temporary file, rename it. */
  function Written(d: Disk, m: Manifest, n: nat): Disk {
    if n < 2 then d else d.(manifest := m)
  }

  function Activated(m: Manifest, r: KeyRecord): Manifest { Manifest(r.kid, m.keys + [r]) }

  /** A generated key, staged and then activated. */
  function Generated(d: Disk, tmp: Id, m: Manifest, c: Cert, n: nat): Disk {
    if n < 4 then Staged(d, tmp, c, n) else Written(Staged(d, tmp, c, 4), m, n - 4)
  }

  /** `first` is the first key directory in name order; the manifest is consulted only for an active key. */
  function Provisioned(d: Disk, first: Option<Id>, tmp: Id, kid: Id, now: Time, n: nat): Disk {
    if d.manifest.active != NONE then d
    else if first.Some? then
      if Complete(d, first.value) then
        Written(d, Activated(d.manifest, CertRecord(d.dirs[first.value].certificate.value)), n)
      else d
    else Generated(d, tmp, Activated(d.manifest, CertRecord(NewCert(kid, now))), NewCert(kid, now), n)
  }

  function Rotated(d: Disk, tmp: Id, kid: Id, now: Time, n: nat): Disk {
    var m := d.manifest;
    Generated(d, tmp, Activated(Manifest(m.active, Retired(m.keys, m.active)), CertRecord(NewCert(kid, now))),
              NewCert(kid, now), n)
  }

  // ---------- What every crash leaves ----------

  function Kids(keys: seq<KeyRecord>): set<Id> { set r | r in keys :: r.kid }

  /** Every key directory is complete, the manifest names only stored keys, each once, and exactly the
      active one is not retired. */
  ghost predicate Good(d: Disk) {
    && (forall kid <- d.dirs :: Complete(d, kid)) && NONE !in d.dirs
    && (forall r <- d.manifest.keys :: r.kid in d.dirs)
    && (forall i, j :: 0 <= i < j < |d.manifest.keys| ==> d.manifest.keys[i].kid != d.manifest.keys[j].kid)
    && (forall r <- d.manifest.keys :: r.retired <==> r.kid != d.manifest.active)
    && (if d.manifest.active == NONE then d.manifest.keys == [] else d.manifest.active in Kids(d.manifest.keys))
  }

  lemma StagedGood(d: Disk, tmp: Id, c: Cert, n: nat)
    requires Good(d) && c.pair != NONE
    ensures Good(Staged(d, tmp, c, n)) && Staged(d, tmp, c, n).manifest == d.manifest
    ensures n >= 4 ==> c.pair in Staged(d, tmp, c, n).dirs
  {
  }

  /** Adding a stored key to a manifest whose records are all retired. */
  lemma WrittenGood(d: Disk, m: Manifest, r: KeyRecord, n: nat)
    requires Good(d) && r.kid in d.dirs && r.kid !in Kids(m.keys) && !r.retired
    requires forall r <- m.keys :: r.kid in d.dirs && r.retired
    requires forall i, j :: 0 <= i < j < |m.keys| ==> m.keys[i].kid != m.keys[j].kid
    ensures Good(Written(d, Activated(m, r), n))
  {
  }

  lemma RetiredKeys(d: Disk)
    requires Good(d)
    ensures var keys := Retired(d.manifest.keys, d.manifest.active);
            && Kids(keys) == Kids(d.manifest.keys)
            && (forall r <- keys :: r.kid in d.dirs && r.retired)
            && (forall i, j :: 0 <= i < j < |keys| ==> keys[i].kid != keys[j].kid)
  {
  }

  /** The state of the disk stays good wherever `Provision` stops, and every key that was active is still in
      the manifest. */
  lemma ProvisionGood(d: Disk, first: Option<Id>, tmp: Id, kid: Id, now: Time, n: nat)
    requires Good(d) && kid !in d.dirs && kid != NONE && (first.Some? ==> first.value in d.dirs)
             && (first.None? ==> d.dirs == map[])
    ensures var r := Provisioned(d, first, tmp, kid, now, n);
            Good(r) && Kids(d.manifest.keys) <= Kids(r.manifest.keys)
  {
  }

  /** The same for `Rotate`, which always generates a key and keeps the old ones. */
  lemma RotateGood(d: Disk, tmp: Id, kid: Id, now: Time, n: nat)
    requires Good(d) && kid !in d.dirs && kid != NONE
    ensures var r := Rotated(d, tmp, kid, now, n);
            Good(r) && Kids(d.manifest.keys) <= Kids(r.manifest.keys)
  {
    var m := Manifest(d.manifest.active, Retired(d.manifest.keys, d.manifest.active));
    RetiredKeys(d);
    var c := NewCert(kid, now);
    StagedGood(d, tmp, c, n);
    StagedGood(d, tmp, c, 4);
    if n >= 4 {
      NotListed(d, kid);
      WrittenGood(Staged(d, tmp, c, 4), m, CertRecord(c), n - 4);
      AddedKids(m.keys, CertRecord(c));
    }
  }

  lemma NotListed(d: Disk, kid: Id)
    requires Good(d) && kid !in d.dirs
    ensures kid !in Kids(d.manifest.keys)
  {
  }

  lemma AddedKids(keys: seq<KeyRecord>, r: KeyRecord)
    ensures Kids(keys + [r]) == Kids(keys) + {r.kid}
  {
  }

  /** `Provision` generates no key when a key is active or a complete directory waits to be activated, and
      when it finishes some key is active. */
  lemma ProvisionReuses(d: Disk, first: Option<Id>, tmp: Id, kid: Id, now: Time, n: nat)
    requires Good(d) && (first.Some? ==> first.value in d.dirs) && (first.None? ==> d.dirs == map[]) && kid != NONE
    ensures var r := Provisioned(d, first, tmp, kid, now, n);
            && (d.dirs != map[] ==> r.dirs == d.dirs && r.staging == d.staging)
            && (d.manifest.active != NONE ==> r == d)
            && (n >= 6 ==> r.manifest.active != NONE && r.manifest.active in r.dirs)
  {
  }

  // ---------- Loading ----------

  datatype Loaded = NotLoaded | Loaded(active: Id, retired: seq<Id>)

  function OtherKids(keys: seq<KeyRecord>, active: Id): (r: seq<Id>)
    ensures forall kid :: kid in r <==> kid in Kids(keys) && kid != active
  {
    if keys == [] then []
    else
      var rest := OtherKids(keys[1..], active);
      assert keys == [keys[0]] + keys[1..];
      assert Kids(keys) == {keys[0].kid} + Kids(keys[1..]) by { KidsCons(keys); }
      if keys[0].kid == active then rest else [keys[0].kid] + rest
  }

  lemma KidsCons(keys: seq<KeyRecord>)
    requires keys != []
    ensures Kids(keys) == {keys[0].kid} + Kids(keys[1..])
  {
  }

  predicate AllComplete(d: Disk, kids: seq<Id>) {
    forall kid <- kids :: Complete(d, kid)
  }

  /** `Load` fails without an active key, on an incomplete directory, or on an expired active key. */
  function LoadFrom(d: Disk, now: Time): Loaded {
    var m := d.manifest;
    if m.active == NONE || !Complete(d, m.active) then NotLoaded
    else if RecordOf(d, m.active).notAfter <= now then NotLoaded
    else if AllComplete(d, OtherKids(m.keys, m.active)) then Loaded(m.active, OtherKids(m.keys, m.active))
    else NotLoaded
  }

  /** The keys `PublicJWKS` publishes. */
  function Jwks(l: Loaded): set<Id> {
    match l case NotLoaded => {} case Loaded(a, retired) => {a} + (set kid | kid in retired)
  }

  /** A successful load publishes exactly the keys of the manifest; on a good disk it fails only for want of
      an active key or because that key has expired. */
  lemma LoadPublishes(d: Disk, now: Time)
    requires Good(d)
    ensures LoadFrom(d, now).Loaded? ==> Jwks(LoadFrom(d, now)) == Kids(d.manifest.keys)
    ensures LoadFrom(d, now).Loaded? <==>
              d.manifest.active != NONE && Complete(d, d.manifest.active)
              && now < RecordOf(d, d.manifest.active).notAfter
  {
  }

  // ---------- Runs ----------

  /** One call that may stop after `steps` file operations. */
  datatype Call = ProvisionCall(first: Option<Id>, tmp: Id, kid: Id, now: Time,
                                steps: nat) | RotateCall(tmp: Id, kid: Id, now: Time, steps: nat)

  function Run(d: Disk, c: Call): Disk {
    match c
    case ProvisionCall(first, tmp, kid, now, steps) => Provisioned(d, first, tmp, kid, now, steps)
    case RotateCall(tmp, kid, now, steps) => Rotated(d, tmp, kid, now, steps)
  }

  /** Key pairs are new, and the directory listing is the disk's. */
  ghost predicate Possible(d: Disk, c: Call) {
    && c.kid !in d.dirs && c.kid != NONE
    && (c.ProvisionCall? ==> (c.first.Some? ==> c.first.value in d.dirs) && (c.first.None? ==> d.dirs == map[]))
  }

  ghost predicate Runs(ds: seq<Disk>, cs: seq<Call>) {
    && |ds| == |cs| + 1 && ds[0] == Disk(map[], map[], NO_MANIFEST)
    && forall i :: 0 <= i < |cs| ==> Possible(ds[i], cs[i]) && ds[i + 1] == Run(ds[i], cs[i])
  }

  lemma {:induction false} RunsGood(ds: seq<Disk>, cs: seq<Call>, i: nat, j: nat)
    requires Runs(ds, cs) && i <= j < |ds|
    ensures Good(ds[j]) && Kids(ds[i].manifest.keys) <= Kids(ds[j].manifest.keys)
  {
    if j == 0 {
      return;
    }
    hide Provisioned, Rotated, Good, Kids;
    if j > 0 {
      RunsGood(ds, cs, if i < j then i else j - 1, j - 1);
      assert Possible(ds[j - 1], cs[j - 1]);
      match cs[j - 1]
      case ProvisionCall(first, tmp, kid, now, steps) => ProvisionGood(ds[j - 1], first, tmp, kid, now, steps);
      case RotateCall(tmp, kid, now, steps) => RotateGood(ds[j - 1], tmp, kid, now, steps);
    }
  }

  /** Whatever crashed in between, a successful load publishes every key that was ever active. */
  lemma EverActivePublished(ds: seq<Disk>, cs: seq<Call>, i: nat, j: nat, now: Time)
    requires Runs(ds, cs) && i <= j < |ds| && ds[i].manifest.active != NONE && LoadFrom(ds[j], now).Loaded?
    ensures ds[i].manifest.active in Jwks(LoadFrom(ds[j], now))
  {
    RunsGood(ds, cs, i, i);
    RunsGood(ds, cs, i, j);
    LoadPublishes(ds[j], now);
  }

  // ---------- The store ----------

  datatype Result = Crashed | Rejected | Finished

  class SigningKeys {
    var disk: Disk
    var loaded: Loaded

    constructor (disk: Disk)
      ensures this.disk == disk && loaded == NotLoaded
    {
      this.disk := disk;
      loaded := NotLoaded;
    }

    /** Stops with nothing left when the process dies; otherwise says how many operations remain. */
    method StageAndCommitKey(tmp: Id, c: Cert, steps: nat) returns (left: Option<nat>)
      modifies `disk
      ensures disk == Staged(old(disk), tmp, c, steps)
      ensures left == if steps < 4 then None else Some(steps - 4)
    {
      if steps < 1 { return None; }
      disk := disk.(staging := disk.staging[tmp := Dir(None, None)]);
      if steps < 2 { return None; }
      disk := disk.(staging := disk.staging[tmp := disk.staging[tmp].(privateKey := Some(c.pair))]);
      if steps < 3 { return None; }
      disk := disk.(staging := disk.staging[tmp := disk.staging[tmp].(certificate := Some(c))]);
      if steps < 4 { return None; }
      var staged := disk.staging[tmp];
      disk := disk.(staging := disk.staging - {tmp}, dirs := disk.dirs[c.pair := staged]);
      assert disk.staging == old(disk).staging - {tmp};
      left := Some(steps - 4);
    }

    method WriteManifest(m: Manifest, steps: nat) returns (r: Result)
      modifies `disk
      ensures disk == Written(old(disk), m, steps) && r == if steps < 2 then Crashed else Finished
    {
      if steps < 2 { return Crashed; }
      disk := disk.(manifest := m);
      r := Finished;
    }

    method Provision(first: Option<Id>, tmp: Id, kid: Id, now: Time, steps: nat) returns (r: Result)
      modifies `disk
      ensures disk == Provisioned(old(disk), first, tmp, kid, now, steps)
      ensures r == Finished ==>
                old(disk).manifest.active != NONE || disk.manifest.active == if first.Some? then first.value else kid
    {
      var m := disk.manifest;
      if m.active != NONE {
        r := if Complete(disk, m.active) then Finished else Rejected;
        return;
      }
      if first.Some? {
        if !Complete(disk, first.value) {
          return Rejected;
        }
        r := WriteManifest(Activated(m, CertRecord(disk.dirs[first.value].certificate.value)), steps);
        return;
      }
      var left := StageAndCommitKey(tmp, NewCert(kid, now), steps);
      if left.None? {
        return Crashed;
      }
      r := WriteManifest(Activated(m, CertRecord(NewCert(kid, now))), left.value);
    }

    method RetireActive(keys: seq<KeyRecord>, active: Id) returns (r: seq<KeyRecord>)
      ensures r == Retired(keys, active)
    {
      r := keys;
      for i := 0 to |keys|
        invariant |r| == |keys|
        invariant forall k :: 0 <= k < |keys| ==> r[k] == if k < i then Retired(keys, active)[k] else keys[k]
      {
        if keys[i].kid == active {
          r := r[i := keys[i].(retired := true)];
        }
      }
    }

    method RotateFiles(tmp: Id, kid: Id, now: Time, steps: nat) returns (r: Result)
      modifies `disk
      ensures disk == Rotated(old(disk), tmp, kid, now, steps) && r == if steps < 6 then Crashed else Finished
    {
      var m := disk.manifest;
      var left := StageAndCommitKey(tmp, NewCert(kid, now), steps);
      if left.None? {
        return Crashed;
      }
      var keys := RetireActive(m.keys, m.active);
      r := WriteManifest(Activated(Manifest(m.active, keys), CertRecord(NewCert(kid, now))), left.value);
    }

    /** The loop over the manifest that loads every key but the active one. */
    method LoadRetired(keys: seq<KeyRecord>, active: Id) returns (r: Option<seq<Id>>)
      ensures r == if AllComplete(disk, OtherKids(keys, active)) then Some(OtherKids(keys, active)) else None
    {
      hide Complete;
      var kids: seq<Id> := [];
      var i := 0;
      while i < |keys|
        invariant 0 <= i <= |keys|
        invariant OtherKids(keys, active) == kids + OtherKids(keys[i..], active)
        invariant AllComplete(disk, kids)
      {
        assert keys[i..][0] == keys[i] && keys[i..][1..] == keys[i + 1..];
        if keys[i].kid != active {
          if !Complete(disk, keys[i].kid) {
            assert keys[i].kid in OtherKids(keys[i..], active);
            assert keys[i].kid in OtherKids(keys, active) && !AllComplete(disk, OtherKids(keys, active));
            return None;
          }
          kids := kids + [keys[i].kid];
        }
        i := i + 1;
      }
      assert keys[i..] == [] && kids + [] == kids;
      assert OtherKids(keys, active) == kids;
      r := Some(kids);
    }

    method Load(now: Time) returns (ok: bool)
      modifies `loaded
      ensures ok == LoadFrom(disk, now).Loaded?
      ensures loaded == if ok then LoadFrom(disk, now) else old(loaded)
    {
      var m := disk.manifest;
      if m.active == NONE || !Complete(disk, m.active) {
        return false;
      }
      if RecordOf(disk, m.active).notAfter <= now {
        return false;
      }
      var retired := LoadRetired(m.keys, m.active);
      ok := retired.Some?;
      if ok {
        loaded := Loaded(m.active, retired.value);
      }
    }

    /** Rotates and then loads; the new key is on disk even if the load fails. */
    method Rotate(tmp: Id, kid: Id, now: Time, steps: nat) returns (r: Result)
      modifies `disk, `loaded
      ensures disk == Rotated(old(disk), tmp, kid, now, steps)
      ensures r == Finished <==> steps >= 6 && LoadFrom(disk, now).Loaded?
      ensures loaded == if r == Finished then LoadFrom(disk, now) else old(loaded)
    {
      r := RotateFiles(tmp, kid, now, steps);
      if r == Finished {
        var ok := Load(now);
        r := if ok then Finished else Rejected;
      }
    }

    method PublicJwks() returns (kids: set<Id>)
      ensures kids == Jwks(loaded)
    {
      kids := {};
      if loaded.Loaded? {
        kids := {loaded.active};
        for i := 0 to |loaded.retired|
          invariant kids == {loaded.active} + (set kid | kid in loaded.retired[..i])
        {
          assert loaded.retired[..i + 1] == loaded.retired[..i] + [loaded.retired[i]];
          kids := kids + {loaded.retired[i]};
        }
        assert loaded.retired[..|loaded.retired|] == loaded.retired;
      }
    }
  }
}
