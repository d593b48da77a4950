// Moving the phone's credentials from plain files into the platform's secure
// store (app/src-tauri/src/mobile_credentials.rs:88-146), with the two loaders
// it calls (crates/transport/src/identity.rs:127-136 and
// crates/transport/src/peers.rs:199-258).
module Migration {
  import opened Bytes

  datatype Record = Identity | Peers | LastHost | PairState | Revocations | Grace

  // The records that are migrated. Grace is read by the loader but not moved.
  const RECORDS: seq<Record> := [Identity, Peers, LastHost, PairState, Revocations]

  type Records = map<Record, Bytes>

  // What becomes of one store operation. A failed write or removal may still
  // have taken effect. When the outcomes run out, the app was stopped.
  datatype Outcome = Works | Fails(landed: bool)

  datatype Io<T> = Done(value: T) | Failed | Stopped

  datatype Result = Loaded | NotLoaded | Killed

  // The value the phone works with: the secure one if there is one.
  function Effective(files: Records, secure: Records, r: Record): Option<Bytes> {
    if r in secure then Some(secure[r]) else if r in files then Some(files[r]) else None
  }

  // Every existing record keeps its value; only a missing identity may appear.
  ghost predicate Kept(files: Records, secure: Records, files': Records, secure': Records) {
    forall r: Record | r != Grace ::
      var was, now := Effective(files, secure, r), Effective(files', secure', r);
      now == was || (was.None? && r == Identity)
  }

  lemma KeptTwice(f: Records, s: Records, f': Records, s': Records, f'': Records, s'': Records)
    requires Kept(f, s, f', s') && Kept(f', s', f'', s'')
    ensures Kept(f, s, f'', s'')
  {
    forall r: Record | r != Grace ensures
      var was, now := Effective(f, s, r), Effective(f'', s'', r);
      now == was || (was.None? && r == Identity) {
      assert Effective(f', s', r) == Effective(f', s', r);
    }
  }

  // The secure store after copying the listed records into it.
  function Copied(files: Records, secure: Records, moved: set<Record>): Records {
    map r | r in secure.Keys + (moved * files.Keys) :: if r in secure then secure[r] else files[r]
  }

  function Missing(files: Records, secure: Records, rs: seq<Record>): set<Record> {
    set r | r in rs && r !in secure && r in files
  }

  lemma CopyOne(files: Records, secure: Records, moved: set<Record>, r: Record)
    ensures r in files && r !in Copied(files, secure, moved) ==>
      Copied(files, secure, moved)[r := files[r]] == Copied(files, secure, moved + {r})
  {
  }

  ghost predicate AllWork(script: seq<Outcome>) {
    forall i :: 0 <= i < |script| ==> script[i].Works?
  }

  // At most n operations were made, and they were those that came first.
  ghost predicate Used(script: seq<Outcome>, script': seq<Outcome>, n: nat) {
    |script'| + n >= |script| && (AllWork(script) ==> AllWork(script'))
  }

  // What the two loaders accept, and the identity generated if there is none.
  datatype Loaders = Loaders(identityDecodes: Bytes -> bool, revocationsDecode: Bytes -> bool, generated: Option<Bytes>)

  predicate IdentityLoads(loaders: Loaders, secure: Records) {
    if Identity in secure then loaders.identityDecodes(secure[Identity]) else loaders.generated.Some?
  }

  predicate PeersLoad(loaders: Loaders, secure: Records) {
    Revocations in secure ==> loaders.revocationsDecode(secure[Revocations])
  }

  predicate Loadable(loaders: Loaders, files: Records, secure: Records) {
    var identity, revocations := Effective(files, secure, Identity), Effective(files, secure, Revocations);
    && (if identity.Some? then loaders.identityDecodes(identity.value) else loaders.generated.Some?)
    && (revocations.Some? ==> loaders.revocationsDecode(revocations.value))
  }

  // The secure store after the identity loader ran on it.
  ghost predicate IdentityMade(loaders: Loaders, secure: Records, secure': Records) {
    secure' == secure ||
    (Identity !in secure && loaders.generated.Some?
     && secure' == secure[Identity := loaders.generated.value])
  }

  // Copies lose nothing, even when only some were made; neither does making an
  // identity once all were.
  lemma CopiesKeep(loaders: Loaders, files: Records, s0: Records, moved: set<Record>, s2: Records)
    requires IdentityMade(loaders, Copied(files, s0, moved), s2)
    requires s2 == Copied(files, s0, moved) || moved == Missing(files, s0, RECORDS)
    ensures Kept(files, s0, files, s2)
  {
  }

  // Undoing copies loses nothing; undoing all of them leaves what was there.
  lemma RollBackKeeps(loaders: Loaders, files: Records, s0: Records, s2: Records, removed: set<Record>)
    requires removed <= Missing(files, s0, RECORDS)
      && IdentityMade(loaders, Copied(files, s0, Missing(files, s0, RECORDS)), s2)
    ensures Kept(files, s0, files, s2 - removed)
    ensures removed == Missing(files, s0, RECORDS) ==> Kept(map[], s0, map[], s2 - removed)
  {
  }

  // Neither does removing the files once everything was copied.
  lemma RemovalKeeps(loaders: Loaders, files: Records, s0: Records, s2: Records, removed: set<Record>)
    requires IdentityMade(loaders, Copied(files, s0, Missing(files, s0, RECORDS)), s2)
    ensures Kept(files, s0, files - removed, s2)
  {
  }

  // The loaders see the effective values.
  lemma LoadersSee(loaders: Loaders, files: Records, s0: Records, s1: Records, s2: Records)
    requires s1 == Copied(files, s0, Missing(files, s0, RECORDS)) && IdentityMade(loaders, s1, s2)
    ensures IdentityLoads(loaders, s1) && PeersLoad(loaders, s2) <==> Loadable(loaders, files, s0)
  {
    assert Identity in RECORDS && Revocations in RECORDS;
  }

  class Credentials {
    var files: Records
    var secure: Records
    var script: seq<Outcome>

    constructor (files: Records, secure: Records)
      ensures this.files == files && this.secure == secure && script == []
    {
      this.files, this.secure, script := files, secure, [];
    }

    method Next() returns (o: Io<Outcome>)
      modifies this`script
      ensures script == if old(script) == [] then [] else old(script)[1..]
      ensures o == if old(script) == [] then Stopped else Done(old(script)[0])
    {
      if script == [] {
        return Stopped;
      }
      o := Done(script[0]);
      script := script[1..];
    }

    method Read(inSecure: bool, r: Record) returns (io: Io<Option<Bytes>>)
      modifies this`script
      ensures io.Done? && inSecure ==> io.value == if r in secure then Some(secure[r]) else None
      ensures io.Done? && !inSecure ==> io.value == if r in files then Some(files[r]) else None
      ensures Used(old(script), script, 1) && (AllWork(old(script)) && old(script) != [] ==> io.Done?)
    {
      var o := Next();
      if o.Stopped? {
        return Stopped;
      }
      if o.value.Fails? {
        return Failed;
      }
      var store := if inSecure then secure else files;
      return Done(if r in store then Some(store[r]) else None);
    }

    method WriteSecure(r: Record, bytes: Bytes) returns (io: Io<()>)
      modifies this`script, this`secure
      ensures secure == old(secure) || secure == old(secure)[r := bytes]
      ensures io.Done? ==> secure == old(secure)[r := bytes]
      ensures Used(old(script), script, 1) && (AllWork(old(script)) && old(script) != [] ==> io.Done?)
    {
      var o := Next();
      if o.Stopped? {
        return Stopped;
      }
      if o.value.Works? || o.value.landed {
        secure := secure[r := bytes];
      }
      io := if o.value.Works? then Done(()) else Failed;
    }

    method RemoveSecure(r: Record) returns (io: Io<()>)
      modifies this`script, this`secure
      ensures secure == old(secure) || (!io.Stopped? && secure == old(secure) - {r})
      ensures io.Done? ==> secure == old(secure) - {r}
      ensures Used(old(script), script, 1) && (AllWork(old(script)) && old(script) != [] ==> io.Done?)
    {
      var o := Next();
      if o.Stopped? {
        return Stopped;
      }
      if o.value.Works? || o.value.landed {
        secure := secure - {r};
      }
      io := if o.value.Works? then Done(()) else Failed;
    }

    method RemoveFile(r: Record) returns (io: Io<()>)
      modifies this`script, this`files
      ensures files == old(files) || files == old(files) - {r}
      ensures io.Done? ==> files == old(files) - {r}
      ensures Used(old(script), script, 1) && (AllWork(old(script)) && old(script) != [] ==> io.Done?)
    {
      var o := Next();
      if o.Stopped? {
        return Stopped;
      }
      if o.value.Works? || o.value.landed {
        files := files - {r};
      }
      io := if o.value.Works? then Done(()) else Failed;
    }

    // One turn of the first loop: copy what the secure store lacks.
    method MigrateRecord(r: Record) returns (io: Io<bool>)
      modifies this`script, this`secure
      ensures secure == old(secure) || (r !in old(secure) && r in files && secure == old(secure)[r := files[r]])
      ensures io.Done? ==> (io.value <==> r !in old(secure) && r in files) && (io.value ==> r in secure)
      ensures Used(old(script), script, 3) && (AllWork(old(script)) && |old(script)| >= 3 ==> io.Done?)
    {
      var held := Read(true, r);
      if held.Stopped? {
        return Stopped;
      }
      if held.Failed? {
        return Failed;
      }
      if held.value.Some? {
        return Done(false);
      }
      var legacy := Read(false, r);
      if legacy.Stopped? {
        return Stopped;
      }
      if legacy.Failed? {
        return Failed;
      }
      if legacy.value.None? {
        return Done(false);
      }
      var written := WriteSecure(r, legacy.value.value);
      if written.Stopped? {
        return Stopped;
      }
      if written.Failed? {
        return Failed;
      }
      return Done(true);
    }

    // The first loop.
    method Migrate() returns (io: Io<set<Record>>, ghost moved: set<Record>)
      modifies this`script, this`secure
      ensures secure == Copied(files, old(secure), moved) && moved <= Missing(files, old(secure), RECORDS)
      ensures io.Done? ==> io.value == moved == Missing(files, old(secure), RECORDS)
      ensures Used(old(script), script, 15) && (AllWork(old(script)) && |old(script)| >= 15 ==> io.Done?)
    {
      var newly: set<Record> := {};
      var k := 0;
      while k < |RECORDS|
        invariant k <= |RECORDS|
        invariant newly == Missing(files, old(secure), RECORDS[..k])
        invariant secure == Copied(files, old(secure), newly)
        invariant Used(old(script), script, 3 * k)
      {
        var r := RECORDS[k];
        assert RECORDS[..k + 1] == RECORDS[..k] + [r];
        CopyOne(files, old(secure), newly, r);
        ghost var before := secure;
        var done := MigrateRecord(r);
        if !done.Done? {
          io := if done.Stopped? then Stopped else Failed;
          moved := if secure == before then newly else newly + {r};
          return;
        }
        if done.value {
          newly := newly + {r};
        }
        k := k + 1;
      }
      assert RECORDS[..k] == RECORDS;
      return Done(newly), newly;
    }

    // Identity::load_or_create_in
    method LoadIdentity(loaders: Loaders) returns (io: Io<()>)
      modifies this`script, this`secure
      ensures IdentityMade(loaders, old(secure), secure)
      ensures io.Done? ==> Identity in secure && IdentityLoads(loaders, old(secure))
      ensures Used(old(script), script, 2)
      ensures AllWork(old(script)) && |old(script)| >= 2 ==>
        !io.Stopped? && (io.Done? <==> IdentityLoads(loaders, old(secure)))
    {
      var held := Read(true, Identity);
      if held.Stopped? {
        return Stopped;
      }
      if held.Failed? {
        return Failed;
      }
      if held.value.Some? {
        return if loaders.identityDecodes(held.value.value) then Done(()) else Failed;
      }
      if loaders.generated.None? {
        return Failed;
      }
      io := WriteSecure(Identity, loaders.generated.value);
    }

    // PeerStore::load_from: only reads; a corrupt revocation record is refused.
    method LoadPeers(loaders: Loaders) returns (io: Io<()>)
      modifies this`script
      ensures io.Done? ==> PeersLoad(loaders, secure)
      ensures Used(old(script), script, 5)
      ensures AllWork(old(script)) && |old(script)| >= 5 ==> !io.Stopped? && (io.Done? <==> PeersLoad(loaders, secure))
    {
      var wanted := [Peers, LastHost, PairState, Revocations, Grace];
      var k := 0;
      while k < |wanted|
        invariant k <= |wanted| && Used(old(script), script, k)
        invariant k > 3 ==> PeersLoad(loaders, secure)
      {
        var held := Read(true, wanted[k]);
        if held.Stopped? {
          return Stopped;
        }
        if held.Failed? {
          return Failed;
        }
        if wanted[k] == Revocations && held.value.Some? && !loaders.revocationsDecode(held.value.value) {
          return Failed;
        }
        k := k + 1;
      }
      return Done(());
    }

    // Undo this attempt's copies; a removal that fails is passed over.
    method RollBack(newly: set<Record>) returns (stopped: bool, ghost removed: set<Record>)
      modifies this`script, this`secure
      ensures removed <= newly && secure == old(secure) - removed
      ensures Used(old(script), script, 5)
      ensures AllWork(old(script)) && |old(script)| >= 5 ==>
        !stopped && forall r :: r in RECORDS && r in newly ==> r in removed
    {
      removed := {};
      var k := 0;
      while k < |RECORDS|
        invariant k <= |RECORDS| && removed <= newly && secure == old(secure) - removed
        invariant Used(old(script), script, k)
        invariant AllWork(old(script)) && |old(script)| >= 5 ==>
          forall j :: 0 <= j < k && RECORDS[j] in newly ==> RECORDS[j] in removed
      {
        var r := RECORDS[k];
        if r in newly {
          var io := RemoveSecure(r);
          if io.Stopped? {
            return true, removed;
          }
          if io.Done? || r !in secure {
            removed := removed + {r};
          }
        }
        k := k + 1;
      }
      return false, removed;
    }

    // The last loop: every legacy copy goes.
    method RemoveFiles() returns (io: Io<()>, ghost removed: set<Record>)
      modifies this`script, this`files
      ensures (forall r :: r in removed ==> r in RECORDS) && files == old(files) - removed
      ensures io.Done? ==> forall r :: r in RECORDS ==> r in removed
      ensures AllWork(old(script)) && |old(script)| >= 5 ==> io.Done?
    {
      removed := {};
      var k := 0;
      while k < |RECORDS|
        invariant k <= |RECORDS| && (forall r :: r in removed ==> r in RECORDS) && files == old(files) - removed
        invariant forall j :: 0 <= j < k ==> RECORDS[j] in removed
        invariant Used(old(script), script, k)
      {
        ghost var before := files;
        io := RemoveFile(RECORDS[k]);
        if io.Done? || files != before {
          removed := removed + {RECORDS[k]};
        }
        if !io.Done? {
          return;
        }
        k := k + 1;
      }
      io := Done(());
    }

    // The closure that runs both loaders.
    method Load(loaders: Loaders) returns (io: Io<()>)
      modifies this`script, this`secure
      ensures IdentityMade(loaders, old(secure), secure)
      ensures io.Done? ==> Identity in secure && IdentityLoads(loaders, old(secure)) && PeersLoad(loaders, secure)
      ensures Used(old(script), script, 7)
      ensures AllWork(old(script)) && |old(script)| >= 7 ==>
        !io.Stopped? && (io.Done? <==> IdentityLoads(loaders, old(secure)) && PeersLoad(loaders, secure))
    {
      io := LoadIdentity(loaders);
      if io.Done? {
        io := LoadPeers(loaders);
      }
    }

    method LoadOrMigrate(loaders: Loaders) returns (result: Result)
      modifies this
      // Nothing is lost, wherever it fails or stops.
      ensures Kept(old(files), old(secure), files, secure)
      // A success leaves no plain copy and has loaded what was there.
      ensures result.Loaded? ==>
        && (forall r: Record :: r != Grace ==> r !in files)
        && Identity in secure && Loadable(loaders, old(files), old(secure))
      // When nothing fails, it succeeds exactly if the records load, and
      // otherwise undoes its copies.
      ensures AllWork(old(script)) && |old(script)| >= 27 ==>
        && (result.Loaded? <==> Loadable(loaders, old(files), old(secure)))
        && (!result.Loaded? ==> files == old(files) && Kept(map[], old(secure), map[], secure))
    {
      ghost var f, s0 := files, secure;
      var io, moved := Migrate();
      ghost var s1 := secure;
      if !io.Done? {
        CopiesKeep(loaders, files, s0, moved, secure);
        return if io.Stopped? then Killed else NotLoaded;
      }
      var loaded := Load(loaders);
      ghost var s2 := secure;
      LoadersSee(loaders, f, s0, s1, s2);
      if loaded.Stopped? {
        CopiesKeep(loaders, f, s0, moved, s2);
        return Killed;
      }
      if loaded.Failed? {
        var stopped, removed := RollBack(io.value);
        RollBackKeeps(loaders, f, s0, s2, removed);
        return if stopped then Killed else NotLoaded;
      }
      var gone, removed := RemoveFiles();
      RemovalKeeps(loaders, f, s0, s2, removed);
      return if gone.Done? then Loaded else if gone.Stopped? then Killed else NotLoaded;
    }

    // Any number of runs, each failing or stopping where it may.
    method Runs(plans: seq<(Loaders, seq<Outcome>)>)
      modifies this
      ensures Kept(old(files), old(secure), files, secure)
    {
      var k := 0;
      while k < |plans|
        invariant k <= |plans| && Kept(old(files), old(secure), files, secure)
      {
        ghost var f, s := files, secure;
        script := plans[k].1;
        var result := LoadOrMigrate(plans[k].0);
        KeptTwice(old(files), old(secure), f, s, files, secure);
        k := k + 1;
      }
    }
  }
}
