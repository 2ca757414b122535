/**
 * The users repository as it runs: two maps updated in place, a snapshot put after each change, and a
 * replay loop on load.
 */
module UserRepositories {
  import opened Wrappers
  import opened OrderedMaps
  import opened Texts
  import opened Caches
  import opened Users

  const USERS_KEY := "enrolled-users-v1"

  class AuthUsersRepository {
    var usersByUsername: OrderedMap<User>
    var usernameByFingerprint: map<string, string>
    const cache: CacheMemory<seq<User>>

    function State(): Repository
      reads this
    {
      Repository(usersByUsername, usernameByFingerprint)
    }

    ghost predicate Valid()
      reads this
    {
      usersByUsername.Valid()
    }

    /** What is persisted is who is there; nothing is persisted while nobody ever was. */
    ghost predicate Synced()
      reads this, cache
      requires Valid()
    {
      Read(cache.mem, USERS_KEY) == Some(usersByUsername.Values())
      || (Read(cache.mem, USERS_KEY) == None && usersByUsername.Values() == [])
    }

    constructor (cache: CacheMemory<seq<User>>)
      ensures this.cache == cache && State() == NoUsers && Valid()
    {
      this.cache := cache;
      usersByUsername, usernameByFingerprint := Empty(), map[];
    }

    method PersistState()
      requires Valid()
      modifies cache
      ensures Synced()
    {
      cache.PutEntry(USERS_KEY, usersByUsername.Values());
      LastPutIsRead(old(cache.mem), USERS_KEY, usersByUsername.Values(), USERS_KEY);
      MetaKeyIsAnother(USERS_KEY);
    }

    /** The unwrapped operation, as the replay loop calls it. */
    method DeclareOnly(d: Declaration, uuid: string, now: int) returns (r: Result<(), UserError>)
      requires Valid()
      modifies this
      ensures Valid() && Change(State(), r) == Declare(old(State()), d, uuid, now)
    {
      var username := Trim(d.username);
      if usersByUsername.Has(username) { return Failure(UserAlreadyExists); }
      var created := User(username, uuid, d.profile, d.entityBIC, "", "", now, now);
      SetKeepsValid(usersByUsername, username, created);
      usersByUsername := usersByUsername.Set(username, created);
      r := Success(());
    }

    method SetCertificateOnly(name: string, pem: string, fingerprint: string, now: int)
        returns (r: Result<(), UserError>)
      requires Valid()
      modifies this
      ensures Valid() && Change(State(), r) == SetCertificate(old(State()), name, pem, fingerprint, now)
    {
      var username := Trim(name);
      if !usersByUsername.Has(username) { return Failure(UserNotFound); }
      var user := usersByUsername.Get(username);
      if fingerprint in usernameByFingerprint {
        var mapped := usernameByFingerprint[fingerprint];
        if mapped != "" && mapped != username { return Failure(FingerprintAlreadyMapped); }
      }
      if user.fingerprint != "" && user.fingerprint != fingerprint {
        usernameByFingerprint := usernameByFingerprint - {user.fingerprint};
      }
      usernameByFingerprint := usernameByFingerprint[fingerprint := username];
      var updated := user.(certificatePem := pem, fingerprint := fingerprint, updatedAt := now);
      SetKeepsValid(usersByUsername, username, updated);
      usersByUsername := usersByUsername.Set(username, updated);
      r := Success(());
    }

    method CreateDeclaredUser(d: Declaration, uuid: string, now: int) returns (r: Result<(), UserError>)
      requires Valid()
      modifies this, cache
      ensures Valid() && Change(State(), r) == Declare(old(State()), d, uuid, now)
      ensures old(Synced()) ==> Synced()
    {
      r := DeclareOnly(d, uuid, now);
      if r.Success? { PersistState(); }
    }

    method SetUserCertificate(name: string, pem: string, fingerprint: string, now: int)
        returns (r: Result<(), UserError>)
      requires Valid()
      modifies this, cache
      ensures Valid() && Change(State(), r) == SetCertificate(old(State()), name, pem, fingerprint, now)
      ensures old(Synced()) ==> Synced()
    {
      r := SetCertificateOnly(name, pem, fingerprint, now);
      if r.Success? { PersistState(); }
    }

    method UpdateUserMetadata(name: string, profile: string, entityBIC: string, now: int)
        returns (r: Result<(), UserError>)
      requires Valid()
      modifies this, cache
      ensures Valid() && Change(State(), r) == UpdateMetadata(old(State()), name, profile, entityBIC, now)
      ensures old(Synced()) ==> Synced()
    {
      var username := Trim(name);
      if !usersByUsername.Has(username) { return Failure(UserNotFound); }
      var user := usersByUsername.Get(username);
      var nextProfile, nextEntityBIC := Trim(profile), Trim(entityBIC);
      var updated := user.(
        profile := if nextProfile != "" then nextProfile else user.profile,
        entityBIC := if nextEntityBIC != "" then nextEntityBIC else user.entityBIC,
        updatedAt := now);
      SetKeepsValid(usersByUsername, username, updated);
      usersByUsername := usersByUsername.Set(username, updated);
      PersistState();
      r := Success(());
    }

    method RemoveUser(name: string) returns (removed: bool)
      requires Valid()
      modifies this, cache
      ensures Valid() && (State(), removed) == Delete(old(State()), name)
      ensures old(Synced()) ==> Synced()
    {
      var username := Trim(name);
      if !usersByUsername.Has(username) { return false; }
      var user := usersByUsername.Get(username);
      if user.fingerprint != "" { usernameByFingerprint := usernameByFingerprint - {user.fingerprint}; }
      DeleteKeepsValid(usersByUsername, username);
      usersByUsername := usersByUsername.Delete(username);
      PersistState();
      removed := true;
    }

    /** One user of the snapshot; the exception of a failed step is swallowed. */
    method ReplayOne(user: User, uuid: string, now: int)
      requires Valid()
      modifies this
      ensures Valid() && State() == RestoreOne(old(State()), user, uuid, now).repository
    {
      var declared := DeclareOnly(Declaration(user.username, user.profile, user.entityBIC), uuid, now);
      if declared.Failure? { return; }
      if user.certificatePem != "" && user.fingerprint != "" {
        var _ := SetCertificateOnly(user.username, user.certificatePem, user.fingerprint, now);
      }
    }

    /** The replay loop on load. */
    method Replay(users: seq<User>, uuids: seq<string>, now: int)
      requires State() == NoUsers && |uuids| == |users|
      modifies this
      ensures Valid() && State() == Restore(users, uuids, now)
    {
      for i := 0 to |users|
        invariant Valid() && State() == Restore(users[..i], uuids[..i], now)
      {
        ReplayOne(users[i], uuids[i], now);
        assert users[..i + 1][..i] == users[..i] && uuids[..i + 1][..i] == uuids[..i];
      }
      assert users[..|users|] == users && uuids[..|users|] == uuids;
    }
  }

  /**
   * A new process: a fresh repository, replayed from the cache the old one persisted to. It is the old
   * one exactly when no user of the old one had half a certificate.
   */
  method Reload(cache: CacheMemory<seq<User>>, uuids: seq<string>, now: int, ghost r: Repository)
    returns (repository: AuthUsersRepository)
    requires Inverse(r) && |uuids| == |r.users.order|
    requires Read(cache.mem, USERS_KEY) == Some(r.users.Values())
      || (Read(cache.mem, USERS_KEY) == None && r.users.Values() == [])
    modifies cache
    ensures fresh(repository) && repository.cache == cache && repository.Valid()
    ensures repository.State() == Restore(r.users.Values(), uuids, now)
    ensures Reproduces(r, uuids, now, repository.State()) <==> AllCertified(r)
    ensures Read(cache.mem, USERS_KEY) == Read(old(cache.mem), USERS_KEY)
  {
    ReadingIsHarmless(cache.mem, USERS_KEY, USERS_KEY);
    RestoreReproducesExactly(r, uuids, now);
    repository := new AuthUsersRepository(cache);
    var loaded := cache.GetEntry(USERS_KEY);
    if loaded.Some? {
      repository.Replay(loaded.value, uuids, now);
    }
  }
}
