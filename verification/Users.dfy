/**
 * The users repository (src/auth/users-repository.ts) as a value: users by username, and the
 * index from certificate fingerprints back to usernames. An absent certificate or fingerprint is
 * the empty text, which is how the source tests for one.
 */
module Users {
  import opened Wrappers
  import opened OrderedMaps
  import opened Texts

  datatype User = User(
    username: string,
    uuid: string,
    profile: string,
    entityBIC: string,
    certificatePem: string,
    fingerprint: string,
    createdAt: int,
    updatedAt: int)

  datatype UserError = UserAlreadyExists | UserNotFound | FingerprintAlreadyMapped

  datatype Declaration = Declaration(username: string, profile: string, entityBIC: string)

  datatype Repository = Repository(users: OrderedMap<User>, index: map<string, string>) {
    /** The user a fingerprint is mapped to, as `getUsernameByFingerprint`. */
    function Mapped(fingerprint: string): Option<string> {
      if fingerprint in index then Some(index[fingerprint]) else None
    }
  }

  datatype Change = Change(repository: Repository, result: Result<(), UserError>)

  const NoUsers := Repository(Empty(), map[])

  function Declare(r: Repository, d: Declaration, uuid: string, now: int): Change {
    var username := Trim(d.username);
    if r.users.Has(username) then Change(r, Failure(UserAlreadyExists))
    else
      Change(r.(users := r.users.Set(username, User(username, uuid, d.profile, d.entityBIC, "", "", now, now))),
             Success(()))
  }

  function SetCertificate(r: Repository, name: string, pem: string, fingerprint: string, now: int): Change {
    var username := Trim(name);
    if !r.users.Has(username) then Change(r, Failure(UserNotFound))
    else
      var user := r.users.entries[username];
      var mapped := r.Mapped(fingerprint);
      if mapped.Some? && mapped.value != "" && mapped.value != username then
        Change(r, Failure(FingerprintAlreadyMapped))
      else
        var freed :=
          if user.fingerprint != "" && user.fingerprint != fingerprint then r.index - {user.fingerprint} else r.index;
        var updated := user.(certificatePem := pem, fingerprint := fingerprint, updatedAt := now);
        Change(Repository(r.users.Set(username, updated), freed[fingerprint := username]), Success(()))
  }

  function UpdateMetadata(r: Repository, name: string, profile: string, entityBIC: string, now: int): Change {
    var username := Trim(name);
    if !r.users.Has(username) then Change(r, Failure(UserNotFound))
    else
      var user := r.users.entries[username];
      var updated := user.(
        profile := if Trim(profile) != "" then Trim(profile) else user.profile,
        entityBIC := if Trim(entityBIC) != "" then Trim(entityBIC) else user.entityBIC,
        updatedAt := now);
      Change(r.(users := r.users.Set(username, updated)), Success(()))
  }

  /** Whether a user was removed, and what is left. */
  function Delete(r: Repository, name: string): (Repository, bool) {
    var username := Trim(name);
    if !r.users.Has(username) then (r, false)
    else
      var user := r.users.entries[username];
      var index := if user.fingerprint != "" then r.index - {user.fingerprint} else r.index;
      (Repository(r.users.Delete(username), index), true)
  }

  // ----- the index is the inverse of the fingerprints -----

  /** A user is filed under its own, trimmed, name, and its fingerprint leads back to it. */
  ghost predicate UserSound(r: Repository, name: string)
    requires name in r.users.entries
  {
    var user := r.users.entries[name];
    && user.username == name && Trim(name) == name
    && (user.fingerprint != "" ==> user.fingerprint in r.index && r.index[user.fingerprint] == name)
  }

  /** A mapped fingerprint is the one its user carries. */
  ghost predicate EntrySound(r: Repository, f: string)
    requires f in r.index
  {
    f != "" && r.index[f] in r.users.entries && r.users.entries[r.index[f]].fingerprint == f
  }

  /** The index and the users' fingerprints are exact inverses. */
  ghost predicate Inverse(r: Repository) {
    && r.users.Valid()
    && (forall name :: name in r.users.entries ==> UserSound(r, name))
    && (forall f :: f in r.index ==> EntrySound(r, f))
  }

  /** One user is rewritten and the index adjusted; whoever else is mapped is left alone. */
  lemma RewriteKeepsInverse(r: Repository, m: Repository, user: User)
    requires Inverse(r) && m.users == r.users.Set(user.username, user)
    requires UserSound(m, user.username)
    requires forall f :: f in m.index ==> EntrySound(m, f)
    requires forall f :: f in r.index && r.index[f] != user.username ==> f in m.index && m.index[f] == r.index[f]
    ensures Inverse(m)
  {
    SetKeepsValid(r.users, user.username, user);
    forall name | name in m.users.entries ensures UserSound(m, name) {
      if name != user.username { assert UserSound(r, name); }
    }
  }

  lemma DeclareKeepsInverse(r: Repository, d: Declaration, uuid: string, now: int)
    requires Inverse(r)
    ensures Inverse(Declare(r, d, uuid, now).repository)
  {
    hide Trim;
    TrimIdempotent(d.username);
    var c := Declare(r, d, uuid, now);
    if c.result.Success? {
      forall f | f in r.index ensures EntrySound(c.repository, f) { assert EntrySound(r, f); }
      RewriteKeepsInverse(r, c.repository, c.repository.users.entries[Trim(d.username)]);
    }
  }

  /**
   * What a certificate must not be set to: nothing at all, or the fingerprint of the nameless user,
   * whose empty name the duplicate check takes for no user.
   */
  predicate BreaksIndex(r: Repository, name: string, fingerprint: string) {
    && r.users.Has(Trim(name))
    && (fingerprint == "" || (Trim(name) != "" && r.Mapped(fingerprint) == Some("")))
  }

  lemma SetCertificateKeepsInverse(r: Repository, name: string, pem: string, fingerprint: string, now: int)
    requires Inverse(r) && !BreaksIndex(r, name, fingerprint)
    ensures Inverse(SetCertificate(r, name, pem, fingerprint, now).repository)
  {
    hide Trim;
    var c, username := SetCertificate(r, name, pem, fingerprint, now), Trim(name);
    if c.result.Success? {
      assert UserSound(r, username);
      if fingerprint in r.index { assert EntrySound(r, fingerprint); }
      forall f | f in c.repository.index ensures EntrySound(c.repository, f) {
        if f != fingerprint { assert EntrySound(r, f); }
      }
      forall f | f in r.index && r.index[f] != username
        ensures f in c.repository.index && c.repository.index[f] == r.index[f]
      {
        assert EntrySound(r, f);
      }
      RewriteKeepsInverse(r, c.repository, c.repository.users.entries[username]);
    }
  }

  /** Setting a certificate keeps the index an exact inverse if and only if it is not one of those. */
  lemma SetCertificateKeepsInverseExactly(r: Repository, name: string, pem: string, fingerprint: string, now: int)
    requires Inverse(r)
    ensures Inverse(SetCertificate(r, name, pem, fingerprint, now).repository) <==> !BreaksIndex(r, name, fingerprint)
  {
    hide Trim;
    var m := SetCertificate(r, name, pem, fingerprint, now).repository;
    if !BreaksIndex(r, name, fingerprint) {
      SetCertificateKeepsInverse(r, name, pem, fingerprint, now);
    } else if fingerprint == "" {
      forall f | f in r.index ensures f != "" { assert EntrySound(r, f); }
      assert "" in m.index && !EntrySound(m, "");
    } else {
      assert EntrySound(r, fingerprint);
      assert m.users.entries[""].fingerprint == fingerprint && m.index[fingerprint] != "";
      assert !UserSound(m, "");
    }
  }

  lemma UpdateKeepsInverse(r: Repository, name: string, profile: string, entityBIC: string, now: int)
    requires Inverse(r)
    ensures Inverse(UpdateMetadata(r, name, profile, entityBIC, now).repository)
  {
    hide Trim;
    var c := UpdateMetadata(r, name, profile, entityBIC, now);
    if c.result.Success? {
      assert UserSound(r, Trim(name));
      forall f | f in r.index ensures EntrySound(c.repository, f) { assert EntrySound(r, f); }
      RewriteKeepsInverse(r, c.repository, c.repository.users.entries[Trim(name)]);
    }
  }

  lemma DeleteKeepsInverse(r: Repository, name: string)
    requires Inverse(r)
    ensures Inverse(Delete(r, name).0)
  {
    hide Trim;
    var m, username := Delete(r, name).0, Trim(name);
    if r.users.Has(username) {
      DeleteKeepsValid(r.users, username);
      assert UserSound(r, username);
      forall x | x in m.users.entries ensures UserSound(m, x) { assert UserSound(r, x); }
      forall f | f in m.index ensures EntrySound(m, f) { assert EntrySound(r, f); }
    }
  }

  /** A deleted user leaves no trace: no record and no binding; everybody else's stay. */
  lemma DeletedLeavesNoTrace(r: Repository, name: string)
    requires Inverse(r) && r.users.Has(Trim(name))
    ensures var (m, removed) := Delete(r, name);
      && removed && !m.users.Has(Trim(name))
      && (forall f :: m.Mapped(f) == if r.Mapped(f) == Some(Trim(name)) then None else r.Mapped(f))
      && (forall x :: x != Trim(name) ==> (m.users.Has(x) <==> r.users.Has(x)))
      && (forall x :: x != Trim(name) && r.users.Has(x) ==> m.users.entries[x] == r.users.entries[x])
  {
    hide Trim;
    assert UserSound(r, Trim(name));
    forall f | f in r.index ensures r.index[f] == Trim(name) <==> f == r.users.entries[Trim(name)].fingerprint {
      assert EntrySound(r, f);
    }
  }

  // ----- what each operation answers -----

  /** A user is declared unless the name, without the space around it, is taken; it starts without a certificate. */
  lemma DeclaresExactly(r: Repository, d: Declaration, uuid: string, now: int)
    ensures var c, name := Declare(r, d, uuid, now), Trim(d.username);
      if r.users.Has(name) then c == Change(r, Failure(UserAlreadyExists))
      else
        && c.result.Success? && c.repository.index == r.index
        && c.repository.users == r.users.Set(name, c.repository.users.entries[name])
        && var u := c.repository.users.entries[name];
        && u.username == name && u.uuid == uuid && u.profile == d.profile && u.entityBIC == d.entityBIC
        && u.certificatePem == "" && u.fingerprint == "" && u.createdAt == u.updatedAt == now
  {
    hide Trim;
  }

  /** What is given, without the space around it, replaces what is stored; what is not given stays. */
  predicate Replaces(after: string, before: string, given: string) {
    after == if Trim(given) == "" then before else Trim(given)
  }

  /** Metadata is updated for a known user; the certificate, the names and everybody else stay. */
  lemma UpdatesExactly(r: Repository, name: string, profile: string, entityBIC: string, now: int)
    ensures var c, key := UpdateMetadata(r, name, profile, entityBIC, now), Trim(name);
      if !r.users.Has(key) then c == Change(r, Failure(UserNotFound))
      else
        && c.result.Success? && c.repository.index == r.index
        && c.repository.users == r.users.Set(key, c.repository.users.entries[key])
        && var (u, v) := (r.users.entries[key], c.repository.users.entries[key]);
        && Replaces(v.profile, u.profile, profile) && Replaces(v.entityBIC, u.entityBIC, entityBIC)
        && v.username == u.username && v.uuid == u.uuid && v.certificatePem == u.certificatePem
        && v.fingerprint == u.fingerprint && v.createdAt == u.createdAt && v.updatedAt == now
  {
    hide Trim;
  }

  /** Somebody else, with a name, carries the fingerprint. */
  predicate CarriedByAnother(r: Repository, name: string, fingerprint: string) {
    exists other ::
      other in r.users.entries && other !in {"", name} && r.users.entries[other].fingerprint == fingerprint
  }

  /**
   * A certificate is set for a known user unless another one with a name carries its fingerprint; then
   * that fingerprint leads to the user, the one it had leads nowhere, and every other binding stays.
   */
  lemma CertifiesExactly(r: Repository, name: string, pem: string, fingerprint: string, now: int)
    requires Inverse(r) && fingerprint != ""
    ensures var c, key := SetCertificate(r, name, pem, fingerprint, now), Trim(name);
      if !r.users.Has(key) then c == Change(r, Failure(UserNotFound))
      else if CarriedByAnother(r, key, fingerprint) then c == Change(r, Failure(FingerprintAlreadyMapped))
      else
        && c.result.Success?
        && c.repository.users == r.users.Set(key, c.repository.users.entries[key])
        && var (u, v) := (r.users.entries[key], c.repository.users.entries[key]);
        && v == u.(certificatePem := pem, fingerprint := fingerprint, updatedAt := now)
        && (forall f :: c.repository.Mapped(f) ==
              if f == fingerprint then Some(key) else if f == u.fingerprint then None else r.Mapped(f))
  {
    hide Trim;
    var key := Trim(name);
    if r.users.Has(key) {
      CarriedMeansMapped(r, key, fingerprint);
      assert UserSound(r, key);
      forall f | f in r.index ensures f != "" { assert EntrySound(r, f); }
    }
  }

  lemma CarriedMeansMapped(r: Repository, name: string, fingerprint: string)
    requires Inverse(r) && fingerprint != ""
    ensures CarriedByAnother(r, name, fingerprint) <==>
      r.Mapped(fingerprint).Some? && r.Mapped(fingerprint).value !in {"", name}
  {
    if fingerprint in r.index { assert EntrySound(r, fingerprint); }
    forall other | other in r.users.entries && r.users.entries[other].fingerprint == fingerprint
      ensures r.Mapped(fingerprint) == Some(other)
    {
      assert UserSound(r, other);
    }
  }

  // ----- over runs -----

  datatype UserAction =
    | DeclareUser(d: Declaration, uuid: string, now: int)
    | SetUserCertificate(name: string, pem: string, fingerprint: string, now: int)
    | UpdateUser(name: string, profile: string, entityBIC: string, now: int)
    | DeleteUser(name: string)

  /** No empty name and no empty fingerprint. */
  predicate Admissible(a: UserAction) {
    match a
    case DeclareUser(d, _, _) => Trim(d.username) != ""
    case SetUserCertificate(_, _, fingerprint, _) => fingerprint != ""
    case _ => true
  }

  function Perform(r: Repository, a: UserAction): Repository {
    match a
    case DeclareUser(d, uuid, now) => Declare(r, d, uuid, now).repository
    case SetUserCertificate(name, pem, fingerprint, now) => SetCertificate(r, name, pem, fingerprint, now).repository
    case UpdateUser(name, profile, entityBIC, now) => UpdateMetadata(r, name, profile, entityBIC, now).repository
    case DeleteUser(name) => Delete(r, name).0
  }

  function PerformAll(actions: seq<UserAction>): Repository {
    if actions == [] then NoUsers else Perform(PerformAll(actions[..|actions| - 1]), actions[|actions| - 1])
  }

  /** The one kind of step that puts the index out of order. */
  predicate Breaks(r: Repository, a: UserAction) {
    a.SetUserCertificate? && BreaksIndex(r, a.name, a.fingerprint)
  }

  lemma PerformKeepsInverseExactly(r: Repository, a: UserAction)
    requires Inverse(r)
    ensures Inverse(Perform(r, a)) <==> !Breaks(r, a)
  {
    hide Trim, Inverse, BreaksIndex;
    match a
    case DeclareUser(d, uuid, now) => DeclareKeepsInverse(r, d, uuid, now);
    case SetUserCertificate(name, pem, fingerprint, now) =>
      SetCertificateKeepsInverseExactly(r, name, pem, fingerprint, now);
    case UpdateUser(name, profile, entityBIC, now) => UpdateKeepsInverse(r, name, profile, entityBIC, now);
    case DeleteUser(name) => DeleteKeepsInverse(r, name);
  }

  /** Before step `k` of a run. */
  function Before(actions: seq<UserAction>, k: nat): Repository
    requires k <= |actions|
  {
    PerformAll(actions[..k])
  }

  lemma StepOfRun(actions: seq<UserAction>, k: nat)
    requires k < |actions|
    ensures Before(actions, k + 1) == Perform(Before(actions, k), actions[k])
  {
    assert actions[..k + 1][..k] == actions[..k];
  }

  /**
   * The index is an exact inverse throughout a run, whatever the names and fingerprints, if and only
   * if no step of it sets an empty fingerprint or the nameless user's.
   */
  lemma {:induction false} IndexIsInverseExactly(actions: seq<UserAction>, n: nat)
    requires n <= |actions|
    ensures (forall k :: 0 <= k <= n ==> Inverse(Before(actions, k)))
      <==> (forall k :: 0 <= k < n ==> !Breaks(Before(actions, k), actions[k]))
  {
    hide Inverse, Breaks, Perform, PerformAll, Before;
    if n == 0 {
      NobodyIsInverse(actions);
    } else {
      IndexIsInverseExactly(actions, n - 1);
      StepOfRun(actions, n - 1);
      if Inverse(Before(actions, n - 1)) {
        PerformKeepsInverseExactly(Before(actions, n - 1), actions[n - 1]);
      }
    }
  }

  lemma NobodyIsInverse(actions: seq<UserAction>)
    ensures Inverse(Before(actions, 0))
  {
    assert actions[..0] == [];
  }

  lemma {:induction false} NobodyIsNameless(actions: seq<UserAction>)
    requires forall i :: 0 <= i < |actions| ==> Admissible(actions[i])
    ensures "" !in PerformAll(actions).users.entries
  {
    hide Trim;
    if actions == [] {
    } else {
      NobodyIsNameless(actions[..|actions| - 1]);
    }
  }

  /** So it is after any run whose names and fingerprints are not empty. */
  lemma {:induction false} IndexIsInverse(actions: seq<UserAction>)
    requires forall i :: 0 <= i < |actions| ==> Admissible(actions[i])
    ensures Inverse(PerformAll(actions))
  {
    if actions == [] {
    } else {
      var front, a := actions[..|actions| - 1], actions[|actions| - 1];
      IndexIsInverse(front);
      NobodyIsNameless(front);
      if a.SetUserCertificate? && a.fingerprint in PerformAll(front).index {
        assert EntrySound(PerformAll(front), a.fingerprint);
      }
      PerformKeepsInverseExactly(PerformAll(front), a);
    }
  }

  /** So a fingerprint leads to a user exactly when the user carries it; two users never share one. */
  lemma FingerprintsAreUnique(actions: seq<UserAction>, f: string, x: string)
    requires forall i :: 0 <= i < |actions| ==> Admissible(actions[i])
    ensures var r := PerformAll(actions);
      r.Mapped(f) == Some(x) <==> f != "" && x in r.users.entries && r.users.entries[x].fingerprint == f
  {
    IndexIsInverse(actions);
    var r := PerformAll(actions);
    if x in r.users.entries { assert UserSound(r, x); }
    if f in r.index { assert EntrySound(r, f); }
  }

  /** The names matter: a user without one does not keep its fingerprint to itself. */
  lemma EmptyNameSharesItsFingerprint()
    ensures exists actions, x, y ::
      && x != y && x in PerformAll(actions).users.entries && y in PerformAll(actions).users.entries
      && PerformAll(actions).users.entries[x].fingerprint == PerformAll(actions).users.entries[y].fingerprint == "F"
  {
    var a0, a1 := DeclareUser(Declaration("", "P", "B"), "u", 0), DeclareUser(Declaration("a", "P", "B"), "v", 0);
    var a2, a3 := SetUserCertificate("", "PEM", "F", 0), SetUserCertificate("a", "PEM", "F", 0);
    var r0 := Perform(NoUsers, a0);
    var r1 := Perform(r0, a1);
    var r2 := Perform(r1, a2);
    var actions := [a0, a1, a2, a3];
    assert actions[..3] == [a0, a1, a2] && [a0, a1, a2][..2] == [a0, a1] && [a0, a1][..1] == [a0] && [a0][..0] == [];
    assert PerformAll([]) == NoUsers;
    assert PerformAll([a0]) == r0;
    assert PerformAll([a0, a1]) == r1;
    assert PerformAll([a0, a1, a2]) == r2;
    assert PerformAll(actions) == Perform(r2, a3);
    assert Trim("") == "" && Trim("a") == "a";
    var r := PerformAll(actions);
    assert r.users.entries[""].fingerprint == r.users.entries["a"].fingerprint == "F";
  }

  // ----- restore -----

  /** What restoring one persisted user does: nothing at all is kept of a step that throws. */
  function RestoreOne(r: Repository, user: User, uuid: string, now: int): Change {
    var declared := Declare(r, Declaration(user.username, user.profile, user.entityBIC), uuid, now);
    if declared.result.Failure? then declared
    else if user.certificatePem != "" && user.fingerprint != "" then
      SetCertificate(declared.repository, user.username, user.certificatePem, user.fingerprint, now)
    else declared
  }

  /** The replay loop on load; a user whose restore throws is skipped. */
  function Restore(users: seq<User>, uuids: seq<string>, now: int): Repository
    requires |uuids| == |users|
  {
    if users == [] then NoUsers
    else
      var n := |users| - 1;
      RestoreOne(Restore(users[..n], uuids[..n], now), users[n], uuids[n], now).repository
  }

  /** A certificate and its fingerprint come together. */
  predicate Certified(user: User) {
    user.fingerprint != "" <==> user.certificatePem != ""
  }

  ghost predicate AllCertified(r: Repository) {
    forall name :: name in r.users.entries ==> Certified(r.users.entries[name])
  }

  /** The same user in all but the uuid and the timestamps, which are minted again. */
  function Reborn(user: User, uuid: string, now: int): User {
    user.(uuid := uuid, createdAt := now, updatedAt := now)
  }

  /** The user as the replay makes it: half a certificate is not set. */
  function Replayed(user: User, uuid: string, now: int): User {
    if user.certificatePem != "" && user.fingerprint != "" then Reborn(user, uuid, now)
    else Reborn(user, uuid, now).(certificatePem := "", fingerprint := "")
  }

  /** The repository once the first `n` users are back. */
  ghost predicate RestoredTo(r: Repository, uuids: seq<string>, now: int, n: nat, back: Repository)
    requires r.users.Valid() && n <= |r.users.order| == |uuids|
  {
    && back.users.order == r.users.order[..n]
    && (forall k :: k in back.users.entries <==> k in r.users.order[..n])
    && (forall i :: 0 <= i < n ==>
          back.users.entries[r.users.order[i]] == Replayed(r.users.entries[r.users.order[i]], uuids[i], now))
    && IndexRestored(r, n, back)
  }

  /** The bindings that are back, and those still or for ever missing. */
  ghost predicate IndexRestored(r: Repository, n: nat, back: Repository)
    requires n <= |r.users.order|
  {
    && (forall f :: f in back.index ==> f in r.index && back.index[f] == r.index[f])
    && (forall f :: f in r.index && r.index[f] in r.users.order[..n] && BindsCertified(r, f) ==> f in back.index)
  }

  predicate BindsCertified(r: Repository, f: string)
    requires f in r.index
  {
    r.index[f] in r.users.entries && Certified(r.users.entries[r.index[f]])
  }

  lemma NextInOrder(r: Repository, n: nat)
    requires r.users.Valid() && n < |r.users.order|
    ensures r.users.order[n] !in r.users.order[..n] && r.users.order[n] in r.users.entries
    ensures r.users.order[..n + 1] == r.users.order[..n] + [r.users.order[n]]
  {
    assert r.users.order[n] in r.users.order;
  }

  /** What one restored user adds, when the fingerprint it brings is its own in `r`. */
  lemma RestoreOneAdds(r: Repository, user: User, uuid: string, now: int, back: Repository)
    requires Inverse(r) && user.username in r.users.entries && user == r.users.entries[user.username]
    requires user.username !in back.users.entries
    requires forall f :: f in back.index ==> f in r.index && back.index[f] == r.index[f]
    ensures var c := RestoreOne(back, user, uuid, now);
      && c.result.Success?
      && c.repository.users == back.users.Set(user.username, Replayed(user, uuid, now))
      && c.repository.index == IndexWith(back.index, user)
  {
    hide Trim;
    assert UserSound(r, user.username);
    assert user == r.users.entries[user.username];
  }

  function IndexWith(index: map<string, string>, user: User): map<string, string> {
    if user.certificatePem != "" && user.fingerprint != "" then index[user.fingerprint := user.username] else index
  }

  /** Restoring the next user of a snapshot never throws. */
  lemma RestoreNext(r: Repository, uuids: seq<string>, now: int, n: nat, back: Repository)
    requires Inverse(r) && n < |r.users.order| == |uuids| && RestoredTo(r, uuids, now, n, back)
    requires r.users.order[n] in r.users.entries
    ensures var c := RestoreOne(back, r.users.entries[r.users.order[n]], uuids[n], now);
      c.result.Success? && RestoredTo(r, uuids, now, n + 1, c.repository)
  {
    hide RestoreOne, Replayed, IndexWith, IndexRestored;
    var name := r.users.order[n];
    var user := r.users.entries[name];
    NextInOrder(r, n);
    assert UserSound(r, name);
    BackIsPartOf(r, uuids, now, n, back);
    RestoreOneAdds(r, user, uuids[n], now, back);
    var next := RestoreOne(back, user, uuids[n], now).repository;
    UsersAdded(r, uuids, now, n, back, next);
    IndexAdded(r, n, back, next);
  }

  lemma BackIsPartOf(r: Repository, uuids: seq<string>, now: int, n: nat, back: Repository)
    requires r.users.Valid() && n <= |r.users.order| == |uuids| && RestoredTo(r, uuids, now, n, back)
    ensures forall f :: f in back.index ==> f in r.index && back.index[f] == r.index[f]
  {
  }

  lemma UsersAdded(r: Repository, uuids: seq<string>, now: int, n: nat, back: Repository, next: Repository)
    requires Inverse(r) && n < |r.users.order| == |uuids| && RestoredTo(r, uuids, now, n, back)
    requires r.users.order[n] in r.users.entries
    requires next.users == back.users.Set(r.users.order[n], Replayed(r.users.entries[r.users.order[n]], uuids[n], now))
    ensures next.users.order == r.users.order[..n + 1]
    ensures forall k :: k in next.users.entries <==> k in r.users.order[..n + 1]
    ensures forall i :: 0 <= i < n + 1 ==>
      next.users.entries[r.users.order[i]] == Replayed(r.users.entries[r.users.order[i]], uuids[i], now)
  {
    hide Replayed, IndexRestored;
    NextInOrder(r, n);
    forall i | 0 <= i < n
      ensures next.users.entries[r.users.order[i]] == Replayed(r.users.entries[r.users.order[i]], uuids[i], now)
    {
      assert r.users.order[i] in r.users.order[..n];
    }
  }

  lemma IndexAdded(r: Repository, n: nat, back: Repository, next: Repository)
    requires Inverse(r) && n < |r.users.order| && r.users.order[n] in r.users.entries && IndexRestored(r, n, back)
    requires next.index == IndexWith(back.index, r.users.entries[r.users.order[n]])
    ensures IndexRestored(r, n + 1, next)
  {
    NextInOrder(r, n);
    assert UserSound(r, r.users.order[n]);
    forall f | f in r.index && r.index[f] in r.users.order[..n + 1] && BindsCertified(r, f) ensures f in next.index {
      assert EntrySound(r, f);
    }
  }

  lemma {:induction false} RestoreReproducesPrefix(r: Repository, uuids: seq<string>, now: int, n: nat)
    requires Inverse(r) && n <= |r.users.order| == |uuids|
    ensures RestoredTo(r, uuids, now, n, Restore(r.users.Values()[..n], uuids[..n], now))
  {
    hide RestoreOne, RestoredTo;
    var users := r.users.Values();
    if n == 0 {
      NothingRestored(r, uuids, now);
    } else {
      RestoreReproducesPrefix(r, uuids, now, n - 1);
      assert users[..n][..n - 1] == users[..n - 1] && uuids[..n][..n - 1] == uuids[..n - 1];
      NextInOrder(r, n - 1);
      RestoreNext(r, uuids, now, n - 1, Restore(users[..n - 1], uuids[..n - 1], now));
    }
  }

  lemma NothingRestored(r: Repository, uuids: seq<string>, now: int)
    requires r.users.Valid() && |r.users.order| == |uuids|
    ensures RestoredTo(r, uuids, now, 0, NoUsers)
  {
  }

  /** The repository as restored: the same bindings, and users that differ in uuid and timestamps only. */
  ghost predicate Reproduces(r: Repository, uuids: seq<string>, now: int, back: Repository)
    requires r.users.Valid() && |uuids| == |r.users.order|
  {
    && back.index == r.index && back.users.order == r.users.order
    && back.users.entries.Keys == r.users.entries.Keys
    && (forall i :: 0 <= i < |uuids| ==>
          back.users.entries[r.users.order[i]] == Reborn(r.users.entries[r.users.order[i]], uuids[i], now))
  }

  lemma AllRestored(r: Repository, uuids: seq<string>, now: int, back: Repository)
    requires Inverse(r) && AllCertified(r)
    requires |uuids| == |r.users.order| && RestoredTo(r, uuids, now, |uuids|, back)
    ensures Reproduces(r, uuids, now, back)
  {
    assert r.users.order[..|uuids|] == r.users.order;
    forall i | 0 <= i < |uuids|
      ensures back.users.entries[r.users.order[i]] == Reborn(r.users.entries[r.users.order[i]], uuids[i], now)
    {
      assert r.users.order[i] in r.users.entries && Certified(r.users.entries[r.users.order[i]]);
    }
    forall f | f in r.index ensures f in back.index {
      assert EntrySound(r, f) && BindsCertified(r, f);
    }
    assert back.index == r.index;
  }

  lemma HalfACertificateIsLost(r: Repository, uuids: seq<string>, now: int, back: Repository, name: string)
    requires Inverse(r) && |uuids| == |r.users.order| && RestoredTo(r, uuids, now, |uuids|, back)
    requires name in r.users.entries && !Certified(r.users.entries[name])
    ensures !Reproduces(r, uuids, now, back)
  {
    var i :| 0 <= i < |r.users.order| && r.users.order[i] == name;
    assert back.users.entries[name] == Replayed(r.users.entries[name], uuids[i], now);
  }

  /**
   * Replaying the snapshot of a repository whose index is in order reproduces every username, profile,
   * entity, certificate and binding, in the same order and with nothing new but uuids and timestamps,
   * if and only if no user has half a certificate.
   */
  lemma RestoreReproducesExactly(r: Repository, uuids: seq<string>, now: int)
    requires Inverse(r) && |uuids| == |r.users.order|
    ensures Reproduces(r, uuids, now, Restore(r.users.Values(), uuids, now)) <==> AllCertified(r)
  {
    hide RestoredTo, Restore, Reproduces;
    var n := |uuids|;
    RestoreReproducesPrefix(r, uuids, now, n);
    assert r.users.Values()[..n] == r.users.Values() && uuids[..n] == uuids;
    var back := Restore(r.users.Values(), uuids, now);
    if AllCertified(r) {
      AllRestored(r, uuids, now, back);
    } else {
      var name :| name in r.users.entries && !Certified(r.users.entries[name]);
      HalfACertificateIsLost(r, uuids, now, back, name);
    }
  }

  /** No certificate is set without its text. */
  predicate WithText(a: UserAction) {
    a.SetUserCertificate? ==> a.pem != ""
  }

  lemma {:induction false} CertificatesStay(actions: seq<UserAction>)
    requires forall i :: 0 <= i < |actions| ==> Admissible(actions[i]) && WithText(actions[i])
    ensures AllCertified(PerformAll(actions))
  {
    hide Trim;
    if actions == [] {
    } else {
      CertificatesStay(actions[..|actions| - 1]);
    }
  }

  /** So it does after any run of operations, if no certificate is set without its text. */
  lemma RestoreReproduces(actions: seq<UserAction>, uuids: seq<string>, now: int)
    requires forall i :: 0 <= i < |actions| ==> Admissible(actions[i])
    requires |uuids| == |PerformAll(actions).users.order|
    ensures var r := PerformAll(actions);
      && r.users.Valid()
      && (Reproduces(r, uuids, now, Restore(r.users.Values(), uuids, now)) <==> AllCertified(r))
      && ((forall i :: 0 <= i < |actions| ==> WithText(actions[i])) ==> AllCertified(r))
  {
    hide Restore, Reproduces, PerformAll, AllCertified;
    IndexIsInverse(actions);
    RestoreReproducesExactly(PerformAll(actions), uuids, now);
    if forall i :: 0 <= i < |actions| ==> WithText(actions[i]) { CertificatesStay(actions); }
  }

  /** A certificate without its text: the fingerprint is bound, and after a restart it is not. */
  lemma EmptyCertificateIsLost()
    ensures exists actions: seq<UserAction> ::
      && (forall i :: 0 <= i < |actions| ==> Admissible(actions[i])) && |PerformAll(actions).users.order| == 1
      && PerformAll(actions).users.Valid() && PerformAll(actions).Mapped("F") == Some("a")
      && !Reproduces(PerformAll(actions), ["u"], 0, Restore(PerformAll(actions).users.Values(), ["u"], 0))
  {
    hide Perform, PerformAll, Restore, Reproduces, Trim;
    var actions := BindWithoutText();
    RestoreReproduces(actions, ["u"], 0);
    assert !AllCertified(PerformAll(actions));
  }

  lemma BindWithoutText() returns (actions: seq<UserAction>)
    ensures forall i :: 0 <= i < |actions| ==> Admissible(actions[i])
    ensures var r := PerformAll(actions);
      && r.users.order == ["a"] && r.Mapped("F") == Some("a")
      && "a" in r.users.entries && !Certified(r.users.entries["a"])
  {
    var a0, a1 := DeclareUser(Declaration("a", "P", "B"), "v", 0), SetUserCertificate("a", "", "F", 0);
    actions := [a0, a1];
    assert actions[..1] == [a0] && [a0][..0] == [];
    assert PerformAll([]) == NoUsers && PerformAll([a0]) == Perform(NoUsers, a0);
    assert PerformAll(actions) == Perform(PerformAll([a0]), a1);
    assert Trim("a") == "a";
  }
}
