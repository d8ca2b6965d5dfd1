/** Several Instances writing the retention of the ObjectStores they share: a refusal rule in
    place of a lock. */
module RetentionProtocol {
  import opened Common
  import opened Instances
  import opened Retention

  /** An Instance that this provider reconciles and that uses backups. */
  predicate Live(i: Instance, provider: string) {
    !i.deleting && i.provider == provider && i.backup.Some? && i.backup.value.enabled
  }

  /** The BackupClass allows one storage per Instance, so a name occurs once. */
  predicate UniqueStorages(i: Instance) {
    forall j, k | 0 <= j < k < |Storages(i)| :: Storages(i)[j].name != Storages(i)[k].name
  }

  predicate WellFormed(instances: seq<Instance>) {
    && (forall i, j | 0 <= i < j < |instances| :: instances[i].name != instances[j].name)
    && (forall i | i in instances :: UniqueStorages(i))
  }

  /** The Instance i asks for retention p on the storage. */
  predicate Wants(i: Instance, storage: string, p: string) {
    exists st | st in Storages(i) :: st.name == storage && Policy(st) == Ok(p)
  }

  lemma WantsOnePolicy(i: Instance, storage: string, p: string, q: string)
    requires UniqueStorages(i) && Wants(i, storage, p) && Wants(i, storage, q)
    ensures p == q
  {
  }

  /** One write: a store is created or changed only if no live peer of the writer wants
      anything else. This holds for every step of every run, whatever is edited in between. */
  lemma OnlyUndisputedWritesChange(
    instances: seq<Instance>, policies: map<string, string>, self: Instance, access: map<string, StorageAccess>,
    provider: string, st: Storage, peer: Instance, p: string)
    requires Live(self, provider) && Blocker(instances, policies, self, access, st).None?
    requires peer in instances && Live(peer, provider) && peer.name != self.name && Wants(peer, st.name, p)
    ensures Policy(st) == Ok(p) || (st.name in policies && policies[st.name] == Policy(st).value)
  {
  }

  // ---- Disagreement ----

  /** Two live Instances ask for different retention on the storage. */
  predicate Disputed(instances: seq<Instance>, provider: string, storage: string, a: Instance, p: string, b: Instance,
                     q: string) {
    && a in instances && Live(a, provider) && Wants(a, storage, p)
    && b in instances && Live(b, provider) && Wants(b, storage, q)
    && p != q
  }

  predicate Same(policies: map<string, string>, policies': map<string, string>, storage: string) {
    (storage in policies <==> storage in policies') && (storage in policies ==> policies[storage] == policies'[storage])
  }

  lemma {:induction false} DisputedReconcileKeepsPolicy(
    instances: seq<Instance>, policies: map<string, string>, self: Instance, access: map<string, StorageAccess>, i: nat,
    provider: string, storage: string, a: Instance, p: string, b: Instance, q: string)
    requires WellFormed(instances) && Disputed(instances, provider, storage, a, p, b, q)
    requires self in instances && Live(self, provider) && i <= |Storages(self)|
    ensures Same(policies, ApplyFrom(instances, policies, self, access, Storages(self), i).0, storage)
    decreases |Storages(self)| - i
  {
    if i < |Storages(self)| && Blocker(instances, policies, self, access, Storages(self)[i]).None? {
      var st := Storages(self)[i];
      var policies' := policies[st.name := Policy(st).value];
      if st.name == storage {
        assert Wants(self, storage, Policy(st).value);
        if a.name == self.name { WantsOnePolicy(self, storage, p, Policy(st).value); }
        if b.name == self.name { WantsOnePolicy(self, storage, q, Policy(st).value); }
        if a.name != self.name { OnlyUndisputedWritesChange(instances, policies, self, access, provider, st, a, p); }
        if b.name != self.name { OnlyUndisputedWritesChange(instances, policies, self, access, provider, st, b, q); }
      }
      assert Same(policies, policies', storage);
      DisputedReconcileKeepsPolicy(instances, policies', self, access, i + 1, provider, storage, a, p, b, q);
    }
  }

  // ---- Runs of reconciles ----

  /** One reconcile: of which Instance, and what its storages resolve to at that time. */
  datatype Turn = Turn(index: nat, access: map<string, StorageAccess>)

  predicate Playable(instances: seq<Instance>, provider: string, run: seq<Turn>) {
    forall t | t in run :: t.index < |instances| && Live(instances[t.index], provider)
  }

  function Played(instances: seq<Instance>, policies: map<string, string>, run: seq<Turn>, provider: string)
    : map<string, string>
    requires Playable(instances, provider, run)
    decreases |run|
  {
    if run == [] then policies
    else
      assert run[0] in run;
      Played(instances, Reconciled(instances, policies, instances[run[0].index], run[0].access).0, run[1..], provider)
  }

  /** While two live Instances disagree on a storage, no sequence of reconciles of any of the
      Instances creates its ObjectStore or changes the stored policy, and an Instance that
      wants what is stored is never refused. */
  lemma {:induction false} DisputedPolicyIsFrozen(
    instances: seq<Instance>, policies: map<string, string>, run: seq<Turn>, provider: string,
    storage: string, a: Instance, p: string, b: Instance, q: string)
    requires WellFormed(instances) && Playable(instances, provider, run)
    requires Disputed(instances, provider, storage, a, p, b, q)
    ensures
      var after := Played(instances, policies, run, provider);
      && Same(policies, after, storage)
      && (storage in policies ==> forall self :: !Refused(instances, after, self, storage, policies[storage]))
    decreases |run|
  {
    if run != [] {
      var self := instances[run[0].index];
      assert run[0] in run;
      DisputedReconcileKeepsPolicy(instances, policies, self, run[0].access, 0, provider, storage, a, p, b, q);
      DisputedPolicyIsFrozen(instances, Reconciled(instances, policies, self, run[0].access).0, run[1..], provider,
        storage, a, p, b, q);
    }
  }

  /** Why names must be unique inside an Instance: one that lists the storage twice, first with
      what is stored and then with what its peer wants, overwrites the disputed policy. */
  lemma DuplicateStorageOverwrites(
    policies: map<string, string>, self: Instance, peer: Instance, access: map<string, StorageAccess>,
    provider: string, p: string, q: string)
    requires Live(self, provider) && Live(peer, provider) && self.name != peer.name && p != q
    requires |Storages(self)| == 2 && |Storages(peer)| == 1
    requires var s := Storages(peer)[0].name;
             Storages(self)[0].name == s && Storages(self)[1].name == s && AccessError(access, s).None?
             && Policy(Storages(self)[0]) == Ok(p) && Policy(Storages(self)[1]) == Ok(q)
             && Policy(Storages(peer)[0]) == Ok(q)
             && s in policies && policies[s] == p
    ensures
      var s := Storages(peer)[0].name;
      && Disputed([self, peer], provider, s, self, p, peer, q)
      && s in Reconciled([self, peer], policies, self, access).0
      && Reconciled([self, peer], policies, self, access).0[s] == q
  {
    var s := Storages(peer)[0].name;
    var first, second := Storages(self)[0], Storages(self)[1];
    assert first in Storages(self) && Storages(peer)[0] in Storages(peer);
    assert self in [self, peer] && peer in [self, peer];
    assert policies[s := p] == policies;
    assert Blocker([self, peer], policies, self, access, first).None?;
    assert !Conflicted([self, peer], self, s, q);
    assert Blocker([self, peer], policies, self, access, second).None?;
    assert ApplyFrom([self, peer], policies, self, access, Storages(self), 1).0
           == ApplyFrom([self, peer], policies[s := q], self, access, Storages(self), 2).0;
  }

  // ---- Agreement ----

  /** Every live Instance that uses the storage with valid schedules wants p. */
  predicate Agreed(instances: seq<Instance>, provider: string, storage: string, p: string) {
    forall i, st | i in instances && Live(i, provider) && st in Storages(i) && st.name == storage && Policy(st).Ok? ::
      Policy(st).value == p
  }

  lemma {:induction false} AgreedReconcile(
    instances: seq<Instance>, policies: map<string, string>, self: Instance, access: map<string, StorageAccess>, i: nat,
    provider: string, storage: string, p: string)
    requires Agreed(instances, provider, storage, p) && self in instances && Live(self, provider)
        && i <= |Storages(self)|
    ensures
      var (after, error) := ApplyFrom(instances, policies, self, access, Storages(self), i);
      && (storage in policies && policies[storage] == p ==> storage in after && after[storage] == p)
      && (error.None? && (exists k | i <= k < |Storages(self)| :: Storages(self)[k].name == storage) ==>
            storage in after && after[storage] == p)
      && error != Some(RetentionConflict(storage))
    decreases |Storages(self)| - i
  {
    if i < |Storages(self)| {
      var st := Storages(self)[i];
      if Blocker(instances, policies, self, access, st).None? {
        AgreedReconcile(instances, policies[st.name := Policy(st).value], self, access, i + 1, provider, storage, p);
      } else if st.name == storage && Policy(st).Ok? {
        assert !Conflicted(instances, self, storage, p) by {
          forall peer | peer in instances ensures !Conflicts(self, peer, storage, p) {
            if Peer(self, peer) { assert Live(peer, provider) && Storages(peer) == peer.backup.value.storages; }
          }
        }
      }
    }
  }

  lemma {:induction false} AgreedPolicyStays(
    instances: seq<Instance>, policies: map<string, string>, run: seq<Turn>, provider: string, storage: string,
      p: string)
    requires Playable(instances, provider, run) && Agreed(instances, provider, storage, p)
    requires storage in policies && policies[storage] == p
    ensures var after := Played(instances, policies, run, provider); storage in after && after[storage] == p
    decreases |run|
  {
    if run != [] {
      var self := instances[run[0].index];
      assert run[0] in run;
      AgreedReconcile(instances, policies, self, run[0].access, 0, provider, storage, p);
      AgreedPolicyStays(instances, Reconciled(instances, policies, self, run[0].access).0, run[1..], provider,
        storage, p);
    }
  }

  /** When the live Instances agree on p, one successful reconcile of any of them that uses the
      storage stores p; p then stays through every run, and no reconcile is ever refused for
      the storage. */
  lemma AgreementSettles(
    instances: seq<Instance>, policies: map<string, string>, first: Turn, run: seq<Turn>, later: Turn,
    provider: string, storage: string, p: string)
    requires Playable(instances, provider, [first] + run + [later]) && Agreed(instances, provider, storage, p)
    requires Reconciled(instances, policies, instances[first.index], first.access).1.None?
    requires exists st | st in Storages(instances[first.index]) :: st.name == storage
    ensures
      Playable(instances, provider, run) &&
      var stored := Reconciled(instances, policies, instances[first.index], first.access).0;
      var after := Played(instances, stored, run, provider);
      && storage in stored && stored[storage] == p
      && storage in after && after[storage] == p
      && Reconciled(instances, after, instances[later.index], later.access).1 != Some(RetentionConflict(storage))
  {
    var turns := [first] + run + [later];
    assert turns[0] == first && turns[|turns| - 1] == later;
    forall t | t in run ensures t in turns { }
    var self := instances[first.index];
    AgreedReconcile(instances, policies, self, first.access, 0, provider, storage, p);
    var stored := Reconciled(instances, policies, self, first.access).0;
    AgreedPolicyStays(instances, stored, run, provider, storage, p);
    AgreedReconcile(instances, Played(instances, stored, run, provider), instances[later.index], later.access, 0,
      provider, storage, p);
  }

  // ---- When a reconcile succeeds ----

  /** The BackupStorage exists, is S3, and has complete credentials and a usable CA. */
  predicate Usable(access: map<string, StorageAccess>, storage: string) {
    storage in access && access[storage].s3 == Some(S3Access(Complete, CAFine))
  }

  /** Each error of the access is given exactly in its case. */
  lemma AccessFailsExactly(access: map<string, StorageAccess>, s: string)
    ensures
      var error := AccessError(access, s);
      var s3 := if s in access then access[s].s3 else None;
      && (error.None? <==> Usable(access, s))
      && (error == Some(WaitForStorage(s)) <==> s !in access)
      && (error == Some(UnsupportedStorage(s)) <==> s in access && s3.None?)
      && (error == Some(WaitForCredentials(s)) <==> s3.Some? && s3.value.credentials == NoSecret)
      && (error == Some(CredentialsUnavailable(s)) <==> s3.Some? && s3.value.credentials == Unavailable)
      && (error == Some(CredentialsIncomplete(s)) <==> s3.Some? && s3.value.credentials == Incomplete)
      && (error == Some(EndpointCAUnreadable(s)) <==> s3 == Some(S3Access(Complete, CAUnreadable)))
      && (error == Some(EndpointCAInvalid(s)) <==> s3 == Some(S3Access(Complete, CAInvalid)))
  {
  }

  /** st can be written: it is usable, its schedules agree, and no live peer disagrees unless
      this is what is stored. */
  predicate Writable(instances: seq<Instance>, policies: map<string, string>, self: Instance,
                     access: map<string, StorageAccess>, st: Storage)
  {
    Usable(access, st.name) && Policy(st).Ok? && !Refused(instances, policies, self, st.name, Policy(st).value)
  }

  predicate NotFrom(self: Instance, i: nat, name: string) {
    forall k | i <= k < |Storages(self)| :: Storages(self)[k].name != name
  }

  lemma {:induction false} OthersStay(
    instances: seq<Instance>, now: map<string, string>, self: Instance, access: map<string, StorageAccess>,
    i: nat, name: string)
    requires i <= |Storages(self)| && NotFrom(self, i, name)
    ensures Same(now, ApplyFrom(instances, now, self, access, Storages(self), i).0, name)
    decreases |Storages(self)| - i
  {
    if i < |Storages(self)| && Blocker(instances, now, self, access, Storages(self)[i]).None? {
      var st := Storages(self)[i];
      OthersStay(instances, now[st.name := Policy(st).value], self, access, i + 1, name);
    }
  }

  lemma {:induction false} ApplyFromSucceeds(
    instances: seq<Instance>, policies: map<string, string>, self: Instance, access: map<string, StorageAccess>,
    i: nat, now: map<string, string>)
    requires UniqueStorages(self) && i <= |Storages(self)|
    requires forall k | i <= k < |Storages(self)| :: Same(policies, now, Storages(self)[k].name)
    ensures
      var (after, error) := ApplyFrom(instances, now, self, access, Storages(self), i);
      && (error.None? <==>
            forall k | i <= k < |Storages(self)| :: Writable(instances, policies, self, access, Storages(self)[k]))
      && (error.None? ==>
            forall k | i <= k < |Storages(self)| ::
              var st := Storages(self)[k]; st.name in after && Policy(st) == Ok(after[st.name]))
    decreases |Storages(self)| - i
  {
    if i < |Storages(self)| {
      var st := Storages(self)[i];
      AccessFailsExactly(access, st.name);
      assert Refused(instances, now, self, st.name, if Policy(st).Ok? then Policy(st).value else "")
        <==> Refused(instances, policies, self, st.name, if Policy(st).Ok? then Policy(st).value else "");
      if Blocker(instances, now, self, access, st).None? {
        var next := now[st.name := Policy(st).value];
        ApplyFromSucceeds(instances, policies, self, access, i + 1, next);
        assert NotFrom(self, i + 1, st.name);
        OthersStay(instances, next, self, access, i + 1, st.name);
      }
    }
  }

  /** A reconcile succeeds exactly if every storage of the Instance can be written; then each has
      the policy its schedules ask for. Stores of other names never change. */
  lemma ReconcileSucceedsExactly(
    instances: seq<Instance>, policies: map<string, string>, self: Instance, access: map<string, StorageAccess>)
    requires UniqueStorages(self)
    ensures
      var (after, error) := Reconciled(instances, policies, self, access);
      && (error.None? <==>
            forall k | 0 <= k < |Storages(self)| :: Writable(instances, policies, self, access, Storages(self)[k]))
      && (error.None? ==>
            forall k | 0 <= k < |Storages(self)| ::
              var st := Storages(self)[k]; st.name in after && Policy(st) == Ok(after[st.name]))
      && (forall name | NotFrom(self, 0, name) :: Same(policies, after, name))
  {
    ApplyFromSucceeds(instances, policies, self, access, 0, policies);
    forall name | NotFrom(self, 0, name) ensures Same(policies, Reconciled(instances, policies, self, access).0, name) {
      OthersStay(instances, policies, self, access, 0, name);
    }
  }

  /** An Instance whose backups are off, or that names no storage, writes nothing, and nothing
      stops it. */
  lemma WithoutBackupsNothingIsWritten(
    instances: seq<Instance>, policies: map<string, string>, self: Instance, access: map<string, StorageAccess>)
    requires self.backup.Some? && self.backup.value.enabled ==> self.backup.value.storages == []
    ensures Reconciled(instances, policies, self, access) == (policies, None)
  {
  }
}
