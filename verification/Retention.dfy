/** Retention of a shared ObjectStore: storageRetentionPolicy in
    internal/cnpg/barman/schedule.go, checkSharedRetention and SyncBackupInfrastructure in
    internal/cnpg/barman/backup.go. */
module Retention {
  import opened Common
  import opened Instances
  import opened Regexes
  import Backups

  // ---- The policy of one storage ----

  /** The regular expression ^[1-9][0-9]*[dwm]$. */
  predicate IsDuration(s: string) {
    && |s| >= 2 && '1' <= s[0] <= '9' && s[|s| - 1] in {'d', 'w', 'm'}
    && forall i | 0 < i < |s| - 1 :: IsDigit(s[i])
  }

  datatype RetentionError =
    | NotTimeRetention(schedule: string)
    | InvalidDuration(schedule: string, duration: string)
    | MixedRetention(storage: string)

  /** What one schedule asks for; "" keeps everything. */
  function Duration(s: Schedule): Result<string, RetentionError> {
    if s.retention.None? then Ok("")
    else if !s.retention.value.kind.Time? then Err(NotTimeRetention(s.name))
    else if !IsDuration(s.retention.value.duration) then Err(InvalidDuration(s.name, s.retention.value.duration))
    else Ok(s.retention.value.duration)
  }

  /** The policy of the schedules from i on, when those before i agreed on policy. */
  function PolicyFrom(st: Storage, i: nat, policy: string): Result<string, RetentionError>
    requires i <= |st.schedules|
    decreases |st.schedules| - i
  {
    if i == |st.schedules| then Ok(policy)
    else
      match Duration(st.schedules[i])
      case Err(error) => Err(error)
      case Ok(duration) =>
        if i > 0 && duration != policy then Err(MixedRetention(st.name)) else PolicyFrom(st, i + 1, duration)
  }

  function Policy(st: Storage): Result<string, RetentionError> {
    PolicyFrom(st, 0, "")
  }

  method StorageRetentionPolicy(st: Storage) returns (r: Result<string, RetentionError>)
    ensures r == Policy(st)
  {
    var policy := "";
    for i := 0 to |st.schedules|
      invariant PolicyFrom(st, i, policy) == Policy(st)
    {
      var schedule := st.schedules[i];
      var duration := "";
      if schedule.retention.Some? {
        if !schedule.retention.value.kind.Time? {
          return Err(NotTimeRetention(schedule.name));
        }
        duration := schedule.retention.value.duration;
        if !IsDuration(duration) {
          return Err(InvalidDuration(schedule.name, duration));
        }
      }
      if i > 0 && duration != policy {
        return Err(MixedRetention(st.name));
      }
      policy := duration;
    }
    return Ok(policy);
  }

  lemma {:induction false} PolicyFromExactly(st: Storage, i: nat, policy: string, p: string)
    requires i <= |st.schedules|
    ensures PolicyFrom(st, i, policy) == Ok(p) <==>
            && (forall k | i <= k < |st.schedules| :: Duration(st.schedules[k]) == Ok(p))
            && (i == |st.schedules| || i > 0 ==> p == policy)
    decreases |st.schedules| - i
  {
    if i < |st.schedules| && Duration(st.schedules[i]).Ok? {
      PolicyFromExactly(st, i + 1, Duration(st.schedules[i]).value, p);
    }
  }

  // ---- Which retentions are valid ----

  const UNIT := Either(Range('d', 'd'), Either(Range('w', 'w'), Range('m', 'm')))

  /** [1-9][0-9]*[dwm] */
  const DURATION := Then(NONZERO, Then(Many(DIGIT), UNIT))

  lemma UnitIs(s: string)
    ensures Match(UNIT, s) <==> |s| == 1 && s[0] in {'d', 'w', 'm'}
  {
    var week, month := Range('w', 'w'), Range('m', 'm');
    assert Match(Either(week, month), s) <==> Match(week, s) || Match(month, s);
  }

  lemma DigitsThenUnit(s: string)
    ensures Match(Then(Many(DIGIT), UNIT), s) <==>
            Leading(s) == |s| - 1 && s[|s| - 1] in {'d', 'w', 'm'}
  {
    forall t | Match(UNIT, t) && t != "" ensures !IsDigit(t[0]) { UnitIs(t); }
    ManyThen(UNIT, s);
    UnitIs(s[Leading(s)..]);
  }

  lemma DurationIsTheRegex(s: string)
    ensures IsDuration(s) <==> Match(DURATION, s)
  {
    FirstOf('1', '9', Then(Many(DIGIT), UNIT), s);
    if s != "" {
      var t := s[1..];
      DigitsThenUnit(t);
      if Leading(t) == |t| - 1 { assert forall i | 0 < i < |s| - 1 :: s[i] == t[i - 1]; }
      if IsDuration(s) { LeadingUpTo(t, |t| - 1); }
    }
  }

  lemma {:induction false} LeadingUpTo(s: string, n: nat)
    requires n < |s| && !IsDigit(s[n]) && forall i | 0 <= i < n :: IsDigit(s[i])
    ensures Leading(s) == n
  {
    if n > 0 { LeadingUpTo(s[1..], n - 1); }
  }

  /** A schedule asks for p: to keep everything, or for a valid time. */
  predicate Asks(s: Schedule, p: string) {
    (s.retention.None? && p == "") || (s.retention == Some(Retention(Time, p)) && Match(DURATION, p))
  }

  lemma DurationIsWhatIsAsked(s: Schedule, p: string)
    ensures Duration(s) == Ok(p) <==> Asks(s, p)
  {
    DurationIsTheRegex(p);
  }

  /** A storage has the policy p exactly when every schedule, enabled or not, asks for p, by
      leaving out the retention or as a valid time; without schedules it keeps everything. */
  lemma PolicyIsCommonDuration(st: Storage, p: string)
    ensures Policy(st) == Ok(p) <==>
            && (forall s | s in st.schedules :: Asks(s, p))
            && (st.schedules == [] ==> p == "")
  {
    PolicyFromExactly(st, 0, "", p);
    forall s | s in st.schedules ensures Duration(s) == Ok(p) <==> Asks(s, p) {
      DurationIsWhatIsAsked(s, p);
    }
  }

  /** The error says what is wrong with the schedule i of st. */
  predicate Blames(st: Storage, i: nat, error: RetentionError)
    requires i < |st.schedules|
  {
    var s := st.schedules[i];
    match error
    case NotTimeRetention(name) => name == s.name && s.retention.Some? && s.retention.value.kind != Time
    case InvalidDuration(name, duration) =>
      name == s.name && s.retention == Some(Retention(Time, duration)) && !Match(DURATION, duration)
    case MixedRetention(name) =>
      && name == st.name && i > 0 && Asks(s, Wish(s)) && Wish(s) != Wish(st.schedules[i - 1])
  }

  function Wish(s: Schedule): string {
    if s.retention.None? then "" else s.retention.value.duration
  }

  /** The schedule i is the first that is wrong: those before it are valid and agree. */
  predicate FailsAt(st: Storage, i: nat, error: RetentionError)
    requires i < |st.schedules|
  {
    && Blames(st, i, error)
    && forall k | 0 <= k < i :: Asks(st.schedules[k], Wish(st.schedules[i - 1]))
  }

  lemma DurationFailsExactly(st: Storage, i: nat, error: RetentionError)
    requires i < |st.schedules|
    ensures Duration(st.schedules[i]) == Err(error) <==> !error.MixedRetention? && Blames(st, i, error)
    ensures Duration(st.schedules[i]).Ok? ==> Duration(st.schedules[i]) == Ok(Wish(st.schedules[i]))
  {
    DurationIsTheRegex(Wish(st.schedules[i]));
  }

  lemma {:induction false} PolicyFromFails(st: Storage, i: nat, policy: string, error: RetentionError)
    requires i <= |st.schedules| && policy == (if i == 0 then "" else Wish(st.schedules[i - 1]))
    requires forall k | 0 <= k < i :: Asks(st.schedules[k], policy)
    ensures PolicyFrom(st, i, policy) == Err(error) <==>
            exists k | i <= k < |st.schedules| :: FailsAt(st, k, error)
    decreases |st.schedules| - i
  {
    if i < |st.schedules| {
      var s := st.schedules[i];
      DurationFailsExactly(st, i, error);
      DurationIsWhatIsAsked(s, Wish(s));
      if Duration(s).Ok? && (i == 0 || Wish(s) == policy) {
        PolicyFromFails(st, i + 1, Wish(s), error);
      } else {
        var before := if i > 0 then st.schedules[i - 1] else s;
        assert FailsAt(st, i, error) <==> Blames(st, i, error);
        forall k | i < k < |st.schedules| ensures !FailsAt(st, k, error) {
          var p := Wish(st.schedules[k - 1]);
          assert FailsAt(st, k, error) ==> Asks(s, p) && Asks(before, p);
        }
      }
    }
  }

  /** Each error is given exactly when it blames the first schedule that is wrong. */
  lemma PolicyFailsExactly(st: Storage, error: RetentionError)
    ensures Policy(st) == Err(error) <==> exists i | 0 <= i < |st.schedules| :: FailsAt(st, i, error)
  {
    PolicyFromFails(st, 0, "", error);
  }

  /** What the schedules of a storage ask for, whatever their order and whether enabled. */
  function Retentions(st: Storage): set<Option<Retention>> {
    set s | s in st.schedules :: s.retention
  }

  /** The order of the schedules, and whether they are enabled, does not matter. */
  lemma PolicyIgnoresOrderAndEnabled(st: Storage, st': Storage)
    requires Retentions(st) == Retentions(st')
    ensures Policy(st).Ok? == Policy(st').Ok?
    ensures Policy(st).Ok? ==> Policy(st) == Policy(st')
  {
    if Policy(st).Ok? { SameRetentionsSamePolicy(st, st', Policy(st).value); }
    if Policy(st').Ok? { SameRetentionsSamePolicy(st', st, Policy(st').value); }
  }

  lemma SameRetentionsSamePolicy(st: Storage, st': Storage, p: string)
    requires Policy(st) == Ok(p) && Retentions(st) == Retentions(st')
    ensures Policy(st') == Ok(p)
  {
    PolicyIsCommonDuration(st, p);
    PolicyIsCommonDuration(st', p);
    forall s' | s' in st'.schedules ensures Asks(s', p) {
      assert s'.retention in Retentions(st);
      var s :| s in st.schedules && s.retention == s'.retention;
      assert Asks(s, p);
    }
    assert st.schedules != [] ==> st.schedules[0].retention in Retentions(st);
  }

  // ---- Sharing ----

  /** Another live Instance of the same provider with backups on. */
  predicate Peer(self: Instance, peer: Instance) {
    && peer.name != self.name && !peer.deleting && peer.provider == self.provider
    && peer.backup.Some? && peer.backup.value.enabled
  }

  predicate Disagrees(st: Storage, storage: string, retention: string) {
    st.name == storage && Policy(st).Ok? && Policy(st).value != retention
  }

  predicate Conflicts(self: Instance, peer: Instance, storage: string, retention: string) {
    Peer(self, peer) && exists st | st in peer.backup.value.storages :: Disagrees(st, storage, retention)
  }

  predicate Conflicted(instances: seq<Instance>, self: Instance, storage: string, retention: string) {
    exists peer | peer in instances :: Conflicts(self, peer, storage, retention)
  }

  /** A writer is refused when some peer disagrees with it, unless it would write what is
      already stored. policies holds the retention stored in each ObjectStore. */
  predicate Refused(
    instances: seq<Instance>, policies: map<string, string>, self: Instance, storage: string, retention: string)
  {
    Conflicted(instances, self, storage, retention) && !(storage in policies && policies[storage] == retention)
  }

  // ---- One reconcile ----

  datatype Credentials = NoSecret | Unavailable | Incomplete | Complete
  datatype EndpointCA = CAFine | CAUnreadable | CAInvalid

  /** What a BackupStorage resolves to; s3 None when it is of another kind. */
  datatype S3Access = S3Access(credentials: Credentials, ca: EndpointCA)
  datatype StorageAccess = StorageAccess(s3: Option<S3Access>)

  datatype SyncError =
    | WaitForStorage(storage: string) | WaitForCredentials(storage: string) | UnsupportedStorage(storage: string)
    | CredentialsUnavailable(storage: string) | CredentialsIncomplete(storage: string)
    | EndpointCAUnreadable(storage: string) | EndpointCAInvalid(storage: string)
    | InvalidRetention(error: RetentionError)
    | RetentionConflict(storage: string)

  /** What stops a storage before its retention is looked at. */
  function AccessError(access: map<string, StorageAccess>, storage: string): Option<SyncError> {
    if storage !in access then Some(WaitForStorage(storage))
    else if access[storage].s3.None? then Some(UnsupportedStorage(storage))
    else
      match access[storage].s3.value.credentials
      case NoSecret => Some(WaitForCredentials(storage))
      case Unavailable => Some(CredentialsUnavailable(storage))
      case Incomplete => Some(CredentialsIncomplete(storage))
      case Complete =>
        match access[storage].s3.value.ca
        case CAFine => None
        case CAUnreadable => Some(EndpointCAUnreadable(storage))
        case CAInvalid => Some(EndpointCAInvalid(storage))
  }

  /** What keeps a storage from being applied. */
  function Blocker(
    instances: seq<Instance>, policies: map<string, string>, self: Instance, access: map<string, StorageAccess>,
    st: Storage): Option<SyncError>
  {
    if AccessError(access, st.name).Some? then AccessError(access, st.name)
    else if Policy(st).Err? then Some(InvalidRetention(Policy(st).error))
    else if Refused(instances, policies, self, st.name, Policy(st).value) then Some(RetentionConflict(st.name))
    else None
  }

  /** The stored policies after applying storages from i on, up to the first that is blocked,
      and what blocked it. */
  function ApplyFrom(
    instances: seq<Instance>, policies: map<string, string>, self: Instance, access: map<string, StorageAccess>,
    storages: seq<Storage>, i: nat): (map<string, string>, Option<SyncError>)
    requires i <= |storages|
    decreases |storages| - i
  {
    if i == |storages| then (policies, None)
    else
      var blocked := Blocker(instances, policies, self, access, storages[i]);
      if blocked.Some? then (policies, blocked)
      else ApplyFrom(instances, policies[storages[i].name := Policy(storages[i]).value], self, access, storages, i + 1)
  }

  /** The storages a reconcile works through. */
  function Storages(self: Instance): seq<Storage> {
    if self.backup.Some? && self.backup.value.enabled then self.backup.value.storages else []
  }

  function Reconciled(
    instances: seq<Instance>, policies: map<string, string>, self: Instance, access: map<string, StorageAccess>)
    : (map<string, string>, Option<SyncError>)
  {
    ApplyFrom(instances, policies, self, access, Storages(self), 0)
  }

  class ObjectStores {
    var instances: seq<Instance>
    var policies: map<string, string>

    constructor (instances: seq<Instance>, policies: map<string, string>)
      ensures this.instances == instances && this.policies == policies
    {
      this.instances, this.policies := instances, policies;
    }

    /** Returns the peers that disagree when the write is refused. */
    method CheckSharedRetention(self: Instance, storage: string, retention: string)
      returns (refusal: Option<seq<(string, string)>>)
      ensures refusal.Some? <==> Refused(instances, policies, self, storage, retention)
      ensures refusal.Some? ==> refusal.value != [] && forall c | c in refusal.value ::
                exists peer, st | peer in instances && peer.backup.Some? && st in peer.backup.value.storages ::
                  Peer(self, peer) && peer.name == c.0 && Disagrees(st, storage, retention) && Policy(st) == Ok(c.1)
    {
      var conflicts: seq<(string, string)> := [];
      for i := 0 to |instances|
        invariant conflicts != [] <==> exists k | 0 <= k < i :: Conflicts(self, instances[k], storage, retention)
        invariant forall c | c in conflicts ::
                    exists peer, st | peer in instances && peer.backup.Some? && st in peer.backup.value.storages ::
                      Peer(self, peer) && peer.name == c.0 && Disagrees(st, storage, retention) && Policy(st) == Ok(c.1)
      {
        var peer := instances[i];
        if peer.name == self.name || peer.deleting || peer.provider != self.provider
           || peer.backup.None? || !peer.backup.value.enabled
        {
          continue;
        }
        assert Peer(self, peer);
        ghost var before := conflicts;
        var storages := peer.backup.value.storages;
        for j := 0 to |storages|
          invariant conflicts != [] <==>
                    before != [] || exists k | 0 <= k < j :: Disagrees(storages[k], storage, retention)
          invariant forall c | c in conflicts ::
                      exists peer, st | peer in instances && peer.backup.Some? && st in peer.backup.value.storages ::
                        Peer(self, peer) && peer.name == c.0 && Disagrees(st, storage, retention)
                          && Policy(st) == Ok(c.1)
        {
          if storages[j].name != storage {
            continue;
          }
          var policy := StorageRetentionPolicy(storages[j]);
          if policy.Ok? && policy.value != retention {
            conflicts := conflicts + [(peer.name, policy.value)];
          }
        }
      }
      if conflicts == [] {
        return None;
      }
      if storage in policies && policies[storage] == retention {
        return None;
      }
      return Some(conflicts);
    }

    /** Applies one ObjectStore per storage of self and returns the WAL archiver plugin. */
    method SyncBackupInfrastructure(self: Instance, access: map<string, StorageAccess>)
      returns (r: Result<seq<Backups.Plugin>, SyncError>)
      modifies this`policies
      ensures (policies, if r.Ok? then None else Some(r.error)) == Reconciled(instances, old(policies), self, access)
      ensures r.Ok? ==> Backups.ArchiveStore(r.value) == if Storages(self) == [] then "" else Storages(self)[0].name
    {
      if self.backup.None? || !self.backup.value.enabled || self.backup.value.storages == [] {
        return Ok([]);
      }
      var storages := self.backup.value.storages;
      var mainName := storages[0].name;
      for i := 0 to |storages|
        invariant ApplyFrom(instances, policies, self, access, storages, i)
            == Reconciled(instances, old(policies), self, access)
      {
        var st := storages[i];
        var blocked := AccessError(access, st.name);
        if blocked.Some? {
          return Err(blocked.value);
        }
        var retention := StorageRetentionPolicy(st);
        if retention.Err? {
          return Err(InvalidRetention(retention.error));
        }
        var refusal := CheckSharedRetention(self, st.name, retention.value);
        if refusal.Some? {
          return Err(RetentionConflict(st.name));
        }
        policies := policies[st.name := retention.value];
      }
      r := Ok([Backups.Plugin(Backups.PLUGIN_NAME, true, map[Backups.OBJECT_STORE_PARAMETER := mainName])]);
    }
  }
}
