/** Generated object names: backupDeletionJobName in internal/provider/backup_delete.go,
    scheduledBackupName and ScheduleForScheduledBackup in internal/cnpg/barman/schedule.go.
    Strings are byte sequences here, as Go's len counts them. */
module Names {
  /** The first eight hex digits of a SHA-256 sum; the sum itself is any function to these. */
  type Digest = s: string | |s| == 8 && forall c | c in s :: '0' <= c <= '9' || 'a' <= c <= 'f' witness "00000000"

  const MAX_LENGTH := 63
  const DELETION_PREFIX := "delete-backup-"

  /** strings.TrimRight(s, "-."). */
  function TrimSeparators(s: string): string {
    if s != "" && s[|s| - 1] in {'-', '.'} then TrimSeparators(s[..|s| - 1]) else s
  }

  /** name if it fits, or else its first 54 bytes without trailing dashes and dots, a dash and
      the digest of what is hashed. */
  function Shortened(name: string, digest: Digest): string {
    if |name| <= MAX_LENGTH then name else TrimSeparators(name[..MAX_LENGTH - 9]) + "-" + digest
  }

  function BackupDeletionJobName(hash: string -> Digest, backup: string): string {
    Shortened(DELETION_PREFIX + backup, hash(backup))
  }

  function ScheduledBackupName(hash: string -> Digest, instance: string, schedule: string): string {
    var name := instance + "-" + schedule;
    Shortened(name, hash(name))
  }

  lemma {:induction false} TrimSeparatorsIsAPrefix(s: string)
    ensures TrimSeparators(s) <= s
    ensures forall i | |TrimSeparators(s)| <= i < |s| :: s[i] in {'-', '.'}
    ensures TrimSeparators(s) != "" ==> TrimSeparators(s)[|TrimSeparators(s)| - 1] !in {'-', '.'}
  {
    if s != "" && s[|s| - 1] in {'-', '.'} { TrimSeparatorsIsAPrefix(s[..|s| - 1]); }
  }

  /** Both generated names fit a label value, for all inputs. */
  lemma NamesFit(hash: string -> Digest, instance: string, schedule: string, backup: string)
    ensures |BackupDeletionJobName(hash, backup)| <= MAX_LENGTH
    ensures |ScheduledBackupName(hash, instance, schedule)| <= MAX_LENGTH
  {
    var job := DELETION_PREFIX + backup;
    TrimSeparatorsIsAPrefix(job[..if |job| <= MAX_LENGTH then 0 else MAX_LENGTH - 9]);
    var name := instance + "-" + schedule;
    TrimSeparatorsIsAPrefix(name[..if |name| <= MAX_LENGTH then 0 else MAX_LENGTH - 9]);
  }

  /** A Job name starts with the prefix, also when the trimming eats the prefix's own dash:
      the dash put before the digest takes its place. */
  lemma JobNameKeepsPrefix(hash: string -> Digest, backup: string)
    ensures DELETION_PREFIX <= BackupDeletionJobName(hash, backup)
  {
    var name := DELETION_PREFIX + backup;
    if |name| > MAX_LENGTH {
      var cut := name[..MAX_LENGTH - 9];
      TrimSeparatorsIsAPrefix(cut);
      var short := TrimSeparators(cut);
      assert cut[12] == 'p' && cut[13] == '-';
      assert |short| >= 13;
      if |short| == 13 {
        assert short + "-" == DELETION_PREFIX;
      } else {
        assert short[..14] == DELETION_PREFIX;
      }
      assert (short + "-" + hash(backup))[..14] == DELETION_PREFIX;
    }
  }

  /** The dash between Instance and schedule can also be read further right: the longer
      Instance name is the shorter one, a dash and what begins the schedule name. */
  predicate Respelled(instance: string, schedule: string, longer: string, rest: string) {
    && |instance| < |longer| && longer[..|instance| + 1] == instance + "-"
    && schedule == longer[|instance| + 1..] + "-" + rest
  }

  lemma SplitAtTheDash(i: string, s: string, j: string, t: string)
    requires i + "-" + s == j + "-" + t && |i| < |j|
    ensures Respelled(i, s, j, t)
  {
    var name := i + "-" + s;
    assert name[..|i| + 1] == i + "-" && name[|i| + 1..] == s;
    assert j == name[..|j|] && name[|j| + 1..] == t && name[|j|] == '-';
    assert s == name[|i| + 1..|j|] + "-" + t;
  }

  /** Names are only unique inside one Instance: respelled, they are the same at any length. */
  lemma RespelledNamesCollide(hash: string -> Digest, i: string, s: string, j: string, t: string)
    requires Respelled(i, s, j, t)
    ensures i + "-" + s == j + "-" + t && ScheduledBackupName(hash, i, s) == ScheduledBackupName(hash, j, t)
  {
    var m := j[|i| + 1..];
    assert j == (i + "-") + m;
    assert i + "-" + (m + "-" + t) == ((i + "-") + m) + "-" + t;
  }

  /** When two names fit unhashed they are the same exactly when Instance and schedule are, or
      when one pair is the other respelled. */
  lemma NamesCollideExactly(hash: string -> Digest, i: string, s: string, j: string, t: string)
    requires |i + "-" + s| <= MAX_LENGTH && |j + "-" + t| <= MAX_LENGTH
    ensures ScheduledBackupName(hash, i, s) == ScheduledBackupName(hash, j, t) <==>
            (i == j && s == t) || Respelled(i, s, j, t) || Respelled(j, t, i, s)
  {
    if i + "-" + s == j + "-" + t {
      if |i| < |j| { SplitAtTheDash(i, s, j, t); }
      if |j| < |i| { SplitAtTheDash(j, t, i, s); }
      if |i| == |j| { assert (i + "-" + s)[..|i|] == i && (j + "-" + t)[..|i|] == j && (i + "-" + s)[|i| + 1..] == s; }
    }
    if Respelled(i, s, j, t) { RespelledNamesCollide(hash, i, s, j, t); }
    if Respelled(j, t, i, s) { RespelledNamesCollide(hash, j, t, i, s); }
  }

  /** Respelled in the form of a string in the middle that changes sides. */
  lemma RespelledMeans(i: string, s: string, j: string, t: string)
    ensures Respelled(i, s, j, t) <==> exists m :: j == i + "-" + m && s == m + "-" + t
  {
    if Respelled(i, s, j, t) { assert j == i + "-" + j[|i| + 1..]; }
    if m :| j == i + "-" + m && s == m + "-" + t { assert j[|i| + 1..] == m; }
  }

  /** Backups whose names leave room for the prefix have Jobs of their own. */
  lemma FittingJobNamesDiffer(hash: string -> Digest, a: string, b: string)
    requires |DELETION_PREFIX + a| <= MAX_LENGTH && |DELETION_PREFIX + b| <= MAX_LENGTH
    ensures BackupDeletionJobName(hash, a) == BackupDeletionJobName(hash, b) <==> a == b
    ensures BackupDeletionJobName(hash, a) == "delete-backup-" + a
  {
    assert (DELETION_PREFIX + a)[|DELETION_PREFIX|..] == a && (DELETION_PREFIX + b)[|DELETION_PREFIX|..] == b;
  }

  /** A name that does not fit ends in a dash and the digest, for a Job that of the Backup's
      name alone, for a ScheduledBackup that of both names; before that it is the beginning of
      the full name. So two such names are the same only if the digests are. */
  lemma LongNamesEndInTheirDigest(hash: string -> Digest, instance: string, schedule: string, backup: string)
    ensures
      var job := BackupDeletionJobName(hash, backup);
      |"delete-backup-" + backup| > 63 ==>
        && |job| > 9 && job[|job| - 9..] == "-" + hash(backup) && job[..|job| - 9] <= "delete-backup-" + backup
    ensures
      var full, name := instance + "-" + schedule, ScheduledBackupName(hash, instance, schedule);
      |full| > 63 ==> |name| >= 9 && name[|name| - 9..] == "-" + hash(full) && name[..|name| - 9] <= full
  {
    if |DELETION_PREFIX + backup| > 63 {
      JobNameKeepsPrefix(hash, backup);
      var cut := (DELETION_PREFIX + backup)[..54];
      TrimSeparatorsIsAPrefix(cut);
      EndOf(TrimSeparators(cut), "-" + hash(backup));
    }
    var full := instance + "-" + schedule;
    if |full| > 63 {
      TrimSeparatorsIsAPrefix(full[..54]);
      EndOf(TrimSeparators(full[..54]), "-" + hash(full));
    }
  }

  lemma EndOf(a: string, b: string)
    ensures (a + b)[|a + b| - |b|..] == b && (a + b)[..|a + b| - |b|] == a
  {
  }
}
