/** The part of the Instance resource that configures backups. */
module Instances {
  import opened Common

  datatype RetentionType = Time | Count

  datatype Retention = Retention(kind: RetentionType, duration: string)

  /** target is the decoded parameters, None when they are malformed. */
  datatype Schedule = Schedule(
    name: string, enabled: bool, cron: string, retention: Option<Retention>, target: Option<string>)

  datatype Storage = Storage(name: string, schedules: seq<Schedule>)

  datatype BackupSpec = BackupSpec(enabled: bool, classRef: string, storages: seq<Storage>)

  datatype Instance = Instance(
    name: string, uid: nat, provider: string, deleting: bool, backup: Option<BackupSpec>)
}
