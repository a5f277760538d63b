/** The committed fixture proof and the Kubernetes identities that every part of
    the cleanup observer refers to. */
module Fixture {
  import opened Wrappers

  /** The controller owner reference, which the original holds as the text
      `Kind/name/uid`. */
  datatype Owner = NoOwner | Owner(kind: string, name: string, uid: string)

  /** The reviewed proof. Its workspace is its namespace, and the two Job names
      that the original derives from other fields are fields here. */
  datatype Proof = Proof(
    namespace: string,
    appName: string,
    appUid: string,
    serviceId: string,
    pvcName: string,
    pvcUid: string,
    pvName: string,
    pvUid: string,
    secretUid: string,
    cronName: string,
    cronUid: string,
    volumeHandle: string,
    backupImage: string,
    backupJobUid: Option<string>,
    backupJobName: string,
    purgeJobName: string)
  {
    function AppOwner(): Owner {
      Owner("App", appName, appUid)
    }

    function CronOwner(): Owner {
      Owner("CronJob", cronName, cronUid)
    }
  }

  datatype Resource =
    | Apps | Claims | Volumes | Secrets | CronJobs
    | Deployments | ReplicaSets | Jobs | Pods | Attachments

  /** An object is known by the kind of resource and its name. */
  datatype Key = Key(resource: Resource, name: string)

  type Uid = string

  /** Kinds of event that a cleanup watch passes on. */
  datatype EventKind = Added | Modified | Deleted
}
