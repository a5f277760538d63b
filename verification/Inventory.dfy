/** One pass of `cleanup_inventory`: the sweep that looks for everything that belongs
    to the fixture, and the memory of every lifetime it has seen. */
module Inventory {
  import opened Wrappers
  import opened Fixture

  const STORAGE_CLASS := "hcloud-volumes-luks-bounded"
  const DRIVER := "csi.hetzner.cloud"

  // ----- What the API server answers during one pass

  datatype FixedRow = FixedRow(
    uid: Uid,
    owner: Owner,
    service: string,
    workspace: string,
    handle: string,
    driver: string,
    claimNamespace: string,
    claim: string,
    claimUid: string,
    storageClass: string)

  datatype WorkRow = WorkRow(
    name: string,
    uid: Uid,
    namespace: string,
    owner: Owner,
    app: string,
    appUid: string,
    workspace: string)

  datatype AttachmentRow = AttachmentRow(name: string, uid: Uid, pv: string)

  /** An object fetched by name; `pv` matters for attachments only. */
  datatype NamedRow = NamedRow(uid: Uid, pv: string)

  /** One row of a workload listing. */
  datatype Item = Item(resource: Resource, row: WorkRow)
  {
    function Key(): Key {
      Fixture.Key(resource, row.name)
    }

    /** The owner reference that the children of this object carry. */
    function AsOwner(): Option<Owner> {
      OwnerOf(Key(), row.uid)
    }
  }

  datatype Kube = Kube(
    fixed: map<Resource, FixedRow>,
    listed: map<Resource, seq<WorkRow>>,
    attachments: seq<AttachmentRow>,
    named: map<Key, NamedRow>)

  function OwnerOf(key: Key, uid: Uid): Option<Owner> {
    match key.resource
    case Deployments => Some(Owner("Deployment", key.name, uid))
    case ReplicaSets => Some(Owner("ReplicaSet", key.name, uid))
    case CronJobs => Some(Owner("CronJob", key.name, uid))
    case Jobs => Some(Owner("Job", key.name, uid))
    case _ => None
  }

  // ----- The pass

  datatype Identity = Identity(key: Key, uid: Uid, prior: Option<Uid>)

  datatype Halt =
    | AwaitPurgeWatch       // the purge Job was replaced: wait for its watch
    | ReplacedLifetime
    | ForeignFixedObject
    | ForeignWorkload
    | BackupJobChanged

  /** The state of a pass. The original keeps `pending` as a list that it sorts at the
      end, and the keys of `found` as `observed`. */
  datatype Pass = Pass(
    known: map<Key, Uid>,
    pending: set<Identity>,
    owners: set<Owner>,
    found: set<Item>,
    halt: Option<Halt>)
  {
    function Stop(h: Halt): Pass {
      this.(halt := Some(h))
    }
  }

  function Begin(known: map<Key, Uid>): Pass {
    Pass(known, {}, {}, {}, None)
  }

  /** The local function `remember`. */
  function Remember(proof: Proof, p: Pass, key: Key, uid: Uid, onBoundVolume: bool): Pass {
    var changed := key in p.known && p.known[key] != uid;
    if changed && key == Key(Jobs, proof.purgeJobName) then p.Stop(AwaitPurgeWatch)
    else if changed && !(key.resource == Attachments && onBoundVolume) then p.Stop(ReplacedLifetime)
    else
      p.(known := p.known[key := uid],
         pending := p.pending + {Identity(key, uid, if changed then Some(p.known[key]) else None)})
  }

  datatype Slot = Slot(key: Key, uid: Uid)

  function FixedSlots(proof: Proof): seq<Slot> {
    [ Slot(Key(Apps, proof.appName), proof.appUid),
      Slot(Key(Claims, proof.pvcName), proof.pvcUid),
      Slot(Key(Volumes, proof.pvName), proof.pvUid),
      Slot(Key(Secrets, proof.pvcName + "-luks"), proof.secretUid),
      Slot(Key(CronJobs, proof.cronName), proof.cronUid) ]
  }

  function FixedKeys(proof: Proof): set<Key> {
    SlotKeys(FixedSlots(proof))
  }

  function SlotKeys(slots: seq<Slot>): set<Key> {
    set i | 0 <= i < |slots| :: slots[i].key
  }

  predicate IsOwnFixedRow(proof: Proof, slot: Slot, row: FixedRow) {
    match slot.key.resource
    case Apps => row.service == proof.serviceId && row.workspace == proof.namespace
    case Volumes =>
      && row.handle == proof.volumeHandle && row.driver == DRIVER
      && row.claimNamespace == proof.namespace && row.claim == proof.pvcName && row.claimUid == proof.pvcUid
      && row.storageClass == STORAGE_CLASS
    case _ => row.owner == proof.AppOwner()
  }

  function VisitFixed(proof: Proof, kube: Kube, p: Pass, slot: Slot): Pass {
    if p.halt.Some? || slot.key.resource !in kube.fixed then p
    else
      var row := kube.fixed[slot.key.resource];
      if row.uid != slot.uid then p.Stop(ReplacedLifetime)
      else if !IsOwnFixedRow(proof, slot, row) then p.Stop(ForeignFixedObject)
      else Remember(proof, p, slot.key, row.uid, false)
  }

  function VisitFixedSlots(proof: Proof, kube: Kube, p: Pass, slots: seq<Slot>, n: nat): Pass
    requires n <= |slots|
  {
    if n == 0 then p else VisitFixed(proof, kube, VisitFixedSlots(proof, kube, p, slots, n - 1), slots[n - 1])
  }

  /** The owners that a pass starts from: the App, the backup CronJob and every
      remembered controller, even one that no longer exists. */
  function Roots(proof: Proof, known: map<Key, Uid>): set<Owner> {
    {proof.AppOwner(), proof.CronOwner()}
    + set key | key in known && OwnerOf(key, known[key]).Some? :: OwnerOf(key, known[key]).value
  }

  function KeysOf(found: set<Item>): set<Key> {
    set item | item in found :: item.Key()
  }

  predicate IsOwnWorkload(proof: Proof, owners: set<Owner>, row: WorkRow) {
    && row.namespace == proof.namespace
    && row.app in {"", proof.appName}
    && row.appUid in {"", proof.appUid}
    && row.workspace in {"", proof.namespace}
    && row.owner in owners
  }

  function VisitItem(proof: Proof, p: Pass, item: Item): Pass {
    var row := item.row;
    if p.halt.Some? || (row.app != proof.appName && row.appUid != proof.appUid && row.owner !in p.owners) then p
    else if !IsOwnWorkload(proof, p.owners, row) then p.Stop(ForeignWorkload)
    else if item.resource == Jobs && row.name == proof.backupJobName
            && proof.backupJobUid.Some? && proof.backupJobUid.value != row.uid then p.Stop(BackupJobChanged)
    else
      var q := Remember(proof, p, item.Key(), row.uid, false);
      if q.halt.Some? then q
      else
        q.(found := q.found + {item},
           owners := q.owners + (if item.AsOwner().Some? then {item.AsOwner().value} else {}))
  }

  /** The kinds in the order in which they are listed. */
  const KINDS := [Deployments, ReplicaSets, CronJobs, Jobs, Pods]

  function RowsOf(kube: Kube, resource: Resource): seq<Item> {
    var rows := if resource in kube.listed then kube.listed[resource] else [];
    seq(|rows|, i requires 0 <= i < |rows| => Item(resource, rows[i]))
  }

  /** The rows of the first `n` kinds, in the order in which they are visited. */
  function Items(kube: Kube, n: nat): seq<Item>
    requires n <= |KINDS|
  {
    if n == 0 then [] else Items(kube, n - 1) + RowsOf(kube, KINDS[n - 1])
  }

  function AllItems(kube: Kube): seq<Item> {
    Items(kube, |KINDS|)
  }

  function VisitItems(proof: Proof, p: Pass, items: seq<Item>, n: nat): Pass
    requires n <= |items|
  {
    if n == 0 then p else VisitItem(proof, VisitItems(proof, p, items, n - 1), items[n - 1])
  }

  function VisitAttachment(proof: Proof, p: Pass, row: AttachmentRow): Pass {
    if p.halt.Some? || row.pv != proof.pvName then p
    else Remember(proof, p, Key(Attachments, row.name), row.uid, true)
  }

  function VisitAttachments(proof: Proof, p: Pass, rows: seq<AttachmentRow>, n: nat): Pass
    requires n <= |rows|
  {
    if n == 0 then p else VisitAttachment(proof, VisitAttachments(proof, p, rows, n - 1), rows[n - 1])
  }

  /** The attachments that are listed on the bound volume. */
  function BoundAttachments(proof: Proof, rows: seq<AttachmentRow>, n: nat): set<Key>
    requires n <= |rows|
  {
    set i | 0 <= i < n && rows[i].pv == proof.pvName :: Key(Attachments, rows[i].name)
  }

  /** The remembered keys that the pass must still look up by name. */
  function Unvisited(proof: Proof, kube: Kube, p: Pass): set<Key> {
    p.known.Keys - FixedKeys(proof) - KeysOf(p.found) - BoundAttachments(proof, kube.attachments, |kube.attachments|)
  }

  predicate KeepsItsPlace(proof: Proof, known: map<Key, Uid>, key: Key, row: NamedRow) {
    (key.resource == Attachments ==> row.pv == proof.pvName) && key in known && row.uid == known[key]
  }

  /** The last loop: each remembered object that still exists must be the same one. */
  function LookUp(proof: Proof, kube: Kube, p: Pass): Pass {
    var present := set key | key in Unvisited(proof, kube, p) && key in kube.named;
    if p.halt.Some? then p
    else if exists key :: key in present && !KeepsItsPlace(proof, p.known, key, kube.named[key])
    then p.Stop(ReplacedLifetime)
    else p.(pending := p.pending + set key | key in present :: Identity(key, kube.named[key].uid, None))
  }

  function AfterFixed(proof: Proof, kube: Kube, known: map<Key, Uid>): Pass {
    var p := VisitFixedSlots(proof, kube, Begin(known), FixedSlots(proof), |FixedSlots(proof)|);
    p.(owners := Roots(proof, p.known))
  }

  function AfterItems(proof: Proof, kube: Kube, known: map<Key, Uid>): Pass {
    VisitItems(proof, AfterFixed(proof, kube, known), AllItems(kube), |AllItems(kube)|)
  }

  function AfterAttachments(proof: Proof, kube: Kube, known: map<Key, Uid>): Pass {
    VisitAttachments(proof, AfterItems(proof, kube, known), kube.attachments, |kube.attachments|)
  }

  /** The whole pass. */
  function Sweep(proof: Proof, kube: Kube, known: map<Key, Uid>): Pass {
    LookUp(proof, kube, AfterAttachments(proof, kube, known))
  }

  // ----- What a pass remembers and reports, phase by phase

  ghost predicate Extends(known: map<Key, Uid>, after: map<Key, Uid>) {
    forall key :: key in known ==> key in after && after[key] == known[key]
  }

  /** The identities of the fixed objects that still exist. */
  function FixedPresent(kube: Kube, slots: seq<Slot>, n: nat): set<Identity>
    requires n <= |slots|
  {
    set i | 0 <= i < n && slots[i].key.resource in kube.fixed :: Identity(slots[i].key, slots[i].uid, None)
  }

  /** A step that halts remembers nothing; a step that does not, remembers one object. */
  lemma VisitFixedSteps(proof: Proof, kube: Kube, p: Pass, slot: Slot)
    requires slot.key.resource != Jobs
    ensures
      var q := VisitFixed(proof, kube, p, slot);
      && q.owners == p.owners && q.found == p.found
      && Extends(p.known, q.known)
      && (p.halt.Some? ==> q.halt.Some?)
      && (p.halt != Some(AwaitPurgeWatch) ==> q.halt != Some(AwaitPurgeWatch))
      && (q.halt.Some? || slot.key.resource !in kube.fixed ==> q.known == p.known && q.pending == p.pending)
      && (q.halt.None? && slot.key.resource in kube.fixed ==>
            && q.known == p.known[slot.key := slot.uid]
            && q.pending == p.pending + {Identity(slot.key, slot.uid, None)})
  {
    hide IsOwnFixedRow;
  }

  lemma {:induction false} FixedSlotsRemember(proof: Proof, kube: Kube, known: map<Key, Uid>, slots: seq<Slot>, n: nat)
    requires n <= |slots|
    requires forall i :: 0 <= i < |slots| ==> slots[i].key.resource != Jobs
    ensures
      var p := VisitFixedSlots(proof, kube, Begin(known), slots, n);
      && p.found == {}
      && Extends(known, p.known)
      && (forall key :: key in p.known && key !in known ==>
          exists i :: 0 <= i < n && key == slots[i].key && p.known[key] == slots[i].uid)
      && p.halt != Some(AwaitPurgeWatch)
      && (forall id :: id in p.pending ==> id.key in p.known && p.known[id.key] == id.uid && id.prior == None)
      && (p.halt.None? ==> p.pending == FixedPresent(kube, slots, n))
  {
    if n > 0 {
      FixedSlotsRemember(proof, kube, known, slots, n - 1);
      var p := VisitFixedSlots(proof, kube, Begin(known), slots, n - 1);
      VisitFixedSteps(proof, kube, p, slots[n - 1]);
      hide VisitFixed;
    }
  }

  // ----- Workloads

  function ChildOwners(found: set<Item>): set<Owner> {
    set item | item in found && item.AsOwner().Some? :: item.AsOwner().value
  }

  function IdentitiesOf(found: set<Item>): set<Identity> {
    set item | item in found :: Identity(item.Key(), item.row.uid, None)
  }

  /** A row is taken exactly when its owner is one that the pass already follows. */
  lemma VisitItemSteps(proof: Proof, p: Pass, item: Item)
    ensures
      var q := VisitItem(proof, p, item);
      var taken := item.row.owner in p.owners;
      && (p.halt.Some? ==> q == p)
      && (q.halt.Some? ==> q == p.(halt := q.halt))
      && (q.halt.None? && !taken ==> q == p)
      && (q.halt.None? && taken ==>
            && (item.Key() in p.known ==> p.known[item.Key()] == item.row.uid)
            && q.known == p.known[item.Key() := item.row.uid]
            && q.pending == p.pending + {Identity(item.Key(), item.row.uid, None)}
            && q.found == p.found + {item}
            && q.owners == p.owners + ChildOwners({item}))
      && (p.halt.None? && q.halt == Some(AwaitPurgeWatch) ==>
            && item.Key() == Key(Jobs, proof.purgeJobName)
            && item.Key() in p.known && p.known[item.Key()] != item.row.uid
            && item.row.owner in p.owners)
  {
  }

  /** What a number of visited rows has done to the pass. */
  ghost predicate Visited(p: Pass, q: Pass)
  {
    && Extends(p.known, q.known)
    && q.known.Keys == p.known.Keys + KeysOf(q.found)
    && q.owners == p.owners + ChildOwners(q.found)
    && q.pending == p.pending + IdentitiesOf(q.found)
    && (forall item :: item in q.found ==> item.Key() in q.known && q.known[item.Key()] == item.row.uid)
    && (q.halt.None? ==> p.halt.None?)
  }

  lemma SetsGrow(found: set<Item>, item: Item)
    ensures KeysOf(found + {item}) == KeysOf(found) + {item.Key()}
    ensures IdentitiesOf(found + {item}) == IdentitiesOf(found) + {Identity(item.Key(), item.row.uid, None)}
    ensures ChildOwners(found + {item}) == ChildOwners(found) + ChildOwners({item})
  {
  }

  lemma {:induction false} ItemsVisited(proof: Proof, p: Pass, items: seq<Item>, n: nat)
    requires n <= |items| && p.found == {}
    ensures Visited(p, VisitItems(proof, p, items, n))
  {
    if n > 0 {
      ItemsVisited(proof, p, items, n - 1);
      OneMoreVisited(proof, p, VisitItems(proof, p, items, n - 1), items[n - 1]);
    } else {
      assert KeysOf({}) == {} && IdentitiesOf({}) == {} && ChildOwners({}) == {};
    }
  }

  lemma OneMoreVisited(proof: Proof, p: Pass, before: Pass, item: Item)
    requires Visited(p, before)
    ensures Visited(p, VisitItem(proof, before, item))
  {
    var q := VisitItem(proof, before, item);
    VisitItemSteps(proof, before, item);
    SetsGrow(before.found, item);
    hide VisitItem, KeysOf, IdentitiesOf, ChildOwners;
    if q.halt.Some? {
    } else if item.row.owner !in before.owners {
    } else {
      assert q.known.Keys == before.known.Keys + {item.Key()};
    }
  }

  lemma {:induction false} VisitsOnlyAdd(proof: Proof, p: Pass, items: seq<Item>, m: nat, n: nat)
    requires m <= n <= |items|
    ensures
      var a, b := VisitItems(proof, p, items, m), VisitItems(proof, p, items, n);
      a.found <= b.found && a.owners <= b.owners && (b.halt.None? ==> a.halt.None?)
    decreases n
  {
    if m < n {
      VisitsOnlyAdd(proof, p, items, m, n - 1);
      VisitItemSteps(proof, VisitItems(proof, p, items, n - 1), items[n - 1]);
      hide VisitItem;
    }
  }

  /** Where a found row was taken. */
  lemma {:induction false} FoundAt(proof: Proof, p: Pass, items: seq<Item>, n: nat, item: Item) returns (m: nat)
    requires n <= |items| && p.found == {}
    requires item in VisitItems(proof, p, items, n).found
    ensures m < n && items[m] == item && item.row.owner in VisitItems(proof, p, items, m).owners
    ensures item in VisitItems(proof, p, items, m + 1).found
  {
    VisitItemSteps(proof, VisitItems(proof, p, items, n - 1), items[n - 1]);
    hide VisitItem;
    if item in VisitItems(proof, p, items, n - 1).found {
      m := FoundAt(proof, p, items, n - 1, item);
    } else {
      m := n - 1;
    }
  }

  /** A set of listed rows that follows the ownership chain from the given owners. */
  ghost predicate Closed(items: seq<Item>, roots: set<Owner>, rows: set<Item>) {
    forall i :: 0 <= i < |items| && items[i].row.owner in roots + ChildOwners(rows) ==> items[i] in rows
  }

  /** Every controller is listed before the objects that it owns. */
  ghost predicate ControllersFirst(items: seq<Item>) {
    forall i, j :: 0 <= i < |items| && 0 <= j < |items| && items[i].AsOwner() == Some(items[j].row.owner) ==> i < j
  }

  lemma ChildOwnersGrow(few: set<Item>, more: set<Item>)
    requires few <= more
    ensures ChildOwners(few) <= ChildOwners(more)
  {
  }

  /** Whatever the order of the listing, the rows found are in every closed set. */
  lemma {:induction false} FoundIsLeast(proof: Proof, p: Pass, items: seq<Item>, n: nat, rows: set<Item>)
    requires n <= |items| && p.found == {}
    requires Closed(items, p.owners, rows)
    ensures VisitItems(proof, p, items, n).found <= rows
  {
    if n > 0 {
      FoundIsLeast(proof, p, items, n - 1, rows);
      ItemsVisited(proof, p, items, n - 1);
      VisitItemSteps(proof, VisitItems(proof, p, items, n - 1), items[n - 1]);
      ChildOwnersGrow(VisitItems(proof, p, items, n - 1).found, rows);
      hide VisitItem, ChildOwners, KeysOf, IdentitiesOf;
    }
  }

  /** When controllers come first, the rows found are closed themselves. */
  lemma FoundIsClosed(proof: Proof, p: Pass, items: seq<Item>)
    requires p.found == {} && VisitItems(proof, p, items, |items|).halt.None?
    requires ControllersFirst(items)
    ensures Closed(items, p.owners, VisitItems(proof, p, items, |items|).found)
  {
    var q := VisitItems(proof, p, items, |items|);
    ItemsVisited(proof, p, items, |items|);
    forall j | 0 <= j < |items| && items[j].row.owner in p.owners + ChildOwners(q.found) ensures items[j] in q.found {
      OwnerIsFollowed(proof, p, items, j);
      VisitItemSteps(proof, VisitItems(proof, p, items, j), items[j]);
      VisitsOnlyAdd(proof, p, items, j + 1, |items|);
    }
  }

  lemma OwnerIsFollowed(proof: Proof, p: Pass, items: seq<Item>, j: nat)
    requires p.found == {} && VisitItems(proof, p, items, |items|).halt.None?
    requires ControllersFirst(items) && j < |items|
    requires items[j].row.owner in p.owners + ChildOwners(VisitItems(proof, p, items, |items|).found)
    ensures items[j].row.owner in VisitItems(proof, p, items, j).owners
  {
    hide VisitItem;
    ItemsVisited(proof, p, items, j);
    if items[j].row.owner !in p.owners {
      var found := VisitItems(proof, p, items, |items|).found;
      var f :| f in found && f.AsOwner() == Some(items[j].row.owner);
      var m := FoundAt(proof, p, items, |items|, f);
      assert m < j;
      VisitsOnlyAdd(proof, p, items, m + 1, j);
    }
  }

  // ----- Attachments

  ghost predicate AttachedNow(proof: Proof, rows: seq<AttachmentRow>, n: nat, key: Key, uid: Uid)
    requires n <= |rows|
  {
    exists i :: 0 <= i < n && rows[i].pv == proof.pvName && key == Key(Attachments, rows[i].name) && uid == rows[i].uid
  }

  ghost predicate Reports(p: Pass, key: Key, uid: Uid) {
    exists id :: id in p.pending && id.key == key && id.uid == uid
  }

  lemma VisitAttachmentSteps(proof: Proof, p: Pass, row: AttachmentRow)
    ensures
      var q := VisitAttachment(proof, p, row);
      var key := Key(Attachments, row.name);
      && q.halt == p.halt && q.found == p.found && q.owners == p.owners
      && (p.halt.Some? || row.pv != proof.pvName ==> q == p)
      && (p.halt.None? && row.pv == proof.pvName ==>
            && q.known == p.known[key := row.uid]
            && var prior := if key in p.known && p.known[key] != row.uid then Some(p.known[key]) else None;
               q.pending == p.pending + {Identity(key, row.uid, prior)})
  {
  }

  lemma {:induction false} AttachmentsVisited(proof: Proof, p: Pass, rows: seq<AttachmentRow>, n: nat)
    requires n <= |rows|
    ensures
      var q := VisitAttachments(proof, p, rows, n);
      && q.halt == p.halt && q.found == p.found && q.owners == p.owners
      && (p.halt.Some? ==> q == p)
      && p.known.Keys <= q.known.Keys <= p.known.Keys + BoundAttachments(proof, rows, n)
      && (forall key :: key in p.known && key !in BoundAttachments(proof, rows, n) ==> q.known[key] == p.known[key])
      && (p.halt.None? ==> BoundAttachments(proof, rows, n) <= q.known.Keys)
  {
    if n > 0 {
      AttachmentsVisited(proof, p, rows, n - 1);
      VisitAttachmentSteps(proof, VisitAttachments(proof, p, rows, n - 1), rows[n - 1]);
      hide VisitAttachment;
    }
  }

  /** Visiting the attachments gives a key a new lifetime only if an attachment with that
      lifetime is listed on the bound volume. */
  lemma {:induction false} AttachmentsChange(proof: Proof, p: Pass, rows: seq<AttachmentRow>, n: nat, key: Key)
    requires n <= |rows| && key in p.known
    ensures
      var q := VisitAttachments(proof, p, rows, n);
      key in q.known && (q.known[key] != p.known[key] ==> AttachedNow(proof, rows, n, key, q.known[key]))
  {
    if n > 0 {
      AttachmentsChange(proof, p, rows, n - 1, key);
      VisitAttachmentSteps(proof, VisitAttachments(proof, p, rows, n - 1), rows[n - 1]);
      hide VisitAttachment;
    }
  }

  lemma {:induction false} AttachmentsReported(proof: Proof, p: Pass, rows: seq<AttachmentRow>, n: nat,
                                               key: Key, uid: Uid)
    requires n <= |rows| && p.halt.None?
    ensures Reports(VisitAttachments(proof, p, rows, n), key, uid)
        <==> Reports(p, key, uid) || AttachedNow(proof, rows, n, key, uid)
  {
    if n > 0 {
      AttachmentsReported(proof, p, rows, n - 1, key, uid);
      AttachmentsVisited(proof, p, rows, n - 1);
      var before := VisitAttachments(proof, p, rows, n - 1);
      VisitAttachmentSteps(proof, before, rows[n - 1]);
      hide VisitAttachment, BoundAttachments;
      assert Reports(before, key, uid) ==> Reports(VisitAttachments(proof, p, rows, n), key, uid);
    }
  }

  // ----- The whole pass

  lemma RootsAreRemembered(proof: Proof, kube: Kube, known: map<Key, Uid>)
    ensures AfterFixed(proof, kube, known).owners == Roots(proof, known)
  {
    var slots := FixedSlots(proof);
    FixedSlotsRemember(proof, kube, known, slots, |slots|);
    var p := VisitFixedSlots(proof, kube, Begin(known), slots, |slots|);
    hide VisitFixedSlots;
    forall key | key in p.known && key !in known && OwnerOf(key, p.known[key]).Some?
      ensures OwnerOf(key, p.known[key]).value == proof.CronOwner()
    {
      var i :| 0 <= i < |slots| && key == slots[i].key && p.known[key] == slots[i].uid;
      assert i == 4;
    }
  }

  ghost predicate FixedNow(proof: Proof, kube: Kube, key: Key, uid: Uid) {
    Slot(key, uid) in FixedSlots(proof) && key.resource in kube.fixed
  }

  ghost predicate WorkNow(found: set<Item>, key: Key, uid: Uid) {
    exists item :: item in found && item.Key() == key && item.row.uid == uid
  }

  /** A remembered object that no listing of this pass accounts for, but that can
      still be fetched by its name. */
  ghost predicate LingersNow(proof: Proof, kube: Kube, known: map<Key, Uid>, found: set<Item>, key: Key, uid: Uid) {
    && key in known && key in kube.named && kube.named[key].uid == uid
    && key !in FixedKeys(proof) && key !in KeysOf(found)
    && key !in BoundAttachments(proof, kube.attachments, |kube.attachments|)
  }

  lemma FixedReported(proof: Proof, kube: Kube, known: map<Key, Uid>, key: Key, uid: Uid)
    requires AfterFixed(proof, kube, known).halt.None?
    ensures Reports(AfterFixed(proof, kube, known), key, uid) <==> FixedNow(proof, kube, key, uid)
  {
    var slots := FixedSlots(proof);
    FixedSlotsRemember(proof, kube, known, slots, |slots|);
    hide VisitFixedSlots, FixedSlots;
    assert AfterFixed(proof, kube, known).pending == FixedPresent(kube, slots, |slots|);
    if FixedNow(proof, kube, key, uid) {
      assert Identity(key, uid, None) in FixedPresent(kube, slots, |slots|);
    }
  }

  lemma ItemsReported(proof: Proof, kube: Kube, known: map<Key, Uid>, key: Key, uid: Uid)
    requires AfterItems(proof, kube, known).halt.None?
    ensures
      var q := AfterItems(proof, kube, known);
      Reports(q, key, uid) <==> Reports(AfterFixed(proof, kube, known), key, uid) || WorkNow(q.found, key, uid)
  {
    NothingFoundYet(proof, kube, known);
    ItemsVisited(proof, AfterFixed(proof, kube, known), AllItems(kube), |AllItems(kube)|);
    var p, q := AfterFixed(proof, kube, known), AfterItems(proof, kube, known);
    hide VisitItems, AfterFixed, AfterItems;
    if Reports(p, key, uid) {
      var id :| id in p.pending && id.key == key && id.uid == uid;
      assert id in q.pending;
    }
    if WorkNow(q.found, key, uid) {
      assert Identity(key, uid, None) in q.pending;
    }
  }

  lemma NothingFoundYet(proof: Proof, kube: Kube, known: map<Key, Uid>)
    ensures AfterFixed(proof, kube, known).found == {}
  {
    FixedSlotsRemember(proof, kube, known, FixedSlots(proof), |FixedSlots(proof)|);
  }

  /** After the attachments, whatever is known was known before or has been visited,
      and nothing that was not visited has changed. */
  lemma OnlyVisitedIsNew(proof: Proof, kube: Kube, known: map<Key, Uid>, key: Key)
    ensures
      var p := AfterAttachments(proof, kube, known);
      var visited := FixedKeys(proof) + KeysOf(p.found) + BoundAttachments(proof, kube.attachments, |kube.attachments|);
      && (key in known ==> key in p.known)
      && (key in p.known && key !in visited ==> key in known)
      && (key in known && key !in BoundAttachments(proof, kube.attachments, |kube.attachments|) ==>
          p.known[key] == known[key])
  {
    var slots := FixedSlots(proof);
    FixedSlotsRemember(proof, kube, known, slots, |slots|);
    var a := AfterFixed(proof, kube, known);
    ItemsVisited(proof, a, AllItems(kube), |AllItems(kube)|);
    var b := AfterItems(proof, kube, known);
    AttachmentsVisited(proof, b, kube.attachments, |kube.attachments|);
    hide VisitFixedSlots, VisitItems, VisitAttachments, FixedSlots, KeysOf, BoundAttachments;
    assert key in a.known && key !in known ==> key in FixedKeys(proof);
  }

  lemma LookUpReports(proof: Proof, kube: Kube, known: map<Key, Uid>, key: Key, uid: Uid)
    requires Sweep(proof, kube, known).halt.None?
    ensures
      var p := AfterAttachments(proof, kube, known);
      (Reports(Sweep(proof, kube, known), key, uid)
       <==> Reports(p, key, uid) || LingersNow(proof, kube, known, p.found, key, uid))
  {
    OnlyVisitedIsNew(proof, kube, known, key);
    var p, q := AfterAttachments(proof, kube, known), Sweep(proof, kube, known);
    hide AfterAttachments, FixedKeys, KeysOf, BoundAttachments;
    assert key in Unvisited(proof, kube, p) ==> key in known;
    if Reports(p, key, uid) {
      var id :| id in p.pending && id.key == key && id.uid == uid;
      assert id in q.pending;
    }
    if LingersNow(proof, kube, known, p.found, key, uid) {
      assert Identity(key, uid, None) in q.pending;
    }
  }

  /** What a pass that is not halted reports: the fixed objects that exist, the
      workloads that it found, the attachments on the bound volume, and every other
      remembered object that still exists by name. */
  lemma SweepIsExact(proof: Proof, kube: Kube, known: map<Key, Uid>, key: Key, uid: Uid)
    requires Sweep(proof, kube, known).halt.None?
    ensures
      var p := Sweep(proof, kube, known);
      Reports(p, key, uid) <==>
        || FixedNow(proof, kube, key, uid)
        || WorkNow(p.found, key, uid)
        || AttachedNow(proof, kube.attachments, |kube.attachments|, key, uid)
        || LingersNow(proof, kube, known, p.found, key, uid)
  {
    var b := AfterItems(proof, kube, known);
    AttachmentsVisited(proof, b, kube.attachments, |kube.attachments|);
    NothingFoundYet(proof, kube, known);
    ItemsVisited(proof, AfterFixed(proof, kube, known), AllItems(kube), |AllItems(kube)|);
    FixedReported(proof, kube, known, key, uid);
    ItemsReported(proof, kube, known, key, uid);
    AttachmentsReported(proof, b, kube.attachments, |kube.attachments|, key, uid);
    LookUpReports(proof, kube, known, key, uid);
  }

  /** Where a kind comes in the order of listing. */
  function Rank(resource: Resource): nat {
    match resource
    case Deployments => 0
    case ReplicaSets => 1
    case CronJobs => 2
    case Jobs => 3
    case _ => 4
  }

  lemma RankOfRow(kube: Kube, n: nat, i: nat)
    requires 0 < n <= |KINDS|
    requires |Items(kube, n - 1)| <= i < |Items(kube, n)|
    ensures Rank(Items(kube, n)[i].resource) == n - 1
  {
  }

  lemma ItemsOfKind(kube: Kube, n: nat)
    requires 0 < n <= |KINDS|
    ensures Items(kube, n) == Items(kube, n - 1) + RowsOf(kube, KINDS[n - 1])
  {
  }

  lemma {:induction false} ListedByRank(kube: Kube, n: nat, i: nat, j: nat)
    requires n <= |KINDS|
    requires i <= j < |Items(kube, n)|
    ensures Rank(Items(kube, n)[i].resource) <= Rank(Items(kube, n)[j].resource) < n
  {
    assert n > 0;
    ItemsOfKind(kube, n);
    hide Items, Rank, RowsOf;
    var before := |Items(kube, n - 1)|;
    if j < before {
      ListedByRank(kube, n - 1, i, j);
    } else {
      RankOfRow(kube, n, j);
      if i < before {
        ListedByRank(kube, n - 1, i, i);
      } else {
        RankOfRow(kube, n, i);
      }
    }
  }

  /** Every controller is of a kind that is listed before the kind of what it owns. */
  ghost predicate KindsDescend(kube: Kube) {
    forall a, b :: a in AllItems(kube) && b in AllItems(kube) && a.AsOwner() == Some(b.row.owner) ==>
        Rank(a.resource) < Rank(b.resource)
  }

  lemma KindsDescendPutsControllersFirst(kube: Kube)
    requires KindsDescend(kube)
    ensures ControllersFirst(AllItems(kube))
  {
    var items := AllItems(kube);
    forall i, j | 0 <= i < |items| && 0 <= j < |items| && items[i].AsOwner() == Some(items[j].row.owner) ensures i < j {
      assert Rank(items[i].resource) < Rank(items[j].resource);
      if j < i {
        ListedByRank(kube, |KINDS|, j, i);
      }
    }
  }

  /** The workloads that a pass finds are the least set of listed rows that is closed
      under ownership from the remembered owners; labels play no part. */
  lemma WorkloadsAreTheOwnedOnes(proof: Proof, kube: Kube, known: map<Key, Uid>)
    requires Sweep(proof, kube, known).halt.None? && KindsDescend(kube)
    ensures
      var found := Sweep(proof, kube, known).found;
      && Closed(AllItems(kube), Roots(proof, known), found)
      && forall rows :: Closed(AllItems(kube), Roots(proof, known), rows) ==> found <= rows
  {
    var p, items := AfterFixed(proof, kube, known), AllItems(kube);
    NothingFoundYet(proof, kube, known);
    RootsAreRemembered(proof, kube, known);
    AttachmentsVisited(proof, AfterItems(proof, kube, known), kube.attachments, |kube.attachments|);
    KindsDescendPutsControllersFirst(kube);
    FoundIsClosed(proof, p, items);
    forall rows | Closed(items, Roots(proof, known), rows) ensures VisitItems(proof, p, items, |items|).found <= rows {
      FoundIsLeast(proof, p, items, |items|, rows);
    }
  }

  /** A pass reports nothing exactly when nothing of the fixture exists: none of the
      fixed objects, no listed row with a remembered owner, no attachment on the bound
      volume, and nothing remembered that can still be fetched. */
  lemma EmptyMeansGone(proof: Proof, kube: Kube, known: map<Key, Uid>)
    requires Sweep(proof, kube, known).halt.None?
    ensures
      Sweep(proof, kube, known).pending == {} <==>
        && (forall slot :: slot in FixedSlots(proof) ==> slot.key.resource !in kube.fixed)
        && (forall item :: item in AllItems(kube) ==> item.row.owner !in Roots(proof, known))
        && (forall row :: row in kube.attachments ==> row.pv != proof.pvName)
        && (forall key :: key in known && key !in FixedKeys(proof) ==> key !in kube.named)
  {
    if Sweep(proof, kube, known).pending == {} {
      NothingLeft(proof, kube, known);
    } else {
      var id :| id in Sweep(proof, kube, known).pending;
      assert Reports(Sweep(proof, kube, known), id.key, id.uid);
      SweepIsExact(proof, kube, known, id.key, id.uid);
      if WorkNow(Sweep(proof, kube, known).found, id.key, id.uid) {
        SomethingIsRooted(proof, kube, known);
      }
    }
  }

  lemma NothingLeft(proof: Proof, kube: Kube, known: map<Key, Uid>)
    requires Sweep(proof, kube, known).halt.None? && Sweep(proof, kube, known).pending == {}
    ensures forall slot :: slot in FixedSlots(proof) ==> slot.key.resource !in kube.fixed
    ensures forall item :: item in AllItems(kube) ==> item.row.owner !in Roots(proof, known)
    ensures forall row :: row in kube.attachments ==> row.pv != proof.pvName
    ensures forall key :: key in known && key !in FixedKeys(proof) ==> key !in kube.named
  {
    var p := Sweep(proof, kube, known);
    hide Sweep;
    assert forall key, uid :: !Reports(p, key, uid);
    forall slot | slot in FixedSlots(proof) ensures slot.key.resource !in kube.fixed {
      SweepIsExact(proof, kube, known, slot.key, slot.uid);
    }
    forall item | item in AllItems(kube) ensures item.row.owner !in Roots(proof, known) {
      if item.row.owner in Roots(proof, known) {
        RootedIsFound(proof, kube, known, item);
        SweepIsExact(proof, kube, known, item.Key(), item.row.uid);
      }
    }
    forall row | row in kube.attachments ensures row.pv != proof.pvName {
      SweepIsExact(proof, kube, known, Key(Attachments, row.name), row.uid);
    }
    forall key | key in known && key !in FixedKeys(proof) ensures key !in kube.named {
      if key in kube.named {
        RememberedIsReported(proof, kube, known, key);
      }
    }
  }

  lemma RootedIsFound(proof: Proof, kube: Kube, known: map<Key, Uid>, item: Item)
    requires Sweep(proof, kube, known).halt.None?
    requires item in AllItems(kube) && item.row.owner in Roots(proof, known)
    ensures item in Sweep(proof, kube, known).found
  {
    var p, items := AfterFixed(proof, kube, known), AllItems(kube);
    var j :| 0 <= j < |items| && items[j] == item;
    RootsAreRemembered(proof, kube, known);
    AttachmentsVisited(proof, AfterItems(proof, kube, known), kube.attachments, |kube.attachments|);
    VisitsOnlyAdd(proof, p, items, 0, j);
    VisitsOnlyAdd(proof, p, items, j + 1, |items|);
    VisitItemSteps(proof, VisitItems(proof, p, items, j), items[j]);
  }

  /** If anything was found, then something was found directly under a root. */
  lemma SomethingIsRooted(proof: Proof, kube: Kube, known: map<Key, Uid>)
    requires Sweep(proof, kube, known).halt.None? && Sweep(proof, kube, known).found != {}
    ensures exists item :: item in AllItems(kube) && item.row.owner in Roots(proof, known)
  {
    var p, items := AfterFixed(proof, kube, known), AllItems(kube);
    NothingFoundYet(proof, kube, known);
    RootsAreRemembered(proof, kube, known);
    AttachmentsVisited(proof, AfterItems(proof, kube, known), kube.attachments, |kube.attachments|);
    if forall item :: item in items ==> item.row.owner !in Roots(proof, known) {
      FoundIsLeast(proof, p, items, |items|, {});
    }
  }

  /** No remembered object drops out of the report while it still exists by name. */
  lemma RememberedIsReported(proof: Proof, kube: Kube, known: map<Key, Uid>, key: Key)
    requires Sweep(proof, kube, known).halt.None?
    requires key in known && key !in FixedKeys(proof) && key in kube.named
    ensures exists uid :: Reports(Sweep(proof, kube, known), key, uid)
  {
    var found := Sweep(proof, kube, known).found;
    var rows := kube.attachments;
    hide Sweep;
    if key in KeysOf(found) {
      var item :| item in found && item.Key() == key;
      SweepIsExact(proof, kube, known, key, item.row.uid);
    } else if key in BoundAttachments(proof, rows, |rows|) {
      var i :| 0 <= i < |rows| && rows[i].pv == proof.pvName && key == Key(Attachments, rows[i].name);
      SweepIsExact(proof, kube, known, key, rows[i].uid);
    } else {
      SweepIsExact(proof, kube, known, key, kube.named[key].uid);
    }
  }

  /** However a pass ends, it forgets no key, and it changes the lifetime behind a key
      only to that of an attachment that is listed on the bound volume. */
  lemma SweepForgetsNothing(proof: Proof, kube: Kube, known: map<Key, Uid>)
    ensures
      var after := Sweep(proof, kube, known).known;
      && known.Keys <= after.Keys
      && forall key :: key in known && after[key] != known[key] ==>
           AttachedNow(proof, kube.attachments, |kube.attachments|, key, after[key])
  {
    forall key | key in known
      ensures
        var after := Sweep(proof, kube, known).known;
        && key in after
        && (after[key] != known[key] ==> AttachedNow(proof, kube.attachments, |kube.attachments|, key, after[key]))
    {
      SweepChanges(proof, kube, known, key);
    }
  }

  lemma SweepChanges(proof: Proof, kube: Kube, known: map<Key, Uid>, key: Key)
    requires key in known
    ensures
      var after := Sweep(proof, kube, known).known;
      && key in after
      && (after[key] != known[key] ==> AttachedNow(proof, kube.attachments, |kube.attachments|, key, after[key]))
  {
    var slots := FixedSlots(proof);
    FixedSlotsRemember(proof, kube, known, slots, |slots|);
    var a := AfterFixed(proof, kube, known);
    ItemsVisited(proof, a, AllItems(kube), |AllItems(kube)|);
    var b := AfterItems(proof, kube, known);
    hide VisitFixedSlots, VisitItems, FixedSlots, VisitAttachments, AttachedNow;
    AttachmentsChange(proof, b, kube.attachments, |kube.attachments|, key);
  }

  /** A pass waits for the purge watch only if it listed the purge Job under a UID
      other than the one it remembers. */
  lemma AwaitMeansReplaced(proof: Proof, kube: Kube, known: map<Key, Uid>)
    requires Sweep(proof, kube, known).halt == Some(AwaitPurgeWatch)
    ensures
      var after, key := Sweep(proof, kube, known).known, Key(Jobs, proof.purgeJobName);
      && key in after
      && (key in known ==> after[key] == known[key])
      && exists item :: item in AllItems(kube) && item.Key() == key && item.row.uid != after[key]
  {
    var items, slots := AllItems(kube), FixedSlots(proof);
    FixedSlotsRemember(proof, kube, known, slots, |slots|);
    var a := AfterFixed(proof, kube, known);
    var b := AfterItems(proof, kube, known);
    AttachmentsVisited(proof, b, kube.attachments, |kube.attachments|);
    hide VisitFixedSlots, FixedSlots, VisitAttachments, BoundAttachments, Unvisited;
    assert b.halt == Some(AwaitPurgeWatch) && Sweep(proof, kube, known).known == b.known;
    var i := ItemsAwait(proof, a, items, |items|);
    ItemsVisited(proof, a, items, |items|);
    hide VisitItems, AllItems;
    assert items[i] in items;
  }

  lemma {:induction false} ItemsAwait(proof: Proof, p: Pass, items: seq<Item>, n: nat) returns (i: nat)
    requires n <= |items| && p.halt != Some(AwaitPurgeWatch)
    requires VisitItems(proof, p, items, n).halt == Some(AwaitPurgeWatch)
    ensures
      var known := VisitItems(proof, p, items, n).known;
      && i < n && items[i].Key() == Key(Jobs, proof.purgeJobName)
      && items[i].Key() in known && known[items[i].Key()] != items[i].row.uid
  {
    var before := VisitItems(proof, p, items, n - 1);
    VisitItemSteps(proof, before, items[n - 1]);
    hide VisitItem;
    if before.halt == Some(AwaitPurgeWatch) {
      i := ItemsAwait(proof, p, items, n - 1);
    } else {
      i := n - 1;
    }
  }

  lemma {:induction false} VisitedAlike(proof: Proof, p: Pass, a: seq<Item>, b: seq<Item>, n: nat)
    requires n <= |a| && n <= |b| && a[..n] == b[..n]
    ensures VisitItems(proof, p, a, n) == VisitItems(proof, p, b, n)
  {
    if n > 0 {
      assert a[n - 1] == a[..n][n - 1] == b[..n][n - 1] == b[n - 1];
      assert a[..n - 1] == a[..n][..n - 1] && b[..n - 1] == b[..n][..n - 1];
      VisitedAlike(proof, p, a, b, n - 1);
    }
  }

  // ----- The pass as the program runs it

  /** `known` outlives a pass; the other fields are its local variables. Once `halt` is
      set, as by an exception, the rest of the pass does nothing. */
  class Inventory {
    const proof: Proof
    var known: map<Key, Uid>
    var pending: set<Identity>
    var owners: set<Owner>
    var observed: set<Key>
    var halt: Option<Halt>
    ghost var found: set<Item>

    ghost predicate Valid()
      reads this
    {
      observed == KeysOf(found)
    }

    ghost function State(): Pass
      reads this
    {
      Pass(known, pending, owners, found, halt)
    }

    constructor (proof: Proof)
      ensures this.proof == proof && known == map[] && Valid()
    {
      this.proof := proof;
      known, pending, owners, observed, halt, found := map[], {}, {}, {}, None, {};
    }

    /** One whole pass. */
    method Run(kube: Kube)
      requires Valid()
      modifies this
      ensures Valid()
      ensures State() == Sweep(proof, kube, old(known))
    {
      pending, owners, observed, halt, found := {}, {}, {}, None, {};
      VisitFixedObjects(kube);
      owners := {proof.AppOwner(), proof.CronOwner()}
                + set key | key in known && OwnerOf(key, known[key]).Some? :: OwnerOf(key, known[key]).value;
      VisitListedWorkloads(kube);
      VisitListedAttachments(kube);
      LookUpRemembered(kube);
    }

    method RememberObject(key: Key, uid: Uid, onBoundVolume: bool)
      requires Valid()
      modifies this`known, this`pending, this`halt
      ensures Valid()
      ensures State() == Remember(proof, old(State()), key, uid, onBoundVolume)
    {
      var changed := key in known && known[key] != uid;
      if changed && key == Key(Jobs, proof.purgeJobName) {
        halt := Some(AwaitPurgeWatch);
        return;
      }
      if changed && !(key.resource == Attachments && onBoundVolume) {
        halt := Some(ReplacedLifetime);
        return;
      }
      var prior := if changed then Some(known[key]) else None;
      known := known[key := uid];
      pending := pending + {Identity(key, uid, prior)};
    }

    method VisitFixedObjects(kube: Kube)
      requires Valid()
      modifies this
      ensures Valid()
      ensures State() == VisitFixedSlots(proof, kube, old(State()), FixedSlots(proof), |FixedSlots(proof)|)
    {
      ghost var start := State();
      var slots := FixedSlots(proof);
      hide FixedSlots, IsOwnFixedRow;
      for i := 0 to |slots|
        invariant Valid()
        invariant State() == VisitFixedSlots(proof, kube, start, slots, i)
      {
        var slot := slots[i];
        if halt.None? && slot.key.resource in kube.fixed {
          var row := kube.fixed[slot.key.resource];
          if row.uid != slot.uid {
            halt := Some(ReplacedLifetime);
          } else if !IsOwnFixedRow(proof, slot, row) {
            halt := Some(ForeignFixedObject);
          } else {
            RememberObject(slot.key, row.uid, false);
          }
        }
      }
    }

    method VisitListedWorkloads(kube: Kube)
      requires Valid()
      modifies this
      ensures Valid()
      ensures State() == VisitItems(proof, old(State()), AllItems(kube), |AllItems(kube)|)
    {
      hide Inventory.Valid, VisitItem, RowsOf;
      ghost var start := State();
      for k := 0 to |KINDS|
        invariant Valid()
        invariant State() == VisitItems(proof, start, Items(kube, k), |Items(kube, k)|)
      {
        ghost var before := Items(kube, k);
        var rows := RowsOf(kube, KINDS[k]);
        ItemsOfKind(kube, k + 1);
        VisitedAlike(proof, start, before, before + rows, |before|);
        VisitRows(rows, start, before);
      }
    }

    /** The rows of one kind, after the rows `before` of the kinds before it. */
    method VisitRows(rows: seq<Item>, ghost start: Pass, ghost before: seq<Item>)
      requires Valid()
      requires State() == VisitItems(proof, start, before + rows, |before|)
      modifies this
      ensures Valid()
      ensures State() == VisitItems(proof, start, before + rows, |before + rows|)
    {
      hide Inventory.Valid, VisitItem;
      for i := 0 to |rows|
        invariant Valid()
        invariant State() == VisitItems(proof, start, before + rows, |before| + i)
      {
        VisitWorkload(rows[i]);
      }
    }

    method VisitWorkload(item: Item)
      requires Valid()
      modifies this
      ensures Valid()
      ensures State() == VisitItem(proof, old(State()), item)
    {
      var row := item.row;
      if halt.Some? || (row.app != proof.appName && row.appUid != proof.appUid && row.owner !in owners) {
        return;
      }
      if !IsOwnWorkload(proof, owners, row) {
        halt := Some(ForeignWorkload);
        return;
      }
      if item.resource == Jobs && row.name == proof.backupJobName
         && proof.backupJobUid.Some? && proof.backupJobUid.value != row.uid {
        halt := Some(BackupJobChanged);
        return;
      }
      hide IsOwnWorkload;
      RememberObject(item.Key(), row.uid, false);
      if halt.None? {
        SetsGrow(found, item);
        observed, found := observed + {item.Key()}, found + {item};
        var owner := item.AsOwner();
        owners := owners + if owner.Some? then {owner.value} else {};
      }
    }

    method VisitListedAttachments(kube: Kube)
      requires Valid()
      modifies this
      ensures Valid()
      ensures State() == VisitAttachments(proof, old(State()), kube.attachments, |kube.attachments|)
    {
      ghost var start := State();
      for i := 0 to |kube.attachments|
        invariant Valid()
        invariant State() == VisitAttachments(proof, start, kube.attachments, i)
      {
        var row := kube.attachments[i];
        if halt.None? && row.pv == proof.pvName {
          RememberObject(Key(Attachments, row.name), row.uid, true);
        }
      }
    }

    /** The keys that need a lookup are taken in any order: the report is sorted. */
    method LookUpRemembered(kube: Kube)
      requires Valid()
      modifies this
      ensures Valid()
      ensures State() == LookUp(proof, kube, old(State()))
    {
      if halt.Some? {
        return;
      }
      var attached := BoundAttachments(proof, kube.attachments, |kube.attachments|);
      var todo := known.Keys - FixedKeys(proof) - observed - attached;
      hide FixedKeys, BoundAttachments;
      ghost var all, present := todo, set key | key in todo && key in kube.named;
      var lingering: set<Identity> := {};
      while todo != {}
        invariant todo <= all
        invariant forall key :: key in present - todo ==> KeepsItsPlace(proof, known, key, kube.named[key])
        invariant lingering == set key | key in present - todo :: Identity(key, kube.named[key].uid, None)
        decreases todo
      {
        var key :| key in todo;
        todo := todo - {key};
        if key in kube.named {
          var row := kube.named[key];
          if !KeepsItsPlace(proof, known, key, row) {
            halt := Some(ReplacedLifetime);
            return;
          }
          lingering := lingering + {Identity(key, row.uid, None)};
        }
      }
      assert present - todo == present;
      pending := pending + lingering;
    }
  }
}
