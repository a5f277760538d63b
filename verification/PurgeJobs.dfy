/** The lifetimes of the purge Job, as `PurgeAttempts` follows them through the
    replayed watch. */
module PurgeJobs {
  import opened Wrappers
  import opened Fixture

  const MAX_ATTEMPTS := 128
  const OPERATOR_IMAGE := "ghcr.io/bex-co/bex-operator@sha256:"

  /** One projected row of the purge Job watch. */
  datatype JobRow = JobRow(
    event: EventKind,
    name: string,
    uid: Uid,
    resourceVersion: string,
    namespace: string,
    owner: Owner,
    app: string,
    appUid: string,
    workspace: string,
    appNamespace: string,
    component: string,
    complete: string,
    image: string,
    command: seq<string>,
    args: seq<string>,
    containerNames: string,
    initNames: string,
    volumes: string,
    workspaceEnv: string,
    diskEnv: string,
    location: map<string, string>)

  datatype Trust = Approved | Unapproved

  /** What the observer has learnt about one Job lifetime. */
  datatype Attempt = Attempt(
    name: string,
    uid: Uid,
    namespace: string,
    ownerAppUid: string,
    image: string,
    trust: Trust,
    jobCompleteObserved: bool,
    deletedObserved: bool,
    resourceVersion: string)

  datatype Refusal = PolicyViolated | ReplacedTooEarly | TooManyAttempts | ImageChanged | Reappeared

  /** The reviewed policy that every row must satisfy. */
  datatype Policy = Policy(proof: Proof, location: map<string, string>)

  predicate IsLowerHex(c: char) {
    '0' <= c <= '9' || 'a' <= c <= 'f'
  }

  predicate IsUuid(s: string) {
    && |s| == 36
    && forall i :: 0 <= i < 36 ==> if i in {8, 13, 18, 23} then s[i] == '-' else IsLowerHex(s[i])
  }

  predicate IsOperatorDigest(s: string) {
    && |s| == |OPERATOR_IMAGE| + 64
    && OPERATOR_IMAGE <= s
    && forall i :: |OPERATOR_IMAGE| <= i < |s| ==> IsLowerHex(s[i])
  }

  /** The guard of `verify_purge_event`. */
  predicate Verified(policy: Policy, row: JobRow) {
    var proof := policy.proof;
    && row.name == proof.purgeJobName
    && row.namespace == proof.namespace
    && row.app == proof.appName
    && row.appUid == proof.appUid
    && row.workspace == proof.namespace
    && row.appNamespace == proof.namespace
    && row.component == "disk-snapshot-purge"
    && row.owner == proof.AppOwner()
    && IsUuid(row.uid)
    && IsOperatorDigest(proof.backupImage)
    && IsOperatorDigest(row.image)
    && row.containerNames == "snapshot;"
    && row.initNames == ""
    && row.volumes in {"", "[]"}
    && row.command == ["/disk-snapshot"]
    && row.args == ["purge"]
    && row.workspaceEnv == proof.namespace
    && row.diskEnv == proof.appName
    && forall key :: key in policy.location ==> key in row.location && row.location[key] == policy.location[key]
  }

  function TrustOf(policy: Policy, row: JobRow): Trust {
    if row.image == policy.proof.backupImage then Approved else Unapproved
  }

  function Uids(attempts: seq<Attempt>): (uids: seq<Uid>)
    ensures |uids| == |attempts| && forall i :: 0 <= i < |uids| ==> uids[i] == attempts[i].uid
  {
    seq(|attempts|, i requires 0 <= i < |attempts| => attempts[i].uid)
  }

  /** The value that the class below represents: the lifetimes in the order in which
      they were first seen. While `live` holds, the last of them is the current one. */
  datatype History = History(attempts: seq<Attempt>, live: bool)
  {
    ghost predicate Valid() {
      && |attempts| <= MAX_ATTEMPTS
      && (live ==> attempts != [])
      && (!live ==> attempts == [] || |attempts| == MAX_ATTEMPTS)
      && (forall i, j :: 0 <= i < j < |attempts| ==> attempts[i].uid != attempts[j].uid)
      && (forall i :: 0 <= i < |attempts| && !(live && i == |attempts| - 1) ==> attempts[i].deletedObserved)
    }

    predicate Knows(uid: Uid) {
      uid in Uids(attempts)
    }

    function Current(): Option<Attempt> {
      if live && attempts != [] then Some(attempts[|attempts| - 1]) else None
    }

    /** The current lifetime, if it is approved and was seen complete. */
    function Completion(): Option<Attempt> {
      if Current().Some? && Current().value.trust == Approved && Current().value.jobCompleteObserved
      then Current() else None
    }
  }

  const NOTHING := History([], false)

  function Fresh(policy: Policy, row: JobRow): Attempt {
    Attempt(row.name, row.uid, policy.proof.namespace, policy.proof.appUid, row.image, TrustOf(policy, row),
            false, false, "")
  }

  function Updated(a: Attempt, row: JobRow): Attempt {
    a.(resourceVersion := row.resourceVersion,
       jobCompleteObserved := a.jobCompleteObserved || row.complete == "True",
       deletedObserved := a.deletedObserved || row.event == Deleted)
  }

  /** The reply says whether the row began the lifetime of a replacement Job. */
  datatype Outcome = Outcome(next: History, reply: Result<bool, Refusal>)

  function Follow(policy: Policy, h: History, row: JobRow): (o: Outcome)
    ensures o.reply.Success? ==> o.next.Current().Some?
  {
    if !Verified(policy, row) then
      Outcome(h, Failure(PolicyViolated))
    else
      var replaced := h.Current().Some? && h.Current().value.uid != row.uid;
      if replaced && (!h.Current().value.deletedObserved || h.Knows(row.uid)) then
        Outcome(h, Failure(ReplacedTooEarly))
      else if (replaced || h.Current().None?) && |h.attempts| >= MAX_ATTEMPTS then
        Outcome(h.(live := false), Failure(TooManyAttempts))
      else
        var grown := if replaced || h.Current().None? then h.attempts + [Fresh(policy, row)] else h.attempts;
        var last := grown[|grown| - 1];
        if last.image != row.image then
          Outcome(h, Failure(ImageChanged))
        else if last.deletedObserved && row.event != Deleted then
          Outcome(h, Failure(Reappeared))
        else
          Outcome(History(grown[|grown| - 1 := Updated(last, row)], true), Success(replaced))
  }

  // The two halves of `Follow`: whose row it is, and what it adds.

  predicate Begins(h: History, row: JobRow) {
    h.Current().None? || h.Current().value.uid != row.uid
  }

  function AdmitRefusal(h: History, row: JobRow): Option<Refusal> {
    if !Begins(h, row) then None
    else if h.Current().Some? && (!h.Current().value.deletedObserved || h.Knows(row.uid)) then Some(ReplacedTooEarly)
    else if |h.attempts| >= MAX_ATTEMPTS then Some(TooManyAttempts)
    else None
  }

  function Admitted(policy: Policy, h: History, row: JobRow): History {
    match AdmitRefusal(h, row)
    case Some(ReplacedTooEarly) => h
    case Some(_) => h.(live := false)
    case None => History(if Begins(h, row) then h.attempts + [Fresh(policy, row)] else h.attempts, true)
  }

  function ContinueRefusal(a: Attempt, row: JobRow): Option<Refusal> {
    if a.image != row.image then Some(ImageChanged)
    else if a.deletedObserved && row.event != Deleted then Some(Reappeared)
    else None
  }

  function Continued(attempts: seq<Attempt>, row: JobRow): seq<Attempt>
    requires attempts != []
  {
    var last := attempts[|attempts| - 1];
    if ContinueRefusal(last, row).Some? then attempts else attempts[|attempts| - 1 := Updated(last, row)]
  }

  /** A row is checked, admitted and folded in. A row that begins a lifetime cannot contradict
      it, so that a refusal of the second kind leaves the history as it was. */
  lemma FollowInSteps(policy: Policy, h: History, row: JobRow)
    requires Verified(policy, row)
    ensures
      var next, refusal := Admitted(policy, h, row), AdmitRefusal(h, row);
      var o := Follow(policy, h, row);
      if refusal.Some? then o == Outcome(next, Failure(refusal.value))
      else
        && next.attempts != []
        && var last := next.attempts[|next.attempts| - 1];
        && o.next == History(Continued(next.attempts, row), true)
        && o.reply == if ContinueRefusal(last, row).Some? then Failure(ContinueRefusal(last, row).value)
                      else Success(h.Current().Some? && Begins(h, row))
  {
    hide Verified;
  }

  /** The history after a whole sequence of rows, or the first refusal. */
  function Replay(policy: Policy, rows: seq<JobRow>): (r: Result<History, Refusal>)
    ensures r.Success? ==> r.value.Valid() && (r.value.live <==> rows != [])
  {
    if rows == [] then Success(NOTHING)
    else
      var before := Replay(policy, rows[..|rows| - 1]);
      if before.Failure? then before
      else
        var o := Follow(policy, before.value, rows[|rows| - 1]);
        if o.reply.Failure? then Failure(o.reply.error)
        else
          FollowKeepsValid(policy, before.value, rows[|rows| - 1]);
          Success(o.next)
  }

  lemma FollowKeepsValid(policy: Policy, h: History, row: JobRow)
    requires h.Valid()
    ensures Follow(policy, h, row).next.Valid()
    ensures Follow(policy, h, row).reply.Success? ==> Follow(policy, h, row).next.live
  {
  }

  // ----- What an accepted sequence of rows looks like, said without the history

  /** The UIDs in order of first appearance. */
  function Lifetimes(rows: seq<JobRow>): seq<Uid> {
    if rows == [] then []
    else
      var before := Lifetimes(rows[..|rows| - 1]);
      var uid := rows[|rows| - 1].uid;
      if uid in before then before else before + [uid]
  }

  ghost predicate SeenComplete(rows: seq<JobRow>, uid: Uid) {
    exists i :: 0 <= i < |rows| && rows[i].uid == uid && rows[i].complete == "True"
  }

  ghost predicate SeenDeleted(rows: seq<JobRow>, uid: Uid) {
    exists i :: 0 <= i < |rows| && rows[i].uid == uid && rows[i].event == Deleted
  }

  /** The row at `j` continues the lifetime of the row before it, or that lifetime was
      deleted and the UID is new. */
  ghost predicate FollowsFairly(rows: seq<JobRow>, j: nat)
    requires 0 < j < |rows|
  {
    || rows[j - 1].uid == rows[j].uid
    || (&& (exists i :: 0 <= i < j && rows[i].uid == rows[j - 1].uid && rows[i].event == Deleted)
        && (forall i :: 0 <= i < j ==> rows[i].uid != rows[j].uid))
  }

  /** The sequences of rows that a well-behaved purge produces: each row satisfies
      the policy; a lifetime keeps its image and ends with its deletion; another
      lifetime starts only after that, with a UID never seen before; and there are
      at most 128 lifetimes. */
  ghost predicate Acceptable(policy: Policy, rows: seq<JobRow>) {
    && (forall i :: 0 <= i < |rows| ==> Verified(policy, rows[i]))
    && (forall i, j :: 0 <= i < j < |rows| && rows[i].uid == rows[j].uid ==> rows[i].image == rows[j].image)
    && (forall i, j :: 0 <= i < j < |rows| && rows[i].uid == rows[j].uid && rows[i].event == Deleted ==>
        rows[j].event == Deleted)
    && (forall j :: 0 < j < |rows| ==> FollowsFairly(rows, j))
    && |Lifetimes(rows)| <= MAX_ATTEMPTS
  }

  /** The attempt is exactly the summary of the rows with its UID. */
  ghost predicate Summarises(policy: Policy, rows: seq<JobRow>, a: Attempt) {
    && a.name == policy.proof.purgeJobName
    && a.namespace == policy.proof.namespace
    && a.ownerAppUid == policy.proof.appUid
    && (exists i :: 0 <= i < |rows| && rows[i].uid == a.uid)
    && (forall i :: 0 <= i < |rows| && rows[i].uid == a.uid ==>
        rows[i].image == a.image && TrustOf(policy, rows[i]) == a.trust)
    && (a.jobCompleteObserved <==> SeenComplete(rows, a.uid))
    && (a.deletedObserved <==> SeenDeleted(rows, a.uid))
    && (exists i :: 0 <= i < |rows| && rows[i].uid == a.uid && rows[i].resourceVersion == a.resourceVersion
                    && forall j :: i < j < |rows| ==> rows[j].uid != a.uid)
  }

  ghost predicate Represents(policy: Policy, rows: seq<JobRow>, h: History) {
    && h.Valid()
    && Uids(h.attempts) == Lifetimes(rows)
    && (forall k :: 0 <= k < |h.attempts| ==> Summarises(policy, rows, h.attempts[k]))
    && (h.live <==> rows != [])
    && (rows != [] ==> h.attempts[|h.attempts| - 1].uid == rows[|rows| - 1].uid)
  }

  ghost predicate MayFollow(policy: Policy, before: seq<JobRow>, row: JobRow) {
    && Verified(policy, row)
    && (forall i :: 0 <= i < |before| && before[i].uid == row.uid ==>
          before[i].image == row.image && (before[i].event == Deleted ==> row.event == Deleted))
    && (before != [] && before[|before| - 1].uid != row.uid ==>
          SeenDeleted(before, before[|before| - 1].uid) && forall i :: 0 <= i < |before| ==> before[i].uid != row.uid)
    && (row.uid in Lifetimes(before) || |Lifetimes(before)| < MAX_ATTEMPTS)
  }

  lemma {:induction false} LifetimesAreTheUids(rows: seq<JobRow>, uid: Uid)
    ensures uid in Lifetimes(rows) <==> exists i :: 0 <= i < |rows| && rows[i].uid == uid
  {
    if rows != [] {
      LifetimesAreTheUids(rows[..|rows| - 1], uid);
      assert rows == rows[..|rows| - 1] + [rows[|rows| - 1]];
    }
  }

  lemma AcceptableExtends(policy: Policy, before: seq<JobRow>, row: JobRow)
    ensures Acceptable(policy, before + [row]) <==> Acceptable(policy, before) && MayFollow(policy, before, row)
  {
    if Acceptable(policy, before + [row]) {
      AcceptablePrefix(policy, before, row);
    }
    if Acceptable(policy, before) && MayFollow(policy, before, row) {
      AcceptableLonger(policy, before, row);
    }
  }

  lemma AcceptablePrefix(policy: Policy, before: seq<JobRow>, row: JobRow)
    requires Acceptable(policy, before + [row])
    ensures Acceptable(policy, before) && MayFollow(policy, before, row)
  {
    hide Verified;
    var rows := before + [row];
    var n := |before|;
    assert rows[..n] == before && rows[n] == row;
    assert forall i :: 0 <= i < n ==> before[i] == rows[i];
    forall j | 0 < j < n ensures FollowsFairly(before, j) {
      assert FollowsFairly(rows, j);
    }
    if 0 < n {
      assert FollowsFairly(rows, n);
    }
    assert Verified(policy, rows[n]);
  }

  lemma AcceptableLonger(policy: Policy, before: seq<JobRow>, row: JobRow)
    requires Acceptable(policy, before) && MayFollow(policy, before, row)
    ensures Acceptable(policy, before + [row])
  {
    hide Verified;
    var rows := before + [row];
    var n := |before|;
    assert rows[..n] == before && rows[n] == row;
    assert forall i :: 0 <= i < n ==> rows[i] == before[i];
    forall j | 0 < j < |rows| ensures FollowsFairly(rows, j) {
      if j < n {
        assert FollowsFairly(before, j);
      }
    }
  }

  /** What the history says about the UIDs and the current lifetime. */
  ghost predicate CurrentAgrees(before: seq<JobRow>, h: History, uid: Uid) {
    && (h.live <==> before != [])
    && |h.attempts| == |Lifetimes(before)|
    && (h.live ==>
          && h.attempts != []
          && (h.Knows(uid) <==> exists i :: 0 <= i < |before| && before[i].uid == uid)
          && var last := h.attempts[|h.attempts| - 1];
          && last.uid == before[|before| - 1].uid
          && (last.deletedObserved <==> SeenDeleted(before, last.uid))
          && (forall i :: 0 <= i < |before| && before[i].uid == last.uid ==> before[i].image == last.image))
  }

  lemma HistoryAgrees(policy: Policy, before: seq<JobRow>, h: History, uid: Uid)
    requires Represents(policy, before, h)
    ensures CurrentAgrees(before, h, uid)
  {
    hide Verified;
    LifetimesAreTheUids(before, uid);
    if h.live {
      assert Summarises(policy, before, h.attempts[|h.attempts| - 1]);
    }
  }

  /** One row: what `Follow` does agrees with what the sequence of rows says. */
  lemma FollowDecides(policy: Policy, before: seq<JobRow>, h: History, row: JobRow)
    requires CurrentAgrees(before, h, row.uid)
    ensures Follow(policy, h, row).reply.Success? <==> MayFollow(policy, before, row)
  {
    hide Verified;
    LifetimesAreTheUids(before, row.uid);
    if !h.live {
    } else if h.Current().value.uid == row.uid {
      assert before[|before| - 1].uid == row.uid;
    } else {
    }
  }

  /** The attempt that an accepted row updates. */
  function Target(policy: Policy, h: History, row: JobRow): Attempt
  {
    if h.Current().Some? && h.Current().value.uid == row.uid then h.Current().value else Fresh(policy, row)
  }

  /** An accepted row updates one attempt, at the end, and touches no other. */
  lemma FollowShape(policy: Policy, h: History, row: JobRow)
    requires h.Valid() && Follow(policy, h, row).reply.Success?
    ensures
      var next := Follow(policy, h, row).next;
      var kept := if h.live && h.Current().value.uid == row.uid then h.attempts[..|h.attempts| - 1] else h.attempts;
      next == History(kept + [Updated(Target(policy, h, row), row)], true)
  {
  }

  lemma FollowRepresents(policy: Policy, before: seq<JobRow>, h: History, row: JobRow)
    requires Represents(policy, before, h)
    requires Follow(policy, h, row).reply.Success?
    ensures Represents(policy, before + [row], Follow(policy, h, row).next)
  {
    hide Verified, Follow, Target, Summarises;
    FollowKeepsValid(policy, h, row);
    UidsExtend(policy, h, row);
    LifetimesExtend(before, row);
    forall k | 0 <= k < |Follow(policy, h, row).next.attempts|
      ensures Summarises(policy, before + [row], Follow(policy, h, row).next.attempts[k])
    {
      AttemptSummarises(policy, before, h, row, k);
    }
    LastUid(policy, h, row);
  }

  lemma LastUid(policy: Policy, h: History, row: JobRow)
    requires h.Valid() && Follow(policy, h, row).reply.Success?
    ensures
      var next := Follow(policy, h, row).next;
      next.live && next.attempts != [] && next.attempts[|next.attempts| - 1].uid == row.uid
  {
  }

  lemma AttemptSummarises(policy: Policy, before: seq<JobRow>, h: History, row: JobRow, k: nat)
    requires Represents(policy, before, h)
    requires Follow(policy, h, row).reply.Success?
    requires k < |Follow(policy, h, row).next.attempts|
    ensures Summarises(policy, before + [row], Follow(policy, h, row).next.attempts[k])
  {
    hide Verified, Follow, Target, Summarises;
    FollowKeepsValid(policy, h, row);
    FollowShape(policy, h, row);
    LastUid(policy, h, row);
    var attempts := Follow(policy, h, row).next.attempts;
    if k < |attempts| - 1 {
      assert attempts[k] == h.attempts[k] && attempts[k].uid != attempts[|attempts| - 1].uid;
      SummaryIsKept(policy, before, row, h.attempts[k]);
    } else {
      TargetSummarises(policy, before, h, row);
    }
  }

  lemma TargetUid(policy: Policy, h: History, row: JobRow)
    ensures Updated(Target(policy, h, row), row).uid == row.uid
  {
  }

  lemma LifetimesExtend(before: seq<JobRow>, row: JobRow)
    ensures Lifetimes(before + [row])
         == if row.uid in Lifetimes(before) then Lifetimes(before) else Lifetimes(before) + [row.uid]
  {
  }

  /** The UIDs of the history grow just as the lifetimes of the rows do. */
  lemma UidsExtend(policy: Policy, h: History, row: JobRow)
    requires h.Valid() && Follow(policy, h, row).reply.Success?
    ensures
      var uids := Uids(h.attempts);
      Uids(Follow(policy, h, row).next.attempts) == if row.uid in uids then uids else uids + [row.uid]
  {
    FollowShape(policy, h, row);
    TargetUid(policy, h, row);
    var uids := Uids(h.attempts);
    if h.live && h.Current().value.uid == row.uid {
      hide Verified, Follow, Target, Updated;
      assert uids[|uids| - 1] == row.uid;
      assert Uids(Follow(policy, h, row).next.attempts) == uids;
    } else {
      assert h.live ==> !h.Knows(row.uid);
      assert !h.live ==> h.attempts == [];
      hide Verified, Follow, Target, Updated;
      assert Uids(Follow(policy, h, row).next.attempts) == uids + [row.uid];
    }
  }

  lemma TargetSummarises(policy: Policy, before: seq<JobRow>, h: History, row: JobRow)
    requires Represents(policy, before, h)
    requires Follow(policy, h, row).reply.Success?
    ensures Summarises(policy, before + [row], Updated(Target(policy, h, row), row))
  {
    HistoryAgrees(policy, before, h, row.uid);
    FollowDecides(policy, before, h, row);
    hide Verified, Summarises, Follow;
    SummaryIsUpdated(policy, before, row, Target(policy, h, row), !h.live || h.Current().value.uid != row.uid);
  }

  lemma SeenExtends(before: seq<JobRow>, row: JobRow, uid: Uid)
    ensures SeenComplete(before + [row], uid)
        <==> SeenComplete(before, uid) || (row.uid == uid && row.complete == "True")
    ensures SeenDeleted(before + [row], uid) <==> SeenDeleted(before, uid) || (row.uid == uid && row.event == Deleted)
  {
    var rows := before + [row];
    assert rows[|before|] == row;
    assert forall i :: 0 <= i < |before| ==> before[i] == rows[i];
    if SeenComplete(before, uid) {
      var i :| 0 <= i < |before| && before[i].uid == uid && before[i].complete == "True";
      assert rows[i].complete == "True";
    }
    if SeenDeleted(before, uid) {
      var i :| 0 <= i < |before| && before[i].uid == uid && before[i].event == Deleted;
      assert rows[i].event == Deleted;
    }
  }

  lemma SummaryIsKept(policy: Policy, before: seq<JobRow>, row: JobRow, a: Attempt)
    requires Summarises(policy, before, a) && a.uid != row.uid
    ensures Summarises(policy, before + [row], a)
  {
    hide Verified;
    SeenExtends(before, row, a.uid);
    hide SeenComplete, SeenDeleted;
    var rows := before + [row];
    assert forall i :: 0 <= i < |before| ==> rows[i] == before[i];
    var i :| 0 <= i < |before| && before[i].uid == a.uid && before[i].resourceVersion == a.resourceVersion
             && forall j :: i < j < |before| ==> before[j].uid != a.uid;
    assert rows[i].uid == a.uid && rows[i].resourceVersion == a.resourceVersion;
  }

  lemma SummaryIsUpdated(policy: Policy, before: seq<JobRow>, row: JobRow, a: Attempt, opens: bool)
    requires MayFollow(policy, before, row) && a.uid == row.uid
    requires opens ==> a == Fresh(policy, row) && forall i :: 0 <= i < |before| ==> before[i].uid != row.uid
    requires !opens ==> Summarises(policy, before, a)
    ensures Summarises(policy, before + [row], Updated(a, row))
  {
    assert row.name == policy.proof.purgeJobName;
    hide Verified;
    SeenExtends(before, row, a.uid);
    assert opens ==> !SeenComplete(before, a.uid) && !SeenDeleted(before, a.uid);
    hide SeenComplete, SeenDeleted;
    var rows := before + [row];
    assert rows[|before|] == row;
    assert forall i :: 0 <= i < |before| ==> rows[i] == before[i];
  }

  /** The rows that `PurgeAttempts` accepts are exactly the acceptable ones, and the
      history is then the summary of the rows, lifetime by lifetime. */
  lemma {:induction false} AcceptsExactlyAcceptableRows(policy: Policy, rows: seq<JobRow>)
    ensures Replay(policy, rows).Success? <==> Acceptable(policy, rows)
    ensures Replay(policy, rows).Success? ==> Represents(policy, rows, Replay(policy, rows).value)
  {
    if rows != [] {
      var before, row := rows[..|rows| - 1], rows[|rows| - 1];
      assert rows == before + [row];
      hide Follow, Acceptable, Represents;
      AcceptsExactlyAcceptableRows(policy, before);
      AcceptableExtends(policy, before, row);
      if Replay(policy, before).Success? {
        var h := Replay(policy, before).value;
        HistoryAgrees(policy, before, h, row.uid);
        FollowDecides(policy, before, h, row);
        if Follow(policy, h, row).reply.Success? {
          FollowRepresents(policy, before, h, row);
        }
      }
    }
  }

  /** A completed purge is proved exactly when the last lifetime runs the reviewed
      image and one of its own rows said so. */
  lemma CompletionMeans(policy: Policy, rows: seq<JobRow>)
    requires Acceptable(policy, rows)
    ensures
      && Replay(policy, rows).Success?
      && (Replay(policy, rows).value.Completion().Some? <==>
            && rows != []
            && rows[|rows| - 1].image == policy.proof.backupImage
            && SeenComplete(rows, rows[|rows| - 1].uid))
  {
    AcceptsExactlyAcceptableRows(policy, rows);
    hide Verified, Replay;
    var h := Replay(policy, rows).value;
    if h.live {
      assert Summarises(policy, rows, h.Current().value);
      assert rows[|rows| - 1].uid == h.Current().value.uid;
    }
  }

  /** An accepted row is answered with whether it began another lifetime. */
  lemma FollowReplies(policy: Policy, h: History, row: JobRow)
    requires Follow(policy, h, row).reply.Success?
    ensures Follow(policy, h, row).reply.value <==> h.Current().Some? && h.Current().value.uid != row.uid
  {
    hide Verified;
  }

  lemma ReplayOneMore(policy: Policy, rows: seq<JobRow>, row: JobRow)
    requires Replay(policy, rows).Success?
    ensures
      var o := Follow(policy, Replay(policy, rows).value, row);
      Replay(policy, rows + [row]) == if o.reply.Success? then Success(o.next) else Failure(o.reply.error)
  {
    hide Follow, History.Valid;
    assert (rows + [row])[..|rows|] == rows;
  }

  lemma CurrentIsTheLastRow(policy: Policy, rows: seq<JobRow>)
    requires Replay(policy, rows).Success?
    ensures
      var h := Replay(policy, rows).value;
      if rows == [] then h.Current().None? else h.Current().Some? && h.Current().value.uid == rows[|rows| - 1].uid
  {
    hide Acceptable, Lifetimes, Summarises;
    AcceptsExactlyAcceptableRows(policy, rows);
    hide Replay;
  }

  /** One more row on top of a replayed sequence; the reply tells whether it changed
      the lifetime. */
  lemma FollowExtendsReplay(policy: Policy, rows: seq<JobRow>, row: JobRow)
    requires Replay(policy, rows).Success?
    requires Follow(policy, Replay(policy, rows).value, row).reply.Success?
    ensures
      var o := Follow(policy, Replay(policy, rows).value, row);
      && Replay(policy, rows + [row]) == Success(o.next)
      && (o.reply.value <==> rows != [] && rows[|rows| - 1].uid != row.uid)
  {
    CurrentIsTheLastRow(policy, rows);
    FollowReplies(policy, Replay(policy, rows).value, row);
    ReplayOneMore(policy, rows, row);
    hide Follow, Replay, History.Valid;
  }

  /** The trust of the current lifetime is that of the last row, and its completion flag tells
      whether one of its own rows said so. */
  lemma CurrentSpeaksForItsRows(policy: Policy, rows: seq<JobRow>, h: History)
    requires Represents(policy, rows, h) && h.Current().Some?
    ensures rows != [] && (h.Current().value.trust == Approved <==> rows[|rows| - 1].image == policy.proof.backupImage)
    ensures h.Current().value.jobCompleteObserved <==> SeenComplete(rows, rows[|rows| - 1].uid)
  {
  }

  // ----- The class itself

  /** One entry of the dictionary. The identity, image and trust are fixed when the
      lifetime is first seen. */
  class AttemptRecord {
    const name: string
    const uid: Uid
    const namespace: string
    const ownerAppUid: string
    const image: string
    const trust: Trust
    var jobCompleteObserved: bool
    var deletedObserved: bool
    var resourceVersion: string

    constructor (policy: Policy, row: JobRow)
      ensures View() == Fresh(policy, row)
    {
      name, uid := row.name, row.uid;
      namespace, ownerAppUid := policy.proof.namespace, policy.proof.appUid;
      image, trust := row.image, TrustOf(policy, row);
      jobCompleteObserved, deletedObserved, resourceVersion := false, false, "";
    }

    function View(): Attempt
      reads this
    {
      Attempt(name, uid, namespace, ownerAppUid, image, trust, jobCompleteObserved, deletedObserved, resourceVersion)
    }

    /** Notes what a row says; the flags only rise. */
    method Update(row: JobRow)
      modifies this
      ensures View() == Updated(old(View()), row)
    {
      resourceVersion := row.resourceVersion;
      jobCompleteObserved := jobCompleteObserved || row.complete == "True";
      deletedObserved := deletedObserved || row.event == Deleted;
    }
  }

  /** `attempts` is the dictionary in insertion order; its keys are the records' own
      UIDs. `current` is one of its objects, so that a change through one is seen
      through the other. */
  class PurgeAttempts {
    const policy: Policy
    var current: AttemptRecord?
    var attempts: seq<AttemptRecord>
    ghost var views: seq<Attempt>

    ghost predicate Agrees()
      reads this, attempts
    {
      && |views| == |attempts|
      && (forall i :: 0 <= i < |attempts| ==> views[i] == attempts[i].View())
      && (forall i, j :: 0 <= i < j < |attempts| ==> attempts[i] != attempts[j])
      && (current != null ==> attempts != [] && current == attempts[|attempts| - 1])
    }

    /** The history that this object represents. */
    ghost function Value(): History
      reads this
    {
      History(views, current != null)
    }

    ghost predicate Valid()
      reads this, attempts
    {
      Agrees() && Value().Valid()
    }

    constructor (policy: Policy)
      ensures Valid() && this.policy == policy && Value() == NOTHING && attempts == []
    {
      this.policy := policy;
      current, attempts, views := null, [], [];
    }

    predicate Has(uid: Uid)
      reads this
    {
      exists i :: 0 <= i < |attempts| && attempts[i].uid == uid
    }

    method Observe(row: JobRow) returns (reply: Result<bool, Refusal>)
      requires Valid()
      modifies this, attempts
      ensures Outcome(Value(), reply) == Follow(policy, old(Value()), row)
      ensures Valid()
      ensures old(attempts) <= attempts
      ensures forall i :: |old(attempts)| <= i < |attempts| ==> fresh(attempts[i])
    {
      if !Verified(policy, row) {
        return Failure(PolicyViolated);
      }
      FollowKeepsValid(policy, Value(), row);
      hide Verified, Follow, History.Valid;
      reply := ObserveVerified(row);
    }

    method ObserveVerified(row: JobRow) returns (reply: Result<bool, Refusal>)
      requires Valid() && Verified(policy, row) && Follow(policy, Value(), row).next.Valid()
      modifies this, attempts
      ensures Outcome(Value(), reply) == Follow(policy, old(Value()), row)
      ensures Valid()
      ensures old(attempts) <= attempts
      ensures forall i :: |old(attempts)| <= i < |attempts| ==> fresh(attempts[i])
    {
      hide Verified, Follow, History.Valid, Admitted, AdmitRefusal, ContinueRefusal, Continued, PurgeAttempts.Agrees;
      ghost var h := Value();
      FollowInSteps(policy, h, row);
      CurrentIsShared();
      var replaced := current != null && current.uid != row.uid;
      assert replaced == (h.Current().Some? && Begins(h, row));
      hide History.Current, Begins;
      var refusal := Admit(row);
      if refusal.Some? {
        return Failure(refusal.value);
      }
      refusal := Continue(row);
      return if refusal.Some? then Failure(refusal.value) else Success(replaced);
    }

    /** Makes sure that the row has a current record, replacing a deleted one. A new
        record is shared by `current` and the dictionary. */
    method Admit(row: JobRow) returns (refusal: Option<Refusal>)
      requires Valid()
      modifies this
      ensures Agrees()
      ensures refusal == AdmitRefusal(old(Value()), row)
      ensures refusal.None? ==> current != null && (current in old(attempts) || fresh(current))
      ensures Value() == Admitted(policy, old(Value()), row)
      ensures old(attempts) <= attempts
      ensures forall i :: |old(attempts)| <= i < |attempts| ==> fresh(attempts[i])
    {
      assert Has(row.uid) <==> Value().Knows(row.uid);
      hide Fresh;
      if current != null && current.uid != row.uid {
        if !current.deletedObserved || Has(row.uid) {
          return Some(ReplacedTooEarly);
        }
        current := null;
      }
      if current == null {
        if |attempts| >= MAX_ATTEMPTS {
          return Some(TooManyAttempts);
        }
        Begin(row);
      }
      return None;
    }

    /** A new record, as the current one and in the dictionary. */
    method Begin(row: JobRow)
      requires Agrees() && current == null
      modifies this
      ensures Agrees() && current != null && fresh(current)
      ensures attempts == old(attempts) + [current] && views == old(views) + [Fresh(policy, row)]
    {
      hide Fresh;
      current := new AttemptRecord(policy, row);
      attempts := attempts + [current];
      views := views + [Fresh(policy, row)];
    }

    /** Folds a row into the current record, unless the row contradicts it; the
        dictionary sees the change. */
    method Continue(row: JobRow) returns (refusal: Option<Refusal>)
      requires Agrees() && current != null
      modifies this`views, current
      ensures Agrees()
      ensures
        var was := old(views);
        was != [] && refusal == ContinueRefusal(was[|was| - 1], row) && views == Continued(was, row)
    {
      if current.image != row.image {
        return Some(ImageChanged);
      }
      if current.deletedObserved && row.event != Deleted {
        return Some(Reappeared);
      }
      current.Update(row);
      views := views[|views| - 1 := current.View()];
      return None;
    }

    /** The current record is the one that the history calls current. */
    lemma CurrentIsShared()
      requires Valid()
      ensures current != null ==> attempts != [] && current == attempts[|attempts| - 1]
      ensures Value().Current() == if current == null then None else Some(current.View())
    {
    }

    /** `list(attempts.values())`. */
    method Views() returns (all: seq<Attempt>)
      requires Valid()
      ensures all == Value().attempts
    {
      all := [];
      for i := 0 to |attempts|
        invariant all == views[..i]
      {
        all := all + [attempts[i].View()];
      }
    }

    method Completion() returns (r: Option<Attempt>)
      requires Valid()
      ensures r == Value().Completion()
    {
      if current != null && current.trust == Approved && current.jobCompleteObserved {
        r := Some(current.View());
      } else {
        r := None;
      }
    }
  }
}
