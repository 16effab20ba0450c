/** The local instance registry: records keyed by instance name, and the
    reconciliation of that registry with the gateway's instance list. */
module Registry {

  import opened Values

  /** The persona the generator produced for an instance. */
  datatype Persona = Persona(name: string, age: int, city: string, profession: string, bio: string)

  /** What the client remembers about one instance. `isBusiness` is None until
      a persona has been set up; `syncedFromApi` marks records the sync created. */
  datatype Record = Record(
    name: string,
    apikey: Json,
    createdAt: int,
    connected: bool,
    persona: Option<Persona>,
    photoId: Option<string>,
    isBusiness: Option<Json>,
    syncedFromApi: bool)

  /** Every record sits under its own name, and a persona comes with a photo. */
  predicate WellFormed(m: map<string, Record>)
  {
    forall k | k in m :: m[k].name == k && (m[k].persona.Some? ==> m[k].photoId.Some?)
  }

  /** One entry of the gateway's instance list, reduced to the two fields read. */
  datatype RemoteInstance = RemoteInstance(name: Option<string>, connectionStatus: Option<string>)

  /** Entries without a (non-empty) name are skipped. */
  predicate Tracked(e: RemoteInstance)
  {
    e.name.Some? && e.name.value != ""
  }

  predicate ReportsOpen(e: RemoteInstance)
  {
    e.connectionStatus == Some("open")
  }

  /** The record the sync creates for an instance it has not seen. */
  function Fresh(name: string, open: bool, now: int): (r: Record)
    ensures r.name == name && r.connected == open && r.apikey == Str("")
    ensures r.persona.None? && r.photoId.None? && r.syncedFromApi
  {
    Record(name, Str(""), now, open, None, None, None, true)
  }

  /** The registry after a sync, and how many records it inserted. */
  datatype SyncResult = SyncResult(instances: map<string, Record>, inserted: nat)

  /** One turn of the sync loop. */
  function SyncStep(s: SyncResult, e: RemoteInstance, now: int): SyncResult
  {
    if !Tracked(e) then s
    else
      var name := e.name.value;
      var open := ReportsOpen(e);
      if name !in s.instances then SyncResult(s.instances[name := Fresh(name, open, now)], s.inserted + 1)
      else if s.instances[name].connected != open then
        SyncResult(s.instances[name := s.instances[name].(connected := open)], s.inserted)
      else s
  }

  /** The sync loop run over the whole remote list, as a function of its last step. */
  function Reconcile(m: map<string, Record>, remote: seq<RemoteInstance>, now: int): (r: SyncResult)
    ensures r.instances.Keys == m.Keys + Named(remote)
    decreases |remote|
  {
    if remote == [] then SyncResult(m, 0)
    else SyncStep(Reconcile(m, remote[..|remote| - 1], now), remote[|remote| - 1], now)
  }

  /** The names the remote list reports. */
  function Named(remote: seq<RemoteInstance>): set<string>
    decreases |remote|
  {
    if remote == [] then {}
    else
      var e := remote[|remote| - 1];
      Named(remote[..|remote| - 1]) + (if Tracked(e) then {e.name.value} else {})
  }

  /** Whether the last entry naming `name` reports it open. */
  function LastOpen(remote: seq<RemoteInstance>, name: string): bool
    decreases |remote|
  {
    if remote == [] then false
    else
      var e := remote[|remote| - 1];
      if Tracked(e) && e.name.value == name then ReportsOpen(e) else LastOpen(remote[..|remote| - 1], name)
  }

  /** A name is reported exactly when some entry carries it. */
  lemma {:induction false} NamedMembers(remote: seq<RemoteInstance>, name: string)
    ensures name in Named(remote) <==>
            exists i :: 0 <= i < |remote| && Tracked(remote[i]) && remote[i].name.value == name
  {
    if remote != [] {
      var init := remote[..|remote| - 1];
      NamedMembers(init, name);
      if name in Named(init) {
        var i :| 0 <= i < |init| && Tracked(init[i]) && init[i].name.value == name;
        assert remote[i] == init[i];
      }
      if exists i :: 0 <= i < |remote| && Tracked(remote[i]) && remote[i].name.value == name {
        var i :| 0 <= i < |remote| && Tracked(remote[i]) && remote[i].name.value == name;
        if i < |init| {
          assert init[i] == remote[i];
        }
      }
    }
  }

  /** The connection flag a name ends with is the status of its last entry. */
  lemma {:induction false} LastOpenIsLast(remote: seq<RemoteInstance>, name: string, i: nat)
    requires i < |remote| && Tracked(remote[i]) && remote[i].name.value == name
    requires forall j :: i < j < |remote| ==> !(Tracked(remote[j]) && remote[j].name.value == name)
    ensures LastOpen(remote, name) == ReportsOpen(remote[i])
  {
    if i < |remote| - 1 {
      var init := remote[..|remote| - 1];
      assert init[i] == remote[i];
      LastOpenIsLast(init, name, i);
    }
  }

  /** The record a name ends with after syncing. */
  function MergedRecord(m: map<string, Record>, remote: seq<RemoteInstance>, now: int, k: string): Record
    requires k in m || k in Named(remote)
  {
    if k !in Named(remote) then m[k]
    else if k in m then m[k].(connected := LastOpen(remote, k))
    else Fresh(k, LastOpen(remote, k), now)
  }

  /** The registry after syncing, written out directly: every local record is
      kept, every reported name gets the status of its last entry, and the
      reported names not yet known get fresh records. */
  function Merged(m: map<string, Record>, remote: seq<RemoteInstance>, now: int): map<string, Record>
  {
    map k | k in m.Keys + Named(remote) :: MergedRecord(m, remote, now, k)
  }

  lemma MergedNothing(m: map<string, Record>, now: int)
    ensures Merged(m, [], now) == m
  {
    assert Merged(m, [], now).Keys == m.Keys;
  }

  lemma MergedSkip(m: map<string, Record>, remote: seq<RemoteInstance>, now: int)
    requires remote != [] && !Tracked(remote[|remote| - 1])
    ensures Merged(m, remote, now) == Merged(m, remote[..|remote| - 1], now)
  {
    var init := remote[..|remote| - 1];
    assert Named(remote) == Named(init);
    forall k | k in Named(remote) ensures LastOpen(remote, k) == LastOpen(init, k) {
    }
  }

  lemma MergedInsert(m: map<string, Record>, remote: seq<RemoteInstance>, now: int)
    requires remote != [] && Tracked(remote[|remote| - 1])
    requires remote[|remote| - 1].name.value !in Merged(m, remote[..|remote| - 1], now)
    ensures var e := remote[|remote| - 1];
            Merged(m, remote, now)
            == Merged(m, remote[..|remote| - 1], now)[e.name.value := Fresh(e.name.value, ReportsOpen(e), now)]
  {
    var init := remote[..|remote| - 1];
    var e := remote[|remote| - 1];
    var n := e.name.value;
    assert Named(remote) == Named(init) + {n};
    var before := Merged(m, init, now);
    var after := Merged(m, remote, now);
    forall k | k in after && k != n ensures after[k] == before[k] {
      assert LastOpen(remote, k) == LastOpen(init, k);
    }
    assert after.Keys == before.Keys + {n};
  }

  lemma MergedUpdate(m: map<string, Record>, remote: seq<RemoteInstance>, now: int)
    requires remote != [] && Tracked(remote[|remote| - 1])
    requires remote[|remote| - 1].name.value in Merged(m, remote[..|remote| - 1], now)
    ensures var e := remote[|remote| - 1];
            var before := Merged(m, remote[..|remote| - 1], now);
            Merged(m, remote, now) == before[e.name.value := before[e.name.value].(connected := ReportsOpen(e))]
  {
    var init := remote[..|remote| - 1];
    var e := remote[|remote| - 1];
    var n := e.name.value;
    assert Named(remote) == Named(init) + {n};
    var before := Merged(m, init, now);
    var after := Merged(m, remote, now);
    forall k | k in after && k != n ensures after[k] == before[k] {
      assert LastOpen(remote, k) == LastOpen(init, k);
    }
    assert after.Keys == before.Keys;
  }

  /** A sync step on a new name inserts a fresh record and counts it. */
  lemma SyncStepInserts(s: SyncResult, e: RemoteInstance, now: int)
    requires Tracked(e) && e.name.value !in s.instances
    ensures SyncStep(s, e, now)
            == SyncResult(s.instances[e.name.value := Fresh(e.name.value, ReportsOpen(e), now)], s.inserted + 1)
  {
  }

  /** A sync step on a known name sets its connection flag only. */
  lemma SyncStepUpdates(s: SyncResult, e: RemoteInstance, now: int)
    requires Tracked(e) && e.name.value in s.instances
    ensures SyncStep(s, e, now)
            == SyncResult(s.instances[e.name.value := s.instances[e.name.value].(connected := ReportsOpen(e))], s.inserted)
  {
  }

  /** The names of an extended list. */
  lemma NamedSnoc(remote: seq<RemoteInstance>)
    requires remote != []
    ensures Tracked(remote[|remote| - 1]) ==>
              Named(remote) == Named(remote[..|remote| - 1]) + {remote[|remote| - 1].name.value}
    ensures !Tracked(remote[|remote| - 1]) ==> Named(remote) == Named(remote[..|remote| - 1])
  {
  }

  /** One sync step moves the closed form from a list to the list extended by
      one entry: an unnamed entry changes nothing, ... */
  lemma StepSkip(m: map<string, Record>, remote: seq<RemoteInstance>, now: int, count: nat)
    requires remote != [] && !Tracked(remote[|remote| - 1])
    requires count == |Named(remote[..|remote| - 1]) - m.Keys|
    ensures SyncStep(SyncResult(Merged(m, remote[..|remote| - 1], now), count), remote[|remote| - 1], now)
            == SyncResult(Merged(m, remote, now), |Named(remote) - m.Keys|)
  {
    MergedSkip(m, remote, now);
    NamedSnoc(remote);
  }

  /** ... a new name is inserted and counted, ... */
  lemma StepInsert(m: map<string, Record>, remote: seq<RemoteInstance>, now: int, count: nat)
    requires remote != [] && Tracked(remote[|remote| - 1])
    requires remote[|remote| - 1].name.value !in Merged(m, remote[..|remote| - 1], now)
    requires count == |Named(remote[..|remote| - 1]) - m.Keys|
    ensures SyncStep(SyncResult(Merged(m, remote[..|remote| - 1], now), count), remote[|remote| - 1], now)
            == SyncResult(Merged(m, remote, now), |Named(remote) - m.Keys|)
  {
    var init := remote[..|remote| - 1];
    var e := remote[|remote| - 1];
    MergedInsert(m, remote, now);
    SyncStepInserts(SyncResult(Merged(m, init, now), count), e, now);
    NamedSnoc(remote);
    CountOneMore(Named(init), m.Keys, e.name.value);
  }

  /** ... and a known name takes the entry's status without being counted. */
  lemma StepUpdate(m: map<string, Record>, remote: seq<RemoteInstance>, now: int, count: nat)
    requires remote != [] && Tracked(remote[|remote| - 1])
    requires remote[|remote| - 1].name.value in Merged(m, remote[..|remote| - 1], now)
    requires count == |Named(remote[..|remote| - 1]) - m.Keys|
    ensures SyncStep(SyncResult(Merged(m, remote[..|remote| - 1], now), count), remote[|remote| - 1], now)
            == SyncResult(Merged(m, remote, now), |Named(remote) - m.Keys|)
  {
    var init := remote[..|remote| - 1];
    var e := remote[|remote| - 1];
    MergedUpdate(m, remote, now);
    SyncStepUpdates(SyncResult(Merged(m, init, now), count), e, now);
    NamedSnoc(remote);
    MergedKeys(m, init, now);
    CountSame(Named(init), m.Keys, e.name.value);
  }

  lemma MergedKeys(m: map<string, Record>, remote: seq<RemoteInstance>, now: int)
    ensures Merged(m, remote, now).Keys == m.Keys + Named(remote)
  {
  }

  lemma CountSame(names: set<string>, known: set<string>, n: string)
    requires n in names || n in known
    ensures (names + {n}) - known == names - known
  {
  }

  lemma CountOneMore(names: set<string>, known: set<string>, n: string)
    requires n !in names && n !in known
    ensures |(names + {n}) - known| == |names - known| + 1
  {
    assert (names + {n}) - known == (names - known) + {n};
  }

  /** The sync loop computes the closed form, and counts the names it added. */
  lemma {:induction false} ReconcileIsMerged(m: map<string, Record>, remote: seq<RemoteInstance>, now: int)
    ensures Reconcile(m, remote, now) == SyncResult(Merged(m, remote, now), |Named(remote) - m.Keys|)
    decreases |remote|
  {
    if remote == [] {
      MergedNothing(m, now);
    } else {
      var init := remote[..|remote| - 1];
      var e := remote[|remote| - 1];
      ReconcileIsMerged(m, init, now);
      var count := |Named(init) - m.Keys|;
      if !Tracked(e) {
        StepSkip(m, remote, now, count);
      } else if e.name.value !in Merged(m, init, now) {
        StepInsert(m, remote, now, count);
      } else {
        StepUpdate(m, remote, now, count);
      }
    }
  }

  /** On a known record sync changes only the connection flag: credentials,
      persona and photo are never overwritten, and a record the list does not
      mention is left as it was. */
  lemma SyncKeepsIdentity(m: map<string, Record>, remote: seq<RemoteInstance>, now: int)
    ensures forall k | k in m ::
              Reconcile(m, remote, now).instances[k] == m[k].(connected := Reconcile(m, remote, now).instances[k].connected)
    ensures forall k | k in m && k !in Named(remote) :: Reconcile(m, remote, now).instances[k] == m[k]
  {
    ReconcileIsMerged(m, remote, now);
  }

  /** Every reported name ends with the status of its last entry; a new name is
      inserted as a fresh record carrying that status. */
  lemma SyncFollowsRemote(m: map<string, Record>, remote: seq<RemoteInstance>, now: int)
    ensures forall k | k in Named(remote) :: Reconcile(m, remote, now).instances[k].connected == LastOpen(remote, k)
    ensures forall k | k in Named(remote) && k !in m ::
              Reconcile(m, remote, now).instances[k] == Fresh(k, LastOpen(remote, k), now)
  {
    ReconcileIsMerged(m, remote, now);
  }

  /** The sync reports insertions (and so saves) exactly when the list names an
      instance the registry did not know. */
  lemma SyncSaveRule(m: map<string, Record>, remote: seq<RemoteInstance>, now: int)
    ensures Reconcile(m, remote, now).inserted > 0 <==> exists k :: k in Named(remote) && k !in m
  {
    ReconcileIsMerged(m, remote, now);
    if exists k :: k in Named(remote) && k !in m {
      var k :| k in Named(remote) && k !in m;
      assert k in Named(remote) - m.Keys;
    }
  }

  /** A registry that already holds every reported name with its last status
      is the closed form of itself. */
  lemma MergedFixed(m: map<string, Record>, remote: seq<RemoteInstance>, now: int)
    requires Named(remote) <= m.Keys
    requires forall k | k in Named(remote) :: m[k].connected == LastOpen(remote, k)
    ensures Merged(m, remote, now) == m
  {
    var merged := Merged(m, remote, now);
    assert merged.Keys == m.Keys;
    forall k | k in m ensures merged[k] == m[k] {
    }
  }

  /** Syncing again with the same list inserts nothing and changes nothing. */
  lemma SyncIdempotent(m: map<string, Record>, remote: seq<RemoteInstance>, now: int, later: int)
    ensures var once := Reconcile(m, remote, now).instances;
            Reconcile(once, remote, later) == SyncResult(once, 0)
  {
    var once := Reconcile(m, remote, now).instances;
    SyncFollowsRemote(m, remote, now);
    MergedFixed(once, remote, later);
    ReconcileIsMerged(once, remote, later);
    assert Named(remote) - once.Keys == {};
  }

  /** Sync keeps the registry well formed. */
  lemma SyncWellFormed(m: map<string, Record>, remote: seq<RemoteInstance>, now: int)
    requires WellFormed(m)
    ensures WellFormed(Reconcile(m, remote, now).instances)
  {
    ReconcileIsMerged(m, remote, now);
    var merged := Merged(m, remote, now);
    forall k | k in merged ensures merged[k].name == k && (merged[k].persona.Some? ==> merged[k].photoId.Some?) {
      assert merged[k] == MergedRecord(m, remote, now, k);
    }
  }

  /** Photo ids held by connected instances (a set: the order and repeats of
      the list the client builds are not kept). */
  function UsedPhotoIds(m: map<string, Record>): (ids: set<string>)
    ensures forall p :: p in ids <==>
              exists k :: k in m && m[k].connected && m[k].photoId == Some(p) && p != ""
  {
    set k | k in m && m[k].connected && m[k].photoId.Some? && m[k].photoId.value != "" :: m[k].photoId.value
  }

  /** Photo ids held by any record. */
  function PhotoIds(m: map<string, Record>): (ids: set<string>)
    ensures forall p :: p in ids <==> exists k :: k in m && m[k].photoId == Some(p)
  {
    set k | k in m && m[k].photoId.Some? :: m[k].photoId.value
  }

  /** Sync can bring a record's photo into use, but never a photo no record held. */
  lemma SyncUsesKnownPhotos(m: map<string, Record>, remote: seq<RemoteInstance>, now: int)
    ensures UsedPhotoIds(Reconcile(m, remote, now).instances) <= PhotoIds(m)
  {
    var r := Reconcile(m, remote, now).instances;
    SyncKeepsIdentity(m, remote, now);
    SyncFollowsRemote(m, remote, now);
    forall p | p in UsedPhotoIds(r) ensures p in PhotoIds(m) {
      var k :| k in r && r[k].connected && r[k].photoId == Some(p) && p != "";
      assert k in m;
    }
  }

  /** Deleting a record takes its photo out of use unless another connected
      record holds the same id. */
  lemma DeleteReleasesPhoto(m: map<string, Record>, name: string)
    requires name in m && m[name].photoId.Some?
    requires forall k | k in m && k != name :: !(m[k].connected && m[k].photoId == m[name].photoId)
    ensures m[name].photoId.value !in UsedPhotoIds(m - {name})
    ensures UsedPhotoIds(m - {name}) <= UsedPhotoIds(m)
  {
  }
}
