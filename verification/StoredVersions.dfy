/** Which versions of a process are in store after a pass, whatever status updates have failed. */
module StoredVersions {
  import opened SiddhiTypes
  import opened Cluster
  import opened Deployments
  import opened Controller
  import opened Operator
  import opened StatusFlow
  import opened LostUpdates

  /** The record of the process in store: what it was at `k0`, or, once a status update has been stored
      since, with the versions of the working copy. */
  ghost predicate Tracks(k0: Kube, c: Ctl) {
    var p := c.sp.name;
    && p in k0.crs && p in c.kube.crs && k0.stored <= c.kube.stored
    && SameVersions(c.kube.crs[p].status, if c.kube.stored > k0.stored then c.sp.status else k0.crs[p].status)
  }

  lemma QuietTracks(k0: Kube, c: Ctl, c': Ctl)
    requires Tracks(k0, c) && Quiet(c, c')
    ensures Tracks(k0, c')
  {
  }

  /** From the synchronisation on, every status update that is stored carries the synchronised version. */
  lemma SyncTracks(e: Env, cfg: Config, c: Ctl, apps: seq<Application>)
    requires c.sp.name in c.kube.crs
    ensures var c2, c3 := BeforeSync(e, cfg, c, apps), AtEnd(e, cfg, c, apps);
            && Tracks(c2.kube, c3) && c3.sp.name == c.sp.name
            && c3.sp.status.current == c3.sp.status.previous == c.sp.status.current
            && (c3.kube.stored == c2.kube.stored ==> c3.kube.crs == c2.kube.crs)
  {
    BeforeSyncQuiet(e, cfg, c, apps);
    SyncedQuiet(e, cfg, c, apps);
    var c2 := BeforeSync(e, cfg, c, apps);
    QuietTracks(c2.kube, Synced(e, c2), AtEnd(e, cfg, c, apps));
  }

  lemma ReportReadyQuiet(e: Env, c: Ctl, need: nat)
    ensures Quiet(c, ReportReady(e, c, 0, need))
  {
  }

  lemma SyncedQuiet(e: Env, cfg: Config, c: Ctl, apps: seq<Application>)
    ensures Quiet(Synced(e, BeforeSync(e, cfg, c, apps)), AtEnd(e, cfg, c, apps))
  {
    var s := Synced(e, BeforeSync(e, cfg, c, apps));
    var c1 := ArtifactsCreated(e, cfg, Messaged(c, apps), apps);
    assert c1 == if EventOf(c.sp.status) == Unchanged then s else ReportReady(e, s, 0, |apps|);
    ReportReadyQuiet(e, s, |apps|);
    RescaledUpToQuiet(e, c1, apps, |apps|);
    QuietTransitive(s, c1, AtEnd(e, cfg, c, apps));
  }

  /** The versions in store when the tail of a pass ends. */
  lemma AppliedVersions(e: Env, w: World, cfg: Config, k0: Kube, c: Ctl, apps: seq<Application>)
    requires Tracks(k0, c)
    ensures var r, p, s := AppsApplied(e, w, cfg, c, apps), c.sp.name, c.sp.status;
            && p in r.world.kube.crs && r.world.kube.stored >= k0.stored
            && SameVersions(r.world.kube.crs[p].status,
                 if r.outcome == Completed && r.world.kube.stored > BeforeSync(e, cfg, c, apps).kube.stored then
                   s.(previous := s.current)
                 else if r.world.kube.stored > k0.stored then s
                 else k0.crs[p].status)
  {
    if MessagingFails(e, cfg, c, apps) {
      MessagedQuiet(c, apps);
      QuietTracks(k0, c, Messaged(c, apps));
      ReportQuiet(e, Messaged(c, apps));
      QuietTracks(k0, Messaged(c, apps), ReportError(e, Messaged(c, apps)));
    } else {
      SyncedVersions(e, cfg, k0, c, apps);
      assert AppsApplied(e, w, cfg, c, apps).world.kube == AtEnd(e, cfg, c, apps).kube;
    }
  }

  lemma SyncedVersions(e: Env, cfg: Config, k0: Kube, c: Ctl, apps: seq<Application>)
    requires Tracks(k0, c)
    ensures var k, p, s := AtEnd(e, cfg, c, apps).kube, c.sp.name, c.sp.status;
            && p in k.crs && k.stored >= k0.stored
            && SameVersions(k.crs[p].status,
                 if k.stored > BeforeSync(e, cfg, c, apps).kube.stored then s.(previous := s.current)
                 else if k.stored > k0.stored then s
                 else k0.crs[p].status)
  {
    BeforeSyncQuiet(e, cfg, c, apps);
    QuietTracks(k0, c, BeforeSync(e, cfg, c, apps));
    SyncTracks(e, cfg, c, apps);
  }

  /** The cluster when the version is about to be synchronised, if the pass gets that far. */
  function SyncPoint(e: Env, w: World, cfg: Config, c: Ctl): Kube {
    var pop := AppsPopulated(e, cfg, c, w.apps);
    if pop.apps.Some? then BeforeSync(e, cfg, pop.ctl, pop.apps.value).kube else pop.ctl.kube
  }

  lemma ConcludedVersions(e: Env, w: World, listeners: map<string, Listener>, cfg: Config, k0: Kube, c: Ctl)
    requires Tracks(k0, c)
    ensures var r, p, s := Concluded(e, w, listeners, cfg, c), c.sp.name, c.sp.status;
            && p in r.world.kube.crs && r.world.kube.stored >= k0.stored
            && SameVersions(r.world.kube.crs[p].status,
                 if r.outcome == Completed && r.world.kube.stored > SyncPoint(e, w, cfg, c).stored then
                   s.(previous := s.current)
                 else if r.world.kube.stored > k0.stored then s
                 else k0.crs[p].status)
  {
    var pop := AppsPopulated(e, cfg, c, w.apps);
    PopulatedQuiet(e, cfg, c, w.apps);
    QuietTracks(k0, c, pop.ctl);
    if pop.apps.Some? {
      AppliedVersions(e, CachesPopulated(w, listeners, cfg, c.sp, pop), cfg, k0, pop.ctl, pop.apps.value);
    } else {
      ReportQuiet(e, pop.ctl);
      QuietTracks(k0, pop.ctl, ReportError(e, pop.ctl));
    }
  }

  lemma OpenedTracks(e: Env, w: World, sp: SiddhiProcess, upgrade: bool)
    requires sp.name in w.kube.crs && w.kube.crs[sp.name] == sp
    ensures var k0 := UpgradePoint(e, w, sp);
            && Tracks(k0, Opened(e, w, sp, upgrade)) && k0.stored >= w.kube.stored
            && SameVersions(k0.crs[sp.name].status, sp.status)
  {
  }

  /** The versions in store after a pass, by the number of status updates that have been stored. */
  lemma CountedVersions(e: Env, w: World, cfg: Config, sp: SiddhiProcess, upgrade: bool)
    requires sp.name in w.kube.crs && w.kube.crs[sp.name] == sp
    ensures var r, d := Advanced(e, w, cfg, sp, upgrade), Prepared(e, w, cfg, sp, upgrade).sp.status;
            && sp.name in r.world.kube.crs && r.world.kube.stored >= UpgradePoint(e, w, sp).stored
            && SameVersions(r.world.kube.crs[sp.name].status,
                 if r.outcome == Completed
                    && r.world.kube.stored > SyncPoint(e, w, cfg, Prepared(e, w, cfg, sp, upgrade)).stored then
                   d.(previous := d.current)
                 else if r.world.kube.stored > UpgradePoint(e, w, sp).stored then d
                 else sp.status)
  {
    var c := Opened(e, w, sp, upgrade);
    var r, g := Advanced(e, w, cfg, sp, upgrade), AllAppsRead(e, w, c);
    PreparedTracks(e, w, cfg, sp, upgrade);
    if g.err {
      UnreadTracks(e, UpgradePoint(e, w, sp), c, g.kube);
      assert r.outcome == AppReadError && r.world.kube == ReportError(e, c.(kube := g.kube)).kube;
    } else {
      ConcludedVersions(e, w, g.listeners, cfg, UpgradePoint(e, w, sp), Prepared(e, w, cfg, sp, upgrade));
      assert r == Concluded(e, w, g.listeners, cfg, Prepared(e, w, cfg, sp, upgrade));
    }
  }

  lemma PreparedTracks(e: Env, w: World, cfg: Config, sp: SiddhiProcess, upgrade: bool)
    requires sp.name in w.kube.crs && w.kube.crs[sp.name] == sp
    ensures var k0, c, d := UpgradePoint(e, w, sp), Opened(e, w, sp, upgrade), Prepared(e, w, cfg, sp, upgrade);
            && Tracks(k0, c) && Tracks(k0, d) && SameVersions(k0.crs[sp.name].status, sp.status)
            && d.sp.name == sp.name && SameVersions(d.sp.status, c.sp.status)
            && SameRecords(c.kube, AllAppsRead(e, w, c).kube)
  {
    OpenedTracks(e, w, sp, upgrade);
    PreparedQuiet(e, w, cfg, sp, upgrade);
    QuietTracks(UpgradePoint(e, w, sp), Opened(e, w, sp, upgrade), Prepared(e, w, cfg, sp, upgrade));
  }

  lemma UnreadTracks(e: Env, k0: Kube, c: Ctl, k: Kube)
    requires Tracks(k0, c) && SameRecords(c.kube, k)
    ensures var r := ReportError(e, c.(kube := k)); Tracks(k0, r) && SameVersions(r.sp.status, c.sp.status)
  {
    KubeQuiet(c, k);
    QuietTracks(k0, c, c.(kube := k));
    ReportQuiet(e, c.(kube := k));
    QuietTracks(k0, c.(kube := k), ReportError(e, c.(kube := k)));
  }

  /** The pass gets as far as its end, and one of its status updates from the synchronisation on is stored. */
  predicate SyncHeard(e: Env, w: World, cfg: Config, sp: SiddhiProcess, upgrade: bool) {
    && GetsThrough(e, w, cfg, sp, upgrade)
    && var pop := AppsPopulated(e, cfg, Prepared(e, w, cfg, sp, upgrade), w.apps);
       !SyncUnheard(e, cfg, pop.ctl, pop.apps.value)
  }

  /** The pass finds a newer version, gets as far as its end, and loses every status update from the
      synchronisation on: that of `SyncVersion`, the report of ready deployments after it, and every error
      report on a refused replica count. */
  predicate VersionLost(e: Env, w: World, cfg: Config, sp: SiddhiProcess, upgrade: bool) {
    && GetsThrough(e, w, cfg, sp, upgrade) && VersionOf(sp, upgrade) > sp.status.previous
    && var pop := AppsPopulated(e, cfg, Prepared(e, w, cfg, sp, upgrade), w.apps);
       SyncUnheard(e, cfg, pop.ctl, pop.apps.value)
  }

  /** What the calls say is what the stored status updates say. */
  lemma SyncHeardIff(e: Env, w: World, cfg: Config, sp: SiddhiProcess, upgrade: bool)
    requires sp.name in w.kube.crs
    ensures var r, d := Advanced(e, w, cfg, sp, upgrade), Prepared(e, w, cfg, sp, upgrade);
            SyncHeard(e, w, cfg, sp, upgrade) <==>
            r.outcome == Completed && r.world.kube.stored > SyncPoint(e, w, cfg, d).stored
  {
    GetsThroughIff(e, w, cfg, sp, upgrade);
    if GetsThrough(e, w, cfg, sp, upgrade) {
      CompletedGrows(e, w, cfg, sp, upgrade);
      var pop := AppsPopulated(e, cfg, Prepared(e, w, cfg, sp, upgrade), w.apps);
      SyncUnheardIff(e, cfg, pop.ctl, pop.apps.value);
    }
  }

  /** The versions in store after a pass that is not a timer pass, whatever fails: the synchronised one when
      a status update from the synchronisation on is stored, the upgraded one when only an earlier one from
      the upgrade on is stored, and the old ones otherwise. */
  lemma AdvancedVersions(e: Env, w: World, cfg: Config, sp: SiddhiProcess, upgrade: bool)
    requires sp.name in w.kube.crs && w.kube.crs[sp.name] == sp
    ensures var crs, s := Advanced(e, w, cfg, sp, upgrade).world.kube.crs, sp.status;
            && sp.name in crs
            && SameVersions(crs[sp.name].status,
                 if SyncHeard(e, w, cfg, sp, upgrade) then
                   s.(previous := VersionOf(sp, upgrade), current := VersionOf(sp, upgrade))
                 else if PassUnheard(e, w, cfg, sp, upgrade) then s
                 else s.(current := VersionOf(sp, upgrade)))
  {
    CountedVersions(e, w, cfg, sp, upgrade);
    PreparedVersions(e, w, cfg, sp, upgrade);
    SyncHeardIff(e, w, cfg, sp, upgrade);
    PassUnheardIff(e, w, cfg, sp, upgrade);
  }

  /** After a completed pass the version that it worked on is the previous one in store exactly when it
      has not been lost. */
  lemma VersionStoredIff(e: Env, w: World, cfg: Config, sp: SiddhiProcess, upgrade: bool)
    requires sp.name in w.kube.crs && w.kube.crs[sp.name] == sp && sp.status.previous <= sp.status.current
    requires Advanced(e, w, cfg, sp, upgrade).outcome == Completed
    ensures var s := Advanced(e, w, cfg, sp, upgrade).world.kube.crs;
            var version := sp.status.current + if upgrade then 1 else 0;
            && sp.name in s
            && (s[sp.name].status.previous == version <==> !VersionLost(e, w, cfg, sp, upgrade))
            && (!VersionLost(e, w, cfg, sp, upgrade) ==> s[sp.name].status.current == version)
  {
    AdvancedVersions(e, w, cfg, sp, upgrade);
    GetsThroughIff(e, w, cfg, sp, upgrade);
  }

  /** The status updates of `SyncVersion`, of the report of ready deployments after it, and of the error report
      on every replica count that is refused, get lost. */
  predicate LosesSync(e: Env, cfg: Config, c: Ctl, apps: seq<Application>) {
    var c2, c1 := BeforeSync(e, cfg, c, apps), ArtifactsCreated(e, cfg, Messaged(c, apps), apps);
    && c2.kube.calls in e.failedSyncs && c2.kube.calls + 1 in e.failedStatus
    && forall i: nat :: i < |apps| ==> UnheardAt(e, c1, apps, i)
  }

  /** A completed pass that works on a newer version loses it exactly when it loses its status update in
      `SyncVersion`, the report of ready deployments after it, and the error report on every replica count
      that is refused. */
  lemma LostIff(e: Env, w: World, cfg: Config, sp: SiddhiProcess, upgrade: bool)
    requires sp.name in w.kube.crs && w.kube.crs[sp.name] == sp && 0 <= sp.status.previous <= sp.status.current
    requires Advanced(e, w, cfg, sp, upgrade).outcome == Completed && VersionOf(sp, upgrade) > sp.status.previous
    ensures var pop := AppsPopulated(e, cfg, Prepared(e, w, cfg, sp, upgrade), w.apps);
            && pop.apps.Some? && sp.name in Advanced(e, w, cfg, sp, upgrade).world.kube.crs
            && (Advanced(e, w, cfg, sp, upgrade).world.kube.crs[sp.name].status.previous != VersionOf(sp, upgrade)
                <==> LosesSync(e, cfg, pop.ctl, pop.apps.value))
  {
    LostWhenUnheard(e, w, cfg, sp, upgrade);
    var pop := AppsPopulated(e, cfg, Prepared(e, w, cfg, sp, upgrade), w.apps);
    UnheardOnUpdate(e, cfg, pop.ctl, pop.apps.value);
  }

  lemma LostWhenUnheard(e: Env, w: World, cfg: Config, sp: SiddhiProcess, upgrade: bool)
    requires sp.name in w.kube.crs && w.kube.crs[sp.name] == sp && 0 <= sp.status.previous <= sp.status.current
    requires Advanced(e, w, cfg, sp, upgrade).outcome == Completed && VersionOf(sp, upgrade) > sp.status.previous
    ensures var pop := AppsPopulated(e, cfg, Prepared(e, w, cfg, sp, upgrade), w.apps);
            var crs := Advanced(e, w, cfg, sp, upgrade).world.kube.crs;
            && pop.apps.Some? && EventOf(pop.ctl.sp.status) == Updated && sp.name in crs
            && (crs[sp.name].status.previous != VersionOf(sp, upgrade) <==>
                SyncUnheard(e, cfg, pop.ctl, pop.apps.value))
  {
    CompletedUpdate(e, w, cfg, sp, upgrade);
    VersionStoredIff(e, w, cfg, sp, upgrade);
  }

  lemma UnheardOnUpdate(e: Env, cfg: Config, c: Ctl, apps: seq<Application>)
    requires EventOf(c.sp.status) == Updated
    ensures SyncUnheard(e, cfg, c, apps) <==> LosesSync(e, cfg, c, apps)
  {
  }

  lemma CompletedUpdate(e: Env, w: World, cfg: Config, sp: SiddhiProcess, upgrade: bool)
    requires sp.name in w.kube.crs && 0 <= sp.status.previous < VersionOf(sp, upgrade)
    requires Advanced(e, w, cfg, sp, upgrade).outcome == Completed
    ensures var pop := AppsPopulated(e, cfg, Prepared(e, w, cfg, sp, upgrade), w.apps);
            GetsThrough(e, w, cfg, sp, upgrade) && pop.apps.Some? && EventOf(pop.ctl.sp.status) == Updated
  {
    GetsThroughIff(e, w, cfg, sp, upgrade);
    CompletedGrows(e, w, cfg, sp, upgrade);
    PreparedVersions(e, w, cfg, sp, upgrade);
  }

  /** The versions after a pass, as bounds. */
  lemma AdvancedBounds(e: Env, w: World, cfg: Config, sp: SiddhiProcess, upgrade: bool)
    requires sp.name in w.kube.crs && w.kube.crs[sp.name] == sp && sp.status.previous <= sp.status.current
    ensures var r, version := Advanced(e, w, cfg, sp, upgrade), sp.status.current + if upgrade then 1 else 0;
            && sp.name in r.world.kube.crs
            && var s := r.world.kube.crs[sp.name].status;
               && s.current <= version
               && (r.outcome != Completed ==> s.previous == sp.status.previous)
               && (r.outcome == Completed && !VersionLost(e, w, cfg, sp, upgrade) ==>
                     s.previous == s.current == version)
  {
    AdvancedVersions(e, w, cfg, sp, upgrade);
    GetsThroughIff(e, w, cfg, sp, upgrade);
  }

  lemma PreparedVersions(e: Env, w: World, cfg: Config, sp: SiddhiProcess, upgrade: bool)
    ensures var d := Prepared(e, w, cfg, sp, upgrade).sp.status;
            && d.previous == sp.status.previous
            && d.current == sp.status.current + if upgrade then 1 else 0
  {
    OpenedVersions(e, w, sp, upgrade);
    PreparedQuiet(e, w, cfg, sp, upgrade);
  }

  lemma CompletedGrows(e: Env, w: World, cfg: Config, sp: SiddhiProcess, upgrade: bool)
    requires sp.name in w.kube.crs && Advanced(e, w, cfg, sp, upgrade).outcome == Completed
    ensures var d := Prepared(e, w, cfg, sp, upgrade);
            var pop := AppsPopulated(e, cfg, d, w.apps);
            && pop.apps.Some? && pop.ctl.sp.name == sp.name && sp.name in pop.ctl.kube.crs
            && EventOf(pop.ctl.sp.status) == EventOf(d.sp.status)
            && SyncPoint(e, w, cfg, d) == BeforeSync(e, cfg, pop.ctl, pop.apps.value).kube
            && Advanced(e, w, cfg, sp, upgrade).world.kube == AtEnd(e, cfg, pop.ctl, pop.apps.value).kube
            && Advanced(e, w, cfg, sp, upgrade).world.kube.stored >= SyncPoint(e, w, cfg, d).stored
  {
    var d := Prepared(e, w, cfg, sp, upgrade);
    var pop := AppsPopulated(e, cfg, d, w.apps);
    PreparedQuiet(e, w, cfg, sp, upgrade);
    PopulatedQuiet(e, cfg, d, w.apps);
    OpenedTracksName(e, w, sp, upgrade);
    SyncTracks(e, cfg, pop.ctl, pop.apps.value);
  }

  lemma OpenedTracksName(e: Env, w: World, sp: SiddhiProcess, upgrade: bool)
    ensures Opened(e, w, sp, upgrade).sp.name == sp.name && Opened(e, w, sp, upgrade).kube.crs.Keys == w.kube.crs.Keys
  {
  }

  /** Without a lost synchronisation, or without any other lost status update, no version gets lost. */
  lemma NothingLost(e: Env, w: World, cfg: Config, sp: SiddhiProcess, upgrade: bool)
    requires e.failedSyncs == {} || e.failedStatus == {}
    requires sp.name in w.kube.crs && sp.status.previous >= 0
    ensures !VersionLost(e, w, cfg, sp, upgrade)
  {
    if VersionLost(e, w, cfg, sp, upgrade) {
      GetsThroughIff(e, w, cfg, sp, upgrade);
      CompletedGrows(e, w, cfg, sp, upgrade);
      PreparedVersions(e, w, cfg, sp, upgrade);
    }
  }
}
