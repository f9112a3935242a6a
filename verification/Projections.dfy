/** The per-device configuration revision: monotone, peekable, and free of ABA. */
module Projections {
  import opened Wrappers
  import opened Credentials
  import opened CredentialInvariants
  import opened ClientGrants
  import Cl = Claims
  import KI = ClaimInvariants

  /** The peek answers r exactly when the writing projection would answer r and write nothing. */
  lemma PeekIsUnchangedProjection(s: State, now: real, device: string, revision: int, r: int)
    ensures ProjectedRevision(s, now, device, revision) == Some(r) <==>
            ClientConfiguration(s, now, device, revision) == Reply(s, Ok((r, CurrentGrants(s.grants, now, device))))
  {
    var current := FingerprintOf(revision, CurrentGrants(s.grants, now, device));
    var s' := ClientConfiguration(s, now, device, revision).state;
    assert s'.projections[device].fingerprint == current;
  }

  /** One projection moves to another of the same device without going back. */
  ghost predicate Follows(p: Projection, p': Projection) {
    p.revision <= p'.revision && (p.revision == p'.revision ==> p == p')
  }

  /** A projection after another changes the revision exactly when the snapshot or
      the grants changed, and then upwards. */
  lemma ProjectionMoves(s: State, now: real, device: string, revision: int)
    requires device in s.projections
    ensures var reply := ClientConfiguration(s, now, device, revision);
      var current := FingerprintOf(revision, CurrentGrants(s.grants, now, device));
      && reply.state.projections[device].fingerprint == current
      && reply.state.projections[device].revision == reply.result.value.0
      && (s.projections[device].fingerprint == current ==> reply.result.value.0 == s.projections[device].revision)
      && (s.projections[device].fingerprint != current ==> reply.result.value.0 > s.projections[device].revision)
  {
  }

  lemma StepFollows(s: State, e: Event, device: string)
    requires device in s.projections
    ensures device in Next(s, e).projections && Follows(s.projections[device], Next(s, e).projections[device])
  {
    if e.op.OpProject? {
      if e.op.device == device {
        ProjectionMoves(s, e.now, device, e.op.revision);
      }
    } else {
      assert Next(s, e).projections == s.projections;
    }
  }

  lemma {:induction false} RunFollows(s: State, events: seq<Event>, device: string)
    requires device in s.projections
    ensures device in Final(s, events).projections
            && Follows(s.projections[device], Final(s, events).projections[device])
    decreases |events|
  {
    if events != [] {
      StepFollows(s, events[0], device);
      RunFollows(Next(s, events[0]), events[1..], device);
    }
  }

  /** The same grant, up to who decided it. */
  ghost predicate SameGrant(a: Grant, b: Grant) {
    b == a.(decidedBy := b.decidedBy)
  }

  ghost predicate SameGrants(before: seq<Grant>, after: seq<Grant>) {
    |before| == |after| && forall i :: 0 <= i < |before| ==> SameGrant(before[i], after[i])
  }

  lemma SameRecord(gs: seq<Grant>, gs': seq<Grant>, a: Grant, b: Grant)
    requires GrantsEvolve(gs, gs') && DistinctIds(gs')
    requires a in gs && b in gs' && a.id == b.id && a.status == b.status
    ensures SameGrant(a, b)
  {
    var x :| 0 <= x < |gs| && gs[x] == a;
    var y :| 0 <= y < |gs'| && gs'[y] == b;
    assert gs'[x].id == gs'[y].id;
  }

  /** Equal fingerprints of an earlier and a later state name the same grants. */
  lemma FingerprintNamesGrants(gs: seq<Grant>, gs': seq<Grant>, device: string, t: real, t': real, revision: int,
          revision': int)
    requires GrantsEvolve(gs, gs') && DistinctIds(gs')
    requires FingerprintOf(revision, CurrentGrants(gs, t, device)) ==
             FingerprintOf(revision', CurrentGrants(gs', t', device))
    ensures revision == revision'
    ensures SameGrants(CurrentGrants(gs, t, device), CurrentGrants(gs', t', device))
  {
    var before, after := CurrentGrants(gs, t, device), CurrentGrants(gs', t', device);
    var f, f' := FingerprintOf(revision, before), FingerprintOf(revision', after);
    assert |f.grants| == |f'.grants|;
    forall i | 0 <= i < |before|
      ensures SameGrant(before[i], after[i])
    {
      assert f.grants[i] == f'.grants[i];
      SameRecord(gs, gs', before[i], after[i]);
    }
  }

  /** While the peek still answers the revision of an earlier projection, the
      snapshot revision and the device's grants are exactly what they were then:
      no intervening change comes back unseen. */
  lemma NoABA(s: State, t: real, device: string, snapshot: int, events: seq<Event>, now: real, snapshot': int)
    requires Inv(s) && GrantInv(s)
    requires Runs(t, ClientConfiguration(s, t, device, snapshot).state, events)
    requires var made := ClientConfiguration(s, t, device, snapshot);
      ProjectedRevision(Final(made.state, events), now, device, snapshot') == Some(made.result.value.0)
    ensures snapshot' == snapshot
    ensures var made := ClientConfiguration(s, t, device, snapshot);
      SameGrants(made.result.value.1, CurrentGrants(Final(made.state, events).grants, now, device))
  {
    var s1 := ClientConfiguration(s, t, device, snapshot).state;
    var s2 := Final(s1, events);
    var e := Event(t, OpProject(device, snapshot));
    StepGrants(s, e);
    RunFollows(s1, events, device);
    RunGrants(t, s1, events);
    FingerprintNamesGrants(s.grants, s2.grants, device, t, now, snapshot, snapshot');
  }

  // ----------------------------------------------- across the two stores

  /** A client claim was made under the revision projected for its device. Later,
      after any events of the credential store and any operations of the claim
      table, a resolution grants it typed choices only while its row's revision
      is the device's current projection, and then the configuration revision
      and the device's grants are those it was made under. */
  lemma ChoiceNeedsTheSameAuthority(cfg: Cl.Settings, table: Cl.Store, made: real, q: Cl.ClientRequest,
          generation: Option<nat>, handle: string, ref: string, ops: seq<Cl.Op>, s: State, t: real, snapshot: int,
          events: seq<Event>, now: real, a: Cl.Authority, io: Cl.Access, nested: Cl.Access)
    requires Inv(s) && GrantInv(s) && KI.Inv(cfg, table)
    requires q.revision == ClientConfiguration(s, t, q.device, snapshot).result.value.0
    requires Cl.CreateClient(cfg, table, made, q, generation, handle, ref, Cl.NoFault).1.Made?
    requires KI.CallerReasons(ops) && Runs(t, ClientConfiguration(s, t, q.device, snapshot).state, events)
    requires var creds := Final(ClientConfiguration(s, t, q.device, snapshot).state, events);
      a.configuration.Snapshot? ==> a.projected == ProjectedRevision(creds, now, q.device, a.configuration.revision)
    requires var table' := Cl.Final(cfg, Cl.CreateClient(cfg, table, made, q, generation, handle, ref, Cl.NoFault).0,
                                    ops);
      var r := Cl.Resolve(table', handle, q.device, now, a, io, nested).1;
      r.Granted? && r.grant.interactiveChoice
    ensures var creds := Final(ClientConfiguration(s, t, q.device, snapshot).state, events);
      var table' := Cl.Final(cfg, Cl.CreateClient(cfg, table, made, q, generation, handle, ref, Cl.NoFault).0, ops);
      && a.configuration.Snapshot? && a.configuration.revision == snapshot
      && handle in table'.rows && ProjectedRevision(creds, now, q.device, snapshot) ==
      Some(table'.rows[handle].revision)
      && SameGrants(CurrentGrants(s.grants, t, q.device), CurrentGrants(creds.grants, now, q.device))
  {
    var table1 := Cl.CreateClient(cfg, table, made, q, generation, handle, ref, Cl.NoFault).0;
    var table2 := Cl.Final(cfg, table1, ops);
    KI.CreateClientKeeps(cfg, table, made, q, generation, handle, ref, Cl.NoFault);
    KI.ClientMade(cfg, table, made, q, generation, handle, ref, Cl.NoFault);
    KI.RunKeeps(cfg, table1, ops);
    assert KI.Keeps(table1.rows[handle], table2.rows[handle]);
    GrantedChoice(table2, handle, q.device, now, a, io, nested);
    NoABA(s, t, q.device, snapshot, events, now, a.configuration.revision);
  }

  lemma GrantedChoice(table: Cl.Store, handle: string, device: string, now: real, a: Cl.Authority, io: Cl.Access,
          nested: Cl.Access)
    requires handle in table.rows && table.rows[handle].kind == Cl.ClientClaim
    requires var r := Cl.Resolve(table, handle, device, now, a, io, nested).1; r.Granted? && r.grant.interactiveChoice
    ensures a.configuration.Snapshot? && a.projected == Some(table.rows[handle].revision)
            && table.rows[handle].device == device
  {
  }
}
