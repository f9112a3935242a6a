/**
  Retirement under failing storage: once an owner reported its upstream lost,
  or a paired-room handle was denied, nothing in the process grants it again.
 */
module ClaimRetirement {
  import opened Wrappers
  import opened Claims

  /** The handle is denied, closed, or marked for retirement by or for its owner. */
  ghost predicate Barred(s: Store, handle: string) {
    || handle in s.denied
    || (handle in s.rows &&
        (s.rows[handle].status == Closed || (handle, Some(s.rows[handle].device)) in s.failed
            || (handle, None) in s.failed))
  }

  lemma BarredMeansNoGrant(s: Store, handle: string, device: string, now: real, a: Authority, io: Access,
          nested: Access)
    requires Barred(s, handle)
    ensures !Resolve(s, handle, device, now, a, io, nested).1.Granted?
  {
  }

  /** Reporting the upstream lost bars the handle, whichever accesses fail. */
  lemma UpstreamLossBars(s: Store, handle: string, device: Option<string>, io: Access)
    requires handle in s.rows && (device.Some? ==> s.rows[handle].device == device.value)
    ensures Barred(CloseClaim(s, handle, device, UpstreamLost, io).0, handle)
  {
  }

  /** A live paired-room claim whose authority is gone, or was granted under another
      revision, is denied on sight, even when retiring its row then fails. */
  lemma UnauthorizedPairedIsDenied(s: Store, handle: string, device: string, now: real, a: Authority,
          nested: Access, writeFails: bool)
    requires OwnedActive(s, handle, device) && s.rows[handle].kind == PairedRoomClaim && !Due(s.rows[handle], now)
    requires (handle, Some(device)) !in s.failed && (handle, None) !in s.failed
    requires !a.pairedAllowed || (a.configuration.Snapshot? && a.configuration.revision != s.rows[handle].revision)
    ensures handle in Resolve(s, handle, device, now, a, Access(false, writeFails), nested).0.denied
  {
  }

  /** Rows are kept, stay closed, and stay with their device. */
  ghost predicate Steady(s: Store, s': Store, handle: string) {
    && s.denied <= s'.denied
    && (handle in s.rows ==>
          && handle in s'.rows && s'.rows[handle].device == s.rows[handle].device
          && (s.rows[handle].status == Closed ==> s'.rows[handle].status == Closed))
  }

  lemma ClosingSteady(s: Store, handle: string, target: string, device: Option<string>, reason: Reason, io: Access)
    requires Barred(s, handle)
    ensures Barred(CloseClaim(s, target, device, reason, io).0, handle)
    ensures Steady(s, CloseClaim(s, target, device, reason, io).0, handle)
  {
    var s' := CloseClaim(s, target, device, reason, io).0;
    if target != handle {
      assert (handle in s'.rows <==> handle in s.rows) && (handle in s.rows ==> s'.rows[handle] == s.rows[handle]);
      assert forall d :: (handle, d) in s.failed ==> (handle, d) in s'.failed;
    } else if handle in s.rows && (device == None || device == Some(s.rows[handle].device)) {
      assert s'.failed >= s.failed || s'.rows[handle].status == Closed;
    } else {
      assert s'.rows == s.rows;
    }
  }

  lemma ConfiguredSteady(s: Store, handle: string, target: string, row: Row, a: Authority, io: Access)
    requires Barred(s, handle)
    ensures Barred(Configured(s, target, row, a, io).0, handle)
  {
  }

  lemma ResolveGrantSteady(s: Store, handle: string, target: string, device: string, now: real, a: Authority,
          io: Access, nested: Access)
    requires Barred(s, handle)
    ensures Barred(ResolveGrant(s, target, device, now, a, io, nested).0, handle)
  {
    if target in s.denied {
    } else if (target, Some(device)) in s.failed || (target, None) in s.failed {
      ClosingSteady(s, handle, target, Some(device), UpstreamLost, nested);
    } else if !io.readFails && OwnedActive(s, target, device) {
      ConfiguredSteady(s, handle, target, s.rows[target], a, io);
    }
  }

  lemma MatchingSteady(s: Store, handle: string, sel: Selector, reason: Reason)
    requires Barred(s, handle)
    ensures Barred(CloseMatching(s, sel, reason), handle)
  {
  }

  lemma ResolveSteady(s: Store, handle: string, target: string, device: string, now: real, a: Authority, io: Access,
          nested: Access)
    requires Barred(s, handle)
    ensures Barred(Resolve(s, target, device, now, a, io, nested).0, handle)
  {
    ResolveGrantSteady(s, handle, target, device, now, a, io, nested);
    MatchingSteady(ResolveGrant(s, target, device, now, a, io, nested).0, handle, PairedHandle(target, device),
                   PairedRoomRevoked);
  }

  lemma SweepSteady(s: Store, handle: string, now: real)
    requires Barred(s, handle)
    ensures Barred(Sweep(s, now), handle)
  {
  }

  lemma CreationSteady(cfg: Settings, s: Store, handle: string, op: Op)
    requires Barred(s, handle)
    requires op.OpCreateRoom? || op.OpCreateClient?
    ensures Barred(Next(cfg, s, op), handle)
  {
    SweepSteady(s, handle, op.now);
  }

  lemma StepStaysBarred(cfg: Settings, s: Store, op: Op, handle: string)
    requires Barred(s, handle) && !op.OpRestart?
    ensures Barred(Next(cfg, s, op), handle)
  {
    match op
    case OpCreateRoom(_, _, _, _, _) => CreationSteady(cfg, s, handle, op);
    case OpCreateClient(_, _, _, _, _, _) => CreationSteady(cfg, s, handle, op);
    case OpResolve(target, device, now, a, io, nested) => ResolveSteady(s, handle, target, device, now, a, io, nested);
    case OpClose(target, owner, reason, io) => ClosingSteady(s, handle, target, owner, reason, io);
    case OpCloseMatching(sel, reason) => MatchingSteady(s, handle, sel, reason);
    case OpSweep(now) => SweepSteady(s, handle, now);
    case _ =>
  }

  lemma {:induction false} RunStaysBarred(cfg: Settings, s: Store, ops: seq<Op>, handle: string)
    requires Barred(s, handle) && forall i :: 0 <= i < |ops| ==> !ops[i].OpRestart?
    ensures Barred(Final(cfg, s, ops), handle)
    decreases |ops|
  {
    if ops != [] {
      StepStaysBarred(cfg, s, ops[0], handle);
      RunStaysBarred(cfg, Next(cfg, s, ops[0]), ops[1..], handle);
    }
  }

  /** With reads and writes failing anywhere: after its owner reported the
      upstream lost, no later resolution in the process grants the handle. */
  lemma LostUpstreamIsFinal(cfg: Settings, s: Store, handle: string, owner: Option<string>, io: Access,
          ops: seq<Op>, device: string, now: real, a: Authority, io': Access, nested: Access)
    requires handle in s.rows && (owner.Some? ==> s.rows[handle].device == owner.value)
    requires forall i :: 0 <= i < |ops| ==> !ops[i].OpRestart?
    ensures var s' := Final(cfg, CloseClaim(s, handle, owner, UpstreamLost, io).0, ops);
      !Resolve(s', handle, device, now, a, io', nested).1.Granted?
  {
    var s1 := CloseClaim(s, handle, owner, UpstreamLost, io).0;
    UpstreamLossBars(s, handle, owner, io);
    RunStaysBarred(cfg, s1, ops, handle);
    BarredMeansNoGrant(Final(cfg, s1, ops), handle, device, now, a, io', nested);
  }

  /** The same for a denied paired-room handle. */
  lemma DenialIsFinal(cfg: Settings, s: Store, handle: string, ops: seq<Op>, device: string, now: real,
          a: Authority, io: Access, nested: Access)
    requires handle in s.denied && forall i :: 0 <= i < |ops| ==> !ops[i].OpRestart?
    ensures !Resolve(Final(cfg, s, ops), handle, device, now, a, io, nested).1.Granted?
  {
    RunStaysBarred(cfg, s, ops, handle);
    BarredMeansNoGrant(Final(cfg, s, ops), handle, device, now, a, io, nested);
  }
}
