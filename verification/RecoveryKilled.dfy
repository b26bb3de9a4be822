/** A worker lost inside its own recovery, and the next worker's recovery on the same expectation
    (packages/core/src/next/spill/chaos-workload.ts). */
module RecoveryKilled {
  import opened Wrappers
  import opened ChaosTypes
  import opened ChaosStore
  import opened KillCampaign

  function NamesOf(told: Option<Expectation>, img: Image): Header { HeaderOf(Known(told), InFlight(told), img.header) }

  /** The state the operation runs in. */
  function At(told: Option<Expectation>, img: Image): ChaosState
    requires NamesOf(told, img).Names?
  {
    ChaosState(img.root, NamesOf(told, img).generation, 0)
  }

  /** The log operation an accepted recovery makes: a cut to the verified bytes, or a fresh generation. */
  function Repair(told: Option<Expectation>, img: Image): Intent
    requires NamesOf(told, img).Names?
  {
    var verified := NamesOf(told, img).verified;
    if verified > 0 then Intent(StepKind.Truncate, 0, None, Some(verified)) else Intent(Reset, 0, None, None)
  }

  /** The log after the first `n` steps of that operation, on what the image held. */
  function RepairLog(told: Option<Expectation>, img: Image, n: nat): Log
    requires NamesOf(told, img).Names?
  {
    if n == 0 then Log(img.header, None, img.log, |img.log|)
    else
      LogWork(RepairLog(told, img, n - 1), At(told, img), Repair(told, img), n - 1, 0)
  }

  function Steps(told: Option<Expectation>, img: Image): nat
    requires NamesOf(told, img).Names?
  {
    Phases(Repair(told, img).step)
  }

  /** Undisturbed, the steps leave the store that recovery reports. */
  lemma RepairEnds(told: Option<Expectation>, img: Image)
    requires Recover(told, img).Accepted?
    ensures Store(img.root, RepairLog(told, img, Steps(told, img))) == Recover(told, img).store
  {
    RepairStates(told, img);
  }

  /** Every state on the way. */
  lemma RepairStates(told: Option<Expectation>, img: Image)
    requires Recover(told, img).Accepted?
    ensures var Names(g, verified) := NamesOf(told, img);
            if verified > 0 then
              Steps(told, img) == 2 && verified <= |img.log|
              && RepairLog(told, img, 0) == Log(img.header, None, img.log, |img.log|)
              && RepairLog(told, img, 1) == Log(img.header, None, img.log, verified)
              && RepairLog(told, img, 2) == Log(img.header, None, img.log[..verified], verified)
            else
              Steps(told, img) == 4
              && RepairLog(told, img, 0) == Log(img.header, None, img.log, |img.log|)
              && RepairLog(told, img, 1) == Log(img.header, None, img.log, 0)
              && RepairLog(told, img, 2) == Log(img.header, None, [], 0)
              && RepairLog(told, img, 3) == Log(img.header, Some(g + 1), [], 0)
              && RepairLog(told, img, 4) == Log(Some(g + 1), None, [], 0)
  {
    var cur, repair := At(told, img), Repair(told, img);
    assert RepairLog(told, img, 1) == LogWork(RepairLog(told, img, 0), cur, repair, 0, 0);
    assert RepairLog(told, img, 2) == LogWork(RepairLog(told, img, 1), cur, repair, 1, 0);
    if NamesOf(told, img).verified == 0 {
      assert RepairLog(told, img, 3) == LogWork(RepairLog(told, img, 2), cur, repair, 2, 0);
    }
  }

  /** A header on which the same expectation can be met again. */
  predicate Meets(told: Option<Expectation>, img: Image, header: Option<nat>)
    requires NamesOf(told, img).Names?
  {
    var known := Known(told);
    NamesOf(told, img).verified > 0
    || header == img.header
    || (header == None && (Resetting(InFlight(told)) || (known.generation == 0 && known.flushed == 0)))
    || (header == Some(known.generation + 1) && Resetting(InFlight(told)))
  }

  /** Lost after any step of its recovery, and whatever the crash leaves, a worker's successor accepts the store on
      the same expectation exactly when it finds such a header. */
  lemma SecondRecovery(told: Option<Expectation>, img: Image, n: nat, again: Image)
    requires Recover(told, img).Accepted? && n <= Steps(told, img)
    requires MayLeave(Store(img.root, RepairLog(told, img, n)), again)
    ensures Recover(told, again).Accepted? <==> Meets(told, img, again.header)
  {
    RepairStates(told, img);
    var Names(g, verified) := NamesOf(told, img);
    if verified > 0 {
      assert again.log[..verified] == img.log[..verified];
    } else {
      assert again.header == img.header || again.header == None || again.header == Some(g + 1);
      assert again.log[..0] == LogBytes(g, 0, 0) == LogBytes(g + 1, 0, 0);
    }
  }

  /** Whatever happens to a worker during its recovery, the next one can recover. */
  ghost predicate Repeatable(told: Option<Expectation>, img: Image)
    requires NamesOf(told, img).Names?
  {
    forall n: nat, again: Image ::
      n <= Steps(told, img) && MayLeave(Store(img.root, RepairLog(told, img, n)), again)
      ==> Recover(told, again).Accepted?
  }

  /** Recovery can be lost once and repeated exactly when acknowledged bytes remain to be kept, or a reset was under
      way and the header does not show it yet: a fresh generation nobody was told of is refused. */
  lemma RepeatableExactly(told: Option<Expectation>, img: Image)
    requires Recover(told, img).Accepted?
    ensures Repeatable(told, img) <==>
            NamesOf(told, img).verified > 0
            || (Resetting(InFlight(told)) && img.header == Some(Known(told).generation))
  {
    RepairStates(told, img);
    var Names(g, verified) := NamesOf(told, img);
    if verified > 0 || (Resetting(InFlight(told)) && img.header == Some(Known(told).generation)) {
      forall n: nat, again: Image | n <= Steps(told, img) && MayLeave(Store(img.root, RepairLog(told, img, n)), again)
        ensures Recover(told, again).Accepted?
      {
        SecondRecovery(told, img, n, again);
        if verified == 0 { HeaderLeft(told, img, n, again); }
      }
    } else {
      var again := Image(img.root, Some(g + 1), []);
      assert MayLeave(Store(img.root, RepairLog(told, img, 4)), again);
      SecondRecovery(told, img, 4, again);
    }
  }

  lemma HeaderLeft(told: Option<Expectation>, img: Image, n: nat, again: Image)
    requires Recover(told, img).Accepted? && NamesOf(told, img).verified == 0 && n <= Steps(told, img)
    requires MayLeave(Store(img.root, RepairLog(told, img, n)), again)
    ensures again.header == img.header || again.header == None
        || again.header == Some(NamesOf(told, img).generation + 1)
  {
    RepairStates(told, img);
  }

  /** The smallest case: a store whose first generation is acknowledged and empty. Its recovery succeeds, and once
      more, with nothing acknowledged in between, it is refused. */
  lemma LostAfterRecovery(told: Option<Expectation>, img: Image)
    requires told == Some(Expectation(ChaosState(EMPTY_ROOT, 1, 0), [])) && img == Image(EMPTY_ROOT, Some(1), [])
    ensures Recover(told, img).Accepted?
    ensures MayLeave(Recover(told, img).store, Image(EMPTY_ROOT, Some(2), []))
    ensures Recover(told, Image(EMPTY_ROOT, Some(2), [])) == Corrupt("log header")
  {
    assert img.log[..0] == LogBytes(1, 0, 0);
  }

  // ── Any number of losses ─────────────────────────────────────────────────────────────────────

  /** What a crash may leave of a recovery of `img` that is lost after some step of it. */
  ghost predicate LostTo(told: Option<Expectation>, img: Image, n: nat, again: Image)
    requires NamesOf(told, img).Names?
  {
    n <= Steps(told, img) && MayLeave(Store(img.root, RepairLog(told, img, n)), again)
  }

  /** Recovery on this expectation is accepted, and still is after any `losses` recoveries lost one after another. */
  ghost predicate Survives(told: Option<Expectation>, img: Image, losses: nat)
    decreases losses
  {
    Recover(told, img).Accepted?
    && (losses > 0 ==>
          forall n: nat, again: Image :: LostTo(told, img, n, again) ==> Survives(told, again, losses - 1))
  }

  /** Any number of recoveries can be lost exactly when acknowledged bytes remain to be kept; a reset under way helps
      only once. */
  lemma SurvivesExactly(told: Option<Expectation>, img: Image)
    requires Recover(told, img).Accepted?
    ensures (forall losses: nat :: Survives(told, img, losses)) <==> NamesOf(told, img).verified > 0
  {
    if NamesOf(told, img).verified > 0 {
      forall losses: nat ensures Survives(told, img, losses) { KeptSurvives(told, img, losses); }
    } else {
      FreshFails(told, img);
    }
  }

  lemma {:induction false} KeptSurvives(told: Option<Expectation>, img: Image, losses: nat)
    requires Recover(told, img).Accepted? && NamesOf(told, img).verified > 0
    ensures Survives(told, img, losses)
    decreases losses
  {
    if losses > 0 {
      forall n: nat, again: Image | LostTo(told, img, n, again) ensures Survives(told, again, losses - 1) {
        SecondRecovery(told, img, n, again);
        HeaderKept(told, img, n, again);
        KeptSurvives(told, again, losses - 1);
      }
    }
  }

  /** Cutting the log to the verified bytes leaves its header alone. */
  lemma HeaderKept(told: Option<Expectation>, img: Image, n: nat, again: Image)
    requires Recover(told, img).Accepted? && NamesOf(told, img).verified > 0 && LostTo(told, img, n, again)
    ensures again.header == img.header
  {
    RepairStates(told, img);
  }

  /** The second fresh generation at the latest is refused. */
  lemma FreshFails(told: Option<Expectation>, img: Image)
    requires Recover(told, img).Accepted? && NamesOf(told, img).verified == 0
    ensures !Survives(told, img, 2)
  {
    var first := FreshImage(told, img);
    if Recover(told, first).Accepted? && NamesOf(told, first).verified == 0 {
      var second := FreshImage(told, first);
      SecondRecovery(told, first, 4, second);
      assert !Survives(told, second, 0);
      assert !Survives(told, first, 1);
    }
    SecondRecovery(told, img, 4, first);
  }

  /** What a recovery leaves that is lost after its last step. */
  lemma FreshImage(told: Option<Expectation>, img: Image) returns (again: Image)
    requires Recover(told, img).Accepted? && NamesOf(told, img).verified == 0
    ensures again == Image(img.root, Some(NamesOf(told, img).generation + 1), [])
    ensures Steps(told, img) == 4 && LostTo(told, img, 4, again)
  {
    RepairStates(told, img);
    again := Image(img.root, Some(NamesOf(told, img).generation + 1), []);
  }
}
