/**
 * The master (fan-out) supervisor: at most one FFmpeg process that reads the
 * canvas and copies it to the local preview sink and to every target. The
 * process handle, the `_broadcastActive` flag and the targets kept for
 * restarts are the fields of MasterController; spawns, SIGTERMs and the
 * 'started'/'stopped' events go to an effect log, process exits arrive as
 * OnClose calls and each scheduled 2 s restart is a pending action fired by
 * FireRestart.
 */
module Master {
  import opened Text
  import opened Db
  import opened Source

  /** The local preview stream every master writes first. */
  const PreviewSink := "rtmp://localhost:1935/live/preview"

  /** The input side and the preview output, in the order startMaster pushes them. */
  const InputArgs: seq<string> := [
    "-reconnect", "1",
    "-reconnect_at_eof", "1",
    "-reconnect_streamed", "1",
    "-reconnect_delay_max", "2",
    "-fflags", "nobuffer",
    "-flags", "low_delay",
    "-f", "flv",
    "-i", "http://localhost:8000/live/canvas.flv",
    "-map", "0:v:0",
    "-map", "0:a:0?",
    "-c:v", "copy",
    "-c:a", "copy",
    "-flvflags", "no_duration_filesize",
    "-f", "flv", PreviewSink]

  const LegLength := 21

  /** The target's publish URL: url and stream key joined by exactly one '/' added only when url lacks it. */
  function PublishUrl(t: Target): (r: string)
    ensures StartsWith(r, t.url) && EndsWith(r, t.streamKey)
    ensures EndsWith(t.url, "/") ==> |r| == |t.url| + |t.streamKey|
    ensures !EndsWith(t.url, "/") ==> |r| == |t.url| + 1 + |t.streamKey| && r[|t.url|] == '/'
  {
    var slash := if EndsWith(t.url, "/") then "" else "/";
    assert (t.url + slash + t.streamKey)[..|t.url|] == t.url;
    t.url + slash + t.streamKey
  }

  /** A trailing '/' on the target URL makes no difference to where the stream goes. */
  lemma PublishUrlSlashInsensitive(t: Target)
    requires !EndsWith(t.url, "/")
    ensures PublishUrl(t.(url := t.url + "/")) == PublishUrl(t)
  {
    var u := t.url + "/";
    assert u[|u| - 1..] == "/";
  }

  /** The output options pushed for one target, ending with its publish URL. */
  function TargetLeg(t: Target): (r: seq<string>)
    ensures |r| == LegLength && r[LegLength - 1] == PublishUrl(t)
  {
    ["-reconnect", "1",
     "-reconnect_at_eof", "1",
     "-reconnect_streamed", "1",
     "-reconnect_delay_max", "2000",
     "-flags", "+global_header",
     "-map", "0:v:0",
     "-map", "0:a:0?",
     "-c:v", "copy",
     "-c:a", "copy",
     "-f", "flv",
     PublishUrl(t)]
  }

  /** One leg per target, in the order of the targets. */
  function Legs(targets: seq<Target>): (r: seq<string>)
    ensures |r| == LegLength * |targets|
  {
    if targets == [] then []
    else Legs(targets[..|targets| - 1]) + TargetLeg(targets[|targets| - 1])
  }

  /** The whole FFmpeg command line of startMaster. */
  function MasterArgs(targets: seq<Target>): (r: seq<string>)
    ensures |r| == |InputArgs| + LegLength * |targets| && r[..|InputArgs|] == InputArgs
    ensures targets != [] ==> r[|r| - 1] == PublishUrl(targets[|targets| - 1])
  {
    InputArgs + Legs(targets)
  }

  /** Leg k of the output list is exactly the leg of target k. */
  lemma {:induction false} LegAt(targets: seq<Target>, k: nat)
    requires k < |targets|
    ensures Legs(targets)[LegLength * k .. LegLength * (k + 1)] == TargetLeg(targets[k])
  {
    var init := targets[..|targets| - 1];
    if k < |targets| - 1 {
      LegAt(init, k);
      assert init[k] == targets[k];
      assert Legs(targets)[..LegLength * |init|] == Legs(init);
    }
  }

  /**
   * The command line reads the canvas, writes the preview sink first, then
   * exactly one output per given target in the given order, each to its
   * publish URL; the targets are not filtered here.
   */
  lemma MasterArgsOutputs(targets: seq<Target>)
    ensures var args := MasterArgs(targets);
            |args| == |InputArgs| + LegLength * |targets| &&
            args[..|InputArgs|] == InputArgs &&
            args[|InputArgs| - 1] == PreviewSink &&
            forall k :: 0 <= k < |targets| ==>
              args[|InputArgs| + LegLength * k .. |InputArgs| + LegLength * (k + 1)] == TargetLeg(targets[k]) &&
              args[|InputArgs| + LegLength * k + LegLength - 1] == PublishUrl(targets[k])
  {
    var args := MasterArgs(targets);
    forall k | 0 <= k < |targets|
      ensures args[|InputArgs| + LegLength * k .. |InputArgs| + LegLength * (k + 1)] == TargetLeg(targets[k])
      ensures args[|InputArgs| + LegLength * k + LegLength - 1] == PublishUrl(targets[k])
    {
      LegAt(targets, k);
      assert args[|InputArgs| + LegLength * k .. |InputArgs| + LegLength * (k + 1)]
          == Legs(targets)[LegLength * k .. LegLength * (k + 1)];
      assert args[|InputArgs| + LegLength * k + LegLength - 1] == TargetLeg(targets[k])[LegLength - 1];
    }
  }

  /** The arguments array grown with push: the input part, then one leg per target. */
  method BuildArgs(targets: seq<Target>) returns (args: seq<string>)
    ensures args == MasterArgs(targets)
  {
    args := InputArgs;
    for i := 0 to |targets|
      invariant args == InputArgs + Legs(targets[..i])
    {
      assert targets[..i + 1][..i] == targets[..i];
      args := args + TargetLeg(targets[i]);
    }
    assert targets[..|targets|] == targets;
  }

  datatype MasterEffect =
    | MasterSpawned(pid: Pid, args: seq<string>)
    | Terminated(pid: Pid)
    | EmitStarted
    | EmitStopped

  class MasterController {
    /** `masterProcess`. */
    var handle: Option<Pid>
    /** `_broadcastActive`. */
    var active: bool
    /** `_targets`, kept for restarts. */
    var targets: seq<Target>
    /** The pid the next spawn gets. */
    var nextPid: Pid
    /** Processes spawned whose close has not yet been delivered. */
    var live: set<Pid>
    /** Restarts scheduled by the close handler and not yet fired. */
    var pendingRestarts: nat
    /** Spawns, SIGTERMs and emitted events, in order. */
    var effects: seq<MasterEffect>

    /** The handle names a live process and every live process has a pid already handed out. */
    ghost predicate Wf()
      reads this
    {
      && (handle.Some? ==> handle.value in live)
      && (forall p :: p in live ==> p < nextPid)
      && (forall e :: e in effects && e.Terminated? ==> e.pid < nextPid)
    }

    /**
     * No orphans: every live master except the one held by the handle has
     * been sent SIGTERM, the handle's process has not, and a restart is only
     * ever pending while the broadcast is on.
     */
    ghost predicate Valid()
      reads this
    {
      && Wf()
      && (handle.Some? ==> active && Terminated(handle.value) !in effects)
      && (forall p :: p in live ==> handle == Some(p) || Terminated(p) in effects)
      && (pendingRestarts > 0 ==> active)
    }

    /** The live masters nobody has signalled: the ones that keep publishing. */
    ghost function Unsignalled(): set<Pid>
      reads this
    {
      set p | p in live && Terminated(p) !in effects
    }

    /** Under Valid there is never more than one unsignalled master, and it is the handle's. */
    lemma AtMostOneMaster()
      requires Valid()
      ensures Unsignalled() <= (if handle.Some? then {handle.value} else {})
      ensures |Unsignalled()| <= 1
    {
      var u := Unsignalled();
      var h: set<Pid> := if handle.Some? then {handle.value} else {};
      assert u <= h;
      assert |h| <= 1;
      SubsetCard(u, h);
    }

    constructor ()
      ensures Valid() && handle.None? && !active && live == {} && pendingRestarts == 0 && effects == [] && nextPid == 0
    {
      handle := None;
      active := false;
      targets := [];
      nextPid := 0;
      live := {};
      pendingRestarts := 0;
      effects := [];
    }

    /**
     * startMaster: a no-op while a handle exists; otherwise records the
     * targets, spawns one process with MasterArgs, sets the flag and emits
     * 'started' once.
     */
    method Start(ts: seq<Target>)
      requires Wf()
      modifies this
      ensures Wf()
      ensures old(handle).Some? ==> handle == old(handle) && targets == old(targets) && active == old(active) &&
                                    live == old(live) && nextPid == old(nextPid) && effects == old(effects)
      ensures old(handle).None? ==>
                handle == Some(old(nextPid)) && targets == ts && active &&
                live == old(live) + {old(nextPid)} && nextPid == old(nextPid) + 1 &&
                effects == old(effects) + [MasterSpawned(old(nextPid), MasterArgs(ts)), EmitStarted]
      ensures pendingRestarts == old(pendingRestarts)
      ensures old(Valid()) ==> Valid()
    {
      if handle.Some? {
        return;
      }
      targets := ts;
      var args := BuildArgs(ts);
      var pid := nextPid;
      effects := effects + [MasterSpawned(pid, args), EmitStarted];
      handle := Some(pid);
      live := live + {pid};
      nextPid := nextPid + 1;
      active := true;
    }

    /**
     * The close handler exactly as the source registers it: whichever
     * process closed, the handle is cleared, and a restart is scheduled when
     * the flag is set, 'stopped' emitted when it is not.
     */
    method OnCloseAsWritten(pid: Pid)
      requires Wf() && pid in live
      modifies this
      ensures Wf()
      ensures live == old(live) - {pid} && handle.None?
      ensures old(active) ==> pendingRestarts == old(pendingRestarts) + 1 && effects == old(effects)
      ensures !old(active) ==> pendingRestarts == old(pendingRestarts) && effects == old(effects) + [EmitStopped]
      ensures active == old(active) && targets == old(targets) && nextPid == old(nextPid)
      ensures old(handle) == Some(pid) && old(Valid()) ==> Valid()
    {
      live := live - {pid};
      handle := None;
      if active {
        pendingRestarts := pendingRestarts + 1;
      } else {
        effects := effects + [EmitStopped];
      }
    }

    /**
     * The close handler with the identity check it needs: only the close of
     * the process the handle holds clears it and may schedule a restart; the
     * late close of a process killed earlier only reports 'stopped' when the
     * flag is off.
     */
    method OnClose(pid: Pid)
      requires Valid() && pid in live
      modifies this
      ensures Valid()
      ensures live == old(live) - {pid}
      ensures old(handle) == Some(pid) ==>
                handle.None? &&
                (old(active) ==> pendingRestarts == old(pendingRestarts) + 1 && effects == old(effects)) &&
                (!old(active) ==> pendingRestarts == old(pendingRestarts) && effects == old(effects) + [EmitStopped])
      ensures old(handle) != Some(pid) ==>
                handle == old(handle) && pendingRestarts == old(pendingRestarts) &&
                effects == old(effects) + (if old(active) then [] else [EmitStopped])
      ensures active == old(active) && targets == old(targets) && nextPid == old(nextPid)
    {
      live := live - {pid};
      if handle == Some(pid) {
        handle := None;
        if active {
          pendingRestarts := pendingRestarts + 1;
        } else {
          effects := effects + [EmitStopped];
        }
      } else if !active {
        effects := effects + [EmitStopped];
      }
    }

    /** A scheduled restart fires: startMaster with the recorded targets. */
    method FireRestart()
      requires Wf() && pendingRestarts > 0
      modifies this
      ensures Wf()
      ensures pendingRestarts == old(pendingRestarts) - 1
      ensures old(handle).Some? ==> handle == old(handle) && live == old(live) && effects == old(effects)
      ensures old(handle).None? ==>
                handle == Some(old(nextPid)) && active && live == old(live) + {old(nextPid)} &&
                effects == old(effects) + [MasterSpawned(old(nextPid), MasterArgs(old(targets))), EmitStarted]
      ensures targets == old(targets)
      ensures old(Valid()) ==> Valid()
    {
      pendingRestarts := pendingRestarts - 1;
      Start(targets);
    }

    /**
     * killMaster as written: with a process, clears the flag, sends SIGTERM
     * and forgets the handle; without one, emits 'stopped' and touches
     * nothing else, so a restart already scheduled stays scheduled.
     */
    method KillAsWritten()
      requires Wf()
      modifies this
      ensures Wf()
      ensures handle.None? && live == old(live) && pendingRestarts == old(pendingRestarts)
      ensures old(handle).Some? ==> !active && effects == old(effects) + [Terminated(old(handle).value)]
      ensures old(handle).None? ==> active == old(active) && effects == old(effects) + [EmitStopped]
      ensures targets == old(targets) && nextPid == old(nextPid)
    {
      if handle.Some? {
        active := false;
        effects := effects + [Terminated(handle.value)];
        handle := None;
      } else {
        effects := effects + [EmitStopped];
      }
    }

    /** killMaster that also cancels every pending restart, so nothing respawns after it. */
    method Kill()
      requires Valid()
      modifies this
      ensures Valid()
      ensures handle.None? && pendingRestarts == 0 && live == old(live)
      ensures old(handle).Some? ==> !active && effects == old(effects) + [Terminated(old(handle).value)]
      ensures old(handle).None? ==> active == old(active) && effects == old(effects) + [EmitStopped]
      ensures targets == old(targets) && nextPid == old(nextPid)
    {
      KillAsWritten();
      pendingRestarts := 0;
    }
  }

  lemma SubsetCard(u: set<Pid>, h: set<Pid>)
    requires u <= h
    ensures |u| <= |h|
  {
    if u != {} {
      var x :| x in u;
      SubsetCard(u - {x}, h - {x});
    }
  }

  /**
   * The late close of a killed master, delivered after a new master has
   * started, as the source handles it: the new master loses its handle while
   * still publishing, a restart is scheduled, and firing it starts a second
   * unsignalled master.
   */
  method StaleCloseScenario() returns (m: MasterController)
    ensures m.Wf()
    ensures m.live == {1, 2} && m.handle == Some(2)
    ensures m.Unsignalled() == {1, 2}
    ensures |m.Unsignalled()| == 2 && !m.Valid()
  {
    m := new MasterController();
    m.Start([]);        // master 0
    m.KillAsWritten();  // SIGTERM to 0, flag off
    m.Start([]);        // master 1, flag on again
    m.OnCloseAsWritten(0);
    assert m.handle.None? && m.pendingRestarts == 1;
    m.FireRestart();    // master 2 while 1 still runs
    assert m.effects == [MasterSpawned(0, MasterArgs([])), EmitStarted, Terminated(0),
                         MasterSpawned(1, MasterArgs([])), EmitStarted,
                         MasterSpawned(2, MasterArgs([])), EmitStarted];
    assert Terminated(1) !in m.effects && Terminated(2) !in m.effects;
    assert m.Unsignalled() == {1, 2};
  }

  /** With the identity check, the same sequence of events leaves exactly one master publishing. */
  method StaleCloseFixed() returns (m: MasterController)
    ensures m.Valid()
    ensures m.live == {1} && m.handle == Some(1) && m.pendingRestarts == 0
    ensures m.Unsignalled() == {1}
  {
    m := new MasterController();
    m.Start([]);
    m.Kill();
    m.Start([]);
    m.OnClose(0);
    assert m.effects == [MasterSpawned(0, MasterArgs([])), EmitStarted, Terminated(0),
                         MasterSpawned(1, MasterArgs([])), EmitStarted];
    assert m.Unsignalled() == {1};
  }

  /**
   * killMaster after a crash, as written: the crash scheduled a restart, the
   * kill finds no process and cancels nothing, and the restart then spawns a
   * master although the broadcast was stopped.
   */
  method KillDuringRestartScenario() returns (m: MasterController)
    ensures m.Wf()
    ensures m.handle == Some(1) && m.active
    ensures m.effects == [MasterSpawned(0, MasterArgs([])), EmitStarted, EmitStopped,
                          MasterSpawned(1, MasterArgs([])), EmitStarted]
  {
    m := new MasterController();
    m.Start([]);
    m.OnCloseAsWritten(0);  // crash while the flag is on: restart scheduled
    m.KillAsWritten();      // stop request: nothing to kill, 'stopped' emitted
    m.FireRestart();        // the restart still fires
  }

  /** With the cancelling kill, once Kill has run no restart can fire until the next close of a started master. */
  method KillDuringRestartFixed() returns (m: MasterController)
    ensures m.Valid()
    ensures m.handle.None? && m.pendingRestarts == 0 && m.live == {}
    ensures m.effects == [MasterSpawned(0, MasterArgs([])), EmitStarted, EmitStopped]
  {
    m := new MasterController();
    m.Start([]);
    m.OnClose(0);
    m.Kill();
  }
}
